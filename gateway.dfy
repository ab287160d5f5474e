/** The host gateway's objects as the policy sees them: the request with its
    accessors, the policy chain with its callbacks, and the failure report. */
module Gateway {

  /** A multi-valued map (HttpHeaders, MultiValueMap) as its entries in iteration order. */
  type MultiValueMap = seq<(string, seq<string>)>

  /** The request accessors the policy can call. */
  datatype Accessor = HeadersRead | PathInfoRead | ParametersRead

  /** What the request holds; the host never changes it while the policy runs. */
  datatype RequestData = RequestData(headers: MultiValueMap, pathInfo: string, parameters: MultiValueMap)

  /** HttpStatusCode.BAD_REQUEST_400 */
  const BAD_REQUEST_400: int := 400
  /** MediaType.TEXT_PLAIN */
  const TEXT_PLAIN: string := "text/plain"

  /** PolicyResult.failure(key, statusCode, message, contentType) */
  datatype PolicyResult = PolicyResult(key: string, statusCode: int, message: string, contentType: string)

  /** One call the policy makes on its PolicyChain. */
  datatype ChainCall = DoNext | FailWith(result: PolicyResult) | StreamFailWith(result: PolicyResult)

  /** A body buffer, as bytes. */
  datatype Buffer = Buffer(bytes: seq<bv8>)

  /** The request, with a log of the accessors called on it. */
  class Request {
    const data: RequestData
    var accessed: seq<Accessor>

    constructor (data: RequestData)
      ensures this.data == data && accessed == []
    {
      this.data := data;
      accessed := [];
    }

    method Headers() returns (headers: MultiValueMap)
      modifies this`accessed
      ensures headers == data.headers
      ensures accessed == old(accessed) + [HeadersRead]
    {
      headers := data.headers;
      accessed := accessed + [HeadersRead];
    }

    method PathInfo() returns (pathInfo: string)
      modifies this`accessed
      ensures pathInfo == data.pathInfo
      ensures accessed == old(accessed) + [PathInfoRead]
    {
      pathInfo := data.pathInfo;
      accessed := accessed + [PathInfoRead];
    }

    method Parameters() returns (parameters: MultiValueMap)
      modifies this`accessed
      ensures parameters == data.parameters
      ensures accessed == old(accessed) + [ParametersRead]
    {
      parameters := data.parameters;
      accessed := accessed + [ParametersRead];
    }
  }

  /** The policy chain, with a log of the calls made on it. */
  class PolicyChain {
    var calls: seq<ChainCall>

    constructor ()
      ensures calls == []
    {
      calls := [];
    }

    method DoNext()
      modifies this`calls
      ensures calls == old(calls) + [ChainCall.DoNext]
    {
      calls := calls + [ChainCall.DoNext];
    }

    method FailWith(result: PolicyResult)
      modifies this`calls
      ensures calls == old(calls) + [ChainCall.FailWith(result)]
    {
      calls := calls + [ChainCall.FailWith(result)];
    }

    method StreamFailWith(result: PolicyResult)
      modifies this`calls
      ensures calls == old(calls) + [ChainCall.StreamFailWith(result)]
    {
      calls := calls + [ChainCall.StreamFailWith(result)];
    }
  }
}
