/** pkg/utils/httpclient: the status gate in front of JSON decoding. */
module HttpClient {
  import opened Wrappers
  import opened Text
  import opened Errors
  import opened Http

  /** The text DecodeResponse puts in front of every failure. */
  function InvalidResponse(apiName: string): string
  {
    "invalid response from " + apiName
  }

  /**
   * DecodeResponse[T]: the body is decoded (by `decode`, standing for encoding/json) only
   * when the status code is the expected one; otherwise the error is the unexpected-status
   * sentinel followed by the status text. Every failure is prefixed with the API name.
   */
  function DecodeResponse<T>(
    apiName: string, resp: Response, expectedStatus: int, decode: Bytes -> Result<T, Error>
  ): (r: Result<T, Error>)
    ensures r.Success? <==> resp.statusCode == expectedStatus && decode(resp.body).Success?
    ensures r.Success? ==> r.value == decode(resp.body).value
    ensures r.Failure? ==> r.error.Prefixed? && r.error.prefix == InvalidResponse(apiName)
    ensures r.Failure? && resp.statusCode == expectedStatus ==> r.error.cause == decode(resp.body).error
    ensures r.Failure? && resp.statusCode != expectedStatus ==>
      r.error.cause == Detail(Sentinel(ErrUnexpectedStatusCode), " ", resp.status)
  {
    var respResult :=
      if resp.statusCode == expectedStatus then decode(resp.body)
      else Failure(Detail(Sentinel(ErrUnexpectedStatusCode), " ", resp.status));
    if respResult.Failure? then
      Failure(Prefixed(InvalidResponse(apiName), respResult.error))
    else
      Success(respResult.value)
  }

  /**
   * With an unexpected status the error is the unexpected-status sentinel, and its text
   * ends with the status text.
   */
  lemma UnexpectedStatus<T>(apiName: string, resp: Response, expectedStatus: int, decode: Bytes -> Result<T, Error>)
    requires resp.statusCode != expectedStatus
    ensures var r := DecodeResponse(apiName, resp, expectedStatus, decode);
      r.Failure? && Is(r.error, ErrUnexpectedStatusCode)
      && Message(r.error) == InvalidResponse(apiName) + ": " + SentinelText(ErrUnexpectedStatusCode) + " " + resp.status
  {
    var cause := Detail(Sentinel(ErrUnexpectedStatusCode), " ", resp.status);
    assert DecodeResponse(apiName, resp, expectedStatus, decode) == Failure(Prefixed(InvalidResponse(apiName), cause));
    var head, text := InvalidResponse(apiName) + ": ", SentinelText(ErrUnexpectedStatusCode);
    assert Message(cause) == text + " " + resp.status;
    assert head + (text + " " + resp.status) == head + text + " " + resp.status;
  }

  /** With an unexpected status the decoder is never consulted: any two give the same answer. */
  lemma NoDecodeOnUnexpectedStatus<T>(
    apiName: string, resp: Response, expectedStatus: int,
    decode1: Bytes -> Result<T, Error>, decode2: Bytes -> Result<T, Error>)
    requires resp.statusCode != expectedStatus
    ensures DecodeResponse(apiName, resp, expectedStatus, decode1)
         == DecodeResponse(apiName, resp, expectedStatus, decode2)
    ensures DecodeResponse(apiName, resp, expectedStatus, decode1).Failure?
  {
  }

  /** Every failure's text starts with "invalid response from <apiName>: " and keeps the cause's chain. */
  lemma FailurePrefix<T>(
    apiName: string, resp: Response, expectedStatus: int, decode: Bytes -> Result<T, Error>,
    target: Sentinel)
    requires DecodeResponse(apiName, resp, expectedStatus, decode).Failure?
    ensures var e := DecodeResponse(apiName, resp, expectedStatus, decode).error;
      InvalidResponse(apiName) + ": " <= Message(e)
      && (resp.statusCode == expectedStatus ==> (Is(e, target) <==> Is(decode(resp.body).error, target)))
  {
    var e := DecodeResponse(apiName, resp, expectedStatus, decode).error;
    assert Message(e) == InvalidResponse(apiName) + ": " + Message(e.cause);
  }
}
