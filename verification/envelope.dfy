/** The response envelope every transport call returns, the errors an API
    call can end in, and the validator `check_success`. */
module Envelope {
  import opened Results
  import opened Json

  /** What the transport hands back: the decoded payload and the HTTP status. */
  datatype Response = Response(payload: Payload, status: int)

  /** The ways an API call fails. `ServerError` is `BackupchanAPIError`, kept as
      the payload and status it was built from rather than as formatted text.
      `MissingKey` is the `KeyError` of subscripting a payload without that key;
      `NotAList` is iterating a value that is not a list. */
  datatype ApiError =
    | ServerError(payload: Payload, status: int)
    | MissingKey(key: string)
    | NotAList(key: string)

  /** The key of the success marker every payload is expected to carry. */
  const SuccessKey: string := "success"

  /** A payload reports success: its marker is present and truthy. */
  predicate Accepted(payload: Payload) {
    SuccessKey in payload && Truthy(payload[SuccessKey])
  }

  /** `check_success`: the payload passes through unchanged when its success
      marker, defaulting to `False` when absent, is truthy; otherwise the call
      fails with the whole payload and the status. */
  function CheckSuccess(response: Response): (r: Result<Payload, ApiError>)
    ensures r.Success? <==> Accepted(response.payload)
    ensures r.Success? ==> r.value == response.payload
    ensures r.Failure? ==> r.error == ServerError(response.payload, response.status)
  {
    var marker := if SuccessKey in response.payload then response.payload[SuccessKey] else JBool(false);
    if !Truthy(marker) then Failure(ServerError(response.payload, response.status))
    else Success(response.payload)
  }

  /** Whether a response passes never depends on its status code, and a
      failure reports exactly the status it was given. */
  lemma CheckSuccessIgnoresStatus(payload: Payload, s1: int, s2: int)
    ensures CheckSuccess(Response(payload, s1)).Success? == CheckSuccess(Response(payload, s2)).Success?
    ensures CheckSuccess(Response(payload, s1)).Failure? ==>
              CheckSuccess(Response(payload, s1)).error.status == s1
  {
  }

  /** A payload that passed passes again: validation is idempotent. */
  lemma CheckSuccessIdempotent(response: Response, status: int)
    requires CheckSuccess(response).Success?
    ensures CheckSuccess(Response(CheckSuccess(response).value, status)) == CheckSuccess(response)
  {
  }

  /** The marker is judged by truthiness, not by being the JSON literal `true`:
      the string "false" passes, the integer 0 does not. */
  lemma CheckSuccessIsTruthiness(status: int)
    ensures CheckSuccess(Response(map[SuccessKey := JStr("false")], status)).Success?
    ensures CheckSuccess(Response(map[SuccessKey := JInt(0)], status)).Failure?
    ensures CheckSuccess(Response(map[], status)).Failure?
  {
  }
}
