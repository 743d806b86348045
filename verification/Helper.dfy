/** The HTTP layer (internal/client/helper.go): how one answer of the remote cloud is read. */
module Helper {

  datatype Method = POST | GET | PUT | DELETE

  /** The states of a remote resource the operator tells apart. */
  datatype RemoteState =
    | InCreation | BeingProvisioned | Available | Active | NotUsed | Used
    | RemoteFailed | RemoteError | OtherState(text: string)

  /** A body that parses yields an identifier and a state, either of which may be absent. */
  datatype Body = Unreadable | Empty | Garbled | Parsed(id: string, state: RemoteState)

  datatype Answer = NoResponse | Response(code: int, body: Body)

  datatype Failure = ApiError(status: int) | PlainError

  datatype Reply = Ok(id: string, state: RemoteState) | Err(failure: Failure)

  predicate IsInvalidStatus(status: int) {
    status == 404 || status == 400
  }

  predicate Expected(m: Method, code: int) {
    code in {200, 201, 202, 204} || (m == DELETE && code in {404, 405})
  }

  /** What a caller of the remote cloud is told.  A DELETE does not read the body of an
      expected answer; the other methods do. */
  function Classify(m: Method, a: Answer): Reply {
    if a.NoResponse? || a.body.Unreadable? then
      Err(PlainError)
    else if Expected(m, a.code) then
      if m == DELETE || a.body.Empty? then Ok("", OtherState(""))
      else if a.body.Garbled? then Err(PlainError)
      else Ok(a.body.id, a.body.state)
    else if 400 <= a.code < 600 then
      if a.body.Garbled? then Err(PlainError) else Err(ApiError(a.code))
    else
      Err(PlainError)
  }

  /** Which raw answers are successes, and what a success tells: the identifier and state of a
      parsed body, and nothing for an empty one or a DELETE. */
  lemma SuccessIff(m: Method, a: Answer)
    ensures Classify(m, a).Ok? <==>
              if m == DELETE then a.Response? && !a.body.Unreadable? && a.code in {200, 201, 202, 204, 404, 405}
              else a.Response? && (a.body.Empty? || a.body.Parsed?) && a.code in {200, 201, 202, 204}
    ensures Classify(m, a).Ok? ==>
              Classify(m, a) == if m != DELETE && a.body.Parsed? then Ok(a.body.id, a.body.state)
                                else Ok("", OtherState(""))
  {
  }

  /** Which failures carry the status code: a readable answer of 400 to 599 that is no success. */
  lemma ErrorCodeIff(m: Method, a: Answer, code: int)
    ensures Classify(m, a) == Err(ApiError(code)) <==>
              && a.Response? && (a.body.Empty? || a.body.Parsed?)
              && a.code == code && 400 <= code < 600 && !(m == DELETE && code in {404, 405})
  {
  }
}
