/** The request and response shapes shared by the project API routes. */
module Http {
  import opened Common

  /**
   * A response: JSON with its HTTP status and either the data or the `error` message, or the
   * framework's bare 500 for an exception the handler lets escape.
   */
  datatype Reply<T> = Reply(status: nat, body: Result<T, string>) | Uncaught

  /**
   * The request body as `req.json()` sees it: not JSON at all; the JSON literal `null`, which
   * `const { projectId } = body` cannot destructure; or any other JSON value with the `projectId`
   * it yields (a number, string, array or object without the key yields none).
   */
  datatype Body = Unparsable | NullJson | Parsed(projectId: Option<string>)

  /** The project id of a body whose `projectId` is truthy. */
  predicate HasProjectId(body: Body) {
    body.Parsed? && body.projectId.Some? && body.projectId.value != []
  }

  const NotLoggedIn: string := "未登录"
  const InvalidJson: string := "无效 JSON"
  const MissingProjectId: string := "缺少 projectId"

  /**
   * The checks the generation and confirmation routes start with, in order: a signed-in user
   * (else 401), a JSON body (else 400), a truthy `projectId` (else 400). The destructuring of the
   * body sits outside every `try`, so a `null` body escapes the handler. `None` lets the request on.
   */
  function Precheck<T>(user: Option<string>, body: Body): (r: Option<Reply<T>>)
    ensures r.None? <==> user.Some? && HasProjectId(body)
    ensures user.None? ==> r == Some(Reply(401, Err(NotLoggedIn)))
    ensures user.Some? && body.Unparsable? ==> r == Some(Reply(400, Err(InvalidJson)))
    ensures user.Some? && body.NullJson? ==> r == Some(Uncaught)
    ensures user.Some? && body.Parsed? && !HasProjectId(body) ==> r == Some(Reply(400, Err(MissingProjectId)))
    ensures r.Some? ==> (r.value.Uncaught? <==> user.Some? && body.NullJson?)
    ensures r.Some? && r.value.Reply? ==> r.value.status in {400, 401} && r.value.body.Err?
  {
    if user.None? then Some(Reply(401, Err(NotLoggedIn)))
    else if body.Unparsable? then Some(Reply(400, Err(InvalidJson)))
    else if body.NullJson? then Some(Uncaught)
    else if !HasProjectId(body) then Some(Reply(400, Err(MissingProjectId)))
    else None
  }
}
