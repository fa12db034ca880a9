/**
 * The HTTP interceptor: every outgoing request is forwarded once, with the
 * bearer token attached unless there is no token or the request goes to
 * the login or register endpoint.
 */
module AuthInterceptor {
  import opened Wrappers
  import opened Strings

  /** The parts of an outgoing request the interceptor can see. */
  datatype Request = Request(verb: string, url: string, headers: map<string, string>, body: string)

  const LoginPath := "/auth/login"
  const RegisterPath := "/auth/register"

  /** `token && !url.includes('/auth/login') && !url.includes('/auth/register')`. */
  predicate AttachesToken(token: Option<string>, url: string) {
    token.Some? && token.value != "" && !Contains(url, LoginPath) && !Contains(url, RegisterPath)
  }

  /** The request passed on to the next handler. */
  function Intercept(req: Request, token: Option<string>): (out: Request)
    ensures out.verb == req.verb && out.url == req.url && out.body == req.body
    ensures (token.None? || token.value == "") ==> out == req
    ensures (exists i: nat :: OccursAt(req.url, LoginPath, i)) ==> out == req
    ensures (exists i: nat :: OccursAt(req.url, RegisterPath, i)) ==> out == req
    ensures AttachesToken(token, req.url) ==>
              out.headers.Keys == req.headers.Keys + {"Authorization", "Content-Type"} &&
              out.headers["Authorization"] == "Bearer " + token.value &&
              out.headers["Content-Type"] == "application/json" &&
              forall h :: h in req.headers && h !in {"Authorization", "Content-Type"} ==>
                out.headers[h] == req.headers[h]
  {
    if AttachesToken(token, req.url) then
      req.(headers := req.headers["Authorization" := "Bearer " + token.value]["Content-Type" := "application/json"])
    else req
  }

  /** The interceptor itself: the handler is applied exactly once, to the intercepted request. */
  function Handle<R>(req: Request, token: Option<string>, next: Request -> R): (r: R)
    ensures !AttachesToken(token, req.url) ==> r == next(req)
    ensures AttachesToken(token, req.url) ==>
              r == next(req.(headers := req.headers["Authorization" := "Bearer " + token.value]
                                                   ["Content-Type" := "application/json"]))
  {
    next(Intercept(req, token))
  }

  /** The exclusion is a substring test, so any path containing the login path is excluded too. */
  lemma LoginLookalikeExcluded(token: Option<string>)
    ensures !AttachesToken(token, "/api/auth/login-history")
  {
    assert OccursAt("/api/auth/login-history", LoginPath, 4);
  }

  /** An ordinary API call with a token gets the headers. */
  lemma ApiCallAuthorised()
    ensures AttachesToken(Some("t"), "/api/broker/accounts")
  {
    var url := "/api/broker/accounts";
    assert forall k :: 0 <= k < |url| ==> url[k] != 'h';
    forall i: nat ensures !OccursAt(url, LoginPath, i) && !OccursAt(url, RegisterPath, i) {
      if i + |LoginPath| <= |url| {
        assert url[i..i + |LoginPath|][4] == url[i + 4];
      }
      if i + |RegisterPath| <= |url| {
        assert url[i..i + |RegisterPath|][4] == url[i + 4];
      }
    }
  }
}
