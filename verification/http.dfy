/**
 What a request handler answers: a JSON body with a status code, or a
 redirect to the login page.
 */
module Http {
  import opened Values
  import opened Store

  datatype Reply = JsonReply(code: nat, body: Doc) | Redirect(location: string)

  const LoginPage := "auth.login"

  /** `jsonify({"error": message}), code`. */
  function Error(code: nat, message: string): (r: Reply)
    ensures r.JsonReply? && r.code == code && Holds(r.body, "error", JStr(message))
  {
    JsonReply(code, map["error" := JStr(message)])
  }

  /** A handler's answer together with the store it leaves behind. */
  datatype Handled = Handled(db: Db, reply: Reply)

  predicate IsError(r: Reply, code: nat, message: string) {
    r == Error(code, message)
  }
}
