/** The sanity-check middleware that the logistics service and the API gateway
    each carry, with the same rule: GET and DELETE requests must not have a body. */
module SanityCheck {
  import opened Wrappers
  import Text

  /** `req.body` as the rule sees it: absent (undefined or null, both falsy)
      or an object with its own enumerable keys. */
  datatype Body = NoBody | Keys(keys: seq<string>)

  /** Exactly one of the two things `use` does with a request. */
  datatype Decision = CallNext | Reject(message: string)

  const BODY_NOT_ALLOWED: string := "Body is not allowed for GET/DELETE requests"

  /** `req.method?.toUpperCase()` is GET or DELETE. */
  predicate BodylessMethod(verb: Option<string>)
  {
    verb.Some? && (Text.ToUpper(verb.value) == "GET" || Text.ToUpper(verb.value) == "DELETE")
  }

  /** `use`: a GET or DELETE with a body of at least one key is rejected with
      BadRequest; every other request goes on to `next`. */
  function Use(verb: Option<string>, body: Body): (d: Decision)
    ensures d.Reject? <==> BodylessMethod(verb) && body.Keys? && |body.keys| > 0
    ensures d.Reject? ==> d.message == BODY_NOT_ALLOWED
  {
    if BodylessMethod(verb) && body.Keys? && |body.keys| > 0 then Reject(BODY_NOT_ALLOWED)
    else CallNext
  }

  /** The method is compared case-insensitively: "get" and "Delete" are
      treated as GET and DELETE. */
  lemma MethodCaseIgnored(body: Body)
    ensures Use(Some("get"), body) == Use(Some("GET"), body)
    ensures Use(Some("Delete"), body) == Use(Some("DELETE"), body)
  {
    assert Text.ToUpper("get") == "GET";
    assert Text.ToUpper("GET") == "GET";
    assert Text.ToUpper("Delete") == "DELETE";
    assert Text.ToUpper("DELETE") == "DELETE";
  }

  /** Bodies are never checked on other methods: a POST with a body passes. */
  lemma OtherMethodsPass(body: Body)
    ensures Use(Some("POST"), body) == CallNext
    ensures Use(None, body) == CallNext
  {
    assert Text.ToUpper("POST") == "POST";
  }

  /** An empty object is no body. */
  lemma EmptyBodyPasses(verb: Option<string>)
    ensures Use(verb, Keys([])) == CallNext && Use(verb, NoBody) == CallNext
  {
  }
}
