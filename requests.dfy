/** What the two Stripe API routes read from a Next.js request: the destructured JSON body
    and the `origin` header. */
module Requests {
  import opened Wrappers
  import opened Database

  /** `await request.json()` followed by destructuring: None when the body is not JSON
      (the parse throws); `Some(Null)` also throws, because `null` cannot be destructured. */
  predicate Destructurable(body: Option<Json>) {
    body.Some? && !body.value.Null? && !body.value.Undef?
  }

  /** The value a destructuring pattern binds for `key`: an object's own field, and
      `undefined` for a missing field or a body that is not an object. */
  function Field(body: Json, key: string): (v: Json)
    ensures v != Undef ==> body.Obj? && key in body.fields && v == body.fields[key]
    ensures body.Obj? && key in body.fields ==> v == body.fields[key]
  {
    if body.Obj? && key in body.fields then body.fields[key] else Undef
  }

  /** `${request.headers.get('origin')}`: a missing header interpolates as "null". */
  function OriginText(origin: Option<string>): (t: string)
    ensures origin.Some? ==> t == origin.value
    ensures origin.None? ==> t == "null"
  {
    if origin.Some? then origin.value else "null"
  }
}
