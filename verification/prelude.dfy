/** Wrappers shared by every module of the notes-service model: optional
    values, results that carry a thrown message, JavaScript truthiness of an
    optional string, and a first-match search over a sequence. */
module Prelude {

  datatype Option<T> = None | Some(value: T)

  /** The outcome of a step that may throw; `Err` keeps the thrown message. */
  datatype Result<T> = Ok(value: T) | Err(message: string)

  /** `!x` is false in JavaScript exactly for a present, non-empty string
      (absent fields are `undefined`, and `""` is falsy). */
  predicate Truthy(s: Option<string>)
  {
    s.Some? && s.value != ""
  }

  /** The first element of `s` satisfying `p`, as a unique-key lookup in the
      store returns it. */
  function Find<T>(s: seq<T>, p: T -> bool): (r: Option<T>)
    ensures r.Some? ==> r.value in s && p(r.value)
    ensures r.None? <==> forall x :: x in s ==> !p(x)
  {
    if |s| == 0 then None
    else if p(s[0]) then Some(s[0])
    else Find(s[1..], p)
  }
}
