/**
 * Shared vocabulary of the two route modules: nullable values, the HTTP
 * outcome of a handler, partial-update fields, and the JavaScript
 * truthiness rules (`x || default`, `!x`) the handlers rely on.
 */
module Common {

  /** A nullable column or an optional body field (`None` is SQL NULL / absent). */
  datatype Option<T> = None | Some(value: T)

  /**
   * What a handler answers: `Ok` for 200/201 with its payload, or the error
   * status it sends (400, 403, 404, 500).
   */
  datatype Outcome<T> = Ok(value: T) | BadRequest | Forbidden | NotFound | ServerError

  /** A field of a partial-update body: not sent (`undefined`), or sent with a value. */
  datatype Patch<T> = Keep | Set(value: T)

  /** "new value or keep current": `x !== undefined ? x : current`. */
  function Merge<T>(p: Patch<T>, current: T): T
  {
    match p
    case Keep => current
    case Set(v) => v
  }

  /** A string body field is truthy when it was sent and is not the empty string. */
  predicate Present(s: Option<string>)
  {
    s.Some? && s.value != ""
  }

  /** A numeric body field is truthy when it was sent and is not 0. */
  predicate NonZero(n: Option<int>)
  {
    n.Some? && n.value != 0
  }

  /** `s || fallback` on a string field. */
  function TextOr(s: Option<string>, fallback: string): (r: string)
    ensures Present(s) ==> r == s.value
    ensures !Present(s) ==> r == fallback
    ensures r == "" ==> fallback == ""
  {
    if Present(s) then s.value else fallback
  }

  /** `s || null` on a string field: the empty string is stored as NULL. */
  function TextOrNull(s: Option<string>): (r: Option<string>)
    ensures r.Some? ==> r == s && r.value != ""
    ensures Present(s) ==> r == s
  {
    if Present(s) then s else None
  }

  /** `n || null` on a numeric field: 0 is stored as NULL. */
  function NumberOrNull(n: Option<int>): (r: Option<int>)
    ensures r.Some? ==> r == n && r.value != 0
    ensures NonZero(n) ==> r == n
  {
    if NonZero(n) then n else None
  }
}
