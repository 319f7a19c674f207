/** Optional values, for JavaScript's `undefined`/`null` where the source tells
    them apart from a present value. */
module Options {

  datatype Option<+T> = None | Some(value: T)

  /** JavaScript's `x || fallback` on a string that may be absent: an absent or
      empty string is falsy and yields the fallback. */
  function OrElse(x: Option<string>, fallback: string): (r: string)
    ensures x.Some? && x.value != "" ==> r == x.value
    ensures (x.None? || x.value == "") ==> r == fallback
  {
    if x.Some? && x.value != "" then x.value else fallback
  }

  /** `x || fallback` on two strings, where "" is the only falsy string. */
  function Or(x: string, fallback: string): (r: string)
    ensures x != "" ==> r == x
    ensures x == "" ==> r == fallback
  {
    if x != "" then x else fallback
  }
}
