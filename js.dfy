/** The three JavaScript operators the aggregation code uses to read optional
    fields. They differ on the empty string and must not be confused. */
module Js {
  import opened Optional

  /** `!!s` for a `string | null | undefined`: false for null, undefined and "". */
  predicate Truthy(s: Option<string>) {
    s.Some? && s.value != ""
  }

  /** `a || b` where `a` is a `string | undefined`: an empty string falls through to `b`. */
  function Or(a: Option<string>, b: string): string {
    if Truthy(a) then a.value else b
  }

  /** `a ?? b`: only null or undefined fall through to `b`; 0 and "" are kept. */
  function Coalesce<T>(a: Option<T>, b: T): T {
    a.GetOr(b)
  }
}
