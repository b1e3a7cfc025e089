/**
 * JavaScript values the modelled code reads loosely: a field that may be
 * missing, and the truthiness tests and `||` defaults applied to it.
 */
module JsValues {

  datatype Option<+T> = None | Some(value: T)

  /** A possibly missing string field is truthy: present and non-empty. */
  predicate Present(o: Option<string>) {
    o.Some? && o.value != ""
  }

  /** `field || fallback` on a possibly missing string field. */
  function Or(o: Option<string>, fallback: string): string {
    if Present(o) then o.value else fallback
  }
}
