/** Optional values and error-or-value results, for the source's `undefined`
    fields and thrown errors. */
module Common {

  datatype Option<+T> = None | Some(value: T) {
    /** `x ?? d` for a field that may be missing. */
    function GetOr(default: T): T {
      match this
      case Some(v) => v
      case None => default
    }
  }

  datatype Result<+T, +E> = Ok(value: T) | Err(error: E)

  /** JavaScript truthiness of an optional string: present and non-empty. */
  predicate TruthyText(s: Option<string>) {
    s.Some? && s.value != ""
  }

  /** `a || b` on optional strings: `a` when truthy, `b` otherwise. */
  function OrElse(a: Option<string>, b: Option<string>): (r: Option<string>)
    ensures TruthyText(a) ==> r == a
    ensures !TruthyText(a) ==> r == b
  {
    if TruthyText(a) then a else b
  }

  /** One interpolated context value: missing (`undefined`), or present with
      its rendering and its JavaScript truthiness (0 renders "0" but is
      falsy). A rendering that went through `toLocaleString` is the
      formatted text. */
  datatype Field = Missing | Present(text: string, truthy: bool)

  /** `${x}` */
  function Rendered(f: Field): string {
    if f.Present? then f.text else "undefined"
  }

  /** `x || d` */
  function OrDefault(f: Field, d: string): (r: string)
    ensures f.Present? && f.truthy ==> r == f.text
    ensures !(f.Present? && f.truthy) ==> r == d
  {
    if f.Present? && f.truthy then f.text else d
  }
}
