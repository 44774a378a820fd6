/** Small value types shared by every module: optional values, results, and
    the JavaScript notion of a "truthy" string that the source relies on in
    its `||` chains and `if (x)` guards. */
module Common {

  datatype Option<+T> = None | Some(value: T)

  datatype Result<+T, +E> = Ok(value: T) | Err(error: E)

  /** A string value that JavaScript treats as true: present and non-empty. */
  predicate Truthy(s: Option<string>)
  {
    s.Some? && s.value != ""
  }

  /** JavaScript's `a || b` on two possibly-missing strings. */
  function Or(a: Option<string>, b: Option<string>): Option<string>
  {
    if Truthy(a) then a else b
  }

  /** How a template literal renders a possibly-undefined string. */
  function Render(s: Option<string>): string
  {
    match s
    case Some(v) => v
    case None => "undefined"
  }
}
