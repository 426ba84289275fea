/** The few pieces of JavaScript value semantics that the style resolvers
    depend on: optional values, truthiness, how a template literal renders a
    value, and the `table[key] || key` lookup idiom. */
module Js {

  datatype Option<+T> = None | Some(value: T)

  /** `table[key]`, which is `undefined` (None) for a missing key. */
  function Get<V>(table: map<string, V>, key: string): (r: Option<V>)
    ensures r.Some? <==> key in table
    ensures r.Some? ==> r.value == table[key]
  {
    if key in table then Some(table[key]) else None
  }

  /** A string-valued property is truthy when it is present and not empty. */
  predicate Present(x: Option<string>) {
    x.Some? && x.value != ""
  }

  /** `${x}` for an optional string: a missing value renders as "undefined". */
  function Render(x: Option<string>): string {
    match x
    case Some(s) => s
    case None => "undefined"
  }

  /** A value the source types as `string | number`. Numbers are integers here. */
  datatype Scalar = Str(s: string) | Num(n: int) {

    /** JavaScript truthiness: '' and 0 are falsy. */
    predicate Truthy() {
      match this
      case Str(s) => s != ""
      case Num(n) => n != 0
    }

    /** `${x}`: the text a template literal (and a property lookup) makes of it. */
    function Text(): string {
      match this
      case Str(s) => s
      case Num(n) => IntText(n)
    }
  }

  /** An optional scalar is truthy when it is present and truthy. */
  predicate ScalarPresent(x: Option<Scalar>) {
    x.Some? && x.value.Truthy()
  }

  /** `${x}` for an optional scalar. */
  function ScalarText(x: Option<Scalar>): string {
    match x
    case Some(v) => v.Text()
    case None => "undefined"
  }

  function DigitChar(d: nat): char
    requires d < 10
  {
    "0123456789"[d]
  }

  function NatText(n: nat): (r: string)
    ensures |r| > 0
  {
    if n < 10 then [DigitChar(n)] else NatText(n / 10) + [DigitChar(n % 10)]
  }

  /** Decimal rendering of an integer, with a leading '-' when negative. */
  function IntText(n: int): (r: string)
    ensures r != ""
  {
    if n < 0 then "-" + NatText(-n) else NatText(n)
  }

  /** `table[key] || key`: the table's value when the key is there and the
      value is truthy, otherwise the key itself, passed through unchanged. */
  function OrElse(table: map<string, string>, key: string): (r: string)
    ensures r == key || (key in table && r == table[key])
    ensures key in table && table[key] != "" ==> r == table[key]
    ensures key !in table ==> r == key
    ensures key != "" ==> r != ""
  {
    if key in table && table[key] != "" then table[key] else key
  }
}
