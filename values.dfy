/**
 * The JavaScript values an option or a command-line flag can hold. Numbers
 * are modelled as reals (finite doubles; NaN and the infinities are not
 * represented).
 */
module Values {

  /** `Null` stands for `null`; `Object` for any object or array. */
  datatype Value = Number(number: real) | Str(str: string) | Bool(flag: bool) | Null | Object

  /** `typeof v === 'number' && v >= 0 && v % 1 === 0`. */
  predicate IsNonNegativeInteger(v: Value)
  {
    v.Number? && v.number >= 0.0 && v.number.Floor as real == v.number
  }

  /** The number value of a natural number. */
  function NatValue(n: nat): Value
  {
    Number(n as real)
  }

  /** The values that pass are exactly the numbers that are natural numbers. */
  lemma NonNegativeIntegerIsNat(v: Value)
    ensures IsNonNegativeInteger(v) <==> exists n: nat :: v == NatValue(n)
  {
    if IsNonNegativeInteger(v) {
      var n: nat := v.number.Floor;
      assert v == NatValue(n);
    }
  }

  predicate OnlySpaces(s: string)
  {
    forall i | 0 <= i < |s| :: s[i] == ' '
  }

  predicate OnlyTabs(s: string)
  {
    forall i | 0 <= i < |s| :: s[i] == '\t'
  }

  /** JavaScript truthiness. */
  predicate Truthy(v: Value)
  {
    match v
    case Number(x) => x != 0.0
    case Str(s) => s != ""
    case Bool(b) => b
    case Null => false
    case Object => true
  }
}
