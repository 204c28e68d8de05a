/** The small part of JavaScript's value semantics the game core relies on:
    the values stored in option objects, truthiness, string coercion for
    `'stage-' + n`, property lookup and famo.us `OptionsManager.patch`. */
module Js {

  datatype Option<+T> = None | Some(value: T)

  /** A JavaScript value as it appears in an option object or in the store.
      Numbers are modelled as integers: the core only stores counters,
      stage/level numbers and `Date.now()` timestamps. */
  datatype Value = Undefined | Null | Bool(b: bool) | Num(n: int) | Str(s: string)

  /** JavaScript truthiness (`if (v)`). */
  predicate Truthy(v: Value)
  {
    match v
    case Undefined => false
    case Null => false
    case Bool(b) => b
    case Num(n) => n != 0
    case Str(s) => s != ""
  }

  /** Property read `obj[key]` on a plain option object: a missing key is `undefined`. */
  function Prop(obj: map<string, Value>, key: string): (v: Value)
    ensures key in obj ==> v == obj[key]
    ensures key !in obj ==> v == Undefined
  {
    if key in obj then obj[key] else Undefined
  }

  /** `OptionsManager.patch` on flat options: every key of `p` is overwritten
      (or added), every other key keeps its value. This is the live, in-place
      merge; callers reassign the options field with the result. */
  function Patch(base: map<string, Value>, p: map<string, Value>): (r: map<string, Value>)
    ensures r.Keys == base.Keys + p.Keys
    ensures forall k :: k in p ==> r[k] == p[k]
    ensures forall k :: k in base && k !in p ==> r[k] == base[k]
  {
    base + p
  }

  function DigitChar(d: nat): (c: char)
    requires d < 10
    ensures '0' <= c <= '9'
  {
    "0123456789"[d]
  }

  /** Decimal digits of a natural number, most significant first. */
  function NatToString(n: nat): (s: string)
    ensures |s| >= 1
    ensures forall i :: 0 <= i < |s| ==> '0' <= s[i] <= '9'
  {
    if n < 10 then [DigitChar(n)] else NatToString(n / 10) + [DigitChar(n % 10)]
  }

  function IntToString(n: int): (s: string)
    ensures |s| >= 1
    ensures s[0] == '-' || '0' <= s[0] <= '9'
  {
    if n < 0 then "-" + NatToString(-n) else NatToString(n)
  }

  /** `String(v)`, as used by `+` with a string operand. */
  function ToJsString(v: Value): string
  {
    match v
    case Undefined => "undefined"
    case Null => "null"
    case Bool(b) => if b then "true" else "false"
    case Num(n) => IntToString(n)
    case Str(s) => s
  }

  /** Only a string value coerces to a string that starts with a lower-case
      letter other than those of `undefined`, `null`, `true` and `false`. */
  lemma CoercedLetterMeansString(v: Value, c: char)
    requires 'a' <= c <= 'z' && c !in {'u', 'n', 't', 'f'}
    requires |ToJsString(v)| > 0 && ToJsString(v)[0] == c
    ensures v.Str?
  {
    match v
    case Num(n) =>
      assert false;
    case _ =>
  }
}
