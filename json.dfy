/**
 * Primitive JSON / JavaScript values as the client and the server exchange them.
 * An object is a map from field names to values, so a missing key is JavaScript's
 * `undefined` (Python's missing key) and `{...p, ...q}` is map union `p + q`.
 */
module Json {
  import opened Wrappers

  datatype Value = Null | Bool(b: bool) | Text(s: string)

  type Object = map<string, Value>

  /** `o[key]`, `None` standing for `undefined` */
  function Get(o: Object, key: string): Option<Value> {
    if key in o then Some(o[key]) else None
  }

  /** `o.id === id` for a string `id` */
  predicate HasId(o: Object, id: string) {
    Get(o, "id") == Some(Text(id))
  }

  /** JavaScript truthiness of a primitive value */
  predicate Truthy(v: Value) {
    match v
    case Null => false
    case Bool(b) => b
    case Text(s) => s != ""
  }

  /** What a value renders as when it is a JSX child: a string as itself, `true`, `false` and `null` as nothing */
  function JsxText(v: Value): (s: string)
    ensures v.Text? ==> s == v.s
    ensures !v.Text? ==> s == ""
  {
    match v
    case Text(t) => t
    case _ => ""
  }

  /** The spread `{...p, ...q}`: every field of `q`, and the fields of `p` that `q` lacks */
  function Spread(p: Object, q: Object): (r: Object)
    ensures r.Keys == p.Keys + q.Keys
    ensures forall k :: k in q ==> r[k] == q[k]
    ensures forall k :: k in p && k !in q ==> r[k] == p[k]
  {
    p + q
  }

  // Decimal rendering (Python's str(n), JavaScript's `${n}`)

  predicate IsDigit(c: char) {
    '0' <= c <= '9'
  }

  predicate AllDigits(s: string) {
    forall i :: 0 <= i < |s| ==> IsDigit(s[i])
  }

  function DigitChar(d: nat): (c: char)
    requires d < 10
    ensures IsDigit(c) && c as int - '0' as int == d
  {
    ('0' as int + d) as char
  }

  /** The decimal digits of `n`, most significant first, without leading zeros */
  function NatToString(n: nat): (s: string)
    ensures |s| >= 1 && AllDigits(s)
    ensures s[0] == '0' ==> n == 0
    decreases n
  {
    if n < 10 then [DigitChar(n)] else NatToString(n / 10) + [DigitChar(n % 10)]
  }

  /** The number a string of decimal digits denotes */
  function DigitsValue(s: string): nat
    requires AllDigits(s)
  {
    if s == [] then 0 else DigitsValue(s[..|s| - 1]) * 10 + (s[|s| - 1] as int - '0' as int)
  }

  /** Reading back the rendering of `n` gives `n` */
  lemma {:induction false} DigitsValueOfNatToString(n: nat)
    ensures DigitsValue(NatToString(n)) == n
    decreases n
  {
    if n >= 10 {
      var s := NatToString(n);
      assert s[..|s| - 1] == NatToString(n / 10);
      DigitsValueOfNatToString(n / 10);
    }
  }

  /** Distinct numbers render as distinct strings */
  lemma NatToStringInjective(a: nat, b: nat)
    ensures NatToString(a) == NatToString(b) ==> a == b
  {
    DigitsValueOfNatToString(a);
    DigitsValueOfNatToString(b);
  }
}
