/** Values shared by the three stateful components: optional values, the
    JavaScript values a JSON decoder produces, and the few coercions the
    source applies to them. */
module Common {

  datatype Option<T> = None | Some(value: T)

  /** A JavaScript number as the model sees it: an integer, or NaN (what
      `Number()` yields for `undefined` and for text that is not a number).
      Fractions and infinities are not modelled. */
  datatype Num = Finite(n: int) | NaN

  /** A value produced by `JSON.parse`. Nested arrays and objects are opaque;
      they keep only the text `String()` gives for them, which is what
      `Number()` works from. */
  datatype JsValue =
    | JsNull
    | JsBool(b: bool)
    | JsNumber(n: int)
    | JsString(s: string)
    | JsComposite(text: string)

  /** JavaScript truthiness of a defined value. */
  predicate Truthy(v: JsValue)
  {
    match v
    case JsNull => false
    case JsBool(b) => b
    case JsNumber(n) => n != 0
    case JsString(s) => s != ""
    case JsComposite(_) => true
  }

  /** JavaScript truthiness of a possibly undefined value. */
  predicate TruthyOpt(v: Option<JsValue>)
  {
    v.Some? && Truthy(v.value)
  }

  /** `Number(x)` for a possibly undefined `x`; `parseNumeric` stands for
      what `Number()` does with text. */
  function ToNumber(v: Option<JsValue>, parseNumeric: string -> Num): (r: Num)
    ensures v.None? ==> r == NaN
    ensures v == Some(JsNull) ==> r == Finite(0)
    ensures forall n: int :: v == Some(JsNumber(n)) ==> r == Finite(n)
    ensures v == Some(JsBool(true)) ==> r == Finite(1)
    ensures v == Some(JsBool(false)) ==> r == Finite(0)
  {
    match v
    case None => NaN
    case Some(JsNull) => Finite(0)
    case Some(JsBool(b)) => Finite(if b then 1 else 0)
    case Some(JsNumber(n)) => Finite(n)
    case Some(JsString(s)) => parseNumeric(s)
    case Some(JsComposite(t)) => parseNumeric(t)
  }

  /** `m[k]` for a map of lists, an absent list read as empty: the stores
      create `[]` for a missing key before they append to it. */
  function ListAt<K, V>(m: map<K, seq<V>>, k: K): (r: seq<V>)
    ensures k in m ==> r == m[k]
    ensures k !in m ==> r == []
  {
    if k in m then m[k] else []
  }

  /** The signed-in user's id as the stores read it: `userInfo?.id` is falsy
      when absent or 0, and then there is no usable id. */
  function LoggedInId(id: Option<int>): (r: Option<int>)
    ensures r.Some? <==> id.Some? && id.value != 0
    ensures r.Some? ==> r == id
  {
    if id.Some? && id.value != 0 then id else None
  }

  function DigitChar(d: nat): (c: char)
    requires d < 10
    ensures '0' <= c <= '9'
  {
    "0123456789"[d]
  }

  predicate IsDigit(c: char)
  {
    '0' <= c <= '9'
  }

  /** Decimal text of a natural number, as template literals print it. */
  function NatToString(n: nat): (s: string)
    ensures |s| >= 1
    ensures forall i :: 0 <= i < |s| ==> IsDigit(s[i])
    ensures n < 10 <==> |s| == 1
  {
    if n < 10 then [DigitChar(n)] else NatToString(n / 10) + [DigitChar(n % 10)]
  }

  /** Decimal text of an integer, with a leading '-' for negatives. */
  function IntToString(i: int): (s: string)
    ensures |s| >= 1
    ensures i >= 0 ==> forall k :: 0 <= k < |s| ==> IsDigit(s[k])
    ensures i < 0 ==> s[0] == '-'
  {
    if i < 0 then "-" + NatToString(-i) else NatToString(i)
  }

  lemma DigitCharInjective(a: nat, b: nat)
    requires a < 10 && b < 10 && DigitChar(a) == DigitChar(b)
    ensures a == b
  {
  }

  /** Distinct naturals print as distinct texts. */
  lemma {:induction false} NatToStringInjective(a: nat, b: nat)
    requires NatToString(a) == NatToString(b)
    ensures a == b
  {
    var sa, sb := NatToString(a), NatToString(b);
    if a < 10 {
      assert |sb| == 1;
      DigitCharInjective(a, b);
    } else {
      assert |sb| != 1;
      assert sa == NatToString(a / 10) + [DigitChar(a % 10)];
      assert sb == NatToString(b / 10) + [DigitChar(b % 10)];
      assert sa[..|sa| - 1] == NatToString(a / 10);
      assert sb[..|sb| - 1] == NatToString(b / 10);
      NatToStringInjective(a / 10, b / 10);
      DigitCharInjective(a % 10, b % 10);
    }
  }

  /** Distinct integers print as distinct texts. */
  lemma IntToStringInjective(a: int, b: int)
    requires IntToString(a) == IntToString(b)
    ensures a == b
  {
    if a < 0 && b < 0 {
      assert IntToString(a)[1..] == NatToString(-a);
      assert IntToString(b)[1..] == NatToString(-b);
      NatToStringInjective(-a, -b);
    } else if a >= 0 && b >= 0 {
      NatToStringInjective(a, b);
    }
  }
}
