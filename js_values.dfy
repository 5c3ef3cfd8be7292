/**
 * The JavaScript values the form library inspects, as a tagged variant,
 * together with the few language operations it relies on: truthiness and
 * `||`, `v == null`, `String(n)` for integral numbers, and the own
 * enumerable entries that object spread (`{...v}`) and `Object.keys` see.
 */
module JsValues {

  datatype Option<+T> = None | Some(value: T)

  /**
   * `Obj` carries the properties visible to `in` and `Object.keys` and the
   * string that `v.toString?.()` yields (None when there is no callable
   * `toString` or it does not return a string); a plain object literal has
   * `Some("[object Object]")`. `Num` holds integral numbers only.
   * `Opaque` stands for functions, symbols and bigints.
   */
  datatype Value =
    | Undefined
    | Null
    | Str(s: string)
    | Num(n: int)
    | Bool(b: bool)
    | Obj(props: map<string, Value>, toStringResult: Option<string>)
    | Arr(elems: seq<Value>)
    | Opaque

  /** A plain object's own entries: field values, payloads, attribution records. */
  type Record = map<string, Value>

  const ObjectTag: string := "[object Object]"

  /** An object created by a literal or a spread. */
  function PlainObject(r: Record): Value {
    Obj(r, Some(ObjectTag))
  }

  const EmptyObject: Value := PlainObject(map[])

  /** The values JavaScript treats as false in a condition. */
  predicate Falsy(v: Value) {
    match v
    case Undefined => true
    case Null => true
    case Str(s) => s == ""
    case Num(n) => n == 0
    case Bool(b) => !b
    case _ => false
  }

  /** `a || b`. */
  function Or(a: Value, b: Value): (r: Value)
    ensures !Falsy(a) ==> r == a
    ensures Falsy(a) ==> r == b
  {
    if Falsy(a) then b else a
  }

  /** What a plugin's builder spreads: `base || values || {}`. */
  function Payload(base: Value, values: Value): (r: Value)
    ensures !Falsy(base) ==> r == base
    ensures Falsy(base) && !Falsy(values) ==> r == values
    ensures Falsy(base) && Falsy(values) ==> r == EmptyObject
  {
    Or(Or(base, values), EmptyObject)
  }

  /**
   * A JavaScript function called for its effect, by what it does with its
   * argument: None when it returns (or its promise resolves), Some(e) when
   * it throws e (or its promise rejects with e).
   */
  datatype Callback = Callback(call: Value -> Option<Value>)

  /** `() => {}`. */
  const NoOp: Callback := Callback(_ => None)

  /** `v == null`: true of null and undefined only. */
  predicate Nullish(v: Value) {
    v.Undefined? || v.Null?
  }

  predicate IsDigit(c: char) {
    '0' <= c <= '9'
  }

  function DigitChar(d: nat): (c: char)
    requires d < 10
    ensures IsDigit(c)
  {
    (('0' as int) + d) as char
  }

  /** Decimal rendering of a natural number, as `String(n)` gives it. */
  function NatToString(n: nat): (s: string)
    ensures |s| > 0
    ensures forall i :: 0 <= i < |s| ==> IsDigit(s[i])
  {
    if n < 10 then [DigitChar(n)] else NatToString(n / 10) + [DigitChar(n % 10)]
  }

  /** `String(i)` for an integral number. */
  function IntToString(i: int): (s: string)
    ensures |s| > 0
  {
    if i < 0 then "-" + NatToString(-i) else NatToString(i)
  }

  /** The number a non-empty string of decimal digits denotes. */
  function DigitsValue(s: string): nat
    requires forall i :: 0 <= i < |s| ==> IsDigit(s[i])
  {
    if s == [] then 0
    else DigitsValue(s[..|s| - 1]) * 10 + DigitValue(s[|s| - 1])
  }

  function DigitValue(c: char): nat
    requires IsDigit(c)
  {
    (c as int) - ('0' as int)
  }

  /** Reading the decimal rendering back gives the number. */
  lemma {:induction false} NatToStringRoundTrip(n: nat)
    ensures DigitsValue(NatToString(n)) == n
  {
    if n >= 10 {
      NatToStringRoundTrip(n / 10);
      var s := NatToString(n);
      assert s[..|s| - 1] == NatToString(n / 10);
    }
  }

  /** Distinct numbers have distinct renderings. */
  lemma NatToStringInjective()
    ensures forall a: nat, b: nat :: NatToString(a) == NatToString(b) ==> a == b
  {
    forall a: nat, b: nat | NatToString(a) == NatToString(b) ensures a == b {
      NatToStringRoundTrip(a);
      NatToStringRoundTrip(b);
    }
  }

  /** `String(i)` is injective on integers, including the sign. */
  lemma IntToStringInjective(a: int, b: int)
    requires IntToString(a) == IntToString(b)
    ensures a == b
  {
    NatToStringInjective();
    IntToStringSign(a);
    IntToStringSign(b);
    if a < 0 {
      assert NatToString(-a) == IntToString(a)[1..];
    }
  }

  lemma IntToStringSign(i: int)
    ensures IntToString(i)[0] == '-' <==> i < 0
  {
    if i >= 0 {
      assert IsDigit(NatToString(i)[0]);
    }
  }

  /**
   * The own enumerable string-keyed entries of `v`, i.e. what `{...v}`
   * copies and what `Object.keys(v)` lists: an object's properties, an
   * array's or a string's indices, nothing for the other primitives.
   */
  function OwnEntries(v: Value): (r: Record)
    ensures v.Obj? ==> r == v.props
    ensures v.Arr? ==> |r| == |v.elems|
    ensures v.Str? ==> |r| == |v.s|
    ensures !v.Obj? && !v.Arr? && !v.Str? ==> r == map[]
  {
    NatToStringInjective();
    match v
    case Obj(props, _) => props
    case Arr(es) => IndexEntries(es)
    case Str(s) => IndexEntries(seq(|s|, i requires 0 <= i < |s| => Str([s[i]])))
    case _ => map[]
  }

  /** `{"0": es[0], "1": es[1], …}`. */
  function IndexEntries(es: seq<Value>): (r: Record)
    ensures r.Keys == IndexKeys(|es|)
    ensures |r| == |es|
    ensures forall i :: 0 <= i < |es| ==> NatToString(i) in r && r[NatToString(i)] == es[i]
  {
    NatToStringInjective();
    IndexKeysCard(|es|);
    map i | 0 <= i < |es| :: NatToString(i) := es[i]
  }

  /** The keys `Object.keys` lists for an array or string of length n. */
  function IndexKeys(n: nat): set<string> {
    set i | 0 <= i < n :: NatToString(i)
  }

  lemma {:induction false} IndexKeysCard(n: nat)
    ensures |IndexKeys(n)| == n
  {
    NatToStringInjective();
    if n > 0 {
      IndexKeysCard(n - 1);
      assert IndexKeys(n) == IndexKeys(n - 1) + {NatToString(n - 1)};
      assert NatToString(n - 1) !in IndexKeys(n - 1);
    }
  }
}
