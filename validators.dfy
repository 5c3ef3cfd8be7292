/**
 * Field validators: the coercion of any field value to a string, the
 * `all`/`any` combinators, and the built-in validators. A validator maps
 * a field's value and the snapshot of all values to an outcome
 * `{ valid, message }`. Each regular expression of the library is written
 * as an explicit predicate and, where the expression has structure, proved
 * equal to a predicate that reads like the expression.
 */
module Validators {
  import opened JsValues
  import opened Text

  /** `{ valid, message }`; a falsy message is the empty string here. */
  datatype Outcome = Outcome(valid: bool, message: string)

  /** `ok()`. */
  function Ok(): (r: Outcome)
    ensures r.valid && r.message == ""
  {
    Outcome(true, "")
  }

  /** `fail(message)`. */
  function Fail(message: string): (r: Outcome)
    ensures !r.valid && r.message == message
  {
    Outcome(false, message)
  }

  /** `(value, values) => outcome`; the second argument is the snapshot of all field values. */
  type Validator = (Value, Value) -> Outcome

  /** A message argument left undefined takes the validator's default. */
  function MessageOr(msg: Option<string>, default: string): string {
    match msg
    case Some(m) => m
    case None => default
  }

  const RequiredMessage: string := "This field is required"
  const EmailMessage: string := "Please enter a valid email address."
  const FullNameMessage: string := "Please enter your first and last name."
  const PatternMessage: string := "Invalid format"
  const PhoneBasicMessage: string := "Please enter a valid phone number."
  const PhoneDashedUSMessage: string := "Please enter a valid phone number (e.g., 123-456-7890)."
  const RequiredSelectMessage: string := "Please select an option."
  const MustAcceptMessage: string := "You must accept the privacy policy."
  const AnyMessage: string := "Invalid value"

  function MinLengthMessage(n: int): string {
    "Must be at least " + IntToString(n) + " characters"
  }

  function MaxLengthMessage(n: int): string {
    "Must be at most " + IntToString(n) + " characters"
  }

  // ---- coercion ----

  predicate IsPrimitive(v: Value) {
    v.Str? || v.Num? || v.Bool?
  }

  /** `String(v)` for a string, number or boolean. */
  function PrimitiveString(v: Value): string
    requires IsPrimitive(v)
  {
    match v
    case Str(s) => s
    case Num(n) => IntToString(n)
    case Bool(b) => if b then "true" else "false"
  }

  lemma SingletonKeys(props: map<string, Value>)
    requires |props| == 1
    ensures forall a, b :: a in props && b in props ==> a == b
  {
    var k :| k in props;
    assert |props.Keys - {k}| == 0;
    assert props.Keys - {k} == {};
  }

  /** `v[Object.keys(v)[0]]` for an object with exactly one key. */
  function SoleValue(props: map<string, Value>): (r: Value)
    requires |props| == 1
    ensures exists k :: k in props && props[k] == r
  {
    SingletonKeys(props);
    var k :| k in props;
    props[k]
  }

  /** `.filter(Boolean)` on strings. */
  function NonEmpty(ss: seq<string>): (r: seq<string>)
    ensures forall i :: 0 <= i < |r| ==> r[i] != ""
  {
    if ss == [] then []
    else if ss[0] == "" then NonEmpty(ss[1..])
    else [ss[0]] + NonEmpty(ss[1..])
  }

  /** `toStr(v)`: the field-agnostic coercion every validator applies first. */
  function ToStr(v: Value): string {
    match v
    case Undefined => ""
    case Null => ""
    case Str(s) => s
    case Num(_) => PrimitiveString(v)
    case Bool(_) => PrimitiveString(v)
    case Obj(props, custom) =>
      if "value" in props && IsPrimitive(props["value"]) then PrimitiveString(props["value"])
      else if |props| == 1 && IsPrimitive(SoleValue(props)) then PrimitiveString(SoleValue(props))
      else if custom.Some? && custom.value != ObjectTag then custom.value
      else ""
    case Arr(es) =>
      // an array's only key is "0" when it has one element
      if |es| == 1 && IsPrimitive(es[0]) then PrimitiveString(es[0])
      else Join(NonEmpty(seq(|es|, i requires 0 <= i < |es| => ToStr(es[i]))), ',')
    case Opaque => ""
  }

  /** The coercions of an array's elements, in order. */
  function ToStrs(es: seq<Value>): (r: seq<string>)
    ensures |r| == |es|
    ensures forall i :: 0 <= i < |es| ==> r[i] == ToStr(es[i])
  {
    seq(|es|, i requires 0 <= i < |es| => ToStr(es[i]))
  }

  /**
   * An array coerces to the comma-join of its non-empty element coercions;
   * the one-key shortcut a one-element array takes agrees with that.
   */
  lemma ToStrArray(es: seq<Value>)
    ensures ToStr(Arr(es)) == Join(NonEmpty(ToStrs(es)), ',')
  {
    assert seq(|es|, i requires 0 <= i < |es| => ToStr(es[i])) == ToStrs(es);
    if |es| == 1 && IsPrimitive(es[0]) {
      assert ToStrs(es) == [ToStr(es[0])];
      assert NonEmpty([ToStr(es[0])]) == if ToStr(es[0]) == "" then [] else [ToStr(es[0])];
    }
  }

  /**
   * When no element coercion contains a comma, splitting an array's
   * coercion at commas recovers exactly the non-empty element coercions.
   */
  lemma ToStrArraySplits(es: seq<Value>)
    requires forall i :: 0 <= i < |es| ==> ',' !in ToStr(es[i])
    requires NonEmpty(ToStrs(es)) != []
    ensures Split(ToStr(Arr(es)), ',') == NonEmpty(ToStrs(es))
  {
    ToStrArray(es);
    NonEmptyElements(ToStrs(es));
    SplitJoin(NonEmpty(ToStrs(es)), ',');
  }

  lemma {:induction false} NonEmptyElements(ss: seq<string>)
    ensures forall i :: 0 <= i < |NonEmpty(ss)| ==> NonEmpty(ss)[i] in ss
  {
    if ss != [] {
      NonEmptyElements(ss[1..]);
    }
  }

  /**
   * A primitive coerces to the same string bare, as the `value` property
   * of an object, as the only property of an object, and as the only
   * element of an array.
   */
  lemma ToStrWrappersAgree(p: Value, key: string)
    requires IsPrimitive(p)
    ensures ToStr(PlainObject(map["value" := p])) == ToStr(p)
    ensures ToStr(PlainObject(map[key := p])) == ToStr(p)
    ensures ToStr(Arr([p])) == ToStr(p)
  {
    var m := map[key := p];
    assert |m| == 1;
    assert SoleValue(m) == p;
  }

  // ---- composition ----

  /** `all(...vs)`: the first failing outcome in list order, or ok. */
  method All(vs: seq<Validator>, value: Value, values: Value) returns (r: Outcome)
    ensures (forall i :: 0 <= i < |vs| ==> vs[i](value, values).valid) ==> r == Ok()
    ensures (exists i :: 0 <= i < |vs| && !vs[i](value, values).valid) ==>
      exists i :: 0 <= i < |vs| && r == vs[i](value, values) && !r.valid &&
        forall j :: 0 <= j < i ==> vs[j](value, values).valid
  {
    var k := 0;
    while k < |vs|
      invariant 0 <= k <= |vs|
      invariant forall j :: 0 <= j < k ==> vs[j](value, values).valid
    {
      var res := vs[k](value, values);
      if !res.valid {
        return res;
      }
      k := k + 1;
    }
    return Ok();
  }

  /** The messages of the validators' outcomes, in list order. */
  function Messages(vs: seq<Validator>, value: Value, values: Value): (ms: seq<string>)
    ensures |ms| == |vs|
    ensures forall i :: 0 <= i < |vs| ==> ms[i] == vs[i](value, values).message
  {
    seq(|vs|, i requires 0 <= i < |vs| => vs[i](value, values).message)
  }

  /** The last non-empty message, or "" when there is none. */
  function LastNonEmpty(ms: seq<string>): string {
    if ms == [] then ""
    else if ms[|ms| - 1] != "" then ms[|ms| - 1]
    else LastNonEmpty(ms[..|ms| - 1])
  }

  lemma {:induction false} LastNonEmptyIs(ms: seq<string>)
    ensures LastNonEmpty(ms) == "" <==> forall i :: 0 <= i < |ms| ==> ms[i] == ""
    ensures LastNonEmpty(ms) != "" ==>
      exists k :: 0 <= k < |ms| && ms[k] == LastNonEmpty(ms) && forall j :: k < j < |ms| ==> ms[j] == ""
  {
    if ms != [] && ms[|ms| - 1] == "" {
      var init := ms[..|ms| - 1];
      LastNonEmptyIs(init);
      assert forall i :: 0 <= i < |init| ==> init[i] == ms[i];
    }
  }

  /**
   * `any(...vs)`: ok at the first passing validator; otherwise a failure
   * carrying the last non-empty message seen, or "Invalid value".
   */
  method Any(vs: seq<Validator>, value: Value, values: Value) returns (r: Outcome)
    ensures (exists i :: 0 <= i < |vs| && vs[i](value, values).valid) ==> r == Ok()
    ensures (forall i :: 0 <= i < |vs| ==> !vs[i](value, values).valid) ==>
      var last := LastNonEmpty(Messages(vs, value, values));
      r == Fail(if last != "" then last else AnyMessage)
  {
    var lastMsg := "";
    var k := 0;
    while k < |vs|
      invariant 0 <= k <= |vs|
      invariant forall j :: 0 <= j < k ==> !vs[j](value, values).valid
      invariant lastMsg == LastNonEmpty(Messages(vs, value, values)[..k])
    {
      var res := vs[k](value, values);
      if res.valid {
        return Ok();
      }
      assert Messages(vs, value, values)[..k + 1] == Messages(vs, value, values)[..k] + [res.message];
      lastMsg := if res.message != "" then res.message else lastMsg;
      k := k + 1;
    }
    assert Messages(vs, value, values)[..k] == Messages(vs, value, values);
    return Fail(if lastMsg != "" then lastMsg else AnyMessage);
  }

  // ---- validators ----

  /** `required(msg)`: some non-white-space character in the coercion. */
  function Required(msg: Option<string>, value: Value): (r: Outcome)
    ensures r.valid <==> HasNonSpace(ToStr(value))
    ensures r.valid ==> r == Ok()
    ensures !r.valid ==> r == Fail(MessageOr(msg, RequiredMessage))
  {
    NonBlankIff(ToStr(value));
    if Trim(ToStr(value)) != "" then Ok() else Fail(MessageOr(msg, RequiredMessage))
  }

  /** `requiredSelect(msg)`: as `required`, with its own default message. */
  function RequiredSelect(msg: Option<string>, value: Value): (r: Outcome)
    ensures r.valid <==> HasNonSpace(ToStr(value))
    ensures r.valid ==> r == Ok()
    ensures !r.valid ==> r == Fail(MessageOr(msg, RequiredSelectMessage))
  {
    NonBlankIff(ToStr(value));
    if Trim(ToStr(value)) != "" then Ok() else Fail(MessageOr(msg, RequiredSelectMessage))
  }

  lemma NonBlankIff(s: string)
    ensures Trim(s) != "" <==> HasNonSpace(s)
  {
    TrimEnds(s);
    if !AllSpace(s) {
      var k :| 0 <= k < |s| && !IsSpace(s[k]);
      assert NonSpaceAt(s, k);
    }
  }

  /** Non-empty, without white space and without `@`: one `[^\s@]+`. */
  predicate Plain(x: string) {
    x != "" && NoSpace(x) && '@' !in x
  }

  predicate EmailParts(s: string, local: string, host: string, tld: string) {
    s == local + "@" + host + "." + tld && Plain(local) && Plain(host) && Plain(tld)
  }

  /** `/^[^\s@]+@[^\s@]+\.[^\s@]+$/.test(s)`, read off the expression. */
  ghost predicate EmailPattern(s: string) {
    exists local, host, tld :: EmailParts(s, local, host, tld)
  }

  /** A domain with a dot that has text on both sides. */
  predicate DottedDomain(d: string) {
    |d| >= 3 && '.' in d[1..|d| - 1]
  }

  /** The same test as a check: no white space, one `@` with text before it, a dotted domain after it. */
  predicate EmailShape(s: string) {
    NoSpace(s) && var parts := Split(s, '@'); |parts| == 2 && parts[0] != "" && DottedDomain(parts[1])
  }

  lemma EmailShapeIff(s: string)
    ensures EmailShape(s) <==> EmailPattern(s)
  {
    if EmailShape(s) {
      EmailShapeMatches(s);
    }
    if EmailPattern(s) {
      var local, host, tld :| EmailParts(s, local, host, tld);
      EmailPartsShape(s, local, host, tld);
    }
  }

  lemma EmailShapeMatches(s: string)
    requires EmailShape(s)
    ensures EmailPattern(s)
  {
    var parts := Split(s, '@');
    JoinSplit(s, '@');
    var local, d := parts[0], parts[1];
    assert s == local + "@" + d;
    var j := 1 + IndexOf(d[1..|d| - 1], '.');
    var host, tld := d[..j], d[j + 1..];
    assert d == host + "." + tld;
    assert local == s[..|local|];
    assert d == s[|local| + 1..];
    assert EmailParts(s, local, host, tld);
  }

  lemma EmailPartsShape(s: string, local: string, host: string, tld: string)
    requires EmailParts(s, local, host, tld)
    ensures EmailShape(s)
  {
    var d := host + "." + tld;
    assert s == local + "@" + d;
    assert Join([local, d], '@') == s;
    SplitJoin([local, d], '@');
    assert d[1..|d| - 1][|host| - 1] == '.';
    NoSpaceConcat(host, ".");
    NoSpaceConcat(host + ".", tld);
    NoSpaceConcat(local, "@");
    NoSpaceConcat(local + "@", d);
  }

  /** `email(msg)`: the trimmed coercion matches the simplified address pattern. */
  function Email(msg: Option<string>, value: Value): (r: Outcome)
    ensures r.valid <==> EmailPattern(Trim(ToStr(value)))
    ensures r.valid ==> r == Ok()
    ensures !r.valid ==> r == Fail(MessageOr(msg, EmailMessage))
  {
    var s := Trim(ToStr(value));
    EmailShapeIff(s);
    if s == "" then Fail(MessageOr(msg, EmailMessage))
    else if EmailShape(s) then Ok()
    else Fail(MessageOr(msg, EmailMessage))
  }

  /** `fullName(msg)`: at least two white-space separated tokens. */
  function FullName(msg: Option<string>, value: Value): (r: Outcome)
    ensures r.valid <==> TwoSeparated(Trim(ToStr(value)))
    ensures r.valid ==> r == Ok()
    ensures !r.valid ==> r == Fail(MessageOr(msg, FullNameMessage))
  {
    var s := Trim(ToStr(value));
    TwoWordsIff(s);
    if |Words(s)| >= 2 then Ok() else Fail(MessageOr(msg, FullNameMessage))
  }

  /** `minLength(n, msg)`: the untrimmed coercion has at least n characters. */
  function MinLength(n: int, msg: Option<string>, value: Value): (r: Outcome)
    ensures r.valid <==> |ToStr(value)| >= n
    ensures r.valid ==> r == Ok()
    ensures !r.valid ==> r == Fail(MessageOr(msg, MinLengthMessage(n)))
  {
    if |ToStr(value)| >= n then Ok() else Fail(MessageOr(msg, MinLengthMessage(n)))
  }

  /** `maxLength(n, msg)`: the untrimmed coercion has at most n characters. */
  function MaxLength(n: int, msg: Option<string>, value: Value): (r: Outcome)
    ensures r.valid <==> |ToStr(value)| <= n
    ensures r.valid ==> r == Ok()
    ensures !r.valid ==> r == Fail(MessageOr(msg, MaxLengthMessage(n)))
  {
    if |ToStr(value)| <= n then Ok() else Fail(MessageOr(msg, MaxLengthMessage(n)))
  }

  /**
   * `all(minLength(lo, m1), maxLength(hi, m2))`: passes exactly for
   * lengths between the bounds; a too-short value reports the lower
   * bound's message even when it also exceeds the upper bound.
   */
  method LengthWindow(lo: int, hi: int, m1: Option<string>, m2: Option<string>, value: Value, values: Value)
    returns (r: Outcome)
    ensures r.valid <==> lo <= |ToStr(value)| <= hi
    ensures r.valid ==> r == Ok()
    ensures |ToStr(value)| < lo ==> r == Fail(MessageOr(m1, MinLengthMessage(lo)))
    ensures lo <= |ToStr(value)| && |ToStr(value)| > hi ==> r == Fail(MessageOr(m2, MaxLengthMessage(hi)))
  {
    var vs: seq<Validator> := [(v, _) => MinLength(lo, m1, v), (v, _) => MaxLength(hi, m2, v)];
    assert vs[0](value, values) == MinLength(lo, m1, value);
    assert vs[1](value, values) == MaxLength(hi, m2, value);
    r := All(vs, value, values);
  }

  /** `pattern(re, msg)`: the untrimmed coercion satisfies the caller's test. */
  function Pattern(re: string -> bool, msg: Option<string>, value: Value): (r: Outcome)
    ensures r.valid <==> re(ToStr(value))
    ensures r.valid ==> r == Ok()
    ensures !r.valid ==> r == Fail(MessageOr(msg, PatternMessage))
  {
    if re(ToStr(value)) then Ok() else Fail(MessageOr(msg, PatternMessage))
  }

  /** `[0-9\s\-()]`. */
  predicate PhoneChar(c: char) {
    IsDigit(c) || IsSpace(c) || c == '-' || c == '(' || c == ')'
  }

  /** `[0-9\s\-()]{7,15}` on the whole string. */
  predicate PhoneBody(s: string) {
    7 <= |s| <= 15 && forall i :: 0 <= i < |s| ==> PhoneChar(s[i])
  }

  /** `/^\+?[0-9\s\-()]{7,15}$/`, read off the expression: with or without the `+`. */
  predicate PhoneBasicPattern(s: string) {
    PhoneBody(s) || (s != [] && s[0] == '+' && PhoneBody(s[1..]))
  }

  /** The same test as a check: drop one leading `+`, then test the rest. */
  predicate PhoneBasicShape(s: string) {
    var body := if s != [] && s[0] == '+' then s[1..] else s;
    PhoneBody(body)
  }

  lemma PhoneBasicShapeIff(s: string)
    ensures PhoneBasicShape(s) <==> PhoneBasicPattern(s)
  {
    if s != [] && s[0] == '+' {
      assert !PhoneChar(s[0]);
    }
  }

  /** `phoneBasic(msg)`: an optional `+` and 7 to 15 digits, spaces, dashes or parentheses after trimming. */
  function PhoneBasic(msg: Option<string>, value: Value): (r: Outcome)
    ensures r.valid <==> PhoneBasicPattern(Trim(ToStr(value)))
    ensures r.valid ==> r == Ok()
    ensures !r.valid ==> r == Fail(MessageOr(msg, PhoneBasicMessage))
  {
    var s := Trim(ToStr(value));
    PhoneBasicShapeIff(s);
    if PhoneBasicShape(s) then Ok() else Fail(MessageOr(msg, PhoneBasicMessage))
  }

  predicate AllDigits(s: string) {
    forall i :: 0 <= i < |s| ==> IsDigit(s[i])
  }

  predicate DashedParts(s: string, a: string, b: string, c: string) {
    s == a + "-" + b + "-" + c && |a| == 3 && |b| == 3 && |c| == 4 && AllDigits(a) && AllDigits(b) && AllDigits(c)
  }

  /** `/^\d{3}-\d{3}-\d{4}$/`, read off the expression. */
  ghost predicate DashedUSPattern(s: string) {
    exists a, b, c :: DashedParts(s, a, b, c)
  }

  /** The same test as a check, position by position. */
  predicate DashedUSShape(s: string) {
    |s| == 12 && forall i :: 0 <= i < 12 ==> if i == 3 || i == 7 then s[i] == '-' else IsDigit(s[i])
  }

  lemma DashedUSShapeIff(s: string)
    ensures DashedUSShape(s) <==> DashedUSPattern(s)
  {
    if DashedUSShape(s) {
      var a, b, c := s[..3], s[4..7], s[8..];
      assert s == a + "-" + b + "-" + c;
      assert forall i :: 0 <= i < 3 ==> a[i] == s[i] && b[i] == s[i + 4];
      assert forall i :: 0 <= i < 4 ==> c[i] == s[i + 8];
      assert DashedParts(s, a, b, c);
    }
    if DashedUSPattern(s) {
      var a, b, c :| DashedParts(s, a, b, c);
      forall i | 0 <= i < 12 ensures if i == 3 || i == 7 then s[i] == '-' else IsDigit(s[i]) {
        if i < 3 { assert s[i] == a[i]; }
        else if 3 < i < 7 { assert s[i] == b[i - 4]; }
        else if i > 7 { assert s[i] == c[i - 8]; }
      }
    }
  }

  /** `phoneDashedUS(msg)`: exactly `ddd-ddd-dddd` after trimming. */
  function PhoneDashedUS(msg: Option<string>, value: Value): (r: Outcome)
    ensures r.valid <==> DashedUSPattern(Trim(ToStr(value)))
    ensures r.valid ==> r == Ok()
    ensures !r.valid ==> r == Fail(MessageOr(msg, PhoneDashedUSMessage))
  {
    var s := Trim(ToStr(value));
    DashedUSShapeIff(s);
    if DashedUSShape(s) then Ok() else Fail(MessageOr(msg, PhoneDashedUSMessage))
  }

  /** The answers `mustAccept` takes as consent, after lower-casing. */
  const AcceptWords: set<string> := {"true", "on", "1", "yes"}

  /** `mustAccept(msg)`: the value `true`, or a coercion that lower-cases to one of the accept words. */
  function MustAccept(msg: Option<string>, value: Value): (r: Outcome)
    ensures r.valid <==> ToLower(ToStr(value)) in AcceptWords
    ensures r.valid ==> r == Ok()
    ensures !r.valid ==> r == Fail(MessageOr(msg, MustAcceptMessage))
  {
    if value == Bool(true) then
      assert ToLower("true") == "true";
      Ok()
    else
      var s := ToLower(ToStr(value));
      if s == "true" || s == "on" || s == "1" || s == "yes" then Ok() else Fail(MessageOr(msg, MustAcceptMessage))
  }
}
