/**
 * The cookie helpers: `get` parses the `document.cookie` string (the
 * Cookie header syntax of section 4.2.1 of RFC 6265), `set` and `remove`
 * build an assignment string (the Set-Cookie attribute syntax of section
 * 4.1.1 of RFC 6265, with `SameSite` from the RFC 6265bis draft), and
 * `has`, `getJSON`, `setJSON` compose them. Names and values pass through
 * `encodeURIComponent` (percent-encoding, section 2.1 of RFC 3986).
 */
module Cookies {
  import opened JsValues
  import opened Text
  import opened Browser

  // ---- reading ----

  /** `document.cookie ? document.cookie.split(";") : []`. */
  function Parts(header: string): seq<string> {
    if header == [] then [] else Split(header, ';')
  }

  /** Part i, trimmed, starts with `nameEQ`. */
  predicate MatchAt(parts: seq<string>, nameEQ: string, i: int) {
    0 <= i < |parts| && StartsWith(Trim(parts[i]), nameEQ)
  }

  /** The text after `nameEQ` in the first trimmed part that starts with it. */
  function FirstMatch(parts: seq<string>, nameEQ: string): Option<string> {
    if parts == [] then None
    else
      var c := Trim(parts[0]);
      if StartsWith(c, nameEQ) then Some(c[|nameEQ|..])
      else FirstMatch(parts[1..], nameEQ)
  }

  /** Part i of the list is part i - 1 of its tail. */
  lemma MatchAtTail(parts: seq<string>, nameEQ: string)
    requires parts != []
    ensures forall i :: 1 <= i < |parts| ==> MatchAt(parts, nameEQ, i) == MatchAt(parts[1..], nameEQ, i - 1)
  {
    forall i | 1 <= i < |parts| ensures MatchAt(parts, nameEQ, i) == MatchAt(parts[1..], nameEQ, i - 1) {
      assert parts[i] == parts[1..][i - 1];
    }
  }

  /** FirstMatch finds nothing exactly when no part matches. */
  lemma {:induction false} FirstMatchNone(parts: seq<string>, nameEQ: string)
    ensures FirstMatch(parts, nameEQ).None? <==> forall i :: 0 <= i < |parts| ==> !MatchAt(parts, nameEQ, i)
  {
    if parts != [] {
      if MatchAt(parts, nameEQ, 0) {
        assert FirstMatch(parts, nameEQ).Some?;
      } else {
        var tail := parts[1..];
        assert FirstMatch(parts, nameEQ) == FirstMatch(tail, nameEQ);
        FirstMatchNone(tail, nameEQ);
        MatchAtTail(parts, nameEQ);
        if FirstMatch(tail, nameEQ).None? {
          forall i | 0 <= i < |parts| ensures !MatchAt(parts, nameEQ, i) {
            if i > 0 { assert !MatchAt(tail, nameEQ, i - 1); }
          }
        } else {
          var i :| 0 <= i < |tail| && MatchAt(tail, nameEQ, i);
          assert MatchAt(parts, nameEQ, i + 1);
        }
      }
    }
  }

  /** What FirstMatch finds is the rest of a matching part with no match before it. */
  lemma {:induction false} FirstMatchFirst(parts: seq<string>, nameEQ: string)
    requires FirstMatch(parts, nameEQ).Some?
    ensures exists i :: FirstAt(parts, nameEQ, i) && FirstMatch(parts, nameEQ).value == Trim(parts[i])[|nameEQ|..]
  {
    if MatchAt(parts, nameEQ, 0) {
      assert FirstAt(parts, nameEQ, 0);
    } else {
      var tail := parts[1..];
      assert FirstMatch(parts, nameEQ) == FirstMatch(tail, nameEQ);
      FirstMatchFirst(tail, nameEQ);
      var i :| FirstAt(tail, nameEQ, i) && FirstMatch(tail, nameEQ).value == Trim(tail[i])[|nameEQ|..];
      MatchAtTail(parts, nameEQ);
      forall j | 0 <= j < i + 1 ensures !MatchAt(parts, nameEQ, j) {
        if j > 0 { assert !MatchAt(tail, nameEQ, j - 1); }
      }
      assert parts[i + 1] == tail[i];
      assert FirstAt(parts, nameEQ, i + 1);
    }
  }

  /** Part i matches and no part before it does. */
  predicate FirstAt(parts: seq<string>, nameEQ: string, i: int) {
    MatchAt(parts, nameEQ, i) && forall j :: 0 <= j < i ==> !MatchAt(parts, nameEQ, j)
  }

  /** `decodeURIComponent(raw)`, or `raw` itself when decoding throws. */
  function DecodeOrRaw(p: Platform, raw: string): string {
    match p.decode(raw)
    case Some(d) => d
    case None => raw
  }

  /** What `cookies.get(name)` returns for a cookie string; None is `null`. */
  function CookieValue(p: Platform, header: string, name: string): (r: Option<string>)
    ensures r.None? <==> FirstMatch(Parts(header), p.encode(name) + "=").None?
  {
    match FirstMatch(Parts(header), p.encode(name) + "=")
    case None => None
    case Some(raw) => Some(DecodeOrRaw(p, raw))
  }

  /** `cookies.get(name)`. */
  method Get(doc: Document, p: Platform, name: string) returns (r: Option<string>)
    ensures r == CookieValue(p, doc.cookie, name)
  {
    var nameEQ := p.encode(name) + "=";
    var parts := Parts(doc.cookie);
    var k := 0;
    while k < |parts|
      invariant 0 <= k <= |parts|
      invariant FirstMatch(parts, nameEQ) == FirstMatch(parts[k..], nameEQ)
    {
      var c := Trim(parts[k]);
      if StartsWith(c, nameEQ) {
        var raw := c[|nameEQ|..];
        match p.decode(raw) {
          case Some(d) => return Some(d);
          case None => return Some(raw);
        }
      }
      assert parts[k..][1..] == parts[k + 1..];
      k := k + 1;
    }
    return None;
  }

  /** `cookies.has(name)`. */
  function Has(p: Platform, header: string, name: string): (r: bool)
    ensures r <==> exists i :: MatchAt(Parts(header), p.encode(name) + "=", i)
  {
    FirstMatchNone(Parts(header), p.encode(name) + "=");
    CookieValue(p, header, name) != None
  }

  /** `cookies.getJSON(name)`: `null` for a missing, empty or unparsable value. */
  function GetJSON(p: Platform, header: string, name: string): (r: Value)
    ensures CookieValue(p, header, name).None? ==> r == Null
    ensures CookieValue(p, header, name) == Some("") ==> r == Null
    ensures forall v :: CookieValue(p, header, name) == Some(v) && v != "" ==>
      r == match p.parse(v) case Some(x) => x case None => Null
  {
    match CookieValue(p, header, name)
    case None => Null
    case Some(v) =>
      if v == "" then Null
      else match p.parse(v)
        case Some(x) => x
        case None => Null
  }

  // ---- writing ----

  /** An `expires` option: absent or falsy, a `Date` (by its UTC string), or any other truthy value. */
  datatype Expiry = NoExpires | ExpiresDate(utc: string) | ExpiresOther

  /**
   * The options `set` reads. `days` is None unless it is a finite number;
   * an empty `domain` or `sameSite` string stands for a falsy one.
   */
  datatype SetOptions = SetOptions(days: Option<int>, expires: Expiry, path: string, domain: string, secure: bool, sameSite: string)

  /** `set`'s defaults: `path = "/"`, `secure = false`, `sameSite = "Lax"`, no expiry, no domain. */
  const DefaultSetOptions: SetOptions := SetOptions(None, NoExpires, "/", "", false, "Lax")

  /** The `Expires` date `set` writes, if any: an explicit date wins; `days` counts only without one. */
  function ExpiryDate(p: Platform, o: SetOptions): (d: Option<string>)
    ensures o.expires.ExpiresDate? ==> d == Some(o.expires.utc)
    ensures o.expires.ExpiresOther? ==> d == None
    ensures o.expires.NoExpires? ==> d == if o.days.Some? then Some(p.utcInDays(o.days.value)) else None
  {
    match o.expires
    case ExpiresDate(utc) => Some(utc)
    case ExpiresOther => None
    case NoExpires => if o.days.Some? then Some(p.utcInDays(o.days.value)) else None
  }

  /** One attribute as `set` appends it: the `"; …"` text when present, nothing otherwise. */
  function Attr(present: bool, text: string): (r: string)
    requires text != [] && text[0] == ';'
    ensures r == [] || r[0] == ';'
  {
    if present then text else ""
  }

  /** The Expires attribute `set` writes, if any. */
  function ExpiresAttr(p: Platform, o: SetOptions): (r: string)
    ensures r == [] || r[0] == ';'
  {
    match ExpiryDate(p, o)
    case Some(d) => "; Expires=" + d
    case None => ""
  }

  /** What `set` appends after `name=value`: Expires, Path, Domain, Secure, SameSite, in that order. */
  function SetSuffix(p: Platform, o: SetOptions): (r: string)
    ensures r == [] || r[0] == ';'
  {
    ExpiresAttr(p, o)
      + Attr(o.path != "", "; Path=" + o.path)
      + Attr(o.domain != "", "; Domain=" + o.domain)
      + Attr(o.secure, "; Secure")
      + Attr(o.sameSite != "", "; SameSite=" + o.sameSite)
  }

  /** The string `set` assigns to `document.cookie`. */
  function SetString(p: Platform, name: string, value: string, o: SetOptions): string {
    p.encode(name) + "=" + p.encode(value) + SetSuffix(p, o)
  }

  /** What `remove` appends after `name=`: the expiry at that date, then Path and Domain when given. */
  function ExpiredSuffix(date: string, path: string, domain: string): (r: string)
    ensures r != [] && r[0] == ';'
  {
    "; Expires=" + date + Attr(path != "", "; Path=" + path) + Attr(domain != "", "; Domain=" + domain)
  }

  /** `remove`'s default `path` when the options leave it undefined; `domain` then stands for a falsy one (""). */
  const DefaultRemovePath: string := "/"

  /** The string `remove` assigns to `document.cookie`: the expiry is `new Date(0).toUTCString()`. */
  function RemoveString(p: Platform, name: string, path: string, domain: string): string {
    p.encode(name) + "=" + ExpiredSuffix(Epoch, path, domain)
  }

  /** `cookies.set(name, value, opts)`: one assignment, always answering true. */
  method Set(doc: Document, p: Platform, name: string, value: string, o: SetOptions) returns (ok: bool)
    modifies doc
    ensures ok
    ensures doc.writes == old(doc.writes) + [SetString(p, name, value, o)]
    ensures doc.cookie == Render(Store(ParseJar(old(doc.cookie)), SetString(p, name, value, o)))
  {
    var pair := p.encode(name) + "=" + p.encode(value);
    var cookie := pair;
    var exp := o.expires;
    if exp.NoExpires? && o.days.Some? {
      exp := ExpiresDate(p.utcInDays(o.days.value));
    }
    if exp.ExpiresDate? {
      cookie := cookie + ("; Expires=" + exp.utc);
    }
    ghost var c0 := cookie;
    assert c0 == pair + ExpiresAttr(p, o);
    if o.path != "" {
      cookie := cookie + ("; Path=" + o.path);
    }
    ghost var c1 := cookie;
    assert c1 == c0 + Attr(o.path != "", "; Path=" + o.path);
    if o.domain != "" {
      cookie := cookie + ("; Domain=" + o.domain);
    }
    ghost var c2 := cookie;
    assert c2 == c1 + Attr(o.domain != "", "; Domain=" + o.domain);
    if o.secure {
      cookie := cookie + "; Secure";
    }
    ghost var c3 := cookie;
    assert c3 == c2 + Attr(o.secure, "; Secure");
    if o.sameSite != "" {
      cookie := cookie + ("; SameSite=" + o.sameSite);
    }
    assert cookie == c3 + Attr(o.sameSite != "", "; SameSite=" + o.sameSite);
    assert cookie == SetString(p, name, value, o) by {
      SetStringParts(pair, ExpiresAttr(p, o), Attr(o.path != "", "; Path=" + o.path),
        Attr(o.domain != "", "; Domain=" + o.domain), Attr(o.secure, "; Secure"),
        Attr(o.sameSite != "", "; SameSite=" + o.sameSite));
    }
    doc.AssignCookie(cookie);
    return true;
  }

  lemma SetStringParts(pair: string, e: string, a: string, b: string, c: string, d: string)
    ensures pair + e + a + b + c + d == pair + (e + a + b + c + d)
  {
  }

  /** `cookies.remove(name, { path, domain })`: an empty value with the epoch expiry. */
  method Remove(doc: Document, p: Platform, name: string, path: string, domain: string) returns (ok: bool)
    modifies doc
    ensures ok
    ensures doc.writes == old(doc.writes) + [RemoveString(p, name, path, domain)]
    ensures doc.cookie == Render(Store(ParseJar(old(doc.cookie)), RemoveString(p, name, path, domain)))
  {
    var cookie := p.encode(name) + "=" + ("; Expires=" + Epoch);
    ghost var c0 := cookie;
    if path != "" {
      cookie := cookie + ("; Path=" + path);
    }
    ghost var c1 := cookie;
    assert c1 == c0 + Attr(path != "", "; Path=" + path);
    if domain != "" {
      cookie := cookie + ("; Domain=" + domain);
    }
    assert cookie == c1 + Attr(domain != "", "; Domain=" + domain);
    assert cookie == RemoveString(p, name, path, domain) by {
      SetStringParts(p.encode(name) + "=", "; Expires=" + Epoch, Attr(path != "", "; Path=" + path),
        Attr(domain != "", "; Domain=" + domain), "", "");
    }
    doc.AssignCookie(cookie);
    return true;
  }

  /** `cookies.setJSON(name, obj, opts)`: `set` of the serialised object. */
  method SetJSON(doc: Document, p: Platform, name: string, obj: Value, o: SetOptions) returns (ok: bool)
    modifies doc
    ensures ok
    ensures doc.writes == old(doc.writes) + [SetString(p, name, p.stringify(obj), o)]
    ensures doc.cookie == Render(Store(ParseJar(old(doc.cookie)), SetString(p, name, p.stringify(obj), o)))
  {
    ok := Set(doc, p, name, p.stringify(obj), o);
  }

  // ---- reading what was written ----

  /** What `encodeURIComponent` output never contains: white space, `;` and `=`. */
  predicate SafeToken(t: string) {
    NoSpace(t) && ';' !in t && '=' !in t
  }

  /** The value of the first stored cookie with that name. */
  function Lookup(jar: seq<Cookie>, name: string): Option<string> {
    if jar == [] then None
    else if jar[0].name == name then Some(jar[0].value)
    else Lookup(jar[1..], name)
  }

  /** A trimmed jar piece starts with `e=` exactly when the cookie is named e. */
  lemma MatchIffSameName(c: Cookie, e: string)
    requires '=' !in c.name && '=' !in e
    ensures StartsWith(Pair(c), e + "=") <==> c.name == e
    ensures c.name == e ==> Pair(c)[|e + "="|..] == c.value
  {
    var s := Pair(c);
    var t := e + "=";
    if StartsWith(s, t) {
      assert s[..|t|] == t;
      assert s[|c.name|] == '=' && t[|e|] == '=';
      assert |c.name| == |e|;
      assert c.name == s[..|e|];
    }
    if c.name == e {
      assert s == t + c.value;
    }
  }

  lemma PairTrim(c: Cookie)
    requires WellFormed(c)
    ensures Trim(Pair(c)) == Pair(c) && Trim(" " + Pair(c)) == Pair(c)
  {
    var s := Pair(c);
    assert s[|c.name|] == '=';
    if c.name != [] { assert s[0] == c.name[0]; }
    if c.value != [] { assert s[|s| - 1] == c.value[|c.value| - 1]; }
    TrimPadded(s);
  }

  /** Each piece of a rendered jar trims to its cookie's pair. */
  lemma PieceTrim(jar: seq<Cookie>, i: int)
    requires WellFormedJar(jar) && 0 <= i < |jar|
    ensures Trim(Pieces(jar)[i]) == Pair(jar[i])
  {
    var c := jar[i];
    assert WellFormed(c);
    PairTrim(c);
    if i == 0 {
      assert Pieces(jar)[i] == "" + Pair(c) == Pair(c);
    } else {
      assert Pieces(jar)[i] == " " + Pair(c);
    }
  }

  /** The parts of a rendered jar are its pieces. */
  lemma PartsOfRender(jar: seq<Cookie>)
    requires WellFormedJar(jar)
    ensures Parts(Render(jar)) == Pieces(jar)
  {
    var ps := Pieces(jar);
    if jar != [] {
      assert Render(jar) != [] by {
        JoinHead(ps, ';');
        assert Pair(jar[0])[|jar[0].name|] == '=';
      }
      forall i | 0 <= i < |ps| ensures ';' !in ps[i] {
        assert ps[i] == (if i == 0 then "" else " ") + jar[i].name + "=" + jar[i].value;
      }
      SplitJoin(ps, ';');
    }
  }

  /** A join starts with its first part. */
  lemma JoinHead(parts: seq<string>, sep: char)
    requires parts != []
    ensures StartsWith(Join(parts, sep), parts[0])
  {
  }

  /** Searching parts that trim to a jar's pairs finds the jar's first cookie of that name. */
  lemma {:induction false} FirstMatchJar(parts: seq<string>, jar: seq<Cookie>, e: string)
    requires WellFormedJar(jar) && '=' !in e
    requires |parts| == |jar| && forall i :: 0 <= i < |jar| ==> Trim(parts[i]) == Pair(jar[i])
    ensures FirstMatch(parts, e + "=") == Lookup(jar, e)
  {
    if jar != [] {
      MatchIffSameName(jar[0], e);
      FirstMatchJar(parts[1..], jar[1..], e);
    }
  }

  /** Reading a rendered jar: `get` decodes the value of the first cookie whose name is the encoded name. */
  lemma GetRendered(p: Platform, jar: seq<Cookie>, name: string)
    requires WellFormedJar(jar) && '=' !in p.encode(name)
    ensures CookieValue(p, Render(jar), name) ==
      match Lookup(jar, p.encode(name)) case None => None case Some(raw) => Some(DecodeOrRaw(p, raw))
  {
    PartsOfRender(jar);
    forall i | 0 <= i < |jar| ensures Trim(Pieces(jar)[i]) == Pair(jar[i]) {
      PieceTrim(jar, i);
    }
    FirstMatchJar(Pieces(jar), jar, p.encode(name));
  }

  lemma {:induction false} LookupWithout(jar: seq<Cookie>, e: string, c: Cookie)
    ensures Lookup(Without(jar, e), e) == None
    ensures c.name == e ==> Lookup(Without(jar, e) + [c], e) == Some(c.value)
  {
    if jar != [] {
      LookupWithout(jar[1..], e, c);
      if jar[0].name != e {
        assert (Without(jar, e) + [c])[1..] == Without(jar[1..], e) + [c];
      }
    } else {
      assert Without(jar, e) + [c] == [c];
    }
  }

  lemma SafePair(ename: string, evalue: string)
    requires SafeToken(ename) && SafeToken(evalue)
    ensures NoSpace(ename + "=" + evalue) && ';' !in ename + "=" + evalue
  {
    NoSpaceConcat(ename, "=");
    NoSpaceConcat(ename + "=", evalue);
    var pair := ename + "=" + evalue;
    forall k | 0 <= k < |pair| ensures pair[k] != ';' {
      if k > |ename| { assert pair[k] == evalue[k - |ename| - 1]; }
    }
  }

  /** The first `=` of `name=value` is the one after a name without `=`. */
  lemma PairSplitsAtName(ename: string, evalue: string)
    requires '=' !in ename
    ensures '=' in ename + "=" + evalue
    ensures IndexOf(ename + "=" + evalue, '=') == |ename|
    ensures (ename + "=" + evalue)[..|ename|] == ename && (ename + "=" + evalue)[|ename| + 1..] == evalue
  {
    var pair := ename + "=" + evalue;
    assert pair[|ename|] == '=';
    assert pair[..|ename|] == ename;
  }

  /** The first `;`-segment of a pair followed by attributes is the pair. */
  lemma FirstSegment(pair: string, suffix: string)
    requires ';' !in pair
    requires suffix == [] || suffix[0] == ';'
    ensures Split(pair + suffix, ';')[0] == pair
  {
    if suffix != [] {
      SplitCons(pair, suffix[1..], ';');
      assert pair + suffix == pair + [';'] + suffix[1..];
    } else {
      assert pair + suffix == pair;
    }
  }

  /** The cookie an assignment of `enc(name)=enc(value)` followed by attributes stores. */
  lemma AssignmentOf(ename: string, evalue: string, suffix: string)
    requires SafeToken(ename) && SafeToken(evalue)
    requires suffix == [] || suffix[0] == ';'
    ensures Split(ename + "=" + evalue + suffix, ';')[0] == ename + "=" + evalue
    ensures '=' in Trim(ename + "=" + evalue)
    ensures Assignment(ename + "=" + evalue) == Cookie(ename, evalue)
  {
    var pair := ename + "=" + evalue;
    SafePair(ename, evalue);
    FirstSegment(pair, suffix);
    TrimNoSpace(pair);
    PairSplitsAtName(ename, evalue);
    TrimNoSpace(ename);
    TrimNoSpace(evalue);
  }

  /**
   * Reading back what `set` wrote: a browser that stores the assignment
   * returns the value from `get`, provided the encoding behaves like
   * `encodeURIComponent` (no white space, `;` or `=` in its output, and
   * `decodeURIComponent` inverts it) and the cookie is not written already
   * expired at the epoch.
   */
  lemma SetThenGet(p: Platform, header: string, name: string, value: string, o: SetOptions)
    requires SafeToken(p.encode(name)) && SafeToken(p.encode(value))
    requires p.decode(p.encode(value)) == Some(value)
    requires !ExpiresAt(Split(SetString(p, name, value, o), ';'), Epoch)
    ensures CookieValue(p, Render(Store(ParseJar(header), SetString(p, name, value, o))), name) == Some(value)
  {
    var e := p.encode(name);
    AssignmentOf(e, p.encode(value), SetSuffix(p, o));
    var jar := ParseJar(header);
    var c := Cookie(e, p.encode(value));
    assert Store(jar, SetString(p, name, value, o)) == Without(jar, e) + [c];
    LookupWithout(jar, e, c);
    GetRendered(p, Without(jar, e) + [c], name);
  }

  /** The second of three `;`-segments, the last possibly empty. */
  lemma SplitSecond(head: string, x: string, rest: string)
    requires ';' !in head && ';' !in x
    requires rest == [] || rest[0] == ';'
    ensures |Split(head + [';'] + (x + rest), ';')| > 1
    ensures Split(head + [';'] + (x + rest), ';')[1] == x
  {
    SplitCons(head, x + rest, ';');
    FirstSegment(x, rest);
  }

  /** The expiry attribute text, without its `;`, has no `;` and trims to `Expires=date`. */
  lemma ExpiresSegment(date: string)
    requires ';' !in date && date != [] && !IsSpace(date[|date| - 1])
    ensures ';' !in " Expires=" + date
    ensures Trim(" Expires=" + date) == "Expires=" + date
  {
    var x := " Expires=" + date;
    forall k | 9 <= k < |x| ensures x[k] != ';' {
      assert x[k] == date[k - 9];
    }
    ExpiresTrim(date);
  }

  lemma ExpiresTrim(date: string)
    requires date != [] && !IsSpace(date[|date| - 1])
    ensures Trim(" Expires=" + date) == "Expires=" + date
  {
    var y := "Expires=" + date;
    LastOfAppend("Expires=", date);
    assert y[0] == 'E';
    TrimPadded(y);
    assert " Expires=" + date == " " + y;
  }

  lemma LastOfAppend(a: string, b: string)
    requires b != []
    ensures (a + b)[|a + b| - 1] == b[|b| - 1]
  {
  }

  /** A `remove` string carries the expiry at its date as its second segment. */
  lemma ExpiredSegments(e: string, date: string, path: string, domain: string)
    requires SafeToken(e) && ';' !in date && date != [] && !IsSpace(date[|date| - 1])
    ensures ExpiresAt(Split(e + "=" + ExpiredSuffix(date, path, domain), ';'), date)
  {
    var x := " Expires=" + date;
    var rest := Attr(path != "", "; Path=" + path) + Attr(domain != "", "; Domain=" + domain);
    var head := e + "=";
    assert e + "=" + ExpiredSuffix(date, path, domain) == head + [';'] + (x + rest);
    SafePair(e, "");
    ExpiresSegment(date);
    SplitSecond(head, x, rest);
  }

  lemma EpochShape()
    ensures ';' !in Epoch && Epoch != [] && !IsSpace(Epoch[|Epoch| - 1])
  {
  }

  /** After `remove`, `get` finds nothing, so `has` is false. */
  lemma RemoveThenGet(p: Platform, header: string, name: string, path: string, domain: string)
    requires SafeToken(p.encode(name))
    ensures CookieValue(p, Render(Store(ParseJar(header), RemoveString(p, name, path, domain))), name) == None
  {
    var e := p.encode(name);
    var jar := ParseJar(header);
    RemoveStores(p, jar, name, path, domain);
    LookupWithout(jar, e, Cookie(e, ""));
    GetRendered(p, Without(jar, e), name);
  }

  /** A browser that stores a `remove` string drops every cookie with the encoded name. */
  lemma RemoveStores(p: Platform, jar: seq<Cookie>, name: string, path: string, domain: string)
    requires WellFormedJar(jar) && SafeToken(p.encode(name))
    ensures Store(jar, RemoveString(p, name, path, domain)) == Without(jar, p.encode(name))
  {
    var e := p.encode(name);
    var suffix := ExpiredSuffix(Epoch, path, domain);
    AssignmentOf(e, "", suffix);
    assert e + "=" + "" == e + "=";
    EpochShape();
    ExpiredSegments(e, Epoch, path, domain);
  }

  /** `getJSON` after `setJSON` gives the object back, for an object the JSON functions round-trip. */
  lemma SetJSONThenGetJSON(p: Platform, header: string, name: string, obj: Value, o: SetOptions)
    requires SafeToken(p.encode(name)) && SafeToken(p.encode(p.stringify(obj)))
    requires p.decode(p.encode(p.stringify(obj))) == Some(p.stringify(obj))
    requires p.stringify(obj) != "" && p.parse(p.stringify(obj)) == Some(obj)
    requires !ExpiresAt(Split(SetString(p, name, p.stringify(obj), o), ';'), Epoch)
    ensures GetJSON(p, Render(Store(ParseJar(header), SetString(p, name, p.stringify(obj), o))), name) == obj
  {
    SetThenGet(p, header, name, p.stringify(obj), o);
  }

  /** A name that is a proper prefix of a stored cookie's name does not find that cookie. */
  lemma PrefixNameNoMatch(p: Platform, name: string, other: Cookie)
    requires WellFormed(other) && '=' !in p.encode(name)
    requires p.encode(name) != other.name
    ensures !StartsWith(Trim(Pair(other)), p.encode(name) + "=")
  {
    PairTrim(other);
    MatchIffSameName(other, p.encode(name));
  }
}
