/**
 * The browser environment the library reads and writes: `document.cookie`
 * (a string-valued store), `document.referrer`, `window.location`, and the
 * runtime functions it calls but does not define (`encodeURIComponent`,
 * `decodeURIComponent`, `JSON.parse`, `JSON.stringify`, and the date a
 * number of days from now rendered by `toUTCString`).
 *
 * Assigning to `document.cookie` is modelled by a small cookie jar: the
 * assigned string's first `;`-segment is split at its first `=` into a
 * trimmed name and value, any stored cookie of that name is dropped, and
 * the new one is appended unless the assignment carries the epoch expiry.
 * Reading `document.cookie` gives the jar as `name=value` pairs joined by
 * `"; "`.
 */
module Browser {
  import opened JsValues
  import opened Text

  /** The runtime functions, as pure functions of their arguments; `None` means the call throws. */
  datatype Platform = Platform(
    encode: string -> string,
    decode: string -> Option<string>,
    parse: string -> Option<Value>,
    stringify: Value -> string,
    utcInDays: int -> string)

  /** `new Date(0).toUTCString()`. */
  const Epoch: string := "Thu, 01 Jan 1970 00:00:00 GMT"

  datatype Cookie = Cookie(name: string, value: string)

  /** A stored cookie renders as a `name=value` pair that `trim` leaves alone and `;` does not cut. */
  predicate WellFormed(c: Cookie) {
    && '=' !in c.name && ';' !in c.name && ';' !in c.value
    && (c.name == [] || !IsSpace(c.name[0]))
    && (c.value == [] || !IsSpace(c.value[|c.value| - 1]))
  }

  predicate WellFormedJar(jar: seq<Cookie>) {
    forall i :: 0 <= i < |jar| ==> WellFormed(jar[i])
  }

  function Pair(c: Cookie): string {
    c.name + "=" + c.value
  }

  /** The `;`-separated pieces of the rendered jar: `"a=1"`, `" b=2"`, … */
  function Pieces(jar: seq<Cookie>): (ps: seq<string>)
    ensures |ps| == |jar|
    ensures forall i :: 0 <= i < |jar| ==> ps[i] == (if i == 0 then "" else " ") + Pair(jar[i])
  {
    seq(|jar|, i requires 0 <= i < |jar| => (if i == 0 then "" else " ") + Pair(jar[i]))
  }

  /** What reading `document.cookie` gives for a jar. */
  function Render(jar: seq<Cookie>): string {
    Join(Pieces(jar), ';')
  }

  /** The jar a `document.cookie` string lists: each trimmed piece with an `=`, split at the first one. */
  function ParseJar(header: string): (jar: seq<Cookie>)
    ensures WellFormedJar(jar)
  {
    if header == [] then [] else ParsePieces(Split(header, ';'))
  }

  function ParsePieces(parts: seq<string>): (jar: seq<Cookie>)
    requires forall i :: 0 <= i < |parts| ==> ';' !in parts[i]
    ensures WellFormedJar(jar)
  {
    if parts == [] then []
    else
      var piece := Trim(parts[0]);
      var rest := ParsePieces(parts[1..]);
      if '=' in piece then
        var i := IndexOf(piece, '=');
        PieceWellFormed(parts[0], i);
        ConsWellFormed(Cookie(piece[..i], piece[i + 1..]), rest);
        [Cookie(piece[..i], piece[i + 1..])] + rest
      else rest
  }

  lemma ConsWellFormed(c: Cookie, jar: seq<Cookie>)
    requires WellFormed(c) && WellFormedJar(jar)
    ensures WellFormedJar([c] + jar) && WellFormedJar(jar + [c])
  {
  }

  lemma PieceWellFormed(part: string, i: nat)
    requires ';' !in part
    requires i < |Trim(part)| && Trim(part)[i] == '=' && '=' !in Trim(part)[..i]
    ensures WellFormed(Cookie(Trim(part)[..i], Trim(part)[i + 1..]))
  {
    var piece := Trim(part);
    TrimEnds(part);
    InfixFree(part, ';');
    assert piece[..i] == piece[..|piece|][..i];
  }

  /** The jar without any cookie of that name. */
  function Without(jar: seq<Cookie>, name: string): (r: seq<Cookie>)
    ensures forall i :: 0 <= i < |r| ==> r[i].name != name && r[i] in jar
  {
    if jar == [] then []
    else if jar[0].name == name then Without(jar[1..], name)
    else [jar[0]] + Without(jar[1..], name)
  }

  /** Some attribute segment after the first is exactly an expiry at that date. */
  predicate ExpiresAt(segs: seq<string>, date: string) {
    exists j :: 1 <= j < |segs| && Trim(segs[j]) == "Expires=" + date
  }

  /** The jar after `document.cookie = s`. */
  function Store(jar: seq<Cookie>, s: string): (r: seq<Cookie>)
    requires WellFormedJar(jar)
    ensures WellFormedJar(r)
  {
    var segs := Split(s, ';');
    var pair := Trim(segs[0]);
    if '=' !in pair then jar
    else
      var c := Assignment(segs[0]);
      var kept := Without(jar, c.name);
      ConsWellFormed(c, kept);
      if ExpiresAt(segs, Epoch) then kept else kept + [c]
  }

  /** The trimmed name and value of an assignment's first segment. */
  function Assignment(seg: string): (c: Cookie)
    requires ';' !in seg && '=' in Trim(seg)
    ensures WellFormed(c)
  {
    var pair := Trim(seg);
    var i := IndexOf(pair, '=');
    StoredWellFormed(seg, pair, i);
    Cookie(Trim(pair[..i]), Trim(pair[i + 1..]))
  }

  lemma StoredWellFormed(seg: string, pair: string, i: nat)
    requires ';' !in seg && pair == Trim(seg) && i < |pair| && pair[i] == '=' && '=' !in pair[..i]
    ensures WellFormed(Cookie(Trim(pair[..i]), Trim(pair[i + 1..])))
  {
    InfixFree(seg, ';');
    var name, value := pair[..i], pair[i + 1..];
    assert ';' !in name by { InPrefix(pair, i, ';'); }
    assert ';' !in value by { InSuffix(pair, i + 1, ';'); }
    InfixFree(name, ';');
    InfixFree(value, ';');
    InfixFree(name, '=');
    TrimEnds(name);
    TrimEnds(value);
  }

  lemma InPrefix(s: string, i: nat, c: char)
    requires i <= |s| && c !in s
    ensures c !in s[..i]
  {
    forall k | 0 <= k < i ensures s[..i][k] != c {
      assert s[..i][k] == s[k];
    }
  }

  lemma InSuffix(s: string, i: nat, c: char)
    requires i <= |s| && c !in s
    ensures c !in s[i..]
  {
    forall k | 0 <= k < |s| - i ensures s[i..][k] != c {
      assert s[i..][k] == s[i + k];
    }
  }

  /** A trimmed string lacks every character its input lacks. */
  lemma InfixFree(s: string, c: char)
    requires c !in s
    ensures c !in Trim(s)
  {
    var r := Trim(s);
    forall k | 0 <= k < |r| ensures r[k] != c {
      assert r[k] == s[TrimOffset(s) + k];
    }
  }

  /**
   * The page: the current `document.cookie` string, every string assigned
   * to it so far, and the values the plugins read from the location.
   */
  class Document {
    var cookie: string
    var writes: seq<string>
    const referrer: string
    const href: string
    /** The `URLSearchParams` entries of `location.search`, decoded, in order. */
    const query: seq<(string, string)>
    /** `location.protocol === "https:"`. */
    const https: bool

    constructor(cookie: string, referrer: string, href: string, query: seq<(string, string)>, https: bool)
      ensures this.cookie == cookie && writes == []
      ensures this.referrer == referrer && this.href == href && this.query == query && this.https == https
    {
      this.cookie := cookie;
      this.writes := [];
      this.referrer := referrer;
      this.href := href;
      this.query := query;
      this.https := https;
    }

    /** `document.cookie = s`. */
    method AssignCookie(s: string)
      modifies this
      ensures writes == old(writes) + [s]
      ensures cookie == Render(Store(ParseJar(old(cookie)), s))
    {
      writes := writes + [s];
      cookie := Render(Store(ParseJar(cookie), s));
    }
  }
}
