/**
 * Client identifiers: random nibbles and bytes rendered in lower-case
 * hexadecimal, the NFID pattern generator (an `x` becomes a random nibble,
 * a `y` the variant nibble `10xx` of section 4.1.1 of RFC 4122), and the
 * read-or-create step that keeps an identifier in a cookie.
 *
 * Randomness is an input: a `Draw` gives the byte used at each position.
 */
module Ids {
  import opened JsValues
  import opened Text
  import opened Browser
  import opened Cookies

  /** The random byte for position i (a `crypto.getRandomValues` or `Math.random` draw). */
  type Draw = nat -> bv8

  // ---- nibbles ----

  /** `randByte() & 0x0f`: the low four bits of the byte. */
  function RandNibble(b: bv8): (v: nat)
    ensures v < 16
    ensures v == (b as nat) % 16
  {
    (b & 0x0F) as nat
  }

  /** `(randNibble() & 0x3) | 0x8`: binary `10xx`, the low two bits taken from the byte. */
  function VariantNibble(b: bv8): (v: nat)
    ensures 8 <= v <= 11
    ensures v / 4 == 2 && v % 4 == (b as nat) % 4
  {
    (((b & 0x0F) & 0x3) | 0x8) as nat
  }

  /** Every nibble value is drawn by some byte. */
  lemma RandNibbleOnto(v: nat)
    requires v < 16
    ensures RandNibble(v as bv8) == v
  {
  }

  /** Every value of the form `10xx` is drawn by some byte. */
  lemma VariantNibbleOnto(v: nat)
    requires 8 <= v <= 11
    ensures VariantNibble(v as bv8) == v
  {
    assert (v as bv8) as nat == v;
  }

  // ---- hexadecimal ----

  predicate IsHexDigit(c: char) {
    '0' <= c <= '9' || 'a' <= c <= 'f'
  }

  /** The lower-case digit `Number.prototype.toString(16)` writes for d. */
  function HexDigit(d: nat): (c: char)
    requires d < 16
    ensures IsHexDigit(c)
  {
    if d < 10 then (('0' as int) + d) as char else (('a' as int) + d - 10) as char
  }

  function HexValue(c: char): (d: nat)
    requires IsHexDigit(c)
    ensures d < 16
  {
    if c <= '9' then (c as int) - ('0' as int) else (c as int) - ('a' as int) + 10
  }

  lemma HexDigitRoundTrip(d: nat)
    requires d < 16
    ensures HexValue(HexDigit(d)) == d
  {
  }

  lemma HexValueRoundTrip(c: char)
    requires IsHexDigit(c)
    ensures HexDigit(HexValue(c)) == c
  {
  }

  /** `n.toString(16)`: base-16 digits, most significant first, no leading zeros. */
  function NatToHex(n: nat): (s: string)
    ensures |s| > 0
    ensures forall i :: 0 <= i < |s| ==> IsHexDigit(s[i])
  {
    if n < 16 then [HexDigit(n)] else NatToHex(n / 16) + [HexDigit(n % 16)]
  }

  /** `s.padStart(2, "0")`. */
  function PadStart2(s: string): string {
    if |s| < 2 then seq(2 - |s|, _ => '0') + s else s
  }

  /** `(b & 0xff).toString(16).padStart(2, "0")`. */
  function ByteHex(b: bv8): string {
    PadStart2(NatToHex((b & 0xFF) as nat))
  }

  /** A byte renders as its high and its low nibble, in that order. */
  lemma ByteHexDigits(b: bv8)
    ensures ByteHex(b) == [HexDigit((b as nat) / 16), HexDigit((b as nat) % 16)]
  {
    var n := (b & 0xFF) as nat;
    assert n == b as nat;
    if n < 16 {
      assert NatToHex(n) == [HexDigit(n)];
      assert n / 16 == 0 && HexDigit(0) == '0';
    } else {
      assert n / 16 < 16;
      assert NatToHex(n / 16) == [HexDigit(n / 16)];
    }
  }

  /** The string the first k iterations of `hex`'s loop build. */
  function HexOf(draw: Draw, k: nat): string {
    if k == 0 then "" else HexOf(draw, k - 1) + ByteHex(draw(k - 1))
  }

  /** `hex(n)`: n random bytes, two hexadecimal digits each; a non-positive n gives `""`. */
  method Hex(n: int, draw: Draw) returns (out: string)
    ensures out == HexOf(draw, if n < 0 then 0 else n)
  {
    out := "";
    var i := 0;
    while i < n
      invariant 0 <= i <= if n < 0 then 0 else n
      invariant out == HexOf(draw, i)
    {
      out := out + ByteHex(draw(i));
      i := i + 1;
    }
  }

  /** Exactly two lower-case hexadecimal characters per byte. */
  lemma {:induction false} HexOfShape(draw: Draw, k: nat)
    ensures |HexOf(draw, k)| == 2 * k
    ensures forall i :: 0 <= i < |HexOf(draw, k)| ==> IsHexDigit(HexOf(draw, k)[i])
  {
    if k > 0 {
      HexOfShape(draw, k - 1);
      ByteHexDigits(draw(k - 1));
    }
  }

  /** Reading each pair of digits back gives the byte drawn for it. */
  lemma {:induction false} HexOfDecodes(draw: Draw, k: nat, i: nat)
    requires i < k
    ensures |HexOf(draw, k)| == 2 * k
    ensures IsHexDigit(HexOf(draw, k)[2 * i]) && IsHexDigit(HexOf(draw, k)[2 * i + 1])
    ensures HexValue(HexOf(draw, k)[2 * i]) * 16 + HexValue(HexOf(draw, k)[2 * i + 1]) == draw(i) as nat
  {
    HexOfShape(draw, k);
    HexOfShape(draw, k - 1);
    ByteHexDigits(draw(k - 1));
    var prev := HexOf(draw, k - 1);
    if i < k - 1 {
      HexOfDecodes(draw, k - 1, i);
      assert HexOf(draw, k)[2 * i] == prev[2 * i];
      assert HexOf(draw, k)[2 * i + 1] == prev[2 * i + 1];
    } else {
      var b := draw(i) as nat;
      HexDigitRoundTrip(b / 16);
      HexDigitRoundTrip(b % 16);
    }
  }

  // ---- NFID ----

  const DefaultPattern: string := "NFID-yxxxxxxxxxxxx"

  /** `pattern.replace(/[xy]/g, …)`: each `x` a random nibble, each `y` a variant nibble, in hexadecimal. */
  function GenerateNFID(pattern: string, draw: Draw): (id: string)
    ensures |id| == |pattern|
  {
    seq(|pattern|, i requires 0 <= i < |pattern| =>
      if pattern[i] == 'x' then HexDigit(RandNibble(draw(i)))
      else if pattern[i] == 'y' then HexDigit(VariantNibble(draw(i)))
      else pattern[i])
  }

  /** A variant digit: one of `8`, `9`, `a`, `b`. */
  predicate IsVariantDigit(c: char) {
    c == '8' || c == '9' || c == 'a' || c == 'b'
  }

  /** The identifiers a pattern describes: its other characters in place, hex digits at `x`, variant digits at `y`. */
  predicate Conforms(id: string, pattern: string) {
    && |id| == |pattern|
    && forall i :: 0 <= i < |pattern| ==>
      if pattern[i] == 'x' then IsHexDigit(id[i])
      else if pattern[i] == 'y' then IsVariantDigit(id[i])
      else id[i] == pattern[i]
  }

  /** Each generated identifier conforms to its pattern. */
  lemma GenerateConforms(pattern: string, draw: Draw)
    ensures Conforms(GenerateNFID(pattern, draw), pattern)
  {
    var id := GenerateNFID(pattern, draw);
    forall i | 0 <= i < |pattern|
      ensures if pattern[i] == 'x' then IsHexDigit(id[i])
        else if pattern[i] == 'y' then IsVariantDigit(id[i])
        else id[i] == pattern[i]
    {
      if pattern[i] == 'x' {
        assert id[i] == HexDigit(RandNibble(draw(i)));
      } else if pattern[i] == 'y' {
        var v := VariantNibble(draw(i));
        assert id[i] == HexDigit(v);
        assert v == 8 || v == 9 || v == 10 || v == 11;
      } else {
        assert id[i] == pattern[i];
      }
    }
  }

  /** Each identifier the pattern describes is generated by some draw. */
  lemma GenerateOnto(pattern: string, id: string)
    requires Conforms(id, pattern)
    ensures exists draw: Draw :: GenerateNFID(pattern, draw) == id
  {
    var draw: Draw := (i: nat) =>
      if i < |id| && IsHexDigit(id[i]) then HexValue(id[i]) as bv8 else 0;
    forall i | 0 <= i < |pattern| ensures GenerateNFID(pattern, draw)[i] == id[i] {
      if pattern[i] == 'x' {
        RandNibbleOnto(HexValue(id[i]));
        HexValueRoundTrip(id[i]);
      } else if pattern[i] == 'y' {
        VariantNibbleOnto(HexValue(id[i]));
        HexValueRoundTrip(id[i]);
      }
    }
    assert GenerateNFID(pattern, draw) == id;
  }

  /** The default pattern keeps its `NFID-` prefix and its 18 characters. */
  lemma DefaultShape(draw: Draw)
    ensures |GenerateNFID(DefaultPattern, draw)| == 18
    ensures GenerateNFID(DefaultPattern, draw)[..5] == "NFID-"
    ensures IsVariantDigit(GenerateNFID(DefaultPattern, draw)[5])
  {
    GenerateConforms(DefaultPattern, draw);
  }

  // ---- the stored identifier ----

  /**
   * The options of `getOrCreateClientId`; `consent` is what `canSetCookie()`
   * returns, `domain == ""` stands for no domain.
   */
  datatype IdOptions = IdOptions(
    cookieName: string, pattern: string, persistDays: int, sameSite: string,
    secure: bool, path: string, domain: string, consent: bool)

  const DefaultIdOptions: IdOptions :=
    IdOptions("nfid", DefaultPattern, 365, "Lax", false, "/", "", true)

  /** The options passed to `cookies.set` when the identifier is stored. */
  function IdSetOptions(o: IdOptions): SetOptions {
    SetOptions(Some(o.persistDays), NoExpires, o.path, o.domain, o.secure, o.sameSite)
  }

  /** The identifier stored under the cookie name, when it is truthy. */
  function Existing(p: Platform, header: string, o: IdOptions): Option<string> {
    match CookieValue(p, header, o.cookieName)
    case Some(v) => if v != "" then Some(v) else None
    case None => None
  }

  /**
   * `getOrCreateClientId(o)`: a truthy stored identifier is returned as it
   * is and nothing is written; otherwise an identifier is generated and
   * stored when consent is given, and returned in either case.
   */
  method GetOrCreateClientId(doc: Document, p: Platform, o: IdOptions, draw: Draw) returns (id: string)
    modifies doc
    ensures Existing(p, old(doc.cookie), o).Some? ==>
      id == Existing(p, old(doc.cookie), o).value && doc.writes == old(doc.writes) && doc.cookie == old(doc.cookie)
    ensures Existing(p, old(doc.cookie), o).None? ==> id == GenerateNFID(o.pattern, draw)
    ensures Existing(p, old(doc.cookie), o).None? && o.consent ==>
      && doc.writes == old(doc.writes) + [SetString(p, o.cookieName, id, IdSetOptions(o))]
      && doc.cookie == Render(Store(ParseJar(old(doc.cookie)), SetString(p, o.cookieName, id, IdSetOptions(o))))
    ensures Existing(p, old(doc.cookie), o).None? && !o.consent ==>
      doc.writes == old(doc.writes) && doc.cookie == old(doc.cookie)
  {
    var existing := Get(doc, p, o.cookieName);
    if existing.Some? && existing.value != "" {
      return existing.value;
    }
    id := GenerateNFID(o.pattern, draw);
    if o.consent {
      var _ := Set(doc, p, o.cookieName, id, IdSetOptions(o));
    }
  }

  /**
   * Once an identifier has been generated and stored, the next call finds
   * it: the cookie read back is the identifier, provided the encoding
   * round-trips, the pattern is not empty, and the expiry date is not the
   * epoch.
   */
  lemma StoredIdFound(p: Platform, header: string, o: IdOptions, draw: Draw)
    requires o.pattern != []
    requires SafeToken(p.encode(o.cookieName)) && SafeToken(p.encode(GenerateNFID(o.pattern, draw)))
    requires p.decode(p.encode(GenerateNFID(o.pattern, draw))) == Some(GenerateNFID(o.pattern, draw))
    requires !ExpiresAt(Split(SetString(p, o.cookieName, GenerateNFID(o.pattern, draw), IdSetOptions(o)), ';'), Epoch)
    ensures Existing(p, Render(Store(ParseJar(header), SetString(p, o.cookieName, GenerateNFID(o.pattern, draw), IdSetOptions(o)))), o)
      == Some(GenerateNFID(o.pattern, draw))
  {
    SetThenGet(p, header, o.cookieName, GenerateNFID(o.pattern, draw), IdSetOptions(o));
  }
}
