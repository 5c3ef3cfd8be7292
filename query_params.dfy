/**
 * The attribution plugin: it reads allowed marketing parameters from the
 * page's query string, optionally adds the referrer, merges the result
 * into the record already kept in a JSON cookie under one of three
 * attribution models, persists the merged record, and attaches the
 * freshest record to every submitted payload.
 */
module QueryParams {
  import opened JsValues
  import opened Text
  import opened Browser
  import opened Cookies

  /** The parameters captured when no `keys` option is given. */
  const DefaultKeys: seq<string> := [
    "utm_source", "utm_medium", "utm_campaign", "utm_term", "utm_content",
    "gclid", "gbraid", "wbraid", "fbclid", "msclkid"]

  /** The plugin's options; `consent` is what `canSetCookie()` returns. */
  datatype Options = Options(
    keys: seq<string>, cookieName: string, persistDays: int, sameSite: string, secure: bool,
    includeReferrer: bool, mode: string, consent: bool, payloadField: string)

  /** The defaults; `secure` defaults to whether the page was loaded over `https:`. */
  function DefaultOptions(https: bool): Options {
    Options(DefaultKeys, "utm", 90, "Lax", https, true, "first-touch", true, "attribution")
  }

  // ---- reading the query string ----

  function KeyOf(k: string, lowercaseKeys: bool): string {
    if lowercaseKeys then ToLower(k) else k
  }

  /** `keys.map(k => k.toLowerCase())`. */
  function LowerAll(keys: seq<string>): (r: seq<string>)
    ensures |r| == |keys| && forall i :: 0 <= i < |keys| ==> r[i] == ToLower(keys[i])
  {
    seq(|keys|, i requires 0 <= i < |keys| => ToLower(keys[i]))
  }

  /** Entry j is kept, under that key: its key is allowed and its value is not empty. */
  predicate Accepted(pairs: seq<(string, string)>, allowed: seq<string>, lowercaseKeys: bool, j: int, key: string) {
    0 <= j < |pairs| && KeyOf(pairs[j].0, lowercaseKeys) == key && key in allowed && pairs[j].1 != ""
  }

  /** Entry j is the last one kept under that key. */
  predicate LastAccepted(pairs: seq<(string, string)>, allowed: seq<string>, lowercaseKeys: bool, j: int, key: string) {
    Accepted(pairs, allowed, lowercaseKeys, j, key) &&
    forall j' :: j < j' < |pairs| ==> !Accepted(pairs, allowed, lowercaseKeys, j', key)
  }

  /** The record the loop of `readParamsFromUrl` has built after these entries. */
  function ParamsOf(pairs: seq<(string, string)>, allowed: seq<string>, lowercaseKeys: bool): Record
    decreases |pairs|
  {
    if pairs == [] then map[]
    else
      var m := ParamsOf(pairs[..|pairs| - 1], allowed, lowercaseKeys);
      var key := KeyOf(pairs[|pairs| - 1].0, lowercaseKeys);
      if key in allowed && pairs[|pairs| - 1].1 != "" then m[key := Str(pairs[|pairs| - 1].1)] else m
  }

  /** `readParamsFromUrl(allowed, { lowercaseKeys })` over the page's query entries. */
  method ReadParamsFromUrl(doc: Document, allowed: seq<string>, lowercaseKeys: bool) returns (out: Record)
    ensures out == ParamsOf(doc.query, allowed, lowercaseKeys)
  {
    var qs := doc.query;
    out := map[];
    var i := 0;
    while i < |qs|
      invariant 0 <= i <= |qs|
      invariant out == ParamsOf(qs[..i], allowed, lowercaseKeys)
    {
      var (k, v) := qs[i];
      var key := KeyOf(k, lowercaseKeys);
      if key in allowed && v != "" {
        out := out[key := Str(v)];
      }
      assert qs[..i + 1][..i] == qs[..i];
      i := i + 1;
    }
    assert qs[..i] == qs;
  }

  /** Dropping the last entry keeps whether an earlier entry is kept. */
  lemma AcceptedInit(pairs: seq<(string, string)>, allowed: seq<string>, lowercaseKeys: bool, key: string, j: int)
    requires 0 <= j < |pairs| - 1
    ensures Accepted(pairs[..|pairs| - 1], allowed, lowercaseKeys, j, key) == Accepted(pairs, allowed, lowercaseKeys, j, key)
  {
    assert pairs[..|pairs| - 1][j] == pairs[j];
  }

  /** A key is read exactly when some entry is kept under it. */
  lemma {:induction false} ParamsOfKeys(pairs: seq<(string, string)>, allowed: seq<string>, lowercaseKeys: bool, key: string)
    ensures key in ParamsOf(pairs, allowed, lowercaseKeys) <==> exists j :: Accepted(pairs, allowed, lowercaseKeys, j, key)
    decreases |pairs|
  {
    if pairs != [] {
      var n := |pairs| - 1;
      var init := pairs[..n];
      ParamsOfKeys(init, allowed, lowercaseKeys, key);
      if exists j :: Accepted(init, allowed, lowercaseKeys, j, key) {
        var j :| Accepted(init, allowed, lowercaseKeys, j, key);
        AcceptedInit(pairs, allowed, lowercaseKeys, key, j);
      }
      if !Accepted(pairs, allowed, lowercaseKeys, n, key) && exists j :: Accepted(pairs, allowed, lowercaseKeys, j, key) {
        var j :| Accepted(pairs, allowed, lowercaseKeys, j, key);
        AcceptedInit(pairs, allowed, lowercaseKeys, key, j);
      }
    }
  }

  /** A read key holds the value of the last entry kept under it: later occurrences overwrite earlier ones. */
  lemma {:induction false} ParamsOfLast(pairs: seq<(string, string)>, allowed: seq<string>, lowercaseKeys: bool, key: string, j: int)
    requires LastAccepted(pairs, allowed, lowercaseKeys, j, key)
    ensures key in ParamsOf(pairs, allowed, lowercaseKeys) && ParamsOf(pairs, allowed, lowercaseKeys)[key] == Str(pairs[j].1)
    decreases |pairs|
  {
    var n := |pairs| - 1;
    if j < n {
      var init := pairs[..n];
      assert !Accepted(pairs, allowed, lowercaseKeys, n, key);
      AcceptedInit(pairs, allowed, lowercaseKeys, key, j);
      forall j' | j < j' < n ensures !Accepted(init, allowed, lowercaseKeys, j', key) {
        AcceptedInit(pairs, allowed, lowercaseKeys, key, j');
      }
      ParamsOfLast(init, allowed, lowercaseKeys, key, j);
    }
  }

  /** Only allowed keys are read, each with a non-empty string value. */
  lemma ParamsAllowed(pairs: seq<(string, string)>, allowed: seq<string>, lowercaseKeys: bool, key: string)
    requires key in ParamsOf(pairs, allowed, lowercaseKeys)
    ensures key in allowed
    ensures exists j :: Accepted(pairs, allowed, lowercaseKeys, j, key)
  {
    ParamsOfKeys(pairs, allowed, lowercaseKeys, key);
  }

  // ---- attribution models ----

  /** `{ ...existing, ...incoming }`: incoming values win, keys only in existing stay. */
  function Spread(existing: Value, incoming: Record): (r: Record)
    ensures r.Keys == OwnEntries(existing).Keys + incoming.Keys
    ensures forall k :: k in incoming ==> r[k] == incoming[k]
    ensures forall k :: k in OwnEntries(existing) && k !in incoming ==> r[k] == OwnEntries(existing)[k]
  {
    OwnEntries(existing) + incoming
  }

  /** First touch: an existing non-null value is kept; incoming fills absent or null keys. */
  function FirstTouch(existing: Record, incoming: Record): (r: Record) {
    map k | k in existing.Keys + incoming.Keys ::
      if k in incoming && (k !in existing || Nullish(existing[k])) then incoming[k] else existing[k]
  }

  /** Filling one more incoming key: it is set exactly when its existing slot is absent or null. */
  lemma FirstTouchStep(existing: Record, done: Record, k: string, v: Value)
    requires k !in done
    ensures FirstTouch(existing, done[k := v]) ==
      if k !in existing || Nullish(existing[k]) then FirstTouch(existing, done)[k := v] else FirstTouch(existing, done)
  {
  }

  /** The first-touch loop: `out = { ...existing }`, then each incoming entry fills a null slot. */
  method FirstTouchLoop(existing: Record, incoming: Record) returns (out: Record)
    ensures out == FirstTouch(existing, incoming)
  {
    out := existing;
    var todo := incoming.Keys;
    assert out == FirstTouch(existing, incoming - todo);
    while todo != {}
      invariant todo <= incoming.Keys
      invariant out == FirstTouch(existing, incoming - todo)
      decreases |todo|
    {
      var k :| k in todo;
      ghost var done := incoming - todo;
      assert incoming - (todo - {k}) == done[k := incoming[k]];
      FirstTouchStep(existing, done, k, incoming[k]);
      if k !in out || Nullish(out[k]) {
        out := out[k := incoming[k]];
      }
      todo := todo - {k};
    }
    assert incoming - todo == incoming;
  }

  /** `combine(existing, incoming)` under an attribution model. */
  function CombineOf(mode: string, existing: Value, incoming: Record): Record {
    if Falsy(existing) then incoming
    else if SpreadMode(mode) then Spread(existing, incoming)
    else FirstTouch(OwnEntries(existing), incoming)
  }

  /** The models whose `combine` is `{ ...existing, ...incoming }`; every other string means first touch. */
  predicate SpreadMode(mode: string) {
    mode == "last-touch" || mode == "merge"
  }

  /** `combine(existing, incoming)`. */
  method Combine(mode: string, existing: Value, incoming: Record) returns (out: Record)
    ensures out == CombineOf(mode, existing, incoming)
  {
    if Falsy(existing) {
      out := incoming;
    } else if SpreadMode(mode) {
      out := OwnEntries(existing) + incoming;
    } else {
      out := FirstTouchLoop(OwnEntries(existing), incoming);
    }
  }

  /** Without a stored record the incoming one is taken as it is, whatever the model. */
  lemma CombineNothingStored(mode: string, existing: Value, incoming: Record)
    requires Falsy(existing)
    ensures CombineOf(mode, existing, incoming) == incoming
  {
  }

  /** `"merge"` is the same model as `"last-touch"`. */
  lemma MergeIsLastTouch(existing: Value, incoming: Record)
    ensures CombineOf("merge", existing, incoming) == CombineOf("last-touch", existing, incoming)
  {
  }

  /** Every mode other than the two spreads, misspellings included, is first touch. */
  lemma UnknownModeIsFirstTouch(mode: string, existing: Value, incoming: Record)
    requires mode != "last-touch" && mode != "merge" && !Falsy(existing)
    ensures CombineOf(mode, existing, incoming) == FirstTouch(OwnEntries(existing), incoming)
  {
  }

  /**
   * First touch keeps every existing non-null value and adds each incoming
   * key only where the existing value is absent or null.
   */
  lemma FirstTouchKeeps(existing: Record, incoming: Record)
    ensures FirstTouch(existing, incoming).Keys == existing.Keys + incoming.Keys
    ensures forall k :: k in existing && !Nullish(existing[k]) ==> FirstTouch(existing, incoming)[k] == existing[k]
    ensures forall k :: k in incoming && (k !in existing || Nullish(existing[k])) ==>
      FirstTouch(existing, incoming)[k] == incoming[k]
  {
  }

  /** Without nulls stored, first touch is the spread in the other order, `{ ...incoming, ...existing }`. */
  lemma FirstTouchIsReverseSpread(existing: Record, incoming: Record)
    requires forall k :: k in existing ==> !Nullish(existing[k])
    ensures FirstTouch(existing, incoming) == incoming + existing
  {
  }

  /** First touch is idempotent: replaying the same visit changes nothing more. */
  lemma FirstTouchIdempotent(existing: Record, incoming: Record)
    ensures FirstTouch(FirstTouch(existing, incoming), incoming) == FirstTouch(existing, incoming)
  {
    var once := FirstTouch(existing, incoming);
    forall k | k in once ensures FirstTouch(once, incoming)[k] == once[k] {
      if k in incoming && Nullish(once[k]) {
        assert once[k] == incoming[k];
      }
    }
  }

  /** The spread models are idempotent too. */
  lemma SpreadIdempotent(existing: Value, incoming: Record)
    ensures Spread(PlainObject(Spread(existing, incoming)), incoming) == Spread(existing, incoming)
  {
    var once := Spread(existing, incoming);
    assert OwnEntries(PlainObject(once)) == once;
  }

  /** Replaying the same visit against the record it produced changes nothing, under every model. */
  lemma CombineIdempotent(mode: string, existing: Value, incoming: Record)
    ensures CombineOf(mode, PlainObject(CombineOf(mode, existing, incoming)), incoming) == CombineOf(mode, existing, incoming)
  {
    var once := CombineOf(mode, existing, incoming);
    assert OwnEntries(PlainObject(once)) == once;
    if mode == "last-touch" || mode == "merge" {
      if Falsy(existing) {
        SpreadIdempotent(PlainObject(map[]), incoming);
        assert Spread(PlainObject(map[]), incoming) == incoming;
      } else {
        SpreadIdempotent(existing, incoming);
      }
    } else if Falsy(existing) {
      FirstTouchIdempotent(map[], incoming);
      assert FirstTouch(map[], incoming) == incoming;
    } else {
      FirstTouchIdempotent(OwnEntries(existing), incoming);
    }
  }

  // ---- init ----

  /** The captured parameters: allowed query entries, then the referrer when asked for and known. */
  function CapturedParams(query: seq<(string, string)>, referrer: string, o: Options): Record {
    var params := ParamsOf(query, LowerAll(o.keys), true);
    if o.includeReferrer && referrer != "" then params["referrer" := Str(referrer)] else params
  }

  /** The referrer, when captured, overrides a `referrer` query parameter; otherwise it is not added. */
  lemma ReferrerCaptured(query: seq<(string, string)>, referrer: string, o: Options)
    ensures o.includeReferrer && referrer != "" ==> CapturedParams(query, referrer, o)["referrer"] == Str(referrer)
    ensures !(o.includeReferrer && referrer != "") ==>
      CapturedParams(query, referrer, o) == ParamsOf(query, LowerAll(o.keys), true)
  {
  }

  /** The stored record `init` reads: `cookies.getJSON(cookieName) || null`. */
  function StoredRecord(p: Platform, header: string, o: Options): Value {
    Or(GetJSON(p, header, o.cookieName), Null)
  }

  /** The record `init` merges. */
  function MergedRecord(p: Platform, header: string, query: seq<(string, string)>, referrer: string, o: Options): Record {
    CombineOf(o.mode, StoredRecord(p, header, o), CapturedParams(query, referrer, o))
  }

  /** The options `init` persists with. */
  function PersistOptions(o: Options): SetOptions {
    SetOptions(Some(o.persistDays), NoExpires, "/", "", o.secure, o.sameSite)
  }

  /**
   * `init`'s first four steps: capture, merge with the stored record, and
   * persist the merged record when it has a key and consent is given.
   * The returned record is the `merged` the wrapped builder falls back on.
   */
  method Init(doc: Document, p: Platform, o: Options) returns (merged: Record)
    modifies doc
    ensures merged == MergedRecord(p, old(doc.cookie), doc.query, doc.referrer, o)
    ensures |merged| > 0 && o.consent ==>
      && doc.writes == old(doc.writes) + [SetString(p, o.cookieName, p.stringify(PlainObject(merged)), PersistOptions(o))]
      && doc.cookie == Render(Store(ParseJar(old(doc.cookie)), SetString(p, o.cookieName, p.stringify(PlainObject(merged)), PersistOptions(o))))
    ensures !(|merged| > 0 && o.consent) ==> doc.writes == old(doc.writes) && doc.cookie == old(doc.cookie)
  {
    var params := ReadParamsFromUrl(doc, LowerAll(o.keys), true);
    if o.includeReferrer && doc.referrer != "" {
      params := params["referrer" := Str(doc.referrer)];
    }
    var existing := Or(GetJSON(p, doc.cookie, o.cookieName), Null);
    merged := Combine(o.mode, existing, params);
    if |merged| > 0 && o.consent {
      var _ := SetJSON(doc, p, o.cookieName, PlainObject(merged), PersistOptions(o));
    }
  }

  // ---- the wrapped builder ----

  /** `cookies.getJSON(cookieName) || merged || {}`, read when the payload is built. */
  function Latest(p: Platform, header: string, cookieName: string, merged: Record): Value {
    Or(Or(GetJSON(p, header, cookieName), PlainObject(merged)), EmptyObject)
  }

  /**
   * The wrapped builder's result for the previous builder's result `base`:
   * the payload with the latest record under `payloadField`, or the payload
   * unchanged when that record has no keys.
   */
  function Wrap(p: Platform, header: string, cookieName: string, merged: Record, payloadField: string,
                base: Value, values: Value): (r: Value)
    ensures |OwnEntries(Latest(p, header, cookieName, merged))| == 0 ==> r == Payload(base, values)
    ensures |OwnEntries(Latest(p, header, cookieName, merged))| > 0 ==>
      && r == PlainObject(OwnEntries(r))
      && OwnEntries(r).Keys == OwnEntries(Payload(base, values)).Keys + {payloadField}
      && OwnEntries(r)[payloadField] == Latest(p, header, cookieName, merged)
      && forall k :: k in OwnEntries(Payload(base, values)) && k != payloadField ==>
        OwnEntries(r)[k] == OwnEntries(Payload(base, values))[k]
  {
    var payload := Payload(base, values);
    var latest := Latest(p, header, cookieName, merged);
    if |OwnEntries(latest)| == 0 then payload
    else PlainObject(OwnEntries(payload)[payloadField := latest])
  }

  /** With no stored record at submit time, the builder attaches the record merged at init. */
  lemma LatestFallsBack(p: Platform, header: string, cookieName: string, merged: Record)
    requires Falsy(GetJSON(p, header, cookieName))
    ensures Latest(p, header, cookieName, merged) == PlainObject(merged)
  {
  }
}
