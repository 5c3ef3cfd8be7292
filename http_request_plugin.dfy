/**
 * The HTTP-request plugin: at init it captures the referrer and the page
 * URL into one object, and its builder puts that object under
 * `httpRequest`, replacing any `httpRequest` the payload had.
 */
module HttpRequestPlugin {
  import opened JsValues
  import opened Browser

  /** `init`'s capture: `httpRequest` with exactly `http_referrer` and `full_url`. */
  method Capture(doc: Document) returns (request: Record)
    ensures request.Keys == {"http_referrer", "full_url"}
    ensures request["http_referrer"] == Str(doc.referrer) && request["full_url"] == Str(doc.href)
  {
    var httpReferrer := doc.referrer;
    var fullUrl := doc.href;
    request := map[];
    request := request["http_referrer" := Str(httpReferrer)];
    request := request["full_url" := Str(fullUrl)];
  }

  /** `{ ...payload, httpRequest }` for `payload = base || values || {}`. */
  function Wrap(request: Record, base: Value, values: Value): (r: Value)
    ensures r == PlainObject(OwnEntries(r))
    ensures OwnEntries(r).Keys == OwnEntries(Payload(base, values)).Keys + {"httpRequest"}
    ensures OwnEntries(r)["httpRequest"] == PlainObject(request)
    ensures forall k :: k in OwnEntries(Payload(base, values)) && k != "httpRequest" ==>
      OwnEntries(r)[k] == OwnEntries(Payload(base, values))[k]
  {
    PlainObject(OwnEntries(Payload(base, values))["httpRequest" := PlainObject(request)])
  }

  /** Wrapping twice with the same capture adds nothing. */
  lemma WrapIdempotent(request: Record, base: Value, values: Value)
    ensures Wrap(request, Wrap(request, base, values), values) == Wrap(request, base, values)
  {
    var once := Wrap(request, base, values);
    assert Payload(once, values) == once;
    assert OwnEntries(once)["httpRequest" := PlainObject(request)] == OwnEntries(once);
  }
}
