/**
 * The client-id plugin's builder: the payload the previous builder made,
 * with the identifier read or created at init under `clientId`, unless the
 * payload already has a `clientId` of its own.
 */
module ClientIdPlugin {
  import opened JsValues

  /** `{ clientId, ...payload }` for `payload = base || values || {}`. */
  function Wrap(clientId: string, base: Value, values: Value): (r: Value)
    ensures r == PlainObject(OwnEntries(r))
    ensures OwnEntries(r).Keys == OwnEntries(Payload(base, values)).Keys + {"clientId"}
    ensures forall k :: k in OwnEntries(Payload(base, values)) ==> OwnEntries(r)[k] == OwnEntries(Payload(base, values))[k]
    ensures "clientId" !in OwnEntries(Payload(base, values)) ==> OwnEntries(r)["clientId"] == Str(clientId)
  {
    PlainObject(map["clientId" := Str(clientId)] + OwnEntries(Payload(base, values)))
  }

  /** Wrapping twice with the same identifier adds nothing. */
  lemma WrapIdempotent(clientId: string, base: Value, values: Value)
    ensures Wrap(clientId, Wrap(clientId, base, values), values) == Wrap(clientId, base, values)
  {
    var once := Wrap(clientId, base, values);
    assert Payload(once, values) == once;
    assert map["clientId" := Str(clientId)] + OwnEntries(once) == OwnEntries(once);
  }

  /** When nothing before it built a payload, the values themselves get the identifier. */
  lemma WrapOverValues(clientId: string, values: Record)
    requires "clientId" !in values
    ensures OwnEntries(Wrap(clientId, Undefined, PlainObject(values))) == values["clientId" := Str(clientId)]
  {
  }
}
