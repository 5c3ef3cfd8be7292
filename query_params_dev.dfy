/**
 * The development stand-in for the attribution plugin: its builder adds
 * `qp: "test"` under any key the payload already has, and its three
 * lifecycle hooks do nothing.
 */
module QueryParamsDev {
  import opened JsValues

  /** The constant the builder adds. */
  const Qp: string := "test"

  /** `{ qp, ...payload }` for `payload = base || values || {}`. */
  function Wrap(base: Value, values: Value): (r: Value)
    ensures r == PlainObject(OwnEntries(r))
    ensures OwnEntries(r).Keys == OwnEntries(Payload(base, values)).Keys + {"qp"}
    ensures forall k :: k in OwnEntries(Payload(base, values)) ==> OwnEntries(r)[k] == OwnEntries(Payload(base, values))[k]
    ensures "qp" !in OwnEntries(Payload(base, values)) ==> OwnEntries(r)["qp"] == Str(Qp)
  {
    PlainObject(map["qp" := Str(Qp)] + OwnEntries(Payload(base, values)))
  }

  /** Wrapping twice adds nothing. */
  lemma WrapIdempotent(base: Value, values: Value)
    ensures Wrap(Wrap(base, values), values) == Wrap(base, values)
  {
    var once := Wrap(base, values);
    assert Payload(once, values) == once;
    assert map["qp" := Str(Qp)] + OwnEntries(once) == OwnEntries(once);
  }

  /** `onValidationFail`, `onSuccess` and `onError`: empty bodies. */
  const Hook: Callback := NoOp

  /** The hooks never throw, whatever they are given. */
  lemma HookQuiet(arg: Value)
    ensures Hook.call(arg).None?
  {
  }
}
