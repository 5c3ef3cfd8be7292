/**
 * The payload-builder chain. Each plugin's `init` replaces `ctx.onSubmit`
 * with a function that calls the previous one (or takes the values when
 * there is none) and adds its own keys. The chain of closures is kept as
 * data: a `Builder` is unset, the user's `onSubmit`, or one plugin layer
 * wrapped around an earlier builder. The plugin objects themselves, with
 * their optional hooks, are also defined here.
 */
module Middleware {
  import opened JsValues
  import opened Browser
  import Ids
  import QueryParams
  import ClientIdPlugin
  import HttpRequestPlugin
  import QueryParamsDev

  /** What a plugin's `init` captured for its builder. */
  datatype Layer =
    | ClientIdLayer(clientId: string)
    | HttpRequestLayer(request: Record)
    | AttributionLayer(cookieName: string, merged: Record, payloadField: string)
    | QueryParamsDevLayer

  /** `ctx.onSubmit`: undefined, the user's function, or a plugin's wrapper around the previous value. */
  datatype Builder =
    | Unset
    | UserBuilder(f: Value -> Value)
    | Wrapped(layer: Layer, prev: Builder)

  /** One layer's result, given what the previous builder returned. */
  function Apply(l: Layer, p: Platform, header: string, base: Value, values: Value): Value {
    match l
    case ClientIdLayer(id) => ClientIdPlugin.Wrap(id, base, values)
    case HttpRequestLayer(req) => HttpRequestPlugin.Wrap(req, base, values)
    case AttributionLayer(name, merged, field) => QueryParams.Wrap(p, header, name, merged, field, base, values)
    case QueryParamsDevLayer => QueryParamsDev.Wrap(base, values)
  }

  /**
   * `onSubmit ? onSubmit(values) : values`, where the attribution layer
   * reads the cookie string current when the payload is built.
   */
  function Run(b: Builder, p: Platform, header: string, values: Value): Value {
    match b
    case Unset => values
    case UserBuilder(f) => f(values)
    case Wrapped(l, prev) => Apply(l, p, header, Run(prev, p, header, values), values)
  }

  /** The builder after the layers are installed one after the other, each around the one before. */
  function Chain(b: Builder, ls: seq<Layer>): Builder
    decreases |ls|
  {
    if ls == [] then b else Chain(Wrapped(ls[0], b), ls[1..])
  }

  /** The layers applied in registration order: the first innermost, the last outermost. */
  function Pipeline(ls: seq<Layer>, p: Platform, header: string, acc: Value, values: Value): Value
    decreases |ls|
  {
    if ls == [] then acc else Pipeline(ls[1..], p, header, Apply(ls[0], p, header, acc, values), values)
  }

  /** Installing one more layer wraps the chain built so far. */
  lemma {:induction false} ChainSnoc(b: Builder, ls: seq<Layer>, l: Layer)
    ensures Chain(b, ls + [l]) == Wrapped(l, Chain(b, ls))
    decreases |ls|
  {
    if ls != [] {
      assert (ls + [l])[1..] == ls[1..] + [l];
      ChainSnoc(Wrapped(ls[0], b), ls[1..], l);
    }
  }

  /**
   * Calling the chained builder runs the user's builder (or takes the
   * values) and then every layer in registration order.
   */
  lemma {:induction false} RunChain(b: Builder, ls: seq<Layer>, p: Platform, header: string, values: Value)
    ensures Run(Chain(b, ls), p, header, values) == Pipeline(ls, p, header, Run(b, p, header, values), values)
    decreases |ls|
  {
    if ls != [] {
      RunChain(Wrapped(ls[0], b), ls[1..], p, header, values);
    }
  }

  /** The last-registered plugin's layer is applied last, to what all the earlier ones built. */
  lemma LastLayerOutermost(b: Builder, ls: seq<Layer>, l: Layer, p: Platform, header: string, values: Value)
    ensures Run(Chain(b, ls + [l]), p, header, values) == Apply(l, p, header, Run(Chain(b, ls), p, header, values), values)
  {
    ChainSnoc(b, ls, l);
  }

  /** With a bare chain of plugins and no user builder, the first layer receives the values. */
  lemma FirstLayerSeesValues(l: Layer, ls: seq<Layer>, p: Platform, header: string, values: Value)
    ensures Run(Chain(Unset, [l] + ls), p, header, values) == Pipeline(ls, p, header, Apply(l, p, header, values, values), values)
  {
    RunChain(Unset, [l] + ls, p, header, values);
    assert ([l] + ls)[1..] == ls;
  }

  /** A last-registered HTTP-request layer decides `httpRequest`, whatever came before. */
  lemma HttpRequestLastWins(b: Builder, ls: seq<Layer>, req: Record, p: Platform, header: string, values: Value)
    ensures var after := OwnEntries(Run(Chain(b, ls + [HttpRequestLayer(req)]), p, header, values));
      "httpRequest" in after && after["httpRequest"] == PlainObject(req)
  {
    LastLayerOutermost(b, ls, HttpRequestLayer(req), p, header, values);
  }

  /** A `clientId` that an earlier builder put in the payload survives a client-id layer. */
  lemma ClientIdKeepsEarlier(b: Builder, ls: seq<Layer>, id: string, p: Platform, header: string, values: Value)
    requires "clientId" in OwnEntries(Payload(Run(Chain(b, ls), p, header, values), values))
    ensures var before := OwnEntries(Payload(Run(Chain(b, ls), p, header, values), values));
      var after := OwnEntries(Run(Chain(b, ls + [ClientIdLayer(id)]), p, header, values));
      "clientId" in after && after["clientId"] == before["clientId"]
  {
    LastLayerOutermost(b, ls, ClientIdLayer(id), p, header, values);
  }

  // ---- plugin objects ----

  /** Which factory made the plugin, with the options its `init` uses; `HooksOnly` has no `init`. */
  datatype PluginKind =
    | ClientIdKind(idOptions: Ids.IdOptions)
    | HttpRequestKind
    | QueryParamsKind(options: QueryParams.Options)
    | QueryParamsDevKind
    | HooksOnly

  /** A plugin: its `init`, and its optional `onValidationFail`, `onSuccess` and `onError` hooks. */
  datatype Plugin = Plugin(
    kind: PluginKind,
    onValidationFail: Option<Callback>, onSuccess: Option<Callback>, onError: Option<Callback>)

  /** `clientIdPlugin(options)`. */
  function ClientIdPluginOf(o: Ids.IdOptions): Plugin {
    Plugin(ClientIdKind(o), None, None, None)
  }

  /** `httpRequestPlugin()`. */
  function HttpRequestPluginOf(): Plugin {
    Plugin(HttpRequestKind, None, None, None)
  }

  /** `queryParamsPlugin(opts)`. */
  function QueryParamsPluginOf(o: QueryParams.Options): Plugin {
    Plugin(QueryParamsKind(o), None, None, None)
  }

  /** `queryparams()`: the development plugin, with its three empty hooks. */
  function QueryParamsDevPluginOf(): Plugin {
    Plugin(QueryParamsDevKind, Some(QueryParamsDev.Hook), Some(QueryParamsDev.Hook), Some(QueryParamsDev.Hook))
  }

  predicate HasInit(k: PluginKind) {
    !k.HooksOnly?
  }
}
