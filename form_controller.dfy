/**
 * The form controller: it reads field values, validates every field,
 * reflects each field's error state through the UI adapter, guards
 * against a second submission while one is in flight, builds the payload
 * through the plugin chain, and runs the plugin and user callbacks after
 * the transport answers, always resetting the submitting state.
 *
 * The UI adapter and the transport are not modelled as code: every call
 * the controller makes on them is appended to an event log. `submit` is
 * split at its `await transport.send(…)`: `Submit` runs up to the send
 * and `Settle` runs what follows once the transport answers.
 */
module Form {
  import opened JsValues
  import opened Browser
  import opened Validators
  import opened Middleware
  import Text
  import Cookies
  import Ids
  import QueryParams
  import HttpRequestPlugin

  /** A field's `get`: absent, returning a value, or throwing. */
  datatype Reading = NoGetter | Yields(v: Value) | Throws

  /** A field spec: its getter and its validator. */
  datatype Field = Field(get: Reading, validate: Validator)

  /** The three plugin hooks. */
  datatype HookKind = OnValidationFail | OnSuccess | OnError

  /** A call the controller makes: on the UI adapter, on the transport, or into a callback. */
  datatype Event =
    | SetError(name: string, message: string)
    | ClearError(name: string)
    | SetDisabled(disabled: bool)
    | Send(payload: Value)
    | PluginHook(kind: HookKind, plugin: nat)
    | UserHook(kind: HookKind)

  /** What `transport.send` settled with. */
  datatype Response = Delivered(result: Value) | Failed(error: Value)

  /** How a call of `submit` ends before the transport answers. */
  datatype SubmitResult =
    | Ignored
    | Invalid(errors: map<string, string>, thrown: Option<Value>)
    | InFlight(payload: Value)

  /** How the promise `submit` returned settles: resolved, or rejected with what escaped. */
  datatype Settled = Resolved | Rejected(error: Value)

  /** Callbacks invoked and what, if anything, escaped from them. */
  datatype HookTrace = HookTrace(events: seq<Event>, thrown: Option<Value>)

  // ---- reading values ----

  /** `_getValue(name)`: the getter's value, undefined without a getter, `""` when it throws. */
  function ReadValue(f: Field): Value {
    match f.get
    case NoGetter => Undefined
    case Yields(v) => v
    case Throws => Str("")
  }

  /** The field names, in `Object.keys(fields)` order, are the fields' keys, each once. */
  predicate Listed(names: seq<string>, fields: map<string, Field>) {
    && (forall n :: n in fields ==> n in names)
    && (forall n :: n in names ==> n in fields)
    && |names| == |fields|
  }

  /** `getValues()`: one entry per field, each read by `_getValue`. */
  function ValuesOf(names: seq<string>, fields: map<string, Field>): Record {
    map n | n in names && n in fields :: ReadValue(fields[n])
  }

  /** With the names listed, `getValues()` has one entry per field, holding what `_getValue` reads. */
  lemma ValuesOfKeys(names: seq<string>, fields: map<string, Field>)
    requires Listed(names, fields)
    ensures ValuesOf(names, fields).Keys == fields.Keys
    ensures forall n :: n in fields ==> ValuesOf(names, fields)[n] == ReadValue(fields[n])
  {
  }

  /** The distinct entries of a sequence. */
  function Elems(s: seq<string>): set<string> {
    set x | x in s
  }

  lemma {:induction false} ElemsBound(s: seq<string>)
    ensures |Elems(s)| <= |s|
  {
    if s != [] {
      ElemsBound(s[1..]);
      assert Elems(s) == Elems(s[1..]) + {s[0]};
    }
  }

  /** A repeated entry leaves fewer distinct entries than positions. */
  lemma RepeatShrinks(s: seq<string>, i: nat, j: nat)
    requires i < j < |s| && s[i] == s[j]
    ensures |Elems(s)| < |s|
  {
    var t := s[..j] + s[j + 1..];
    assert s == s[..j] + [s[j]] + s[j + 1..];
    assert t[i] == s[i];
    assert Elems(s) == Elems(t);
    ElemsBound(t);
  }

  /** Listed names are distinct, as the keys of an object are. */
  lemma ListedDistinct(names: seq<string>, fields: map<string, Field>)
    requires Listed(names, fields)
    ensures forall i, j :: 0 <= i < j < |names| ==> names[i] != names[j]
  {
    assert Elems(names) == fields.Keys;
    forall i, j | 0 <= i < j < |names|
      ensures names[i] != names[j]
    {
      if names[i] == names[j] {
        RepeatShrinks(names, i, j);
      }
    }
  }

  // ---- validation ----

  /** `fields[n].validate(values[n], values)` on the current values. */
  function Verdict(names: seq<string>, fields: map<string, Field>, n: string): Outcome
    requires n in names && n in fields
  {
    var values := ValuesOf(names, fields);
    fields[n].validate(values[n], PlainObject(values))
  }

  /** The failing fields among `ns`, each with its message. */
  function FailedAmong(ns: seq<string>, names: seq<string>, fields: map<string, Field>): map<string, string> {
    map n | n in ns && n in names && n in fields && !Verdict(names, fields, n).valid :: Verdict(names, fields, n).message
  }

  /** `Object.fromEntries` of the failing results: each failing field with its message. */
  function FailedOf(names: seq<string>, fields: map<string, Field>): map<string, string> {
    FailedAmong(names, names, fields)
  }

  /** The entries the clearing loop leaves: failing fields with a non-empty message. */
  function Pruned(names: seq<string>, fields: map<string, Field>): (errs: map<string, string>)
    ensures errs.Keys <= FailedOf(names, fields).Keys
    ensures forall n :: n in errs ==> errs[n] == FailedOf(names, fields)[n] && errs[n] != ""
  {
    var failed := FailedOf(names, fields);
    map n | n in failed && failed[n] != "" :: failed[n]
  }

  /** No ClearError is due for n: it failed with a non-empty message. */
  predicate KeepsError(names: seq<string>, fields: map<string, Field>, n: string)
    requires n in names && n in fields
  {
    !Verdict(names, fields, n).valid && Verdict(names, fields, n).message != ""
  }

  /** The `setError` calls for the fields in `ns`: failing fields, in order, with their messages. */
  function SetEvents(ns: seq<string>, names: seq<string>, fields: map<string, Field>): seq<Event>
    requires forall n :: n in ns ==> n in names && n in fields
  {
    if ns == [] then []
    else
      var n := ns[|ns| - 1];
      SetEvents(ns[..|ns| - 1], names, fields) +
        if !Verdict(names, fields, n).valid then [SetError(n, Verdict(names, fields, n).message)] else []
  }

  /** The `clearError` calls for the fields in `ns`: those without a failure message, in order. */
  function ClearEvents(ns: seq<string>, names: seq<string>, fields: map<string, Field>): seq<Event>
    requires forall n :: n in ns ==> n in names && n in fields
  {
    if ns == [] then []
    else
      var n := ns[|ns| - 1];
      ClearEvents(ns[..|ns| - 1], names, fields) +
        if !KeepsError(names, fields, n) then [ClearError(n)] else []
  }

  /** The UI calls of `validateAll`: every `setError`, then every `clearError`. */
  function ReflectEvents(names: seq<string>, fields: map<string, Field>): seq<Event>
    requires Listed(names, fields)
  {
    SetEvents(names, names, fields) + ClearEvents(names, names, fields)
  }

  /**
   * `valid` holds exactly when every field passes or fails with an empty
   * message: the empty-message failures are deleted by the clearing loop
   * before the keys are counted.
   */
  lemma ValidIff(names: seq<string>, fields: map<string, Field>)
    requires Listed(names, fields)
    ensures |Pruned(names, fields)| == 0 <==>
      forall n :: n in names ==> Verdict(names, fields, n).valid || Verdict(names, fields, n).message == ""
  {
    var errs := Pruned(names, fields);
    if exists n :: n in names && !Verdict(names, fields, n).valid && Verdict(names, fields, n).message != "" {
      var n :| n in names && !Verdict(names, fields, n).valid && Verdict(names, fields, n).message != "";
      assert n in errs;
    }
  }

  /** The errors returned are exactly the failing fields with non-empty messages. */
  lemma PrunedExact(names: seq<string>, fields: map<string, Field>, n: string)
    requires Listed(names, fields) && n in names
    ensures n in Pruned(names, fields) <==> KeepsError(names, fields, n)
    ensures n in Pruned(names, fields) ==> Pruned(names, fields)[n] == Verdict(names, fields, n).message
  {
  }

  /** A field that fails with an empty message still leaves `valid` true. */
  lemma EmptyMessageCountsAsValid()
    ensures var fields := map["a" := Field(Yields(Str("")), (v: Value, vs: Value) => Outcome(false, ""))];
      && "a" in FailedOf(["a"], fields)
      && |Pruned(["a"], fields)| == 0
  {
    var fields := map["a" := Field(Yields(Str("")), (v: Value, vs: Value) => Outcome(false, ""))];
    assert !Verdict(["a"], fields, "a").valid;
    assert Pruned(["a"], fields) == map[];
  }

  /**
   * Every field gets a UI update: a field that keeps an error gets its
   * `setError` and no `clearError`; every other field gets a `clearError`.
   */
  lemma {:induction false} ReflectCovers(ns: seq<string>, names: seq<string>, fields: map<string, Field>, n: string)
    requires forall m :: m in ns ==> m in names && m in fields
    requires n in ns
    ensures KeepsError(names, fields, n) ==>
      SetError(n, Verdict(names, fields, n).message) in SetEvents(ns, names, fields) &&
      ClearError(n) !in ClearEvents(ns, names, fields)
    ensures !KeepsError(names, fields, n) ==> ClearError(n) in ClearEvents(ns, names, fields)
    decreases |ns|
  {
    var init := ns[..|ns| - 1];
    var last := ns[|ns| - 1];
    if n != last {
      assert n in init;
      ReflectCovers(init, names, fields, n);
    } else if n in init {
      ReflectCovers(init, names, fields, n);
    } else if KeepsError(names, fields, n) {
      ClearAbsent(init, names, fields, n);
    }
  }

  /** clearError is only called for fields in the list. */
  lemma {:induction false} ClearAbsent(ns: seq<string>, names: seq<string>, fields: map<string, Field>, n: string)
    requires forall m :: m in ns ==> m in names && m in fields
    requires n !in ns
    ensures ClearError(n) !in ClearEvents(ns, names, fields)
    decreases |ns|
  {
    if ns != [] {
      var init := ns[..|ns| - 1];
      assert forall m :: m in init ==> m in ns;
      ClearAbsent(init, names, fields, n);
    }
  }

  // ---- the loops of validateAll, one turn at a time ----

  lemma FailedAmongSnoc(ns: seq<string>, n: string, names: seq<string>, fields: map<string, Field>)
    requires n in names && n in fields
    ensures FailedAmong(ns + [n], names, fields) ==
      if Verdict(names, fields, n).valid then FailedAmong(ns, names, fields)
      else FailedAmong(ns, names, fields)[n := Verdict(names, fields, n).message]
  {
    var a := FailedAmong(ns + [n], names, fields);
    var b := FailedAmong(ns, names, fields);
    if Verdict(names, fields, n).valid {
      assert a.Keys == b.Keys;
    } else {
      assert a.Keys == b.Keys + {n};
    }
  }

  /** The errors left once the fields in `ns` have had their failure-free entries deleted. */
  function ClearedUpTo(failed: map<string, string>, ns: seq<string>): map<string, string> {
    map n | n in failed && (n !in ns || failed[n] != "") :: failed[n]
  }

  /** The clearing loop's test on the errors object agrees with the verdict. */
  lemma KeepsErrorIff(names: seq<string>, fields: map<string, Field>, ns: seq<string>, n: string)
    requires n in names && n in fields
    ensures var c := ClearedUpTo(FailedOf(names, fields), ns);
      (n in c && c[n] != "") <==> KeepsError(names, fields, n)
  {
  }

  /** One turn of the showing loop: a field is shown exactly when it failed, with its message. */
  lemma ShowStep(names: seq<string>, fields: map<string, Field>, i: nat)
    requires Listed(names, fields) && i < |names|
    ensures var f := FailedOf(names, fields);
      var n := names[i];
      SetEvents(names[..i + 1], names, fields) ==
        SetEvents(names[..i], names, fields) + (if n in f then [SetError(n, f[n])] else [])
  {
    var n := names[i];
    assert names[..i + 1] == names[..i] + [n];
    assert names[..i + 1][..i] == names[..i];
  }

  /** One turn of the clearing loop, on the errors left and on the calls made. */
  lemma ClearStep(names: seq<string>, fields: map<string, Field>, i: nat)
    requires Listed(names, fields) && i < |names|
    ensures var c := ClearedUpTo(FailedOf(names, fields), names[..i]);
      var n := names[i];
      && ClearedUpTo(FailedOf(names, fields), names[..i + 1]) == (if n in c && c[n] != "" then c else c - {n})
      && ClearEvents(names[..i + 1], names, fields) ==
           ClearEvents(names[..i], names, fields) + (if n in c && c[n] != "" then [] else [ClearError(n)])
  {
    var n := names[i];
    assert names[..i + 1] == names[..i] + [n];
    assert names[..i + 1][..i] == names[..i];
    ClearedSnoc(FailedOf(names, fields), names[..i], n);
    KeepsErrorIff(names, fields, names[..i], n);
  }

  /** Once every field has been through the clearing loop, the errors left are the pruned ones. */
  lemma ClearedAll(names: seq<string>, fields: map<string, Field>)
    requires Listed(names, fields)
    ensures ClearedUpTo(FailedOf(names, fields), names) == Pruned(names, fields)
  {
    assert ClearedUpTo(FailedOf(names, fields), names).Keys == Pruned(names, fields).Keys;
  }

  lemma ClearedSnoc(failed: map<string, string>, ns: seq<string>, m: string)
    ensures var c := ClearedUpTo(failed, ns);
      ClearedUpTo(failed, ns + [m]) == if m in c && c[m] != "" then c else c - {m}
  {
    var c := ClearedUpTo(failed, ns);
    var d := ClearedUpTo(failed, ns + [m]);
    if m in c && c[m] != "" {
      assert d.Keys == c.Keys;
    } else {
      assert d.Keys == c.Keys - {m};
    }
  }

  // ---- hooks ----

  function HookOf(p: Plugin, kind: HookKind): Option<Callback> {
    match kind
    case OnValidationFail => p.onValidationFail
    case OnSuccess => p.onSuccess
    case OnError => p.onError
  }

  /** `plugins.forEach(p => p.hook?.(arg, ctx))` from plugin i on: stopped by the first hook that throws. */
  function HookRun(plugins: seq<Plugin>, kind: HookKind, arg: Value, i: nat): HookTrace
    decreases |plugins| - i
  {
    if i >= |plugins| then HookTrace([], None)
    else match HookOf(plugins[i], kind)
      case None => HookRun(plugins, kind, arg, i + 1)
      case Some(h) =>
        match h.call(arg)
        case Some(e) => HookTrace([PluginHook(kind, i)], Some(e))
        case None =>
          var rest := HookRun(plugins, kind, arg, i + 1);
          HookTrace([PluginHook(kind, i)] + rest.events, rest.thrown)
  }

  /** Every plugin from i on that has the hook, in list order. */
  function HookList(plugins: seq<Plugin>, kind: HookKind, i: nat): seq<Event>
    decreases |plugins| - i
  {
    if i >= |plugins| then []
    else (if HookOf(plugins[i], kind).Some? then [PluginHook(kind, i)] else []) + HookList(plugins, kind, i + 1)
  }

  /** One turn of the hook loop, after the calls already made. */
  lemma HookRunStep(plugins: seq<Plugin>, kind: HookKind, arg: Value, i: nat, called: seq<Event>)
    requires i < |plugins|
    ensures var h := HookOf(plugins[i], kind);
      var u := HookRun(plugins, kind, arg, i + 1);
      var t := HookRun(plugins, kind, arg, i);
      && (h.None? ==> t == u)
      && (h.Some? && h.value.call(arg).Some? ==>
            t.thrown == h.value.call(arg) && called + t.events == called + [PluginHook(kind, i)])
      && (h.Some? && h.value.call(arg).None? ==>
            t.thrown == u.thrown && called + t.events == (called + [PluginHook(kind, i)]) + u.events)
  {
  }

  /** The hook loop: each hook called in list order, until one throws. */
  method CallHooks(plugins: seq<Plugin>, kind: HookKind, arg: Value) returns (called: seq<Event>, thrown: Option<Value>)
    ensures called == HookRun(plugins, kind, arg, 0).events && thrown == HookRun(plugins, kind, arg, 0).thrown
  {
    var i := 0;
    called, thrown := [], None;
    while i < |plugins|
      invariant 0 <= i <= |plugins|
      invariant HookRun(plugins, kind, arg, 0) ==
        HookTrace(called + HookRun(plugins, kind, arg, i).events, HookRun(plugins, kind, arg, i).thrown)
    {
      HookRunStep(plugins, kind, arg, i, called);
      var hook := HookOf(plugins[i], kind);
      if hook.Some? {
        called := called + [PluginHook(kind, i)];
        var r := hook.value.call(arg);
        if r.Some? {
          return called, r;
        }
      }
      i := i + 1;
    }
  }

  /** The hooks called are the first ones in list order: no hook after one that throws is called. */
  lemma {:induction false} HookRunPrefix(plugins: seq<Plugin>, kind: HookKind, arg: Value, i: nat)
    ensures var ev := HookRun(plugins, kind, arg, i).events;
      |ev| <= |HookList(plugins, kind, i)| && ev == HookList(plugins, kind, i)[..|ev|]
    decreases |plugins| - i
  {
    if i < |plugins| {
      HookRunPrefix(plugins, kind, arg, i + 1);
    }
  }

  /** When no hook throws, every plugin's hook is called once, in list order, and nothing escapes. */
  lemma {:induction false} HookRunQuiet(plugins: seq<Plugin>, kind: HookKind, arg: Value, i: nat)
    requires forall j :: i <= j < |plugins| && HookOf(plugins[j], kind).Some? ==> HookOf(plugins[j], kind).value.call(arg).None?
    ensures HookRun(plugins, kind, arg, i) == HookTrace(HookList(plugins, kind, i), None)
    decreases |plugins| - i
  {
    if i < |plugins| {
      HookRunQuiet(plugins, kind, arg, i + 1);
    }
  }

  /** What escapes is what the last hook called threw. */
  lemma {:induction false} HookRunBlame(plugins: seq<Plugin>, kind: HookKind, arg: Value, i: nat)
    requires HookRun(plugins, kind, arg, i).thrown.Some?
    ensures var t := HookRun(plugins, kind, arg, i);
      && t.events != []
      && t.events[|t.events| - 1].PluginHook?
      && var j := t.events[|t.events| - 1].plugin;
      && j < |plugins| && HookOf(plugins[j], kind).Some?
      && HookOf(plugins[j], kind).value.call(arg) == t.thrown
    decreases |plugins| - i
  {
    if HookOf(plugins[i], kind).None? || HookOf(plugins[i], kind).value.call(arg).None? {
      HookRunBlame(plugins, kind, arg, i + 1);
    }
  }

  /** The `try` block after the send: plugin `onSuccess` hooks, then the user's; or the error to catch. */
  function SuccessPhase(plugins: seq<Plugin>, onSuccess: Callback, resp: Response): HookTrace {
    match resp
    case Failed(err) => HookTrace([], Some(err))
    case Delivered(res) =>
      var t := HookRun(plugins, OnSuccess, res, 0);
      if t.thrown.Some? then t
      else HookTrace(t.events + [UserHook(OnSuccess)], onSuccess.call(res))
  }

  /** The `catch` block: plugin `onError` hooks, then the user's; what escapes rejects `submit`. */
  function ErrorPhase(plugins: seq<Plugin>, onError: Callback, err: Value): HookTrace {
    var t := HookRun(plugins, OnError, err, 0);
    if t.thrown.Some? then t
    else HookTrace(t.events + [UserHook(OnError)], onError.call(err))
  }

  /** The callbacks of the `try`/`catch` after the send, and what escapes them. */
  function SettleTrace(plugins: seq<Plugin>, onSuccess: Callback, onError: Callback, resp: Response): HookTrace {
    var s := SuccessPhase(plugins, onSuccess, resp);
    match s.thrown
    case None => s
    case Some(err) =>
      var e := ErrorPhase(plugins, onError, err);
      HookTrace(s.events + e.events, e.thrown)
  }

  /** A delivered submission with quiet callbacks: plugin `onSuccess` hooks in order, then the user's, and `submit` resolves. */
  lemma {:induction false} SettleDelivered(plugins: seq<Plugin>, onSuccess: Callback, onError: Callback, res: Value)
    requires forall j :: 0 <= j < |plugins| && plugins[j].onSuccess.Some? ==> plugins[j].onSuccess.value.call(res).None?
    requires onSuccess.call(res).None?
    ensures SettleTrace(plugins, onSuccess, onError, Delivered(res)) ==
      HookTrace(HookList(plugins, OnSuccess, 0) + [UserHook(OnSuccess)], None)
  {
    HookRunQuiet(plugins, OnSuccess, res, 0);
  }

  /** A failed send: plugin `onError` hooks in order, then the user's, whose outcome settles `submit`. */
  lemma {:induction false} SettleFailed(plugins: seq<Plugin>, onSuccess: Callback, onError: Callback, err: Value)
    requires forall j :: 0 <= j < |plugins| && plugins[j].onError.Some? ==> plugins[j].onError.value.call(err).None?
    ensures SettleTrace(plugins, onSuccess, onError, Failed(err)) ==
      HookTrace(HookList(plugins, OnError, 0) + [UserHook(OnError)], onError.call(err))
  {
    HookRunQuiet(plugins, OnError, err, 0);
  }

  /** A throwing success callback is handled like a failed send, after the success hooks ran. */
  lemma {:induction false} SettleSuccessThrows(plugins: seq<Plugin>, onSuccess: Callback, onError: Callback, res: Value, e: Value)
    requires forall j :: 0 <= j < |plugins| && plugins[j].onSuccess.Some? ==> plugins[j].onSuccess.value.call(res).None?
    requires onSuccess.call(res) == Some(e)
    ensures SettleTrace(plugins, onSuccess, onError, Delivered(res)) ==
      var t := ErrorPhase(plugins, onError, e);
      HookTrace(HookList(plugins, OnSuccess, 0) + [UserHook(OnSuccess)] + t.events, t.thrown)
  {
    HookRunQuiet(plugins, OnSuccess, res, 0);
  }

  /** The plain object of the error messages passed to `onValidationFail`. */
  function ErrorsObject(errs: map<string, string>): Value {
    PlainObject(map n | n in errs :: Str(errs[n]))
  }

  // ---- construction ----

  /** The layer a plugin's `init` installs matches the plugin and the page. */
  predicate Installs(k: PluginKind, l: Layer, page: Document) {
    match k
    case ClientIdKind(_) => l.ClientIdLayer?
    case HttpRequestKind =>
      l == HttpRequestLayer(map["http_referrer" := Str(page.referrer), "full_url" := Str(page.href)])
    case QueryParamsKind(o) =>
      l.AttributionLayer? && l.cookieName == o.cookieName && l.payloadField == o.payloadField
    case QueryParamsDevKind => l == QueryParamsDevLayer
    case HooksOnly => false
  }

  /** The identifier of the last client-id layer, if any: what `ctx.clientId` ends as. */
  function LastClientId(ls: seq<Layer>): Option<string> {
    if ls == [] then None
    else if ls[|ls| - 1].ClientIdLayer? then Some(ls[|ls| - 1].clientId)
    else LastClientId(ls[..|ls| - 1])
  }

  /** The indices of the plugins in `ps[..n]` that have an `init`, in order. */
  function InitIndices(ps: seq<Plugin>, n: nat): seq<nat>
    requires n <= |ps|
  {
    if n == 0 then []
    else InitIndices(ps, n - 1) + if HasInit(ps[n - 1].kind) then [n - 1] else []
  }

  /**
   * The layer plugin k's `init` captures, given the cookie header when it
   * runs: the stored or a new client identifier, the referrer and address,
   * the merged attribution record; nothing for a plugin without `init`.
   */
  function Captured(k: PluginKind, p: Platform, header: string, page: Document, draw: Ids.Draw): Option<Layer> {
    match k
    case ClientIdKind(o) =>
      var e := Ids.Existing(p, header, o);
      Some(ClientIdLayer(if e.Some? then e.value else Ids.GenerateNFID(o.pattern, draw)))
    case HttpRequestKind =>
      Some(HttpRequestLayer(map["http_referrer" := Str(page.referrer), "full_url" := Str(page.href)]))
    case QueryParamsKind(o) =>
      Some(AttributionLayer(o.cookieName, QueryParams.MergedRecord(p, header, page.query, page.referrer, o), o.payloadField))
    case QueryParamsDevKind => Some(QueryParamsDevLayer)
    case HooksOnly => None
  }

  /** Every plugin with an `init`, and only those, installs a layer that matches it. */
  lemma CapturedInstalls(k: PluginKind, p: Platform, header: string, page: Document, draw: Ids.Draw)
    ensures Captured(k, p, header, page, draw).None? <==> !HasInit(k)
    ensures Captured(k, p, header, page, draw).Some? ==> Installs(k, Captured(k, p, header, page, draw).value, page)
  {
  }

  /**
   * The assignments to `document.cookie` plugin k's `init` makes, given
   * the cookie header when it runs: the client-id plugin stores a new
   * identifier when none is stored and consent is given; the attribution
   * plugin stores a non-empty merged record when consent is given.
   */
  function InitWrites(k: PluginKind, p: Platform, header: string, page: Document, draw: Ids.Draw): (w: seq<string>)
    ensures |w| <= 1
    ensures !k.ClientIdKind? && !k.QueryParamsKind? ==> w == []
  {
    match k
    case ClientIdKind(o) =>
      if Ids.Existing(p, header, o).None? && o.consent
      then [Cookies.SetString(p, o.cookieName, Ids.GenerateNFID(o.pattern, draw), Ids.IdSetOptions(o))]
      else []
    case QueryParamsKind(o) =>
      var merged := QueryParams.MergedRecord(p, header, page.query, page.referrer, o);
      if |merged| > 0 && o.consent
      then [Cookies.SetString(p, o.cookieName, p.stringify(PlainObject(merged)), QueryParams.PersistOptions(o))]
      else []
    case _ => []
  }

  /** What one plugin's `init` does to the page: the cookie assignments, the header they leave, the layer. */
  datatype InitEffect = InitEffect(writes: seq<string>, cookie: string, layer: Option<Layer>)

  /**
   * Plugin k's `init` on a page whose cookie header is `header`: the
   * assignments `InitWrites` names, each stored in the jar, and the layer
   * `Captured` gives.
   */
  function PluginInit(k: PluginKind, p: Platform, header: string, page: Document, draw: Ids.Draw): (e: InitEffect)
    ensures e.layer.None? <==> !HasInit(k)
    ensures e.layer.Some? ==> Installs(k, e.layer.value, page)
    ensures e.layer.Some? && e.layer.value.ClientIdLayer? <==> k.ClientIdKind?
    ensures e.writes == [] ==> e.cookie == header
  {
    CapturedInstalls(k, p, header, page, draw);
    var w := InitWrites(k, p, header, page, draw);
    InitEffect(w, if w == [] then header else Render(Store(ParseJar(header), w[0])), Captured(k, p, header, page, draw))
  }

  /**
   * A plugin's `init(ctx)` on the page: the client-id, HTTP-request and
   * attribution plugins capture what their builders need, writing the
   * cookies `InitWrites` names; the development plugin captures nothing.
   */
  method InitLayer(k: PluginKind, page: Document, platform: Platform, draw: Ids.Draw) returns (l: Option<Layer>)
    modifies page
    ensures l.None? <==> !HasInit(k)
    ensures l.Some? ==> Installs(k, l.value, page)
    ensures forall header | header == old(page.cookie) ::
      var e := PluginInit(k, platform, header, page, draw);
      l == e.layer && page.writes == old(page.writes) + e.writes && page.cookie == e.cookie
  {
    match k {
      case ClientIdKind(o) =>
        var cid := Ids.GetOrCreateClientId(page, platform, o, draw);
        l := Some(ClientIdLayer(cid));
      case HttpRequestKind =>
        var req := HttpRequestPlugin.Capture(page);
        assert req == map["http_referrer" := Str(page.referrer), "full_url" := Str(page.href)];
        l := Some(HttpRequestLayer(req));
      case QueryParamsKind(o) =>
        var merged := QueryParams.Init(page, platform, o);
        l := Some(AttributionLayer(o.cookieName, merged, o.payloadField));
      case QueryParamsDevKind =>
        l := Some(QueryParamsDevLayer);
      case HooksOnly =>
        l := None;
    }
  }

  /**
   * What the `init` calls of the first n plugins leave, run in list order
   * from the cookie header `header`, when plugin j's `init` on a header h
   * does `effect(j, h)`: the header, the assignments made, the layers
   * installed and the plugin each layer came from.
   */
  datatype InitState = InitState(cookie: string, writes: seq<string>, layers: seq<Layer>, installers: seq<nat>)

  function Installation(header: string, effect: (nat, string) -> InitEffect, n: nat): InitState {
    if n == 0 then InitState(header, [], [], [])
    else
      var s := Installation(header, effect, n - 1);
      var e := effect(n - 1, s.cookie);
      InitState(e.cookie, s.writes + e.writes,
                s.layers + (if e.layer.Some? then [e.layer.value] else []),
                s.installers + (if e.layer.Some? then [n - 1] else []))
  }

  /** The effect plugin j of `ps` has on a header: `PluginInit`, drawing from `draws(j)`. */
  function PluginEffects(ps: seq<Plugin>, p: Platform, page: Document, draws: nat -> Ids.Draw): (nat, string) -> InitEffect {
    (j: nat, h: string) => if j < |ps| then PluginInit(ps[j].kind, p, h, page, draws(j)) else InitEffect([], h, None)
  }

  /** The `init` calls of the plugins `ps[..n]` on a page whose cookie header was `header`. */
  function InitAll(ps: seq<Plugin>, p: Platform, header: string, page: Document, draws: nat -> Ids.Draw, n: nat): InitState {
    Installation(header, PluginEffects(ps, p, page, draws), n)
  }

  /**
   * Installation, for any effects that install a layer exactly for the
   * plugins with an `init`: those plugins, and only those, install a layer,
   * in list order, and each layer is the one its plugin's effect gives on
   * the header the plugins before it left.
   */
  lemma {:induction false} InstallationShape(ps: seq<Plugin>, header: string, effect: (nat, string) -> InitEffect, n: nat)
    requires n <= |ps|
    requires forall j: nat, h: string :: j < n ==> (effect(j, h).layer.None? <==> !HasInit(ps[j].kind))
    ensures var s := Installation(header, effect, n);
      && s.installers == InitIndices(ps, n) && |s.layers| == |s.installers|
      && forall k :: 0 <= k < |s.layers| ==>
        && s.installers[k] < n
        && Some(s.layers[k]) == effect(s.installers[k], Installation(header, effect, s.installers[k]).cookie).layer
  {
    if n > 0 {
      InstallationShape(ps, header, effect, n - 1);
      var s := Installation(header, effect, n - 1);
      var e := effect(n - 1, s.cookie);
      assert e.layer.None? <==> !HasInit(ps[n - 1].kind);
    }
  }

  /**
   * The page's cookie header and assignments, the builder, the layers and
   * the client id after the first i plugins' `init` calls, starting from
   * `header` and the assignments `writes0`.
   */
  ghost predicate Installed(header: string, effect: (nat, string) -> InitEffect, user: Builder, i: nat,
                            cookie: string, writes0: seq<string>, writes: seq<string>, b: Builder,
                            layers: seq<Layer>, installers: seq<nat>, clientId: Option<string>)
  {
    var s := Installation(header, effect, i);
    && cookie == s.cookie && writes == writes0 + s.writes
    && layers == s.layers && installers == s.installers
    && b == Chain(user, layers)
    && clientId == LastClientId(layers)
  }

  /** One more plugin's `init`, with effect e: its layer, if any, wraps the builder and joins the layers. */
  lemma InstallNext(header: string, effect: (nat, string) -> InitEffect, user: Builder, i: nat,
                    cookie: string, writes0: seq<string>, writes: seq<string>, b: Builder,
                    layers: seq<Layer>, installers: seq<nat>, clientId: Option<string>, e: InitEffect)
    requires Installed(header, effect, user, i, cookie, writes0, writes, b, layers, installers, clientId)
    requires e == effect(i, cookie)
    ensures e.layer.None? ==>
      Installed(header, effect, user, i + 1, e.cookie, writes0, writes + e.writes, b, layers, installers, clientId)
    ensures e.layer.Some? ==>
      Installed(header, effect, user, i + 1, e.cookie, writes0, writes + e.writes, Wrapped(e.layer.value, b),
                layers + [e.layer.value], installers + [i],
                if e.layer.value.ClientIdLayer? then Some(e.layer.value.clientId) else clientId)
  {
    var s := Installation(header, effect, i);
    assert writes + e.writes == writes0 + (s.writes + e.writes);
    if e.layer.Some? {
      ChainSnoc(user, layers, e.layer.value);
      assert (layers + [e.layer.value])[..|layers|] == layers;
    }
  }

  /** After every plugin's `init`: the state `Installed` describes, in the terms of `InitAll`. */
  lemma InstalledAll(ps: seq<Plugin>, p: Platform, header: string, page: Document, draws: nat -> Ids.Draw, user: Builder,
                     cookie: string, writes0: seq<string>, writes: seq<string>, b: Builder,
                     layers: seq<Layer>, installers: seq<nat>, clientId: Option<string>)
    requires Installed(header, PluginEffects(ps, p, page, draws), user, |ps|, cookie, writes0, writes, b, layers, installers, clientId)
    ensures var s := InitAll(ps, p, header, page, draws, |ps|);
      && cookie == s.cookie && writes == writes0 + s.writes
      && layers == s.layers && installers == s.installers
    ensures b == Chain(user, layers) && clientId == LastClientId(layers)
    ensures installers == InitIndices(ps, |ps|) && |layers| == |installers|
    ensures forall k :: 0 <= k < |layers| ==> installers[k] < |ps| && Installs(ps[installers[k]].kind, layers[k], page)
  {
    InitAllShape(ps, p, header, page, draws);
  }

  /** The index of the last client-id plugin among `ps[..n]`, if any. */
  function LastClientIdPlugin(ps: seq<Plugin>, n: nat): (j: Option<nat>)
    requires n <= |ps|
    ensures j.Some? ==> j.value < n && ps[j.value].kind.ClientIdKind?
  {
    if n == 0 then None
    else if ps[n - 1].kind.ClientIdKind? then Some(n - 1)
    else LastClientIdPlugin(ps, n - 1)
  }

  /**
   * The client id installation leaves, for any effects that install a
   * client-id layer exactly for the client-id plugins: none without such a
   * plugin, otherwise the one the last such plugin's effect gives.
   */
  lemma {:induction false} InstallationClientId(ps: seq<Plugin>, header: string, effect: (nat, string) -> InitEffect, n: nat)
    requires n <= |ps|
    requires forall j: nat, h: string :: j < n ==>
      (effect(j, h).layer.Some? && effect(j, h).layer.value.ClientIdLayer? <==> ps[j].kind.ClientIdKind?)
    ensures LastClientIdPlugin(ps, n).None? ==> LastClientId(Installation(header, effect, n).layers) == None
    ensures LastClientIdPlugin(ps, n).Some? ==>
      var j := LastClientIdPlugin(ps, n).value;
      LastClientId(Installation(header, effect, n).layers) ==
        Some(effect(j, Installation(header, effect, j).cookie).layer.value.clientId)
  {
    if n > 0 {
      InstallationClientId(ps, header, effect, n - 1);
      var s := Installation(header, effect, n - 1);
      var e := effect(n - 1, s.cookie);
      assert e.layer.Some? && e.layer.value.ClientIdLayer? <==> ps[n - 1].kind.ClientIdKind?;
      var ls := s.layers + (if e.layer.Some? then [e.layer.value] else []);
      if e.layer.Some? {
        assert ls[..|ls| - 1] == s.layers;
      } else {
        assert ls == s.layers;
      }
    }
  }

  /**
   * `ctx.clientId` after the plugins' `init` calls: unset without a
   * client-id plugin; otherwise the identifier the last client-id plugin
   * found stored under its cookie name when it ran, or else the one it
   * generated.
   */
  lemma InitClientId(ps: seq<Plugin>, p: Platform, header: string, page: Document, draws: nat -> Ids.Draw)
    ensures LastClientIdPlugin(ps, |ps|).None? ==> LastClientId(InitAll(ps, p, header, page, draws, |ps|).layers) == None
    ensures LastClientIdPlugin(ps, |ps|).Some? ==>
      var j := LastClientIdPlugin(ps, |ps|).value;
      var o := ps[j].kind.idOptions;
      var e := Ids.Existing(p, InitAll(ps, p, header, page, draws, j).cookie, o);
      LastClientId(InitAll(ps, p, header, page, draws, |ps|).layers) ==
        Some(if e.Some? then e.value else Ids.GenerateNFID(o.pattern, draws(j)))
  {
    var effect := PluginEffects(ps, p, page, draws);
    forall j: nat, h: string | j < |ps|
      ensures effect(j, h).layer.Some? && effect(j, h).layer.value.ClientIdLayer? <==> ps[j].kind.ClientIdKind?
    {
      assert effect(j, h) == PluginInit(ps[j].kind, p, h, page, draws(j));
    }
    InstallationClientId(ps, header, effect, |ps|);
  }

  /** Every installed layer matches the plugin it came from, and is the one that plugin captures from the header it saw. */
  lemma InitAllShape(ps: seq<Plugin>, p: Platform, header: string, page: Document, draws: nat -> Ids.Draw)
    ensures var s := InitAll(ps, p, header, page, draws, |ps|);
      && s.installers == InitIndices(ps, |ps|) && |s.layers| == |s.installers|
      && forall k :: 0 <= k < |s.layers| ==>
        && s.installers[k] < |ps|
        && Installs(ps[s.installers[k]].kind, s.layers[k], page)
        && Some(s.layers[k]) == Captured(ps[s.installers[k]].kind, p, InitAll(ps, p, header, page, draws, s.installers[k]).cookie, page, draws(s.installers[k]))
  {
    var effect := PluginEffects(ps, p, page, draws);
    forall j: nat, h: string | j < |ps|
      ensures effect(j, h).layer.None? <==> !HasInit(ps[j].kind)
    {
      assert effect(j, h) == PluginInit(ps[j].kind, p, h, page, draws(j));
    }
    InstallationShape(ps, header, effect, |ps|);
    var s := Installation(header, effect, |ps|);
    forall k | 0 <= k < |s.layers|
      ensures Installs(ps[s.installers[k]].kind, s.layers[k], page)
      ensures Some(s.layers[k]) == Captured(ps[s.installers[k]].kind, p, Installation(header, effect, s.installers[k]).cookie, page, draws(s.installers[k]))
    {
      var j := s.installers[k];
      var h := Installation(header, effect, j).cookie;
      assert effect(j, h) == PluginInit(ps[j].kind, p, h, page, draws(j));
    }
  }

  /** A client-id plugin installed alone on a page that stores an identifier uses it and writes no cookie. */
  lemma StoredClientIdReused(o: Ids.IdOptions, p: Platform, header: string, page: Document, draws: nat -> Ids.Draw, v: string)
    requires Ids.Existing(p, header, o) == Some(v)
    ensures var s := InitAll([ClientIdPluginOf(o)], p, header, page, draws, 1);
      LastClientId(s.layers) == Some(v) && s.cookie == header && s.writes == []
  {
    InitClientId([ClientIdPluginOf(o)], p, header, page, draws);
  }

  /**
   * The identifier is stable across page loads: a client-id plugin given
   * consent, installed alone, yields on the next load (from the header the
   * first one left) the identifier it yielded on the first, provided the
   * encoding round-trips and the pattern is not empty.
   */
  lemma ClientIdStable(plugin: Plugin, p: Platform, header: string, page: Document, draws: nat -> Ids.Draw, later: nat -> Ids.Draw)
    requires plugin.kind.ClientIdKind? && plugin.kind.idOptions.consent
    requires var o := plugin.kind.idOptions; var id := Ids.GenerateNFID(o.pattern, draws(0));
      && o.pattern != []
      && Cookies.SafeToken(p.encode(o.cookieName)) && Cookies.SafeToken(p.encode(id))
      && p.decode(p.encode(id)) == Some(id)
      && !ExpiresAt(Text.Split(Cookies.SetString(p, o.cookieName, id, Ids.IdSetOptions(o)), ';'), Epoch)
    ensures var first := InitAll([plugin], p, header, page, draws, 1);
      && LastClientId(InitAll([plugin], p, first.cookie, page, later, 1).layers) == LastClientId(first.layers)
      && LastClientId(first.layers).Some?
  {
    var o := plugin.kind.idOptions;
    InitClientId([plugin], p, header, page, draws);
    var first := InitAll([plugin], p, header, page, draws, 1);
    InitClientId([plugin], p, first.cookie, page, later);
    if Ids.Existing(p, header, o).None? {
      Ids.StoredIdFound(p, header, o, draws(0));
    }
  }

  class FormController {
    const id: string
    const names: seq<string>
    const fields: map<string, Field>
    const plugins: seq<Plugin>
    const onSuccess: Callback
    const onError: Callback
    const page: Document
    const platform: Platform
    /** The fields whose input was found, and so have a blur handler. */
    const wired: set<string>
    /** The `onSubmit` given to the constructor. */
    const userOnSubmit: Builder
    /** Where plugin j's `init` draws its random bytes. */
    const draws: nat -> Ids.Draw
    /** The page's cookie header and assignments before the plugins' `init` calls. */
    ghost const cookie0: string
    ghost const writes0: seq<string>

    var onSubmit: Builder
    var clientId: Option<string>
    var submitting: bool
    var errors: map<string, string>
    var log: seq<Event>
    /** The layers the plugins installed, and the plugin each came from. */
    ghost var layers: seq<Layer>
    ghost var installers: seq<nat>

    ghost predicate Valid()
      reads this
    {
      && Listed(names, fields)
      && wired <= fields.Keys
      && onSubmit == Chain(userOnSubmit, layers)
    }

    /**
     * `new FormController({ … })`: the user's `onSubmit` is stored first,
     * then each plugin's `init` runs in list order, each wrapping the
     * builder the previous one left. The page's cookies and the layers are
     * those `InitAll` gives; `ctx.clientId` is the last client-id layer's.
     */
    constructor(id: string, names: seq<string>, fields: map<string, Field>, userOnSubmit: Builder,
                onSuccess: Option<Callback>, onError: Option<Callback>, plugins: seq<Plugin>,
                page: Document, platform: Platform, inputs: set<string>, draws: nat -> Ids.Draw)
      requires Listed(names, fields)
      requires userOnSubmit.Unset? || userOnSubmit.UserBuilder?
      modifies page
      ensures Valid()
      ensures this.id == id && this.names == names && this.fields == fields && this.plugins == plugins
      ensures this.page == page && this.platform == platform && this.userOnSubmit == userOnSubmit
      ensures this.draws == draws
      ensures this.onSuccess == (if onSuccess.Some? then onSuccess.value else NoOp)
      ensures this.onError == (if onError.Some? then onError.value else NoOp)
      ensures wired == set n | n in fields && n in inputs
      ensures !submitting && errors == map[] && log == []
      ensures var s := InitAll(plugins, platform, old(page.cookie), page, draws, |plugins|);
        && page.cookie == s.cookie && page.writes == old(page.writes) + s.writes
        && layers == s.layers && installers == s.installers
      ensures installers == InitIndices(plugins, |plugins|) && |layers| == |installers|
      ensures forall k :: 0 <= k < |layers| ==> installers[k] < |plugins| && Installs(plugins[installers[k]].kind, layers[k], page)
      ensures clientId == LastClientId(layers)
      ensures LastClientIdPlugin(plugins, |plugins|).None? ==> clientId == None
      ensures LastClientIdPlugin(plugins, |plugins|).Some? ==>
        var j := LastClientIdPlugin(plugins, |plugins|).value;
        var o := plugins[j].kind.idOptions;
        var e := Ids.Existing(platform, InitAll(plugins, platform, old(page.cookie), page, draws, j).cookie, o);
        clientId == Some(if e.Some? then e.value else Ids.GenerateNFID(o.pattern, draws(j)))
    {
      this.id := id;
      this.names := names;
      this.fields := fields;
      this.plugins := plugins;
      this.onSuccess := if onSuccess.Some? then onSuccess.value else NoOp;
      this.onError := if onError.Some? then onError.value else NoOp;
      this.page := page;
      this.platform := platform;
      this.wired := set n | n in fields && n in inputs;
      this.userOnSubmit := userOnSubmit;
      this.draws := draws;
      this.cookie0 := page.cookie;
      this.writes0 := page.writes;
      this.onSubmit := userOnSubmit;
      this.clientId := None;
      this.submitting := false;
      this.errors := map[];
      this.log := [];
      this.layers := [];
      this.installers := [];
      new;
      InstallAll();
      InstalledAll(plugins, platform, cookie0, page, draws, userOnSubmit, page.cookie, writes0, page.writes, onSubmit, layers, installers, clientId);
      InitClientId(plugins, platform, cookie0, page, draws);
    }

    /** The page's cookies, the layers, the builder and the client id the first i plugins' `init` calls leave. */
    ghost predicate InstalledUpTo(i: nat)
      reads this, page
    {
      && i <= |plugins|
      && Installed(cookie0, PluginEffects(plugins, platform, page, draws), userOnSubmit, i,
                   page.cookie, writes0, page.writes, onSubmit, layers, installers, clientId)
    }

    /** `this.plugins.forEach(p => p.init?.(this))`. */
    method InstallAll()
      requires InstalledUpTo(0)
      modifies this, page
      ensures InstalledUpTo(|plugins|)
      ensures submitting == old(submitting) && errors == old(errors) && log == old(log)
    {
      var i := 0;
      ghost var s0, e0, l0 := submitting, errors, log;
      while i < |plugins|
        invariant 0 <= i <= |plugins|
        invariant InstalledUpTo(i)
        invariant submitting == s0 && errors == e0 && log == l0
        decreases |plugins| - i
      {
        Install(i);
        i := i + 1;
      }
    }

    /** Plugin i's `init(ctx)`: its layer, if it has one, wraps `ctx.onSubmit`; a client-id plugin sets `ctx.clientId`. */
    method Install(i: nat)
      requires i < |plugins| && InstalledUpTo(i)
      modifies this, page
      ensures InstalledUpTo(i + 1)
      ensures submitting == old(submitting) && errors == old(errors) && log == old(log)
    {
      ghost var effect := PluginEffects(plugins, platform, page, draws);
      ghost var e := effect(i, page.cookie);
      assert e == PluginInit(plugins[i].kind, platform, page.cookie, page, draws(i));
      InstallNext(cookie0, effect, userOnSubmit, i, page.cookie, writes0, page.writes, onSubmit, layers, installers, clientId, e);
      var installed := InitLayer(plugins[i].kind, page, platform, draws(i));
      if installed.Some? {
        var l := installed.value;
        if l.ClientIdLayer? {
          clientId := Some(l.clientId);
        }
        onSubmit := Wrapped(l, onSubmit);
        layers := layers + [l];
        installers := installers + [i];
      }
    }

    /** `getValues()`: one entry per field, read in field order. */
    method GetValues() returns (values: Record)
      requires Listed(names, fields)
      ensures values == ValuesOf(names, fields)
    {
      values := map[];
      var i := 0;
      while i < |names|
        invariant 0 <= i <= |names|
        invariant values == ValuesOf(names[..i], fields)
      {
        var name := names[i];
        values := values[name := ReadValue(fields[name])];
        assert names[..i + 1] == names[..i] + [name];
        i := i + 1;
      }
      assert names[..i] == names;
    }

    /** `_setFieldError(name, message)`. */
    method SetFieldError(name: string, message: string)
      modifies this
      ensures errors == old(errors)[name := message] && log == old(log) + [SetError(name, message)]
      ensures submitting == old(submitting) && onSubmit == old(onSubmit) && clientId == old(clientId)
      ensures layers == old(layers) && installers == old(installers)
    {
      errors := errors[name := message];
      log := log + [SetError(name, message)];
    }

    /** `_clearFieldError(name)`. */
    method ClearFieldError(name: string)
      modifies this
      ensures errors == old(errors) - {name} && log == old(log) + [ClearError(name)]
      ensures submitting == old(submitting) && onSubmit == old(onSubmit) && clientId == old(clientId)
      ensures layers == old(layers) && installers == old(installers)
    {
      errors := errors - {name};
      log := log + [ClearError(name)];
    }

    /** The verdict loop of `validateAll`: every field's validator on the current values. */
    method Verdicts() returns (failed: map<string, string>)
      requires Listed(names, fields)
      ensures failed == FailedOf(names, fields)
    {
      var values := GetValues();
      failed := map[];
      var i := 0;
      while i < |names|
        invariant 0 <= i <= |names|
        invariant failed == FailedAmong(names[..i], names, fields)
      {
        var name := names[i];
        var r := fields[name].validate(values[name], PlainObject(values));
        assert r == Verdict(names, fields, name);
        assert names[..i + 1] == names[..i] + [name];
        FailedAmongSnoc(names[..i], name, names, fields);
        if !r.valid {
          failed := failed[name := r.message];
        }
        i := i + 1;
      }
      assert names[..i] == names;
    }

    /** `for (const [name, msg] of Object.entries(errors)) this._setFieldError(name, msg)`. */
    method ShowErrors(failed: map<string, string>)
      requires Listed(names, fields) && failed == FailedOf(names, fields) && errors == failed
      modifies this
      ensures log == old(log) + SetEvents(names, names, fields)
      ensures errors == old(errors) && submitting == old(submitting) && onSubmit == old(onSubmit) && clientId == old(clientId)
      ensures layers == old(layers) && installers == old(installers)
    {
      var i := 0;
      while i < |names|
        invariant 0 <= i <= |names|
        invariant errors == failed
        invariant log == old(log) + SetEvents(names[..i], names, fields)
        invariant submitting == old(submitting) && onSubmit == old(onSubmit) && clientId == old(clientId)
        invariant layers == old(layers) && installers == old(installers)
      {
        var name := names[i];
        ShowStep(names, fields, i);
        if name in failed {
          SetFieldError(name, failed[name]);
          assert log == old(log) + (SetEvents(names[..i], names, fields) + [SetError(name, failed[name])]);
        }
        i := i + 1;
      }
      assert names[..i] == names;
    }

    /** The clearing loop of `validateAll`: fields without a failure message are cleared and deleted from the errors. */
    method ClearPassing(failed: map<string, string>)
      requires Listed(names, fields) && failed == FailedOf(names, fields) && errors == failed
      modifies this
      ensures errors == Pruned(names, fields)
      ensures log == old(log) + ClearEvents(names, names, fields)
      ensures submitting == old(submitting) && onSubmit == old(onSubmit) && clientId == old(clientId)
      ensures layers == old(layers) && installers == old(installers)
    {
      var i := 0;
      while i < |names|
        invariant 0 <= i <= |names|
        invariant errors == ClearedUpTo(failed, names[..i])
        invariant log == old(log) + ClearEvents(names[..i], names, fields)
        invariant submitting == old(submitting) && onSubmit == old(onSubmit) && clientId == old(clientId)
        invariant layers == old(layers) && installers == old(installers)
      {
        var name := names[i];
        ClearStep(names, fields, i);
        if !(name in errors && errors[name] != "") {
          ClearFieldError(name);
          assert log == old(log) + (ClearEvents(names[..i], names, fields) + [ClearError(name)]);
        }
        i := i + 1;
      }
      assert names[..i] == names;
      ClearedAll(names, fields);
    }

    /**
     * `validateAll()`: every field's verdict on the current values; the
     * failing ones become the errors, which are shown, and the fields
     * without a failure message are cleared, deleting them from the same
     * errors object before `valid` counts its keys.
     */
    method ValidateAll() returns (valid: bool, errs: map<string, string>)
      requires Valid()
      modifies this
      ensures Valid()
      ensures errs == Pruned(names, fields) && errors == errs && valid == (|errs| == 0)
      ensures log == old(log) + ReflectEvents(names, fields)
      ensures submitting == old(submitting) && onSubmit == old(onSubmit) && clientId == old(clientId)
      ensures layers == old(layers) && installers == old(installers)
    {
      var failed := Verdicts();
      errors := failed;
      ShowErrors(failed);
      ghost var shown := log;
      ClearPassing(failed);
      assert log == old(log) + (SetEvents(names, names, fields) + ClearEvents(names, names, fields)) by {
        assert shown == old(log) + SetEvents(names, names, fields);
        assert log == shown + ClearEvents(names, names, fields);
      }
      valid := |errors| == 0;
      errs := errors;
    }

    /** `plugins.forEach(p => p.hook?.(arg, this))`: each call logged, stopped by a throw. */
    method RunHooks(kind: HookKind, arg: Value) returns (thrown: Option<Value>)
      modifies this
      ensures log == old(log) + HookRun(plugins, kind, arg, 0).events && thrown == HookRun(plugins, kind, arg, 0).thrown
      ensures errors == old(errors) && submitting == old(submitting) && onSubmit == old(onSubmit) && clientId == old(clientId)
      ensures layers == old(layers) && installers == old(installers)
    {
      var called;
      called, thrown := CallHooks(plugins, kind, arg);
      log := log + called;
    }

    /**
     * `submit()` up to the send: nothing while a submission is in flight;
     * an invalid form runs the `onValidationFail` hooks and stops; a valid
     * one is disabled, marked submitting, and its payload sent.
     */
    method Submit() returns (r: SubmitResult)
      requires Valid()
      modifies this
      ensures Valid()
      ensures old(submitting) ==> r == Ignored && log == old(log) && errors == old(errors) && submitting
      ensures !old(submitting) ==> errors == Pruned(names, fields)
      ensures !old(submitting) && |Pruned(names, fields)| > 0 ==>
        && !submitting
        && var t := HookRun(plugins, OnValidationFail, ErrorsObject(errors), 0);
        && r == Invalid(errors, t.thrown)
        && log == old(log) + ReflectEvents(names, fields) + t.events
      ensures !old(submitting) && |Pruned(names, fields)| == 0 ==>
        && submitting
        && r == InFlight(Run(onSubmit, platform, page.cookie, PlainObject(ValuesOf(names, fields))))
        && log == old(log) + ReflectEvents(names, fields) + [SetDisabled(true), Send(r.payload)]
      ensures onSubmit == old(onSubmit) && clientId == old(clientId)
    {
      if submitting {
        return Ignored;
      }
      var valid, errs := ValidateAll();
      if !valid {
        var thrown := RunHooks(OnValidationFail, ErrorsObject(errs));
        return Invalid(errs, thrown);
      }
      submitting := true;
      log := log + [SetDisabled(true)];
      var values := GetValues();
      var payload := Run(onSubmit, platform, page.cookie, PlainObject(values));
      log := log + [Send(payload)];
      r := InFlight(payload);
    }

    /** The `try` block after the send: plugin `onSuccess` hooks, then the user's; returns what is caught. */
    method TrySuccess(resp: Response) returns (caught: Option<Value>)
      modifies this
      ensures log == old(log) + SuccessPhase(plugins, onSuccess, resp).events
      ensures caught == SuccessPhase(plugins, onSuccess, resp).thrown
      ensures errors == old(errors) && submitting == old(submitting) && onSubmit == old(onSubmit) && clientId == old(clientId)
      ensures layers == old(layers) && installers == old(installers)
    {
      match resp {
        case Failed(err) =>
          caught := Some(err);
        case Delivered(res) =>
          caught := RunHooks(OnSuccess, res);
          if caught.None? {
            log := log + [UserHook(OnSuccess)];
            caught := onSuccess.call(res);
          }
      }
    }

    /** The `catch` block: plugin `onError` hooks, then the user's; returns what escapes. */
    method CatchError(err: Value) returns (escaped: Option<Value>)
      modifies this
      ensures log == old(log) + ErrorPhase(plugins, onError, err).events
      ensures escaped == ErrorPhase(plugins, onError, err).thrown
      ensures errors == old(errors) && submitting == old(submitting) && onSubmit == old(onSubmit) && clientId == old(clientId)
      ensures layers == old(layers) && installers == old(installers)
    {
      escaped := RunHooks(OnError, err);
      if escaped.None? {
        log := log + [UserHook(OnError)];
        escaped := onError.call(err);
      }
    }

    /**
     * The rest of `submit()` once `transport.send` settles: the success
     * callbacks, or the error callbacks when the send or a success callback
     * throws, and in every case (`finally`) the submitting flag cleared
     * and the submit control enabled again.
     */
    method Settle(resp: Response) returns (s: Settled)
      requires Valid() && submitting
      modifies this
      ensures Valid()
      ensures !submitting
      ensures log == old(log) + SettleTrace(plugins, onSuccess, onError, resp).events + [SetDisabled(false)]
      ensures s == match SettleTrace(plugins, onSuccess, onError, resp).thrown case None => Resolved case Some(e) => Rejected(e)
      ensures errors == old(errors) && onSubmit == old(onSubmit) && clientId == old(clientId)
    {
      var caught := TrySuccess(resp);
      var escaped: Option<Value> := None;
      if caught.Some? {
        escaped := CatchError(caught.value);
      }
      submitting := false;
      log := log + [SetDisabled(false)];
      s := if escaped.Some? then Rejected(escaped.value) else Resolved;
    }

    /** The blur handler of a wired field: that field alone is validated and its error set or cleared. */
    method Blur(name: string)
      requires Valid() && name in wired
      modifies this
      ensures Valid()
      ensures !Verdict(names, fields, name).valid ==>
        && errors == old(errors)[name := Verdict(names, fields, name).message]
        && log == old(log) + [SetError(name, Verdict(names, fields, name).message)]
      ensures Verdict(names, fields, name).valid ==>
        errors == old(errors) - {name} && log == old(log) + [ClearError(name)]
      ensures submitting == old(submitting) && onSubmit == old(onSubmit) && clientId == old(clientId)
    {
      var values := GetValues();
      var r := fields[name].validate(ReadValue(fields[name]), PlainObject(values));
      assert r == Verdict(names, fields, name);
      if !r.valid {
        SetFieldError(name, r.message);
      } else {
        ClearFieldError(name);
      }
    }
  }
}
