# fairsquare-libform form core, modelled in Dafny

This project models the submission engine of the `fairsquare-libform`
library and proves properties of the model. It covers:

- the `FormController` that reads fields and validates them, reflects
  errors, builds the payload through the plugins' chain, and calls the
  lifecycle hooks;
- the validator combinators and the value coercion behind them;
- the cookie helpers and client identifiers;
- the four shipped plugins: client id, HTTP request, attribution from
  query parameters, and the development `queryparams` plugin.

Modules follow the source files:

| module | file | models |
|---|---|---|
| `JsValues` | `js_values.dfy` | JavaScript values: truthiness, `a \|\| b`, `v == null`, `String(n)`, and the own entries `{...v}` copies |
| `Text` | `text.dfy` | `trim` over the JavaScript white-space set, `split`/`join`, `/\s+/` words, ASCII `toLowerCase` |
| `Browser` | `browser.dfy` | `document.cookie` as a small cookie jar; `document.referrer`, `window.location`; the runtime's encode, decode, JSON and date functions as parameters |
| `Validators` | `validators.dfy` | `lib/form-core/validators/index.js` |
| `Cookies` | `cookies.dfy` | `lib/utils/cookies.js` |
| `Ids` | `id.dfy` | `lib/utils/id.js` |
| `QueryParams` | `query_params.dfy` | `lib/form-core/plugins/queryParams.js` |
| `ClientIdPlugin` | `client_id_plugin.dfy` | `lib/form-core/plugins/clientid.js` |
| `HttpRequestPlugin` | `http_request_plugin.dfy` | `lib/form-core/plugins/httpRequestPlugin.js` |
| `QueryParamsDev` | `query_params_dev.dfy` | `lib/form-core/plugins/queryParamsDev.js` |
| `Middleware` | `middleware.dfy` | the `ctx.onSubmit` chain the plugins build, and the plugin objects |
| `Form` | `form_controller.dfy` | `lib/form-core/FormController.js` |

**Form controller.** `FormController` is a class. `submitting`, `errors`,
`onSubmit` and `clientId` are mutable fields. Every call into the DOM
adapter is appended to `log` as an event: `setError`, `clearError`,
`setDisabled`, the send, and each hook invocation. The lifecycle is split
at the `await` of `transport.send`:

- `Submit` runs up to the send and returns the payload.
- `Settle(response)` runs the `try`/`catch`/`finally` with the transport's
  outcome.

A second `Submit` while one is in flight is therefore a reachable no-op.

**Payload chain.** The closures the plugins install are kept as data. A
`Builder` is unset, the user's builder, or one plugin `Layer` wrapped
around the previous builder. `Run` calls it.

**Cookies.** Assigning to `document.cookie` stores the cookie the
assignment names, replacing any of the same name. An assignment carrying
the epoch expiry stores nothing. Reading `document.cookie` renders the jar.

**Randomness.** Random bytes come from a `draw` function passed in.

**Differences from the behaviour the library's documentation describes.**
The model follows the code in each case.

- `validateAll` computes `valid` after its clearing loop. That loop deletes
  a failing field whose message is empty, because `!errors[name]` is true
  for `""` (`lib/form-core/FormController.js:64-70`). So a field that fails
  with an empty message leaves `valid` true and is missing from `errors`.
  `Form.EmptyMessageCountsAsValid` exhibits such a field, and
  `Form.ValidIff` states the exact condition.
- The `"merge"` model is the same spread as `"last-touch"`
  (`lib/form-core/plugins/queryParams.js:36-37`). `QueryParams.MergeIsLastTouch`
  proves they agree. It is not a key-wise union that prefers stored values.
- A validator that throws makes `Promise.all` reject, so `validateAll`
  rejects. The rejection is not isolated to that field. The model's
  validators are total (see "Left out").

## Model

| member | source | states |
|---|---|---|
| JsValues.Payload | lib/form-core/plugins/clientid.js:16 | `base \|\| values \|\| {}`: the previous builder's result when truthy, else the values when truthy, else an empty object |
| Validators.Ok | lib/form-core/validators/index.js:2 | a passing outcome has an empty message |
| Validators.Fail | lib/form-core/validators/index.js:3 | a failing outcome carries exactly the given message |
| Validators.ToStrWrappersAgree | lib/form-core/validators/index.js:14-21 | a primitive, `{value: p}`, a single-key `{k: p}` and `[p]` all coerce to the same string |
| Validators.ToStrArray | lib/form-core/validators/index.js:24 | an array coerces to the comma-join of its elements' non-empty coercions |
| Validators.ToStrArraySplits | lib/form-core/validators/index.js:24 | when no element's coercion contains a comma, splitting the array's coercion at commas gives back the non-empty element coercions |
| Validators.NonEmptyElements | lib/form-core/validators/index.js:24 | `filter(Boolean)` keeps only elements of its input |
| Validators.All | lib/form-core/validators/index.js:35-41 | all validators pass ⇒ `ok()`; otherwise the result is the first failing validator's, and every earlier one passed |
| Validators.LastNonEmptyIs | lib/form-core/validators/index.js:47 | `lastMsg` is empty iff every message is, and otherwise is a message after which all are empty |
| Validators.Any | lib/form-core/validators/index.js:42-50 | one validator passes ⇒ `ok()`; all fail ⇒ fails with the last non-empty message, or `"Invalid value"` |
| Validators.NonBlankIff | lib/form-core/validators/index.js:54-56 | a trimmed string is non-empty iff the string has a non-white-space character |
| Validators.Required | lib/form-core/validators/index.js:53-57 | passes iff the coerced value has a non-white-space character; otherwise fails with the message or its default |
| Validators.EmailShapeIff | lib/form-core/validators/index.js:62 | the check used for the e-mail regular expression holds iff the string is `local@host.tld` with three non-empty parts free of white space and `@` |
| Validators.Email | lib/form-core/validators/index.js:59-64 | passes iff the trimmed coercion matches `/^[^\s@]+@[^\s@]+\.[^\s@]+$/`; otherwise fails with the message |
| Text.TwoWordsIff | lib/form-core/validators/index.js:68-69 | `s.split(/\s+/).filter(Boolean)` has two or more parts iff a non-space, a later space and a later non-space occur |
| Validators.FullName | lib/form-core/validators/index.js:66-70 | passes iff the trimmed coercion has two white-space-separated words |
| Validators.MinLength | lib/form-core/validators/index.js:72-75 | passes iff the coercion has at least n characters; otherwise fails with the message or `Must be at least n characters` |
| Validators.MaxLength | lib/form-core/validators/index.js:77-80 | passes iff the coercion has at most n characters; otherwise fails with the message or `Must be at most n characters` |
| Validators.LengthWindow | lib/form-core/validators/index.js:35-80 | `all(minLength(lo), maxLength(hi))` passes iff lo ≤ length ≤ hi, with `ok()`; a too-short value fails with the lower bound's message even when it is also too long, and otherwise a too-long one with the upper bound's |
| Validators.Pattern | lib/form-core/validators/index.js:82-85 | passes iff the test accepts the coercion (untrimmed); otherwise fails with the message |
| Validators.PhoneBasicShapeIff | lib/form-core/validators/index.js:89 | dropping one leading `+` and checking 7 to 15 digits, spaces, `-`, `(`, `)` is the same as the regular expression |
| Validators.PhoneBasic | lib/form-core/validators/index.js:87-90 | passes iff the trimmed coercion matches `/^\+?[0-9\s\-()]{7,15}$/` |
| Validators.DashedUSShapeIff | lib/form-core/validators/index.js:96 | the position-by-position check is the same as `/^\d{3}-\d{3}-\d{4}$/` |
| Validators.PhoneDashedUS | lib/form-core/validators/index.js:92-97 | passes iff the trimmed coercion is `ddd-ddd-dddd` |
| Validators.RequiredSelect | lib/form-core/validators/index.js:99-102 | passes iff the coerced value has a non-white-space character; otherwise fails with the message |
| Validators.MustAccept | lib/form-core/validators/index.js:104-108 | passes iff the lower-cased coercion is `true`, `on`, `1` or `yes` (this covers `value === true`) |
| Cookies.FirstMatchNone | lib/utils/cookies.js:7-18 | the search finds nothing iff no trimmed part starts with `name=` |
| Cookies.FirstMatchFirst | lib/utils/cookies.js:8-12 | what is found is the text after `name=` in a matching part, and no earlier part matches |
| Cookies.CookieValue | lib/utils/cookies.js:5-19 | `get` returns null exactly when no part matches |
| Cookies.Get | lib/utils/cookies.js:5-19 | the loop returns the decoded text after `name=` in the first matching part (the raw text when decoding throws), or null |
| Cookies.Has | lib/utils/cookies.js:61-63 | true iff some trimmed part starts with `name=` |
| Cookies.GetJSON | lib/utils/cookies.js:65-69 | null for a missing or empty value; otherwise the parse, or null when parsing throws |
| Cookies.ExpiryDate | lib/utils/cookies.js:34-40 | a `Date` in `expires` wins; without `expires`, a finite `days` gives the date that many days on; any other `expires` gives no expiry |
| Cookies.Set | lib/utils/cookies.js:21-49 | one assignment of `enc(name)=enc(value)` with the attributes in source order, answering true |
| Cookies.Remove | lib/utils/cookies.js:51-59 | one assignment of `enc(name)=` with the epoch expiry, Path and Domain, answering true; `DefaultRemovePath` is the `"/"` an omitted `path` takes |
| Cookies.SetJSON | lib/utils/cookies.js:71-73 | `set` of the JSON text |
| Cookies.GetRendered | lib/utils/cookies.js:5-19 | reading a jar returns the decoded value of the first stored cookie with the encoded name |
| Cookies.PrefixNameNoMatch | lib/utils/cookies.js:10 | with the trailing `=`, a name does not match a cookie whose name merely starts with it |
| Cookies.SetThenGet | lib/utils/cookies.js:5-49 | after `set(name, value)`, `get(name)` returns `value` when the encoding is `encodeURIComponent`-like and decoding inverts it |
| Cookies.RemoveStores | lib/utils/cookies.js:51-57 | storing a `remove` string drops every cookie with that name |
| Cookies.RemoveThenGet | lib/utils/cookies.js:51-63 | after `remove(name)`, `get(name)` is null, so `has(name)` is false |
| Cookies.SetJSONThenGetJSON | lib/utils/cookies.js:65-73 | `getJSON` after `setJSON` returns the object, for an object JSON round-trips |
| Ids.RandNibble | lib/utils/id.js:18-20 | the low four bits of the byte drawn |
| Ids.RandNibbleOnto | lib/utils/id.js:18-20 | every nibble 0 to 15 can be drawn |
| Ids.VariantNibble | lib/utils/id.js:22-26 | a value 8 to 11 (`10xx`) whose low two bits are the drawn byte's |
| Ids.VariantNibbleOnto | lib/utils/id.js:22-26 | each of 8 to 11 can be drawn |
| Ids.HexDigitRoundTrip | lib/utils/id.js:43 | the digit `toString(16)` writes reads back as the nibble |
| Ids.HexValueRoundTrip | lib/utils/id.js:43 | every lower-case hex digit is the digit of its value |
| Ids.ByteHexDigits | lib/utils/id.js:30 | `toString(16).padStart(2, "0")` of a byte is its high then its low nibble |
| Ids.Hex | lib/utils/id.js:28-32 | the loop appends two hex digits per drawn byte; a non-positive n gives `""` |
| Ids.HexOfShape | lib/utils/id.js:28-32 | `hex(k)` has 2k characters, all hex digits |
| Ids.HexOfDecodes | lib/utils/id.js:28-32 | characters 2i and 2i+1 of `hex(k)` decode back to byte i |
| Ids.GenerateNFID | lib/utils/id.js:40-45 | an identifier as long as its pattern |
| Ids.GenerateConforms | lib/utils/id.js:40-45 | the identifier keeps the pattern's other characters, has a hex digit at each `x` and one of 8, 9, a, b at each `y` |
| Ids.GenerateOnto | lib/utils/id.js:40-45 | every identifier conforming to the pattern can be generated |
| Ids.DefaultShape | lib/utils/id.js:34-40 | the default identifier is 18 characters long, starts with `NFID-` and has a variant digit next |
| Ids.GetOrCreateClientId | lib/utils/id.js:51-69 | a truthy stored id is returned and nothing is written; otherwise a generated id is returned and written once with the persistence options when consent is given |
| Ids.StoredIdFound | lib/utils/id.js:62-66 | after the id is stored, the next call finds it |
| QueryParams.LowerAll | lib/form-core/plugins/queryParams.js:47 | each allowed key lower-cased, in place |
| QueryParams.ReadParamsFromUrl | lib/form-core/plugins/queryParams.js:10-18 | the loop builds `ParamsOf` of the query entries |
| QueryParams.ParamsOfKeys | lib/form-core/plugins/queryParams.js:13-15 | a key is captured iff some entry has it (after lower-casing), it is allowed, and its value is non-empty |
| QueryParams.ParamsOfLast | lib/form-core/plugins/queryParams.js:13-15 | a captured key holds the value of the last such entry |
| QueryParams.ParamsAllowed | lib/form-core/plugins/queryParams.js:15 | only allowed keys are captured |
| QueryParams.Spread | lib/form-core/plugins/queryParams.js:36-37 | `{...existing, ...incoming}`: both key sets, incoming values winning |
| QueryParams.FirstTouchStep | lib/form-core/plugins/queryParams.js:40 | one entry is filled exactly when its existing slot is absent or null |
| QueryParams.FirstTouchLoop | lib/form-core/plugins/queryParams.js:39-41 | the loop builds `FirstTouch` of the two records |
| QueryParams.Combine | lib/form-core/plugins/queryParams.js:34-42 | `combine` picks the incoming record, the spread, or the first-touch merge as the source does |
| QueryParams.CombineNothingStored | lib/form-core/plugins/queryParams.js:35 | with no stored record the incoming one is taken, whatever the mode |
| QueryParams.MergeIsLastTouch | lib/form-core/plugins/queryParams.js:36-37 | `"merge"` gives the same record as `"last-touch"` |
| QueryParams.UnknownModeIsFirstTouch | lib/form-core/plugins/queryParams.js:38-41 | every other mode string, misspellings included, is first touch |
| QueryParams.FirstTouchKeeps | lib/form-core/plugins/queryParams.js:38-41 | first touch keeps each non-null stored value and fills absent or null keys from the incoming record |
| QueryParams.FirstTouchIsReverseSpread | lib/form-core/plugins/queryParams.js:38-41 | with no null stored values, first touch is `{...incoming, ...existing}` |
| QueryParams.FirstTouchIdempotent | lib/form-core/plugins/queryParams.js:38-41 | merging the same visit twice changes nothing |
| QueryParams.SpreadIdempotent | lib/form-core/plugins/queryParams.js:36-37 | spreading the same visit twice changes nothing |
| QueryParams.CombineIdempotent | lib/form-core/plugins/queryParams.js:34-42 | under every mode, replaying a visit against the record it produced gives that record |
| QueryParams.ReferrerCaptured | lib/form-core/plugins/queryParams.js:50-52 | a captured non-empty referrer overrides a `referrer` parameter; otherwise the parameters are unchanged |
| QueryParams.Init | lib/form-core/plugins/queryParams.js:45-61 | the merged record is the combine of the stored JSON and the captured parameters; it is written once with the persistence options iff it has a key and consent is given |
| QueryParams.Wrap | lib/form-core/plugins/queryParams.js:65-72 | the payload unchanged when the latest record has no keys; otherwise the payload's entries plus the latest record under the payload field |
| QueryParams.LatestFallsBack | lib/form-core/plugins/queryParams.js:69 | with no truthy stored JSON, the latest record is the one merged at `init` |
| ClientIdPlugin.Wrap | lib/form-core/plugins/clientid.js:14-18 | the payload's entries, plus `clientId` unless the payload already has one |
| ClientIdPlugin.WrapIdempotent | lib/form-core/plugins/clientid.js:14-18 | wrapping twice is wrapping once |
| ClientIdPlugin.WrapOverValues | lib/form-core/plugins/clientid.js:14-18 | with no previous builder, the payload is the values plus `clientId` |
| HttpRequestPlugin.Capture | lib/form-core/plugins/httpRequestPlugin.js:3-7 | `httpRequest` holds exactly `http_referrer` and `full_url` from the page |
| HttpRequestPlugin.Wrap | lib/form-core/plugins/httpRequestPlugin.js:10-14 | the payload's entries with `httpRequest` set, overriding any earlier one |
| HttpRequestPlugin.WrapIdempotent | lib/form-core/plugins/httpRequestPlugin.js:10-14 | wrapping twice is wrapping once |
| QueryParamsDev.Wrap | lib/form-core/plugins/queryParamsDev.js:8-13 | the payload's entries, plus `qp: "test"` unless the payload already has `qp` |
| QueryParamsDev.WrapIdempotent | lib/form-core/plugins/queryParamsDev.js:8-13 | wrapping twice is wrapping once |
| QueryParamsDev.HookQuiet | lib/form-core/plugins/queryParamsDev.js:16-24 | the three hooks do nothing and do not throw |
| Middleware.ChainSnoc | lib/form-core/FormController.js:14 | installing one more plugin wraps the builder built so far |
| Middleware.RunChain | lib/form-core/FormController.js:14 | calling the chained builder runs the user's builder (or takes the values), then every layer in registration order |
| Middleware.LastLayerOutermost | lib/form-core/FormController.js:14 | the last-registered layer is applied last, to what the earlier ones built |
| Middleware.FirstLayerSeesValues | lib/form-core/plugins/clientid.js:15 | with no user builder, the first layer receives the values as its base |
| Middleware.HttpRequestLastWins | lib/form-core/plugins/httpRequestPlugin.js:13 | a last-registered HTTP-request plugin decides `httpRequest` whatever came before |
| Middleware.ClientIdKeepsEarlier | lib/form-core/plugins/clientid.js:17 | a `clientId` an earlier builder put in the payload survives a later client-id plugin |
| Form.ValuesOfKeys | lib/form-core/FormController.js:37-53 | `getValues()` has one entry per field, holding what `_getValue` reads |
| Form.ListedDistinct | lib/form-core/FormController.js:49 | the field names loops walk are each listed once |
| Form.FormController.GetValues | lib/form-core/FormController.js:47-53 | the loop builds `getValues()` |
| Form.FormController.Verdicts | lib/form-core/FormController.js:56-63 | the loop collects each failing field with its message |
| Form.FailedAmongSnoc | lib/form-core/FormController.js:56-63 | one more verdict adds the field with its message iff it fails |
| Form.Pruned | lib/form-core/FormController.js:64-68 | the errors left are failing fields with their messages, each non-empty |
| Form.PrunedExact | lib/form-core/FormController.js:64-68 | a field keeps an error iff it fails with a non-empty message, and the error is that message |
| Form.ValidIff | lib/form-core/FormController.js:70 | `valid` iff every field passes or fails with an empty message |
| Form.EmptyMessageCountsAsValid | lib/form-core/FormController.js:63-70 | a form whose one field fails with an empty message is reported valid with no errors |
| Form.ShowStep | lib/form-core/FormController.js:67 | setting errors for one more field appends a `setError` iff it failed |
| Form.KeepsErrorIff | lib/form-core/FormController.js:68 | the clearing loop's `!errors[name]` test agrees with the verdict |
| Form.ClearStep | lib/form-core/FormController.js:68 | clearing one more field deletes it and appends a `clearError` iff it has no non-empty error |
| Form.ClearedAll | lib/form-core/FormController.js:68 | after the clearing loop the errors object is `Pruned` |
| Form.ReflectCovers | lib/form-core/FormController.js:67-68 | a field keeping an error gets its `setError` and no `clearError`; every other field gets a `clearError` |
| Form.ClearAbsent | lib/form-core/FormController.js:68 | only listed fields are cleared |
| Form.FormController.ShowErrors | lib/form-core/FormController.js:67 | the setting loop logs a `setError` for each failing field, in field order |
| Form.FormController.ClearPassing | lib/form-core/FormController.js:68 | the clearing loop leaves `Pruned` in the errors object and logs the `clearError`s in field order |
| Form.FormController.ValidateAll | lib/form-core/FormController.js:55-71 | the errors are `Pruned`, stored in the state and returned; `valid` iff there are none; the UI receives the set and clear events |
| Form.FormController.SetFieldError | lib/form-core/FormController.js:97-100 | records the message and logs `setError` |
| Form.FormController.ClearFieldError | lib/form-core/FormController.js:101-104 | deletes the entry and logs `clearError` |
| Form.FormController.Blur | lib/form-core/FormController.js:25-34 | a blur on a wired field sets its error when its verdict fails, clears it otherwise |
| Form.HookRunStep | lib/form-core/FormController.js:77 | one plugin's turn: skipped without the hook, logged and stopping at a throw, logged and continuing otherwise |
| Form.CallHooks | lib/form-core/FormController.js:77 | the loop calls the hooks in plugin order and stops at the first that throws |
| Form.HookRunPrefix | lib/form-core/FormController.js:77 | the hooks called are a prefix of the plugins that have the hook, in order |
| Form.HookRunQuiet | lib/form-core/FormController.js:77 | when no hook throws, every plugin that has the hook is called and nothing escapes |
| Form.HookRunBlame | lib/form-core/FormController.js:77 | what escapes was thrown by the last hook called |
| Form.FormController.RunHooks | lib/form-core/FormController.js:77 | logs the hook calls and returns what escaped |
| Form.FormController.Submit | lib/form-core/FormController.js:73-83 | ignored while in flight; otherwise validates; invalid ⇒ `onValidationFail` hooks and no send; valid ⇒ `submitting`, disable, payload from the chain, send |
| Form.SettleDelivered | lib/form-core/FormController.js:84-87 | a delivered response with quiet callbacks runs every plugin `onSuccess` in order, then the user's, and resolves |
| Form.SettleFailed | lib/form-core/FormController.js:88-90 | a failed send with quiet plugin hooks runs every plugin `onError`, then the user's, whose outcome decides |
| Form.SettleSuccessThrows | lib/form-core/FormController.js:84-90 | a user `onSuccess` that throws moves to the `catch` block with its error |
| Form.FormController.TrySuccess | lib/form-core/FormController.js:84-87 | the `try` block's calls and what it throws |
| Form.FormController.CatchError | lib/form-core/FormController.js:88-90 | the `catch` block's calls and what escapes it |
| Form.FormController.Settle | lib/form-core/FormController.js:84-94 | `try`/`catch`, then `submitting` false and the control enabled in every case; resolves iff nothing escapes |
| Form.CapturedInstalls | lib/form-core/FormController.js:14 | a plugin installs a layer iff it has an `init`, and the layer matches the plugin and the page |
| Form.PluginInit | lib/form-core/FormController.js:14 | one plugin's `init` on a cookie header: a layer iff the plugin has an `init`, matching it; a client-id layer iff it is the client-id plugin; no assignment leaves the header as it was |
| Form.InitLayer | lib/form-core/FormController.js:14 | runs one plugin's `init`: its layer, the cookie assignments it appends and the header it leaves are exactly `PluginInit`'s (a new client id stored only without a stored one and with consent; a non-empty merged attribution record stored only with consent) |
| Form.InstallationShape | lib/form-core/FormController.js:14 | over any per-plugin effects: exactly the plugins with an `init` install a layer, in list order, and each layer is its plugin's effect on the header the earlier plugins left |
| Form.InstallationClientId | lib/form-core/FormController.js:14 | over any per-plugin effects: no client id without a client-id plugin, else the last client-id plugin's layer's id |
| Form.InstallNext | lib/form-core/FormController.js:14 | one more plugin's effect extends the header, the assignments, the chain, the layers and `ctx.clientId` as the fold does |
| Form.InitAllShape | lib/form-core/FormController.js:14 | after the `init`s: the layers come from the plugins with an `init`, in order, each matching its plugin and equal to what it captures from the header it saw |
| Form.InitClientId | lib/form-core/plugins/clientid.js:8-13 | `ctx.clientId` after the `init`s: unset without a client-id plugin, else the id the last one found stored when it ran, or else the one it generated |
| Form.StoredClientIdReused | lib/form-core/plugins/clientid.js:7-10 | a client-id plugin on a page that stores an id uses that id and writes no cookie |
| Form.ClientIdStable | lib/form-core/plugins/clientid.js:2-10 | with consent, the next page load's client id equals this one's, given an encoding that round-trips |
| Form.InstalledAll | lib/form-core/FormController.js:14 | the state left after every plugin, restated through `InitAll` |
| Form.FormController.Install | lib/form-core/FormController.js:14 | one turn of the `forEach`: the page's cookies, the layers, the builder and `clientId` advance by that plugin's `PluginInit` |
| Form.FormController.InstallAll | lib/form-core/FormController.js:14 | the `forEach` over every plugin leaves the state `InitAll` gives, touching none of the submission state |
| Form.FormController.constructor | lib/form-core/FormController.js:3-15 | the fields are stored, the state is idle with no errors, the blur listeners are wired, and every `init` runs in order: the page's cookie header and assignments, the layers and their plugins are `InitAll`'s; the builder is the user's wrapped by each layer; `clientId` is the id the last client-id plugin found stored, or else generated |

## Left out

- The DOM adapter (`dom.query`, `dom.on`, the error and disabled rendering) is left out; its calls are events appended to the controller's log. Which fields have an input is a parameter of the constructor.
- The submit listener's `preventDefault` is left out. So are the `console.log` calls in `_wire` and `required`.
- The transport is left out. `Settle` takes the outcome of `transport.send` as a parameter.
- Concurrency is left out. `validateAll`'s `Promise.all` is modelled as running the validators in field order. Each validator is a pure function of the value and the value snapshot, so the order does not change the result.
- Form.FormController.Submit: does not model a user `onSubmit` or a plugin builder that throws. In the source that happens before the `try`, so `submitting` stays true. The model's builders are total.
- Validators are total in the model. A validator that throws, which makes `Promise.all` reject, is left out.
- A hook returning a promise that later rejects (such as an `async` hook) is modelled as returning normally. Only a synchronous throw stops a `forEach`.
- Form.FormController.RunHooks: appends the hook calls to the log after the loop rather than one at a time. Nothing else happens between them.
- `Object.keys` order of integer-like keys is left out. Field names are given as a list in iteration order.
- Names inherited through the prototype chain (for example `errors["constructor"]`) are left out.
- Floating-point numbers are left out; `Num` holds integers. UTF-16 code units are not modelled: `length` counts characters.
- Validators.Pattern: the regular expression is a predicate on the coerced string, so a `lastIndex` kept between calls by a global `RegExp` is left out.
- Text.ToLower: lower-cases ASCII letters only.
- `encodeURIComponent`, `decodeURIComponent`, `JSON.parse`, `JSON.stringify` and the `toUTCString` of a date some days ahead are abstract functions of a `Platform` parameter. The clock is therefore a parameter too.
- The cookie jar ignores `Path`, `Domain`, `Secure` and `SameSite`. It treats only the epoch expiry as deleting. Other past dates are left out.
- Cookies.SetThenGet: assumes the encoding produces no white space, `;` or `=`, and that decoding inverts it. Those are the properties of `encodeURIComponent` the reading side relies on.
- Ids.GetOrCreateClientId: random bytes are indexed by position through a `draw` parameter. `crypto` versus `Math.random` is left out. `canSetCookie()` is a boolean option.
- `FormFactory`, the `querystring` helper and the scaffold plugin are not part of this model.

