# View-once helper: a Dafny model of the TTL interceptor

This project models the core of the `view-once-helper` browser extension for the Telegram
web client. The extension adds a "media timer" selection (no timer, view once, or N
seconds) and applies it to outgoing media.

- **Page hook** (`extensions/view-once-helper/injected.js`, and the copy embedded in
  `content-script.js:107-190`):
  - holds the current selection in `state.ttlSeconds`, updated by the `set-ttl` listener;
  - searches the page's global namespace for the host's message manager;
  - wraps that manager's `sendFile` exactly once, guarded by the `__viewOncePatched` marker;
  - retries the search on an interval until a manager is found;
  - `applyTtlToOptions` rewrites every outgoing `sendFile` options tree.
- **Content script** (`extensions/view-once-helper/content-script.js`):
  - persists the selection in `localStorage`;
  - shows it in a `<select>` control and in a copy of the control injected into pop-ups;
  - broadcasts each change to the page hook.

Modules, leaves first:

| file | module | what it models |
|---|---|---|
| `wrappers.dfy` | `Wrappers` | `Option`, standing for null |
| `number_text.dfy` | `NumberText` | `String(n)` / `JSON.stringify(n)` and `Number` / `JSON.parse` on integer text |
| `js_values.dfy` | `JsValues` | the JavaScript values of an options tree |
| `ttl_transform.dfy` | `TtlTransform` | `cloneOptions`, `applyTtlToOptions` |
| `discovery.dfy` | `Discovery` | host managers, `findCandidate`, `locateAppMessagesManager` |
| `page_hook.dfy` | `PageHook` | `patchSendFile`, `tick`, start-up tick and retry interval, the listener |
| `ttl_storage.dfy` | `TtlStorage` | `readStoredTtl`, `persistTtl` over `localStorage` |
| `controller.dfy` | `Controller` | `TTL_OPTIONS` and `<select>` values, change handlers, `createUi` logic, `init` |

How each part is modelled:

- **Options tree.** The tree is a value (`JsValues.Value`). `TtlTransform.Apply` returns two
  things:
  - the value the call returns;
  - the caller's own object as the call leaves it.

  The code reassigns `options.media` and `options.message` on the caller's object
  (`injected.js:23`, `:26`) before it clones anything. So with a timer selected the
  caller's media entries come back carrying `ttl_seconds` too. The model shows this
  (`CallerMediaRewrittenInPlace`).
- **Discovery.** The global namespace is a `Discovery.Window`:
  - the two well-known paths;
  - then one `Slot` per key of `Object.keys(window)`: not an object, a throwing access, or
    a `Manager` object.
- **Managers and the hook.** A `Manager` is a class whose `sendFile` and marker the hook
  overwrites. The page hook is the class `PageHook.Hook`.
- **Retry loop.** Timing is replaced by discrete steps:
  - `Hook.Run` takes the namespace at start-up and at each firing of the interval;
  - `Hook.Retry` is the interval part of that loop.
- **Event channel.** The content script reaches the hook through `Controller.PageWindow`.
  Broadcasting an event calls the hook's listener directly when the hook is in place;
  before that, the event is lost.
- **Script loading.** `injectPageHook` only inserts a script element with a blob URL.
  The browser fetches and runs that script later, in a task of its own
  (`Controller.LoadHookScript`). Only then is the hook in place: it runs its start-up
  tick on the page's namespace and schedules its interval (`Hook.Start`), and the
  element's `load` handler runs after that. The later firings are `Hook.Retry`.

Behaviour of the code worth knowing:

- **The caller's object is changed.** `applyTtlToOptions` reassigns `media` and
  `message` on the object it was given (`injected.js:23`, `:26`). So with a timer
  selected, the caller's media entries come back carrying `ttl_seconds` too
  (`CallerMediaRewrittenInPlace`); with no timer they come back as they were
  (`NoTimerIsIdentity`).
- **The spread fallback shares `pFlags`.** When `structuredClone` throws (the tree holds a
  function or a symbol), `cloneOptions` falls back to `{...options}`. The flag written
  into the copy's `pFlags` then lands in the caller's own `pFlags`
  (`SpreadFallbackFlagsCallerPFlags`).
- **The spread copy of an array is not an array.** An array holding a function, sent
  with a timer, reaches the host as a plain object with index-named properties
  (`SpreadCopyOfArrayIsPlainObject`).
- **No `pFlags` is created.** `pFlags.ttl_seconds` is set only where `pFlags` already is
  an object, so a media entry `{}` gets `ttl_seconds` but no `pFlags`
  (`TenSecondsScenario`).
- **Some throwing accesses escape.** Only the scan of the global keys is inside a `try`
  (`injected.js:51-53`). A throwing `window.appMessagesManager` or
  `window.managers.appMessagesManager` escapes the search:
  - at start-up this stops the hook script before the interval is scheduled;
  - at a later firing it only ends that firing.
- **One extra tick.** A successful start-up tick does not prevent the interval from being
  scheduled. Its first firing ticks once more, and may patch a second, different manager
  (`Hook.Run`, `PatchedByRun`).
- **The first broadcast is lost.** The comment at `content-script.js:100` says the
  broadcast at line 101 lets the page pick up the stored value. That broadcast runs
  before the hook script has been inserted, let alone run, so no listener receives it
  (see Findings).

## Model

| member | source | states |
|---|---|---|
| `TtlTransform.TtlSecondsFor` | extensions/view-once-helper/injected.js:30-34 | the written `ttl_seconds` is never 0: view once (0) becomes 1, any other selection is copied |
| `TtlTransform.CloneOptions` | extensions/view-once-helper/injected.js:11-17 | the copy has the original's properties; it is the shallow spread copy, sharing the original's properties, exactly when the tree holds a function or symbol that `structuredClone` cannot copy, and then it is a plain object even when the original is an array |
| `TtlTransform.Apply` | extensions/view-once-helper/injected.js:19-37 | non-objects and null pass through; each media entry and the message are replaced by their own transforms on the caller's object, the media entries in a fresh plain array, and nothing else of it changes; with no timer the caller's object itself is returned; with a timer a copy is returned with `ttl_seconds` set, which is an array only when the options are one and the deep clone succeeds, and `pFlags.ttl_seconds = true` only if `pFlags` already is an object; the caller's `pFlags` is untouched unless the clone fell back to the spread copy, in which case it carries the same flag |
| `TtlTransform.TimerReachesEveryLevel` | extensions/view-once-helper/injected.js:22-34 | with a timer, the result and every media entry and nested message at every depth carry the same `ttl_seconds`, with their `pFlags` flagged |
| `TtlTransform.ViewOnceSendsOneSecond` | extensions/view-once-helper/content-script.js:134-141 | the embedded copy's transformer sends view once as `ttl_seconds == 1` at every level, as `injected.js` does |
| `TtlTransform.ApplyIdempotent` | extensions/view-once-helper/injected.js:29-35 | transforming a result again with the same selection returns it unchanged |
| `TtlTransform.NoTimerIsIdentity` | extensions/view-once-helper/injected.js:22-28 | with no timer, when media arrays are plain arrays, the call returns the caller's options and leaves them unchanged: no `ttl_seconds` or flag is added anywhere |
| `TtlTransform.CallerMediaRewrittenInPlace` | extensions/view-once-helper/injected.js:22-27 | with a timer the caller's own object changes: its media entry gains `ttl_seconds` while its own `ttl_seconds` stays absent |
| `TtlTransform.SpreadFallbackFlagsCallerPFlags` | extensions/view-once-helper/injected.js:11-17 | `{pFlags: {}}` keeps its own `pFlags` empty; `{message: f, pFlags: {}}` with a function `f` gets its own `pFlags` flagged, and the function is passed on unchanged |
| `TtlTransform.SpreadCopyOfArrayIsPlainObject` | extensions/view-once-helper/injected.js:13-15 | an array `[f]` holding a function, sent with a timer, reaches the host as the plain object `{0: f, ttl_seconds: …}`, no longer an array |
| `TtlTransform.TenSecondsScenario` | extensions/view-once-helper/injected.js:19-37 | `{media:[{}], pFlags:{}}` with 10 s becomes `{media:[{ttl_seconds:10}], pFlags:{ttl_seconds:true}, ttl_seconds:10}` |
| `Discovery.FindCandidate` | extensions/view-once-helper/injected.js:39-44 | a candidate is a readable object whose `sendFile` is a function, so `patchSendFile` can bind it |
| `Discovery.Locate` | extensions/view-once-helper/injected.js:46-56 | a location found is a candidate; an exception escapes only from a well-known path (its full characterisation is `LocateIsFirstMatch`) |
| `Discovery.ScanGlobalsIsFirst` | extensions/view-once-helper/injected.js:50-55 | the key scan returns the first candidate key, skipping throwing keys, or none when no key is a candidate |
| `Discovery.LocateIsFirstMatch` | extensions/view-once-helper/injected.js:39-56 | the search returns location i exactly when i is the first candidate in the order appMessagesManager, managers.appMessagesManager, global keys; it returns null exactly when nothing matches and no well-known path throws; it throws exactly when a well-known path it reads throws |
| `Discovery.LocateAppMessagesManager` | extensions/view-once-helper/injected.js:46-56 | the search loop with early return computes the first-match search |
| `PageHook.Patch` | extensions/view-once-helper/injected.js:58-67 | patching marks the manager; a marked manager is unchanged; an unmarked one gets exactly one more wrapper |
| `PageHook.RepeatedPatchWrapsOnce` | extensions/view-once-helper/injected.js:58-65 | patching any number of times (at least once) equals patching once: the wrapper depth grows by one at most |
| `PageHook.PatchedSendForwards` | extensions/view-once-helper/injected.js:60-64 | the patched `sendFile` calls the original with the transformed options and returns its result unchanged |
| `PageHook.Call` | extensions/view-once-helper/injected.js:61-64 | however many wrappers sit around it, the host implementation receives the options transformed once, or the original options when there is none, and its result is returned unchanged |
| `PageHook.PatchSendFile` | extensions/view-once-helper/injected.js:58-67 | no-op on null or a marked manager; otherwise wraps `sendFile` once and sets the marker |
| `PageHook.TargetIsCandidate` | extensions/view-once-helper/injected.js:39-56 | the manager found is one of the namespace's managers and its `sendFile` is a function |
| `PageHook.TickOf` | extensions/view-once-helper/injected.js:69-76 | `tick()` returns true exactly when a manager was found |
| `PageHook.Tick` | extensions/view-once-helper/injected.js:69-76 | the tick's outcome, and only the manager found is patched |
| `PageHook.FirstMatchFrom` | extensions/view-once-helper/injected.js:79-83 | the first interval step that finds a manager; no earlier step finds one |
| `PageHook.Hook.constructor` | extensions/view-once-helper/injected.js:2-4 | the hook starts with no selection and no interval |
| `PageHook.Hook.OnSetTtl` | extensions/view-once-helper/injected.js:6-9 | the listener sets the selection to the event's detail |
| `PageHook.Hook.Start` | extensions/view-once-helper/injected.js:78-79 | start-up tick; the interval is scheduled unless that tick threw, even when it found a manager |
| `PageHook.Hook.OnInterval` | extensions/view-once-helper/injected.js:79-83 | one firing ticks and clears the interval exactly when the tick returns true |
| `PageHook.Hook.Retry` | extensions/view-once-helper/injected.js:79-83 | the interval stops at the first firing that finds a manager and not before; only that manager is patched |
| `PageHook.Hook.Run` | extensions/view-once-helper/injected.js:69-83 | start-up then retries: a throwing start-up tick leaves no interval; otherwise the interval is cleared on the first firing that finds a manager; exactly the managers found are patched, each wrapped at most once |
| `PageHook.SelectTenSecondsThenSend` | extensions/view-once-helper/injected.js:6-9 | after the page selects 10 s and a manager is patched, the host's `sendFile` receives `{media:[{}], pFlags:{}}` as `{media:[{ttl_seconds:10}], pFlags:{ttl_seconds:true}, ttl_seconds:10}` |
| `NumberText.ParseIntTextOfIntText` | extensions/view-once-helper/content-script.js:18-31 | the JSON text written for an integer parses back to that integer |
| `NumberText.IntTextOfParseIntText` | extensions/view-once-helper/content-script.js:84-92 | integer text other than "-0" is the text of the number it reads as |
| `TtlStorage.StoredTtl` | extensions/view-once-helper/content-script.js:14-24 | absent key or non-number text reads as null; the text of an integer reads as that integer; a number read is the one its stored text denotes, and "-0" reads as the number 0, never as null |
| `TtlStorage.ReadStoredTtl` | extensions/view-once-helper/content-script.js:14-24 | a store whose access throws reads as null |
| `TtlStorage.PersistedItems` | extensions/view-once-helper/content-script.js:26-36 | null removes the key, a number writes its JSON text, a failing call changes nothing, other keys are untouched |
| `TtlStorage.PersistTtl` | extensions/view-once-helper/content-script.js:26-36 | the store afterwards; storage errors never reach the caller |
| `TtlStorage.PersistThenRead` | extensions/view-once-helper/content-script.js:14-36 | on a usable store, reading after persisting returns the value persisted, null included; a full store keeps the old number |
| `Controller.EncodeSelectValue` | extensions/view-once-helper/content-script.js:78 | an option value is never "" (nothing selected), and only null is written as `'none'` |
| `Controller.DecodeSelectValue` | extensions/view-once-helper/content-script.js:91-92 | every option value other than "-0" is the encoding of what it decodes to, and "-0" decodes to 0 |
| `Controller.SelectValueRoundTrip` | extensions/view-once-helper/content-script.js:76-95 | every selection decodes back from its option value (`'none'` / `String(n)`) |
| `Controller.OptionValues` | extensions/view-once-helper/content-script.js:76-81 | one option value per `TTL_OPTIONS` entry, each decodable |
| `Controller.OptionValuesRoundTrip` | extensions/view-once-helper/content-script.js:6-12 | each option's value decodes to that option's TTL, and no two options share a value |
| `Controller.SelectControl.constructor` | extensions/view-once-helper/content-script.js:66-81 | a new select has the given options and its first one selected |
| `Controller.SelectControl.SetValue` | extensions/view-once-helper/content-script.js:84-88 | assigning a value no option carries leaves nothing selected |
| `Controller.DispatchTtlToPage` | extensions/view-once-helper/content-script.js:38-42 | a hook in place receives the value; otherwise it is lost |
| `Controller.ShownValueSelectsStored` | extensions/view-once-helper/content-script.js:83-88 | a stored TTL that is an option is shown as that option; any other shows nothing selected |
| `Controller.OnSelectChange` | extensions/view-once-helper/content-script.js:90-95 | persists and broadcasts the same decoded value; on a usable store it reads back as the value the hook received |
| `Controller.CreatePopupSelect` | extensions/view-once-helper/content-script.js:226-242 | the pop-up control starts with the main control's value |
| `Controller.OnPopupChange` | extensions/view-once-helper/content-script.js:243-249 | copies its value into the main control, so both agree, then persists and broadcasts that value |
| `Controller.CreateUi` | extensions/view-once-helper/content-script.js:83-101 | the control shows the stored TTL and the stored TTL is broadcast |
| `Controller.InjectPageHook` | extensions/view-once-helper/content-script.js:192-200 | the hook script is inserted and left loading; no hook is in place when the call returns, and its `load` handler broadcasts nothing |
| `Controller.LoadHookScript` | extensions/view-once-helper/content-script.js:107-189 | the later task: a fresh hook with null selected is in place and has run its start-up tick on the page's namespace, patching only the manager found and scheduling the interval unless the tick threw; then the `load` handler's broadcast, if any, reaches it |
| `Controller.InjectPageHookCorrected` | extensions/view-once-helper/content-script.js:196-198 | as `injectPageHook`, with a `load` handler that broadcasts the given selection |
| `Controller.Includes` | extensions/view-once-helper/content-script.js:260 | only a part no longer than the hostname is found, and a hostname ending in the part always includes it |
| `Controller.IncludesIsSubstring` | extensions/view-once-helper/content-script.js:260 | `includes` holds exactly when the part occurs somewhere in the hostname |
| `Controller.Init` | extensions/view-once-helper/content-script.js:259-264 | off the messaging host nothing happens; on it the control shows the stored TTL, no hook is in place yet, and the hook script loads with a handler that broadcasts nothing |
| `Controller.InitCorrected` | extensions/view-once-helper/content-script.js:259-264 | with the stored TTL broadcast from the hook script's `load` handler instead |
| `Controller.StartupWithTenSecondsStored` | extensions/view-once-helper/content-script.js:100-101 | with 10 stored, once the hook script has loaded, the control shows "10" while the hook has no selection |
| `Controller.StartupWithTenSecondsStoredCorrected` | extensions/view-once-helper/content-script.js:196-198 | with the broadcast in the `load` handler, the loaded hook has the stored 10 seconds |
| `Controller.BroadcastRightAfterInjectionIsLost` | extensions/view-once-helper/content-script.js:192-200 | a broadcast issued as soon as `injectPageHook` returns is lost too, because the hook script has not run yet |

## Left out

- DOM construction and styling in `createUi` and the pop-up wrapper: pure UI. Only the
  selection logic of those functions is modelled.
- The `MutationObserver` and the dialog and caption-field matching of `setupPopupInjection`:
  browser event plumbing. The pop-up control's creation and change handler are modelled.
- Script injection through `Blob` and `URL.createObjectURL`: inserting the element and
  its later load are two steps (`InjectPageHook`, `LoadHookScript`); fetching, URL
  revocation and load failure are not modelled.
- Real `setInterval` timing: the retry interval is a sequence of discrete steps over a
  finite horizon.
- `console.info` and `console.warn` logging.
- `Function.prototype.bind` and `this`: the host's original `sendFile` is an opaque
  function identified by a number.
- `dispatchEvent` / `CustomEvent` delivery: a direct call of the hook's listener.
- `TtlTransform.CloneOptions`: besides `pFlags`, the spread copy also shares `media` and
  `message` with the caller. Nothing writes into those afterwards, so only the sharing of
  `pFlags` is modelled. Other values `structuredClone` refuses, such as DOM nodes, are not
  represented. The spread copy of an array is a plain object whose elements are kept as
  its index-named properties; that it has no `length` is not represented.
- `TtlTransform.Apply`: values are values. An object the call changes stays visible to
  other holders in JavaScript; the model does not show this. Only the caller's top-level
  object is returned in its changed state, not the old media entries or message objects.
- `TtlTransform.Apply`: sparse arrays, NaN and big integers are not represented.
  Functions and symbols are one value, `Func`, and a property written onto a function
  (a function-valued `pFlags`) is not tracked. Properties other than `media`, `message`,
  `pFlags` and `ttl_seconds` are not represented.
- `NumberText.IntText`: integers are unbounded. JavaScript numbers are not exact above
  2^53 and are written with an exponent from 1e21 on, so the text and the round trips
  hold for safe integers only.
- `TtlStorage.StoredTtl`: `JSON.parse` is modelled on integer text only. Fractions,
  exponents and surrounding white space read as null here, but the source would return
  the number.
- `Controller.DecodeSelectValue` requires an option value. A change event follows the
  user picking an option, so `Number` on arbitrary text is not modelled.
- `TtlStorage.LocalStorage`: a full store is approximated by every `setItem` throwing.
- `Discovery.Manager`: whether a member is a function is fixed per object. A host
  changing an object between steps is modelled as a different object. Reading a
  location twice is assumed to give the same object.
- `PageHook.PatchSendFile` requires an unmarked manager's `sendFile` to be a function,
  because `bind` would throw otherwise. `tick` only passes candidates, so this always holds.
- `Controller.InjectPageHook` requires that no hook is in place or loading, since `init`
  runs once per page; a second hook script in the same page is not modelled.
- `injected.js` and the copy embedded in `content-script.js` are the same code and are
  modelled once.

## Findings

| source | as written | input that shows it | evidently intended | confidence | as-written member | corrected member |
|---|---|---|---|---|---|---|
| extensions/view-once-helper/content-script.js:100-101 | `createUi` broadcasts the stored TTL (line 101) before `init` calls `injectPageHook` (line 262). No page listener exists yet, so the broadcast is lost and the hook starts with null. Moving the broadcast to just after `injectPageHook()` would not help: the blob script inserted at lines 192-199 runs later, in its own task | `'10'` stored under the key; the page loads; the control shows "10s" but `sendFile` sends no `ttl_seconds` until the user changes the control | the comment at line 100: the page context should pick up the stored value, i.e. broadcast from the script element's `load` handler (line 196), which runs after the hook script | medium, not executed; assumes no other copy of the hook is loaded into the page earlier (the extension manifest is not part of this model) | `Controller.StartupWithTenSecondsStored` (via `Controller.Init`; `Controller.BroadcastRightAfterInjectionIsLost` for the naive fix) | `Controller.StartupWithTenSecondsStoredCorrected` (via `Controller.InitCorrected` and `Controller.InjectPageHookCorrected`) |
