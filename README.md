# KUIModule window lifecycle, in Dafny

This project models the UI module of KEngine, a Unity game framework. The module keeps a registry (`UIWindows`) from window names to load states (`CUILoadState`). Each window moves through a state machine:

- A window is requested by `OpenWindow`, `CallUI` or `OpenDynamicWindow`.
- It stays *loading* until its asset load completes.
- It is then initialised: opened, or hidden, or, for a dynamic instance that is no longer wanted, closed and destroyed.
- Callbacks queued while it loaded are then run, in order.
- Later it can be opened again, closed or toggled.
- It is destroyed by `DestroyWindow` or `DestroyAllWindows`.

A *static* window is loaded from its own prefab. A *dynamic* window is an instance cloned from an already loaded template window.

The files:

- `ui_types.dfy`: the shared values.
  - Argument arrays (`Arg`).
  - Callbacks, as opaque values. The closure `OpenDynamicWindow` queues is the value `DynamicClone(template, instance, args)`.
  - The controller `KUIController`: an object with its two names and an `active` flag, which stands for `gameObject.activeSelf`.
  - The observable `Event`s: controller hooks, the three module events, the bridge filter, destruction and callback invocations.
- `ui_names.dfy`: the name conventions (prefix strip and `"KUI"` type name).
- `ui_args.dfy`: packing the dynamic-window argument array and unpacking it again.
- `manifest.dfy`: splitting the dependency manifest.
- `load_state.dfy`: `CUILoadState` with its two parallel queues, `DoCallback` and the draining loop `OnUIWindowLoadedCallbacks`.
- `ui_module.dfy`: the class `KUIModule`.
  - Its fields are the registry, the `trace` of events shown to the outside world, and `pendingOpens`: the `BeforeOpen` continuations handed out and not yet fired.
  - The invariant `Valid()` holds between operations. Every entry is filed under its instance name. A static entry is its own template and has open arguments. An entry has a window exactly when it is not loading. The window carries the entry's name. Callbacks wait only on loading entries.
- `scenarios.dfy`: whole flows from a fresh module, with the exact trace they produce.

How the model is built:

- **The asynchronous parts are explicit steps.**
  - The end of the load coroutine is the step `LoadUIAssetBundle(name)`, allowed on a static entry that is loading.
  - The controller firing its `BeforeOpen` continuation is `ConfirmOpen(k)`. Only then does the window become active, receive `OnOpen` and raise the open event.
  - The body of the dynamic-clone closure is the step `DynamicCloneCallback`.
- **Load states are values.** A load state is a datatype stored in the registry map, and every write to one of its fields is a write of the updated value back to the map. Controllers are objects: closing a window writes the `active` flag of that one object, and the frames say so.

The model exhibits these consequences of the code:

- **Closing while loading.** Closing a window that is still loading only cancels the open. The window still loads, stays registered and stays hidden.
- **Last arguments win for static windows.** A second `OpenWindow` during a load overwrites the open arguments.
- **Dynamic instances use the first arguments.** The clone uses the arguments captured in the closure, not later ones.
- **A clone copies the template's active flag.** Opening a clone of an active template first calls `OnClose` on the clone.
- **Dropped callbacks.** A dynamic instance whose open was cancelled during its load is closed and destroyed at the end of the load. Callbacks queued on it are never called (`InitTraceDropsCallbacks`).
- **`DestroyAllWindows` spares loading windows.** It lists every key, but still-loading entries survive it.
- **Toggling a dynamic instance.** Toggling an open dynamic instance destroys it. Toggling the name again starts a *static* load of a prefab named after the instance (`ToggleDynamicInstance`).

## Model

| member | source | states |
|---|---|---|
| UINames.RegistryName | KEngine.UnityProject/Assets/KEngine/CoreModules/UIModule/KUIModule.cs:119 | the registry name is the type name without its 3-character prefix, and exists exactly when the name has at least 3 characters |
| UINames.UIType | KEngine.UnityProject/Assets/KEngine/CoreModules/UIModule/KUIModule.cs:583 | the type a state instantiates for a template is the three characters "KUI" followed by exactly the template |
| UINames.RegistryNameOfUIType | KEngine.UnityProject/Assets/KEngine/CoreModules/UIModule/KUIModule.cs:583 | stripping the prefix of the type name `"KUI" + t` gives back `t` |
| UINames.RegistryNameInjective | KEngine.UnityProject/Assets/KEngine/CoreModules/UIModule/KUIModule.cs:119 | two type names with the same prefix and the same registry name are equal |
| UIArgs.Pack | KEngine.UnityProject/Assets/KEngine/CoreModules/UIModule/KUIModule.cs:192-195 | the packed array holds the template at 0, the instance name at 1, and then exactly the caller's arguments |
| UIArgs.Unpack | KEngine.UnityProject/Assets/KEngine/CoreModules/UIModule/KUIModule.cs:205-206 | unpacking succeeds exactly when the array has at least two entries and both are strings; otherwise the source's cast or index throws |
| UIArgs.UnpackPack | KEngine.UnityProject/Assets/KEngine/CoreModules/UIModule/KUIModule.cs:192-195 | unpacking a packed array gives back the template, the instance name and the arguments |
| UIArgs.PackUnpack | KEngine.UnityProject/Assets/KEngine/CoreModules/UIModule/KUIModule.cs:205-225 | repacking what was unpacked gives back the array |
| UIArgs.CopyOriginArgs | KEngine.UnityProject/Assets/KEngine/CoreModules/UIModule/KUIModule.cs:223-225 | the copy loop yields the array without its first two entries, which is exactly the arguments that were packed |
| Manifest.SplitAll | KEngine.UnityProject/Assets/KEngine/CoreModules/UIModule/KUIModule.cs:389 | `Split('\n')` gives at least one piece and no piece holds '\n' |
| Manifest.JoinSplitAll | KEngine.UnityProject/Assets/KEngine/CoreModules/UIModule/KUIModule.cs:389 | splitting on '\n' loses nothing: joining the pieces with '\n' gives back the text |
| Manifest.SplitAllLine | KEngine.UnityProject/Assets/KEngine/CoreModules/UIModule/KUIModule.cs:389 | a text without '\n' is a single piece, itself |
| Manifest.SplitAllAppend | KEngine.UnityProject/Assets/KEngine/CoreModules/UIModule/KUIModule.cs:389 | splitting `a + "\n" + b` gives the pieces of `a` followed by the pieces of `b` |
| Manifest.RemoveEmpty | KEngine.UnityProject/Assets/KEngine/CoreModules/UIModule/KUIModule.cs:389 | the kept pieces are non-empty pieces of the input, and there are at most as many |
| Manifest.RemoveEmptyAppend | KEngine.UnityProject/Assets/KEngine/CoreModules/UIModule/KUIModule.cs:389 | removing empty pieces distributes over concatenation, so order is kept and only empty pieces go |
| Manifest.SplitManifest | KEngine.UnityProject/Assets/KEngine/CoreModules/UIModule/KUIModule.cs:389 | every manifest entry is non-empty and free of '\n' |
| Manifest.SplitManifestLine | KEngine.UnityProject/Assets/KEngine/CoreModules/UIModule/KUIModule.cs:389 | a line without '\n' is one entry when it is non-empty and no entry when it is empty |
| Manifest.SplitManifestAppend | KEngine.UnityProject/Assets/KEngine/CoreModules/UIModule/KUIModule.cs:389 | the entries of `a + "\n" + b` are the entries of `a` followed by those of `b`: every '\n' ends an entry and none spans one |
| Manifest.SplitManifestEntries | KEngine.UnityProject/Assets/KEngine/CoreModules/UIModule/KUIModule.cs:389 | the entries concatenated in order are the text without its newlines |
| UILoadState.Invocations | KEngine.UnityProject/Assets/KEngine/CoreModules/UIModule/KUIModule.cs:619-626 | a drain makes one call per queued callback |
| UILoadState.InvocationsAt | KEngine.UnityProject/Assets/KEngine/CoreModules/UIModule/KUIModule.cs:619-626 | the k-th call of a drain is the k-th queued callback with the k-th queued arguments and the window |
| UILoadState.InvocationsAppend | KEngine.UnityProject/Assets/KEngine/CoreModules/UIModule/KUIModule.cs:606-607 | draining two queues in turn equals draining their concatenation, so later entries run later |
| UILoadState.CUILoadState.DoCallback | KEngine.UnityProject/Assets/KEngine/CoreModules/UIModule/KUIModule.cs:599-613 | while loading, the pair is appended to both queues and nothing runs; otherwise the callback runs once, at once, with the window; missing arguments become an empty array; queue lengths stay equal |
| UILoadState.CUILoadState.OnUIWindowLoadedCallbacks | KEngine.UnityProject/Assets/KEngine/CoreModules/UIModule/KUIModule.cs:615-628 | the loop empties both queues, changes nothing else, and runs every queued callback exactly once, in FIFO order, with its own arguments |
| UILoadState.QueuedCallbackRunsLast | KEngine.UnityProject/Assets/KEngine/CoreModules/UIModule/KUIModule.cs:604-607 | a callback queued while loading runs in the later drain after every callback queued before it |
| UILoadState.NewLoadState | KEngine.UnityProject/Assets/KEngine/CoreModules/UIModule/KUIModule.cs:578-591 | a new state carries both names and the type "KUI" + template; it is loading, has no window, is not static, is not to be opened, has no open arguments and has two empty queues |
| UILoadState.StaticLoadState | KEngine.UnityProject/Assets/KEngine/CoreModules/UIModule/KUIModule.cs:361-366 | the state LoadWindow registers is static, loading, its own template, with type `"KUI" + name`, the requested open flag and arguments, and empty queues |
| UILoadState.DynamicPlaceholder | KEngine.UnityProject/Assets/KEngine/CoreModules/UIModule/KUIModule.cs:177-181 | the instance placeholder is not static, is loading, has no window, is to be opened and has empty queues |
| UILoadState.DrainTurnWhileLoading | KEngine.UnityProject/Assets/KEngine/CoreModules/UIModule/KUIModule.cs:604-608 | on a state still loading, one turn of the drain loop runs nothing and puts the dequeued pair back at the end, so the queue never shrinks |
| UIModule.InitTraceStartsWithInit | KEngine.UnityProject/Assets/KEngine/CoreModules/UIModule/KUIModule.cs:534-536 | initialising a window always starts with OnInit and the init event |
| UIModule.InitTraceOpenThenCallbacks | KEngine.UnityProject/Assets/KEngine/CoreModules/UIModule/KUIModule.cs:537-555 | opening at load end shows BeforeOpen (after OnClose if active) before the queued callbacks, each once, in order |
| UIModule.InitTraceDropsCallbacks | KEngine.UnityProject/Assets/KEngine/CoreModules/UIModule/KUIModule.cs:542-547 | a non-static window not to be opened is closed and destroyed at load end, and none of its callbacks runs |
| UIModule.KUIModule.constructor | KEngine.UnityProject/Assets/KEngine/CoreModules/UIModule/KUIModule.cs:71 | the registry starts empty and valid |
| UIModule.KUIModule.IsLoad | KEngine.UnityProject/Assets/KEngine/CoreModules/UIModule/KUIModule.cs:346-351 | true exactly when the name has an entry; a registered name's entry is filed under that very instance name, so the name cannot be registered again |
| UIModule.KUIModule.GetUIBase | KEngine.UnityProject/Assets/KEngine/CoreModules/UIModule/KUIModule.cs:324-332 | the window of the entry, or null; under the invariant, null exactly when the entry is missing or still loading, and a returned window carries the name |
| UIModule.KUIModule.IsOpen | KEngine.UnityProject/Assets/KEngine/CoreModules/UIModule/KUIModule.cs:340-344 | open exactly when the entry exists, has its window and the window is active; an open name is registered and loaded |
| UIModule.KUIModule.LoadWindow | KEngine.UnityProject/Assets/KEngine/CoreModules/UIModule/KUIModule.cs:353-373 | registers exactly one new static loading state under the unregistered name, and nothing else changes |
| UIModule.KUIModule.OnOpen | KEngine.UnityProject/Assets/KEngine/CoreModules/UIModule/KUIModule.cs:499-529 | a loading entry only records the open and its arguments; a loaded one is closed first if active, then gets BeforeOpen and a pending continuation, and the registry stays the same |
| UIModule.KUIModule.ConfirmOpen | KEngine.UnityProject/Assets/KEngine/CoreModules/UIModule/KUIModule.cs:515-525 | the continuation fires once: the window becomes active, then OnOpen with the arguments, then the open event |
| UIModule.KUIModule.CloseWindow | KEngine.UnityProject/Assets/KEngine/CoreModules/UIModule/KUIModule.cs:239-273 | an unknown name changes nothing; a loading one only loses its open request; a loaded one is deactivated, gets OnClose and the close event, and is destroyed and dropped unless static; afterwards the name is not open |
| UIModule.KUIModule.DestroyWindow | KEngine.UnityProject/Assets/KEngine/CoreModules/UIModule/KUIModule.cs:427-442 | drops the entry and records its destruction exactly when it has a window; otherwise nothing changes |
| UIModule.KUIModule.InitWindow | KEngine.UnityProject/Assets/KEngine/CoreModules/UIModule/KUIModule.cs:532-556 | init hooks first; then the open, or hiding a static window, or closing and destroying any other; then (except after that destruction) the drained callbacks |
| UIModule.KUIModule.DrainCallbacks | KEngine.UnityProject/Assets/KEngine/CoreModules/UIModule/KUIModule.cs:555 | the loaded entry's queues are run in order and emptied |
| UIModule.KUIModule.LoadUIAssetBundle | KEngine.UnityProject/Assets/KEngine/CoreModules/UIModule/KUIModule.cs:410-422 | a new inactive window named after the template is stamped on the state and filtered by the bridge; loading ends; InitWindow runs with the open flag and arguments the state holds at that moment |
| UIModule.KUIModule.OnDynamicWindowCallback | KEngine.UnityProject/Assets/KEngine/CoreModules/UIModule/KUIModule.cs:203-227 | the clone copies the source window's active flag, is named after the instance, is filtered, is stamped on the instance state, and is initialised with the arguments after the two names |
| UIModule.KUIModule.DynamicCloneCallback | KEngine.UnityProject/Assets/KEngine/CoreModules/UIModule/KUIModule.cs:186-198 | the closure packs the names before the captured arguments and clones the template's window as it is when the closure runs, into the instance placeholder, which is still loading and not static |
| UIModule.KUIModule.CallUI | KEngine.UnityProject/Assets/KEngine/CoreModules/UIModule/KUIModule.cs:452-463 | an unknown name is first registered as a static load that does not open; then DoCallback runs on the entry |
| UIModule.KUIModule.CallDynamicUI | KEngine.UnityProject/Assets/KEngine/CoreModules/UIModule/KUIModule.cs:471-484 | an unknown name changes nothing; otherwise DoCallback runs on the entry |
| UIModule.KUIModule.OpenWindow | KEngine.UnityProject/Assets/KEngine/CoreModules/UIModule/KUIModule.cs:129-140 | an unknown name is registered as a static load that opens with the arguments; a known one is opened as by OnOpen; the returned state is the registered one |
| UIModule.KUIModule.ToggleWindow | KEngine.UnityProject/Assets/KEngine/CoreModules/UIModule/KUIModule.cs:149-159 | an open name is closed: its window is deactivated and the name is no longer open; any other is opened as by OpenWindow, and its window's active flag is left as it was until the continuation fires |
| UIModule.KUIModule.OpenDynamicWindow | KEngine.UnityProject/Assets/KEngine/CoreModules/UIModule/KUIModule.cs:165-201 | a known instance is opened as by OnOpen; otherwise a placeholder is registered first and the clone closure is queued on the template (which is loaded if unknown) as by CallUI |
| UIModule.KUIModule.LoadedNames | KEngine.UnityProject/Assets/KEngine/CoreModules/UIModule/KUIModule.cs:281-289 | lists every key once, since every key passes IsLoad |
| UIModule.KUIModule.DestroyListed | KEngine.UnityProject/Assets/KEngine/CoreModules/UIModule/KUIModule.cs:291-292 | destroying each listed name in turn drops exactly the listed entries with a window, recording one destruction per such name, in list order |
| UIModule.KUIModule.DestroyAllWindows | KEngine.UnityProject/Assets/KEngine/CoreModules/UIModule/KUIModule.cs:279-293 | exactly the loading entries survive; one destruction is recorded for every other entry, in list order |
| UIModule.KUIModule.OpenNames | KEngine.UnityProject/Assets/KEngine/CoreModules/UIModule/KUIModule.cs:298-306 | lists each open name once |
| UIModule.KUIModule.CloseListedAt | KEngine.UnityProject/Assets/KEngine/CoreModules/UIModule/KUIModule.cs:310 | one turn of the closing loop closes the i-th listed name, deactivating its window, leaving every other window's active flag as it was, and extending the closed suffix by that name |
| UIModule.KUIModule.CloseListedReversed | KEngine.UnityProject/Assets/KEngine/CoreModules/UIModule/KUIModule.cs:308-311 | closing the listed loaded names last first deactivates each of their windows and leaves every other window's active flag as it was; the registry and trace are those of closing them in that order |
| UIModule.KUIModule.CloseAllWindows | KEngine.UnityProject/Assets/KEngine/CoreModules/UIModule/KUIModule.cs:296-312 | every open name is closed, last listed first; closed static windows stay registered and the others go; afterwards no name at all is open |
| UIScenarios.OpenTwiceThenLoad | KEngine.UnityProject/Assets/KEngine/CoreModules/UIModule/KUIModule.cs:129-140 | two opens during a load give one entry; the load opens it with the last arguments, in two phases |
| UIScenarios.CloseWhileLoading | KEngine.UnityProject/Assets/KEngine/CoreModules/UIModule/KUIModule.cs:248-254 | a close during the load cancels the open: the window loads hidden and stays registered |
| UIScenarios.CallbacksWaitForTheLoad | KEngine.UnityProject/Assets/KEngine/CoreModules/UIModule/KUIModule.cs:452-463 | CallUI loads a window without opening it; queued callbacks run after the load in order, and a later one runs at once |
| UIScenarios.DestroyThenReopen | KEngine.UnityProject/Assets/KEngine/CoreModules/UIModule/KUIModule.cs:427-442 | after a destroy, opening the name loads a new window |
| UIScenarios.ToggleTwice | KEngine.UnityProject/Assets/KEngine/CoreModules/UIModule/KUIModule.cs:149-159 | toggling an open static window closes it and keeps it registered; toggling again reopens it |
| UIScenarios.DynamicTemplateLoads | KEngine.UnityProject/Assets/KEngine/CoreModules/UIModule/KUIModule.cs:165-201 | for an unknown template, an instance placeholder is registered and the template loads without opening; its drain runs the clone closure |
| UIScenarios.DynamicInstance | KEngine.UnityProject/Assets/KEngine/CoreModules/UIModule/KUIModule.cs:203-227 | the clone step opens a new window for the instance with the arguments the closure captured |
| UIScenarios.ToggleDynamicInstance | KEngine.UnityProject/Assets/KEngine/CoreModules/UIModule/KUIModule.cs:149-159 | toggling an open dynamic instance destroys it; toggling again starts a static load of the instance's name |

## Left out

- Unity object work is abstracted.
  - `Instantiate`, `AddComponent` and `GetComponent` become creating a controller object.
  - `Object.Destroy` becomes the `Destroyed` event, and `gameObject.name` is dropped.
- The resource loaders and their `while (!IsCompleted) yield return null` polling loops are left out; the whole coroutine is the single step `LoadUIAssetBundle`.
  - Load failures are not modelled: a missing asset would throw in the source.
  - The dependency loads driven by the manifest are not modelled beyond the manifest split.
  - The load is assumed to finish after `LoadWindow` has registered its state.
- UTF-8 decoding of the manifest bytes is left out; the manifest is an already decoded string.
- Bridge selection by reflection in `Init` is left out. `UiBridge.UIObjectFilter`, a foreign hook, is only recorded in the trace.
- Configuration paths (`AppEngine.GetConfig`), logging, `Debug.isDebugBuild`, `UIRootLoaded` and the static singleton are left out.
- The `LoadingUICount` counter is left out: it is diagnostic bookkeeping.
- The generic and `Type` overloads are left out, apart from the 3-character prefix strip they all share (`RegistryName`).
- Event listeners and user callbacks are opaque: an invocation is a trace event, not re-entrant code. A null callback, rejected by `Logger.Assert`, is not modelled.
- The dynamic-clone closure's body is a separate step, not run inside the drain or the call that invokes it.
  - `UIModule.KUIModule.DynamicCloneCallback` may be taken at any time its precondition allows. In the source it runs exactly when the template's callback is invoked.
  - The model therefore does not capture the nesting of the clone's initialisation inside the template's drain.
- UILoadState.CUILoadState.OnUIWindowLoadedCallbacks: requires that the state has finished loading. Every call site meets this, because `IsLoading` is set to false before `InitWindow` runs (lines 215 and 421). On a state still loading the source's drain loop would never end, because `DoCallback` puts each dequeued pair back on the queue (`DrainTurnWhileLoading`).
- The `BeforeOpen` continuation is fired at most once, by `ConfirmOpen`. A controller that calls it several times is not modelled.
- UIModule.KUIModule.InitWindow, `LoadUIAssetBundle` and `OnDynamicWindowCallback`: a controller that fires the continuation at once, inside `BeforeOpen`, is not captured.
  - `ConfirmOpen` is a step between operations.
  - At load completion the model therefore always runs the queued callbacks before the window is activated and receives `OnOpen` and the open event.
  - In the source, a continuation fired synchronously at line 517 would activate the window, call `OnOpen` and raise the open event (519-524) before the drain at line 555.
- Load states are values in the registry map, not shared objects. After a load completes, a state returned earlier by `OpenWindow`, `OpenDynamicWindow` or `LoadWindow` does not show the update; only the registry reflects it. No operation of the core reads a state it returned earlier.
- `UIModule.KUIModule.OnOpen` and `InitWindow` take the entry's name instead of the state object. They are equivalent, because an entry is always filed under its instance name and a loading entry can be neither replaced nor removed.
- `UIModule.KUIModule.DestroyWindow` does not set the window field of the removed state to null: the state is dropped with it.
- `UIModule.KUIModule.DestroyAllWindows` and `CloseAllWindows` leave the dictionary's iteration order open; the listed order is a ghost result.
