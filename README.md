# Formbricks deferred-call loader, in Dafny

The Formbricks JavaScript package hands every SDK call to
`loadFormbricksToProxy(prop, ...args)` (`packages/js/src/lib/load-formbricks.ts`).
Until the SDK is initialised, this loader holds calls back. A `setup` call starts
the one bootstrap:

1. validate the `appUrl` and `environmentId` arguments;
2. inject the SDK script `appUrl + "/js/formbricks.umd.cjs"`, but only when
   `globalThis.formbricks` is not set yet;
3. call the SDK's own `setup` with the caller's original arguments;
4. commit `isInitialized`;
5. replay the queued calls front to back.

Any other call made before initialisation is queued, with a warning. Once the
loader is initialised, every call, `setup` included, is forwarded to the global
handle as it is.

The model is split into three parts:

- `Js` (`js_values.dfy`): the JavaScript values the loader inspects. These are
  the arguments, their destructurability and the truthiness of a property.
- `FormbricksTypes` (`formbricks_types.dfy`): the global SDK handle, seen as the
  set of its properties that are functions, plus the subset of those whose call
  throws synchronously. It also holds the method names of the SDK interface.
- `LoadFormbricks` (`load_formbricks.dfy`), which contains:
  - the console messages;
  - `ValidateSetupArgs` and the script URL;
  - the outcome logic of `loadFormbricksSDK`;
  - the queue replay as a specification function `Replay`, with the reference
    definitions `Kept` and `Skipped`;
  - the class `Loader`.

`Loader` holds the module-level state:

- `isInitializing`;
- `isInitialized`;
- `functionsToProcess`;
- the parts of the page that the loader reads or writes: the global handle, the
  script tags it injected, the calls the SDK received, and the console.

The asynchronous `handleSetupCall` is split at its two `await`s:

- `Route` / `HandleSetupCall` run the synchronous prefix.
- `ResumeAfterLoad(outcome)` continues once the script has signalled onload,
  onerror, or nothing within the timeout.
- `ResumeAfterSetup(resolved)` continues once the SDK's `setup` promise has
  settled.

The field `stage` is the continuation of the suspended call. Between any two
steps the environment may issue more proxy calls, or set the global handle
(`SetGlobal`). This is how concurrent `setup` calls and calls queued during
loading are expressed.

`LoadFormbricksTests` (`load_formbricks_tests.dfy`) replays the behaviours the
package's tests pin down, plus a few edge cases. Each one is a client of the
loader's contracts and ends with concrete postconditions.

Every step keeps `Loader.Valid`: a bootstrap is in flight exactly while
`isInitializing` holds, and only before initialisation. `isInitialized` never
reverts. `Route` keeps it when it was set, `ResumeAfterLoad` leaves it false,
and `ResumeAfterSetup` is the only step that sets it.

### Behaviour worth noting

- `appUrl` is used verbatim in the script URL (line 23), so distinct URLs give
  distinct scripts (`ScriptSrcInjective`).
- The SDK's `setup` receives the original `args` (line 100).
- The queue is never cleared after replay. It is replayed once only, because
  `isInitialized` never becomes false again and later calls bypass the queue.
- When `args[0]` is undefined or null, destructuring it at line 58 throws a
  TypeError outside the `try` block. The caller's promise rejects, nothing is
  logged, and no state changes.
- After initialisation, calling a property that is not a function rejects the
  caller's promise with a TypeError (line 116). Nothing is logged.
- A queued method that throws synchronously ends the replay loop. It is reported
  as "setup failed" at line 104, although `isInitialized` is already true and
  stays so.

## Model

All source paths are relative to the repository root. Rows for `LoadFormbricksTests` cite the tests they restate, or the code lines behind the edge case.

| member | source | states |
|---|---|---|
| LoadFormbricks.ValidateSetupArgs | packages/js/src/lib/load-formbricks.ts:56-71 | Destructuring fails exactly when the first argument is undefined or null. Otherwise `appUrl` is reported missing exactly when it is absent or empty. `environmentId` is reported missing exactly when `appUrl` is present and the id is absent or empty. The arguments are accepted exactly when both are non-empty, and the accepted values are the caller's own, unchanged. |
| LoadFormbricks.ScriptSrcRoundTrip | packages/js/src/lib/load-formbricks.ts:23 | The app URL can be read back from the injected script's `src`, which is the URL followed by `/js/formbricks.umd.cjs`. |
| LoadFormbricks.ScriptSrcInjective | packages/js/src/lib/load-formbricks.ts:23 | Two app URLs give the same script only if they are equal. The URL is not normalised. |
| LoadFormbricks.LoadSdkResult | packages/js/src/lib/load-formbricks.ts:19-52 | The load succeeds exactly when no script was injected (the handle already existed) or the script fired onload. onerror gives the "Failed to load" error, and no signal within the timeout gives the timed-out error. |
| LoadFormbricks.KeptAppend | packages/js/src/lib/load-formbricks.ts:74-81 | For the reference filter `Kept`, which gives the calls a replay invokes when no entry throws (`ReplayWithoutThrow`): the kept entries of two concatenated queues are those of the first queue, followed by those of the second. |
| LoadFormbricks.SkippedAppend | packages/js/src/lib/load-formbricks.ts:74-81 | For the reference filter `Skipped`, which gives the "does not exist" errors of a replay in which no entry throws: the errors of two concatenated queues are those of the first queue, followed by those of the second. |
| LoadFormbricks.KeptMembers | packages/js/src/lib/load-formbricks.ts:74-80 | For the reference filter `Kept`, that is, a replay in which no entry throws: a call is kept exactly when it is in the queue and its method exists on the handle. `ReplayInvokedMembers` states the same of the replay itself, throws included. |
| LoadFormbricks.ReplayWithoutThrow | packages/js/src/lib/load-formbricks.ts:73-82 | When no entry throws synchronously, the replay invokes exactly the entries whose method exists, in FIFO order. It logs one "does not exist" error per other entry, in order, and nothing is thrown. |
| LoadFormbricks.ReplayAfterThrow | packages/js/src/lib/load-formbricks.ts:74-81 | Once an entry has thrown, the entries after it do not change the outcome of the replay. |
| LoadFormbricks.ReplayStopsAtThrow | packages/js/src/lib/load-formbricks.ts:74-81 | The first entry that throws ends the replay. Every entry before it was replayed as usual, it was itself invoked, and no later entry was. |
| LoadFormbricks.FirstThrow | packages/js/src/lib/load-formbricks.ts:74-80 | The index it gives is that of an entry whose call throws synchronously, and no entry before it throws; it is the queue's length when no entry throws. |
| LoadFormbricks.ReplayByFirstThrow | packages/js/src/lib/load-formbricks.ts:73-82 | The whole replay, with or without a throw. With no throwing entry, it invokes the kept entries and logs the skipped ones, and nothing is thrown. Otherwise it does the same for the entries up to the first throwing one, invokes that entry, reports its name as thrown, and does nothing with the rest. |
| LoadFormbricks.ReplayThrowsIff | packages/js/src/lib/load-formbricks.ts:74-81 | The replay reports a throw exactly when some queued entry's method exists and throws synchronously. |
| LoadFormbricks.ReplayInvokedMembers | packages/js/src/lib/load-formbricks.ts:74-80 | A call is invoked by the replay exactly when its method exists and it lies in the part of the queue the replay reached: up to and including the first throwing entry, or the whole queue when none throws. |
| LoadFormbricks.MissingMethodSkipped | packages/js/src/lib/load-formbricks.ts:75-78 | An entry whose method is missing is skipped with its error, and the entries after it are still invoked. |
| LoadFormbricks.Loader.constructor | packages/js/src/lib/load-formbricks.ts:16-17 | The module starts with both flags false, an empty queue and no bootstrap in flight. The global handle may already be set. |
| LoadFormbricks.Loader.SetGlobal | packages/js/src/lib/load-formbricks.ts:8-12 | The page or a loaded script sets `globalThis.formbricks`, and nothing else changes. |
| LoadFormbricks.Loader.Route | packages/js/src/lib/load-formbricks.ts:119-130 | After initialisation, every call, `setup` included, is forwarded directly with the same arguments and is never queued. Before initialisation, `setup` starts the bootstrap. Any other call is appended to the end of the queue with the "not initialized" warning, and nothing else changes: no flag, no SDK call, no script. `Valid` is preserved. |
| LoadFormbricks.Loader.ExecuteFormbricksMethod | packages/js/src/lib/load-formbricks.ts:109-117 | With no global handle, the call does nothing. With a handle, the method is called with the arguments as given. A property that is not a function, or a method that throws, rejects the call. Otherwise the caller awaits the SDK's promise. Only the SDK's call trace changes. |
| LoadFormbricks.Loader.HandleSetupCall | packages/js/src/lib/load-formbricks.ts:84-93 | While a bootstrap is in flight, a call only warns "already initializing", before any validation. A validation failure logs its error, or rejects on destructuring, and changes nothing else. Accepted arguments set `isInitializing` and suspend the bootstrap with the original arguments. They inject `appUrl + "/js/formbricks.umd.cjs"` exactly once, and only when no handle exists. The queue and the SDK are untouched. |
| LoadFormbricks.Loader.ResumeAfterLoad | packages/js/src/lib/load-formbricks.ts:93-104 | A failed load, or no handle after the load, logs "Failed to load Formbricks SDK" and clears `isInitializing`. Otherwise the handle's `setup` is called with the original arguments. A missing or synchronously throwing `setup` logs "setup failed" and clears `isInitializing`. In every case `isInitialized` stays false and the queue is unchanged. |
| LoadFormbricks.Loader.ResumeAfterSetup | packages/js/src/lib/load-formbricks.ts:100-107 | A rejected `setup` logs "setup failed" and leaves `isInitialized` false and the queue intact for a retry. A resolved `setup` commits `isInitialized` and replays the queue, as `Replay` says, against the handle captured before the call; a synchronous throw in the replay is logged as "setup failed". `isInitializing` is false afterwards on every path. |
| LoadFormbricks.Loader.ProcessQueuedFunctions | packages/js/src/lib/load-formbricks.ts:73-82 | The loop leaves the SDK trace and the log extended by exactly what `Replay` gives for the queue, and reports the method that threw, if any. |
| LoadFormbricksTests.SetupWithValidArguments | packages/js/src/lib/load-formbricks.test.ts:129-149 | A valid `setup` injects exactly one script, at the app URL's bundle path. The SDK's `setup` receives the caller's own argument, and the loader ends up initialised. |
| LoadFormbricksTests.MissingAppUrl | packages/js/src/lib/load-formbricks.test.ts:151-161 | Without `appUrl`, only "appUrl is required" is logged. No script is injected and no bootstrap starts. |
| LoadFormbricksTests.MissingEnvironmentId | packages/js/src/lib/load-formbricks.test.ts:163-173 | Without `environmentId`, only "environmentId is required" is logged. No script is injected and no bootstrap starts. |
| LoadFormbricksTests.SetupWithoutArgument | packages/js/src/lib/load-formbricks.ts:56-58 | A `setup` with no argument rejects with the destructuring TypeError, logs nothing and starts nothing. |
| LoadFormbricksTests.AlreadyAvailable | packages/js/src/lib/load-formbricks.test.ts:175-190 | When the handle is already on the page, no script is injected, and the SDK's `setup` is called with the caller's argument. |
| LoadFormbricksTests.TimeoutThenRetry | packages/js/src/lib/load-formbricks.test.ts:194-215 | A load timeout logs "Failed to load Formbricks SDK" and keeps the queue. A second `setup` is not blocked and injects the script again. |
| LoadFormbricksTests.ScriptError | packages/js/src/lib/load-formbricks.test.ts:217-233 | A script error logs "Failed to load Formbricks SDK" and leaves the loader neither initialising nor initialised. |
| LoadFormbricksTests.SetupRejected | packages/js/src/lib/load-formbricks.test.ts:235-252 | A rejected SDK `setup` logs "setup failed" with its error, leaves the loader uninitialised and keeps the queued call. |
| LoadFormbricksTests.ConcurrentSetup | packages/js/src/lib/load-formbricks.ts:85-88 | A second `setup` during loading only warns "already initializing". It resolves at once, and there is one script for the one bootstrap. |
| LoadFormbricksTests.QueueThenSetup | packages/js/src/lib/load-formbricks.test.ts:266-278 | Calls made before `setup` and during loading are all queued. After the SDK's `setup` resolves, the handle receives `setup` and then exactly the queued calls it has methods for, in arrival order. This holds for any queued calls, none of them `setup` and none throwing synchronously, and any handle whose own `setup` exists and does not throw synchronously. |
| LoadFormbricksTests.RouteAll | packages/js/src/lib/load-formbricks.ts:122-129 | Before initialisation, a run of calls other than `setup` is appended to the queue in arrival order, and neither the flags, the bootstrap in flight, the handle, the scripts nor the SDK's calls change. |
| LoadFormbricksTests.QueueThenBootstrap | packages/js/src/lib/load-formbricks.ts:84-107 | For any calls other than `setup` queued before a bootstrap whose load and SDK `setup` succeed, the loader ends initialised with the queue kept. The handle receives `setup` with the caller's config and then what `Replay` invokes. The log holds one queueing warning per call, then the replay's errors, then "setup failed" if a queued method threw. |
| LoadFormbricksTests.MissingQueuedMethod | packages/js/src/lib/load-formbricks.ts:75-78 | A queued call to a missing method logs "Method doesNotExist does not exist on formbricks", and the queued call after it still reaches the SDK. |
| LoadFormbricksTests.QueuedThrowAfterCommit | packages/js/src/lib/load-formbricks.ts:98-106 | A queued method that throws synchronously stops the replay, so the call after it is never made. It is logged as "setup failed", and the loader stays initialised. |
| LoadFormbricksTests.DirectAfterInit | packages/js/src/lib/load-formbricks.test.ts:282-300 | After a successful setup, `track` and a second `setup` go straight to the SDK with their arguments, and nothing is queued. A property that is not a function rejects. |
| LoadFormbricksTests.DirectWithoutHandle | packages/js/src/lib/load-formbricks.ts:109-110 | After initialisation, with the global handle gone, a call resolves silently: no SDK call and no log. |

## Left out

- The `Proxy` in `packages/js/src/index.ts`, which turns property access into `loadFormbricksToProxy(prop, ...args)`, is not part of this model. `Loader.Route` is the entry point instead.
- The script tag's `type` and `async` attributes, `document.createElement` and `appendChild` are not modelled. An injected script is recorded only by its `src`.
- The 10-second `setTimeout` and `clearTimeout` are not modelled as time. They are the `Timeout` outcome passed to `ResumeAfterLoad`.
- The text of the load error's message is not modelled. `LoadSdkResult` records only which of the two errors it is (script error or timeout), and the message is never logged: the loader logs its own "Failed to load" text.
- Real promise scheduling is not modelled. The two suspension points are explicit steps, which the environment may call in any order that `stage` allows.
- Loader.ResumeAfterLoad: an outcome given for a bootstrap that injected no script is ignored, because the source then awaits no script signal. It still awaits the already settled load result (line 93), which is why other calls may interleave in the `Loading` stage.
- The settling of promises returned by forwarded and replayed SDK calls is not modelled. Replayed calls are not awaited by the source, and for forwarded calls the reply `AwaitingSdk` says only that the caller gets the SDK promise's outcome.
- Configuration values other than strings are not modelled. Truthiness of a property is taken to be "present and non-empty", and non-string values such as numbers or objects are not represented.
- A queued SDK method that calls back into the proxy, or that appends to the queue during the replay, is not modelled. Each SDK method is abstract: it either exists, throws synchronously, or returns a promise, and this is the same for every call of that method, whatever its arguments.
- Loader.ResumeAfterSetup: the handle's identity is not recorded in the call trace. Replay uses the handle captured before `setup` was called, as the source does.
- The type declarations in `packages/js/src/types/formbricks.ts` are not part of this model. Only the interface's method names are kept, as `InterfaceMethods`.
