/**
 * The deferred-call loader: a call router over two module-level flags and a
 * queue of pending calls, and the bootstrap that loads the SDK script, calls
 * the SDK's own `setup` and replays the queue.
 */
module LoadFormbricks {
  import opened Js
  import opened FormbricksTypes

  // ---------------------------------------------------------------------------
  // Messages written to the console
  // ---------------------------------------------------------------------------

  const Brick := "\U{1F9F1} Formbricks - "
  const AlreadyInitializingWarning := Brick + "Warning: Formbricks is already initializing."
  const NotInitializedWarning :=
    Brick + "Warning: Formbricks not initialized. This method will be queued and executed after initialization."
  const FailedToLoad := Brick + "Error: Failed to load Formbricks SDK"
  const SetupFailed := Brick + "Error: setup failed"

  /** "appUrl is required", "environmentId is required". */
  function Required(field: string): string {
    Brick + "Error: " + field + " is required"
  }

  function MethodMissing(prop: string): string {
    Brick + "Error: Method " + prop + " does not exist on formbricks"
  }

  /** Path of the SDK bundle below the app URL. */
  const BundlePath := "/js/formbricks.umd.cjs"

  // ---------------------------------------------------------------------------
  // Data
  // ---------------------------------------------------------------------------

  /** What a thrown or rejected error stands for. */
  datatype Failure =
    | NotAFunction(name: string)   // TypeError: calling a property that is not a function
    | Threw(name: string)          // an SDK method threw synchronously
    | RejectedBy(name: string)     // the promise an SDK method returned rejected
    | CannotDestructure            // TypeError: destructuring undefined or null
    | LoadErrored                  // "Failed to load Formbricks SDK"
    | LoadTimedOut                 // "Formbricks SDK loading timed out"

  datatype LogEntry =
    | Warn(text: string)
    | Error(text: string)
    | ErrorWith(text: string, cause: Failure)

  /** A call made through the proxy: the property name and its arguments. */
  datatype Call = Call(prop: string, args: seq<Arg>)

  /** How the promise returned to the caller of the proxy settles. */
  datatype Reply =
    | Resolved             // resolves with no value, now
    | Rejected(reason: Failure)
    | AwaitingBootstrap    // resolves, never rejects, when the bootstrap in flight ends
    | AwaitingSdk          // settles exactly as the promise of the SDK method it called

  datatype SetupArgs = SetupArgs(appUrl: string, environmentId: string)

  datatype Validated =
    | Accepted(setup: SetupArgs)
    | Missing(field: string)   // the first of the two required fields that is absent or empty
    | DestructureFailed

  /** What the injected script tag signals: onload, onerror, or neither within 10 seconds. */
  datatype LoadOutcome = Loaded | LoadError | Timeout

  datatype LoadResult = LoadOk | LoadFailed(error: Failure)

  /** Where the one bootstrap in flight is suspended. */
  datatype Stage =
    | Idle
    | Loading(args: seq<Arg>, injected: bool)   // awaiting the SDK script
    | SettingUp(instance: Handle)               // awaiting the SDK's own setup

  /** What replaying the queue does: the calls the handle receives, the errors logged, and the method that threw, if any. */
  datatype Replayed = Replayed(invoked: seq<Call>, errors: seq<LogEntry>, thrown: Option<string>)

  // ---------------------------------------------------------------------------
  // Pure parts
  // ---------------------------------------------------------------------------

  /**
   * Reads `appUrl` and `environmentId` off the first argument, in that order,
   * and hands both back unchanged when both are non-empty.
   */
  function ValidateSetupArgs(args: seq<Arg>): (r: Validated)
    ensures r.DestructureFailed? <==> !Destructurable(First(args))
    ensures r == Missing("appUrl") <==>
      Destructurable(First(args)) && !HasNonEmpty(First(args), "appUrl")
    ensures r == Missing("environmentId") <==>
      HasNonEmpty(First(args), "appUrl") && !HasNonEmpty(First(args), "environmentId")
    ensures r.Accepted? <==>
      HasNonEmpty(First(args), "appUrl") && HasNonEmpty(First(args), "environmentId")
    ensures r.Accepted? ==>
      r.setup.appUrl == First(args).props["appUrl"] &&
      r.setup.environmentId == First(args).props["environmentId"]
    ensures r.Missing? ==> r.field == "appUrl" || r.field == "environmentId"
  {
    var first := First(args);
    if !Destructurable(first) then DestructureFailed
    else
      var appUrl := Property(first, "appUrl");
      var environmentId := Property(first, "environmentId");
      if !Truthy(appUrl) then Missing("appUrl")
      else if !Truthy(environmentId) then Missing("environmentId")
      else Accepted(SetupArgs(appUrl.value, environmentId.value))
  }

  /** The `src` of the script tag the loader injects. */
  function ScriptSrc(appUrl: string): string {
    appUrl + BundlePath
  }

  /** Recovers the app URL from a script `src`, if it ends with the bundle path. */
  function AppUrlOfScript(src: string): Option<string> {
    if |src| >= |BundlePath| && src[|src| - |BundlePath|..] == BundlePath
    then Some(src[..|src| - |BundlePath|])
    else None
  }

  lemma ScriptSrcRoundTrip(appUrl: string)
    ensures AppUrlOfScript(ScriptSrc(appUrl)) == Some(appUrl)
  {
  }

  /** Different app URLs give different scripts: the URL is used verbatim, never normalised. */
  lemma ScriptSrcInjective(a: string, b: string)
    requires ScriptSrc(a) == ScriptSrc(b)
    ensures a == b
  {
    ScriptSrcRoundTrip(a);
    ScriptSrcRoundTrip(b);
  }

  /** The result `loadFormbricksSDK` reports once its script has signalled. */
  function LoadSdkResult(injected: bool, outcome: LoadOutcome): (r: LoadResult)
    ensures r.LoadOk? <==> !injected || outcome == Loaded
    ensures injected && outcome == LoadError ==> r == LoadFailed(LoadErrored)
    ensures injected && outcome == Timeout ==> r == LoadFailed(LoadTimedOut)
  {
    if !injected then LoadOk
    else match outcome
      case Loaded => LoadOk
      case LoadError => LoadFailed(LoadErrored)
      case Timeout => LoadFailed(LoadTimedOut)
  }

  /** A queued call that the handle has as a method, and whose call throws synchronously. */
  predicate Throws(c: Call, h: Handle) {
    c.prop in h.methods && c.prop in h.throwing
  }

  /**
   * The queue replay, entry by entry from the front: an entry whose method is
   * missing logs an error and is skipped; any other is invoked; a synchronous
   * throw ends the replay.
   */
  function Replay(q: seq<Call>, h: Handle): Replayed
    decreases |q|
  {
    if q == [] then Replayed([], [], None)
    else
      var r := Replay(q[..|q| - 1], h);
      var c := q[|q| - 1];
      if r.thrown.Some? then r
      else if c.prop !in h.methods then r.(errors := r.errors + [Error(MethodMissing(c.prop))])
      else if c.prop in h.throwing then r.(invoked := r.invoked + [c], thrown := Some(c.prop))
      else r.(invoked := r.invoked + [c])
  }

  /** Reference definition: the entries whose method exists on the handle, in queue order. */
  function Kept(q: seq<Call>, h: Handle): seq<Call> {
    if q == [] then []
    else (if q[0].prop in h.methods then [q[0]] else []) + Kept(q[1..], h)
  }

  /** Reference definition: one "does not exist" error per entry whose method is missing, in queue order. */
  function Skipped(q: seq<Call>, h: Handle): seq<LogEntry> {
    if q == [] then []
    else (if q[0].prop in h.methods then [] else [Error(MethodMissing(q[0].prop))]) + Skipped(q[1..], h)
  }

  lemma SingleEntry(c: Call, h: Handle)
    ensures Kept([c], h) == (if c.prop in h.methods then [c] else [])
    ensures Skipped([c], h) == (if c.prop in h.methods then [] else [Error(MethodMissing(c.prop))])
  {
  }

  lemma {:induction false} KeptAppend(a: seq<Call>, b: seq<Call>, h: Handle)
    ensures Kept(a + b, h) == Kept(a, h) + Kept(b, h)
  {
    if a == [] {
      assert a + b == b;
    } else {
      assert (a + b)[1..] == a[1..] + b;
      KeptAppend(a[1..], b, h);
    }
  }

  lemma {:induction false} SkippedAppend(a: seq<Call>, b: seq<Call>, h: Handle)
    ensures Skipped(a + b, h) == Skipped(a, h) + Skipped(b, h)
  {
    if a == [] {
      assert a + b == b;
    } else {
      assert (a + b)[1..] == a[1..] + b;
      SkippedAppend(a[1..], b, h);
    }
  }

  /** Exactly the entries whose method exists are kept, and no others. */
  lemma {:induction false} KeptMembers(q: seq<Call>, h: Handle, c: Call)
    ensures c in Kept(q, h) <==> c in q && c.prop in h.methods
  {
    if q != [] {
      KeptMembers(q[1..], h, c);
      assert q == [q[0]] + q[1..];
    }
  }

  /** One more entry of the replay: `Replay` on a prefix one entry longer. */
  lemma ReplayStep(q: seq<Call>, i: nat, h: Handle)
    requires i < |q|
    ensures var r := Replay(q[..i], h);
      Replay(q[..i + 1], h) ==
        if r.thrown.Some? then r
        else if q[i].prop !in h.methods then r.(errors := r.errors + [Error(MethodMissing(q[i].prop))])
        else if q[i].prop in h.throwing then r.(invoked := r.invoked + [q[i]], thrown := Some(q[i].prop))
        else r.(invoked := r.invoked + [q[i]])
  {
    assert q[..i + 1][..i] == q[..i];
  }

  /** Without synchronous throws, replay invokes exactly the kept entries, in order, and logs one error per skipped one. */
  lemma {:induction false} ReplayWithoutThrow(q: seq<Call>, h: Handle)
    requires forall c :: c in q ==> !Throws(c, h)
    ensures Replay(q, h) == Replayed(Kept(q, h), Skipped(q, h), None)
  {
    if q != [] {
      var n := |q| - 1;
      assert q == q[..n] + [q[n]];
      assert forall c :: c in q[..n] ==> c in q;
      assert q[n] in q;
      ReplayWithoutThrow(q[..n], h);
      KeptAppend(q[..n], [q[n]], h);
      SkippedAppend(q[..n], [q[n]], h);
      SingleEntry(q[n], h);
    }
  }

  /** Once an entry has thrown, the rest of the queue is not looked at. */
  lemma {:induction false} ReplayAfterThrow(q: seq<Call>, i: nat, h: Handle)
    requires i <= |q|
    requires Replay(q[..i], h).thrown.Some?
    ensures Replay(q, h) == Replay(q[..i], h)
    decreases |q| - i
  {
    if i < |q| {
      var n := |q| - 1;
      assert q[..n][..i] == q[..i];
      ReplayAfterThrow(q[..n], i, h);
      assert q[..i] != [];
    } else {
      assert q[..i] == q;
    }
  }

  /** The first entry that throws ends the replay: entries before it were replayed as usual, it was invoked, later ones were not. */
  lemma {:induction false} ReplayStopsAtThrow(q: seq<Call>, h: Handle, k: nat)
    requires k < |q| && Throws(q[k], h)
    requires forall c :: c in q[..k] ==> !Throws(c, h)
    ensures Replay(q, h) == Replayed(Kept(q[..k + 1], h), Skipped(q[..k], h), Some(q[k].prop))
  {
    var p := q[..k + 1];
    assert p[..k] == q[..k];
    ReplayWithoutThrow(q[..k], h);
    KeptAppend(q[..k], [q[k]], h);
    SingleEntry(q[k], h);
    assert p == q[..k] + [q[k]];
    ReplayAfterThrow(q, k + 1, h);
  }

  /** Reference definition: the index of the first entry whose call throws synchronously, or `|q|` when none does. */
  function FirstThrow(q: seq<Call>, h: Handle): (k: nat)
    ensures k <= |q|
    ensures k < |q| ==> Throws(q[k], h)
    ensures forall c :: c in q[..k] ==> !Throws(c, h)
  {
    if q == [] || Throws(q[0], h) then 0
    else
      var k := FirstThrow(q[1..], h);
      assert q[..k + 1] == [q[0]] + q[1..][..k];
      k + 1
  }

  /** The whole replay, throw or no throw: it runs up to and including the first throwing entry and no further. */
  lemma ReplayByFirstThrow(q: seq<Call>, h: Handle)
    ensures var k := FirstThrow(q, h);
      Replay(q, h) ==
        if k == |q| then Replayed(Kept(q, h), Skipped(q, h), None)
        else Replayed(Kept(q[..k + 1], h), Skipped(q[..k], h), Some(q[k].prop))
  {
    var k := FirstThrow(q, h);
    if k == |q| {
      assert q[..k] == q;
      ReplayWithoutThrow(q, h);
    } else {
      ReplayStopsAtThrow(q, h, k);
    }
  }

  /** The replay reports a throw exactly when some queued entry throws. */
  lemma ReplayThrowsIff(q: seq<Call>, h: Handle)
    ensures Replay(q, h).thrown.None? <==> forall c :: c in q ==> !Throws(c, h)
  {
    var k := FirstThrow(q, h);
    ReplayByFirstThrow(q, h);
    if k == |q| {
      assert q[..k] == q;
    } else {
      assert q[k] in q;
    }
  }

  /**
   * A call is invoked by the replay exactly when its method exists and it lies
   * in the part of the queue the replay reached: up to and including the first
   * throwing entry, or the whole queue when none throws.
   */
  lemma ReplayInvokedMembers(q: seq<Call>, h: Handle, c: Call)
    ensures var k := FirstThrow(q, h);
      c in Replay(q, h).invoked <==> c in q[..if k < |q| then k + 1 else k] && c.prop in h.methods
    ensures Replay(q, h).thrown.None? ==> (c in Replay(q, h).invoked <==> c in q && c.prop in h.methods)
  {
    var k := FirstThrow(q, h);
    ReplayByFirstThrow(q, h);
    if k == |q| {
      assert q[..k] == q;
      KeptMembers(q, h, c);
    } else {
      KeptMembers(q[..k + 1], h, c);
    }
  }

  /** An entry naming a missing method is skipped with an error, and the entries after it still run. */
  lemma {:induction false} MissingMethodSkipped(before: seq<Call>, c: Call, after: seq<Call>, h: Handle)
    requires c.prop !in h.methods
    requires forall d :: d in before ==> !Throws(d, h)
    requires forall d :: d in after ==> !Throws(d, h)
    ensures Replay(before + [c] + after, h) == Replayed(
      Kept(before, h) + Kept(after, h),
      Skipped(before, h) + [Error(MethodMissing(c.prop))] + Skipped(after, h),
      None)
  {
    var front := before + [c];
    var q := front + after;
    assert forall d :: d in q ==> !Throws(d, h) by {
      assert forall d :: d in q ==> d in before || d == c || d in after;
    }
    ReplayWithoutThrow(q, h);
    assert Kept(q, h) == Kept(before, h) + Kept(after, h) by {
      SingleEntry(c, h);
      KeptAppend(before, [c], h);
      KeptAppend(front, after, h);
    }
    assert Skipped(q, h) == Skipped(before, h) + [Error(MethodMissing(c.prop))] + Skipped(after, h) by {
      SingleEntry(c, h);
      SkippedAppend(before, [c], h);
      SkippedAppend(front, after, h);
    }
  }

  // ---------------------------------------------------------------------------
  // The loader's state and its steps
  // ---------------------------------------------------------------------------

  /**
   * The module-level state of the loader, and the parts of its environment it
   * reads or writes: the global SDK handle, the script tags injected into the
   * page, the calls the SDK received and the console.
   */
  class Loader {
    var isInitializing: bool
    var isInitialized: bool
    var functionsToProcess: seq<Call>
    /** The continuation of the suspended `setup`, if one is in flight. */
    var stage: Stage
    /** `globalThis.formbricks`: set by the host page or by the loaded script, never by the loader. */
    var formbricks: Option<Handle>
    /** The `src` of every script tag injected, in order. */
    var scripts: seq<string>
    /** Every call an SDK handle received, in order. */
    var sdkCalls: seq<Call>
    var log: seq<LogEntry>

    /** A bootstrap is in flight exactly while `isInitializing` holds, and only before initialisation. */
    ghost predicate Valid()
      reads this
    {
      && (isInitializing <==> !stage.Idle?)
      && (isInitializing ==> !isInitialized)
    }

    /** A freshly loaded module; the page may already define the global handle. */
    constructor (global: Option<Handle>)
      ensures Valid()
      ensures !isInitializing && !isInitialized && functionsToProcess == [] && stage == Idle
      ensures formbricks == global && scripts == [] && sdkCalls == [] && log == []
    {
      isInitializing, isInitialized := false, false;
      functionsToProcess := [];
      stage := Idle;
      formbricks := global;
      scripts, sdkCalls, log := [], [], [];
    }

    /** The host page or a loaded script sets (or removes) `globalThis.formbricks`. */
    method SetGlobal(global: Option<Handle>)
      modifies this`formbricks
      ensures formbricks == global
    {
      formbricks := global;
    }

    /** The effect of forwarding a call to the handle after initialisation: the only change is the call the handle receives. */
    twostate predicate ForwardedDirectly(prop: string, args: seq<Arg>, reply: Reply)
      reads this
    {
      && isInitializing == old(isInitializing) && isInitialized == old(isInitialized)
      && functionsToProcess == old(functionsToProcess) && stage == old(stage)
      && formbricks == old(formbricks) && scripts == old(scripts) && log == old(log)
      && match old(formbricks)
         case None => reply == Resolved && sdkCalls == old(sdkCalls)
         case Some(h) =>
           if prop !in h.methods then
             reply == Rejected(NotAFunction(prop)) && sdkCalls == old(sdkCalls)
           else
             && sdkCalls == old(sdkCalls) + [Call(prop, args)]
             && reply == (if prop in h.throwing then Rejected(Threw(prop)) else AwaitingSdk)
    }

    /** The effect of queueing a call before initialisation: the call goes to the end of the queue with a warning. */
    twostate predicate Queued(prop: string, args: seq<Arg>, reply: Reply)
      reads this
    {
      && functionsToProcess == old(functionsToProcess) + [Call(prop, args)]
      && log == old(log) + [Warn(NotInitializedWarning)]
      && reply == Resolved
      && isInitializing == old(isInitializing) && isInitialized == old(isInitialized)
      && stage == old(stage) && formbricks == old(formbricks)
      && scripts == old(scripts) && sdkCalls == old(sdkCalls)
    }

    /** The effect of the synchronous part of `setup` before initialisation: guard, validation, script injection. */
    twostate predicate SetupStarted(args: seq<Arg>, reply: Reply)
      reads this
    {
      && isInitialized == old(isInitialized) && functionsToProcess == old(functionsToProcess)
      && formbricks == old(formbricks) && sdkCalls == old(sdkCalls)
      && if old(isInitializing) then
           && reply == Resolved && log == old(log) + [Warn(AlreadyInitializingWarning)]
           && isInitializing && stage == old(stage) && scripts == old(scripts)
         else
           match ValidateSetupArgs(args)
           case DestructureFailed =>
             && reply == Rejected(CannotDestructure) && log == old(log)
             && !isInitializing && stage == Idle && scripts == old(scripts)
           case Missing(field) =>
             && reply == Resolved && log == old(log) + [Error(Required(field))]
             && !isInitializing && stage == Idle && scripts == old(scripts)
           case Accepted(setup) =>
             && reply == AwaitingBootstrap && log == old(log)
             && isInitializing && stage == Loading(args, old(formbricks).None?)
             && scripts == old(scripts) + (if old(formbricks).None? then [ScriptSrc(setup.appUrl)] else [])
    }

    /** `loadFormbricksToProxy`: the entry every proxy call goes through. */
    method Route(prop: string, args: seq<Arg>) returns (reply: Reply)
      requires Valid()
      modifies this
      ensures Valid()
      ensures old(isInitialized) ==> ForwardedDirectly(prop, args, reply)
      ensures !old(isInitialized) && prop == "setup" ==> SetupStarted(args, reply)
      ensures !old(isInitialized) && prop != "setup" ==> Queued(prop, args, reply)
    {
      if isInitialized {
        reply := ExecuteFormbricksMethod(prop, args);
      } else if prop == "setup" {
        reply := HandleSetupCall(args);
      } else {
        log := log + [Warn(NotInitializedWarning)];
        functionsToProcess := functionsToProcess + [Call(prop, args)];
        reply := Resolved;
      }
    }

    /** `executeFormbricksMethod`: call the handle's method with the arguments as given; without a handle, do nothing. */
    method ExecuteFormbricksMethod(prop: string, args: seq<Arg>) returns (reply: Reply)
      modifies this`sdkCalls
      ensures ForwardedDirectly(prop, args, reply)
    {
      match formbricks {
        case None =>
          reply := Resolved;
        case Some(instance) =>
          if prop !in instance.methods {
            reply := Rejected(NotAFunction(prop));
          } else {
            sdkCalls := sdkCalls + [Call(prop, args)];
            reply := if prop in instance.throwing then Rejected(Threw(prop)) else AwaitingSdk;
          }
      }
    }

    /**
     * `handleSetupCall` up to its first `await`: the re-entry guard, validation,
     * and the synchronous part of `loadFormbricksSDK` (injecting the script tag
     * when no handle exists yet).
     */
    method HandleSetupCall(args: seq<Arg>) returns (reply: Reply)
      requires Valid() && !isInitialized
      modifies this
      ensures Valid()
      ensures SetupStarted(args, reply)
    {
      if isInitializing {
        log := log + [Warn(AlreadyInitializingWarning)];
        reply := Resolved;
        return;
      }
      var validated := ValidateSetupArgs(args);
      match validated {
        case DestructureFailed =>
          reply := Rejected(CannotDestructure);
        case Missing(field) =>
          log := log + [Error(Required(field))];
          reply := Resolved;
        case Accepted(setup) =>
          isInitializing := true;
          var inject := formbricks.None?;
          if inject {
            scripts := scripts + [ScriptSrc(setup.appUrl)];
          }
          stage := Loading(args, inject);
          reply := AwaitingBootstrap;
      }
    }

    /**
     * `handleSetupCall` once the script load has settled: check the load result
     * and the global handle, then call the SDK's own `setup` with the ORIGINAL
     * arguments. An outcome for a script that was never injected is ignored.
     */
    method ResumeAfterLoad(outcome: LoadOutcome)
      requires Valid() && stage.Loading?
      modifies this
      ensures Valid()
      ensures isInitialized == old(isInitialized) && !isInitialized
      ensures functionsToProcess == old(functionsToProcess)
      ensures formbricks == old(formbricks) && scripts == old(scripts)
      ensures !LoadSdkResult(old(stage).injected, outcome).LoadOk? || formbricks.None? ==>
        && log == old(log) + [Error(FailedToLoad)]
        && sdkCalls == old(sdkCalls) && !isInitializing && stage == Idle
      ensures LoadSdkResult(old(stage).injected, outcome).LoadOk? && formbricks.Some? ==>
        var h := formbricks.value;
        if "setup" !in h.methods then
          && log == old(log) + [ErrorWith(SetupFailed, NotAFunction("setup"))]
          && sdkCalls == old(sdkCalls) && !isInitializing && stage == Idle
        else
          && sdkCalls == old(sdkCalls) + [Call("setup", old(stage).args)]
          && if "setup" in h.throwing then
               log == old(log) + [ErrorWith(SetupFailed, Threw("setup"))] && !isInitializing && stage == Idle
             else
               log == old(log) && isInitializing && stage == SettingUp(h)
    {
      var args := stage.args;
      var loadResult := LoadSdkResult(stage.injected, outcome);
      if !loadResult.LoadOk? || formbricks.None? {
        log := log + [Error(FailedToLoad)];
        isInitializing := false;
        stage := Idle;
        return;
      }
      var instance := formbricks.value;
      if "setup" !in instance.methods {
        log := log + [ErrorWith(SetupFailed, NotAFunction("setup"))];
        isInitializing := false;
        stage := Idle;
        return;
      }
      sdkCalls := sdkCalls + [Call("setup", args)];
      if "setup" in instance.throwing {
        log := log + [ErrorWith(SetupFailed, Threw("setup"))];
        isInitializing := false;
        stage := Idle;
        return;
      }
      stage := SettingUp(instance);
    }

    /**
     * `handleSetupCall` once the SDK's `setup` promise has settled: on
     * resolution commit `isInitialized` and replay the queue against the
     * handle captured before the call; in every case clear `isInitializing`.
     * The queue is left as it was.
     */
    method ResumeAfterSetup(resolved: bool)
      requires Valid() && stage.SettingUp?
      modifies this
      ensures Valid()
      ensures !old(isInitialized) && isInitialized == resolved
      ensures !isInitializing && stage == Idle
      ensures functionsToProcess == old(functionsToProcess)
      ensures formbricks == old(formbricks) && scripts == old(scripts)
      ensures !resolved ==>
        log == old(log) + [ErrorWith(SetupFailed, RejectedBy("setup"))] && sdkCalls == old(sdkCalls)
      ensures resolved ==>
        var r := Replay(old(functionsToProcess), old(stage).instance);
        && sdkCalls == old(sdkCalls) + r.invoked
        && log == old(log) + r.errors + (if r.thrown.Some? then [ErrorWith(SetupFailed, Threw(r.thrown.value))] else [])
    {
      var instance := stage.instance;
      if !resolved {
        log := log + [ErrorWith(SetupFailed, RejectedBy("setup"))];
      } else {
        isInitialized := true;
        var thrown := ProcessQueuedFunctions(instance);
        if thrown.Some? {
          log := log + [ErrorWith(SetupFailed, Threw(thrown.value))];
        }
      }
      isInitializing := false;
      stage := Idle;
    }

    /** `processQueuedFunctions`: invoke every queued entry on the handle, front to back. */
    method ProcessQueuedFunctions(instance: Handle) returns (thrown: Option<string>)
      modifies this`log, this`sdkCalls
      ensures var r := Replay(functionsToProcess, instance);
        && log == old(log) + r.errors && sdkCalls == old(sdkCalls) + r.invoked && thrown == r.thrown
    {
      thrown := None;
      ghost var q := functionsToProcess;
      for i := 0 to |functionsToProcess|
        invariant q == functionsToProcess
        invariant var r := Replay(q[..i], instance);
          log == old(log) + r.errors && sdkCalls == old(sdkCalls) + r.invoked && r.thrown == None
        invariant thrown == None
      {
        var entry := functionsToProcess[i];
        ReplayStep(q, i, instance);
        if entry.prop !in instance.methods {
          log := log + [Error(MethodMissing(entry.prop))];
          continue;
        }
        sdkCalls := sdkCalls + [entry];
        if entry.prop in instance.throwing {
          thrown := Some(entry.prop);
          ReplayAfterThrow(q, i + 1, instance);
          break;
        }
      }
      assert q[..|q|] == q;
    }
  }
}
