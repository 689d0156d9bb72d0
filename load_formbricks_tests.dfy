/**
 * Client runs of the loader, one per behaviour its tests pin down, each
 * proved from the loader's contracts alone.
 */
module LoadFormbricksTests {
  import opened Js
  import opened FormbricksTypes
  import opened LoadFormbricks

  const AppUrl := "https://app.formbricks.com"
  const AppScript := "https://app.formbricks.com/js/formbricks.umd.cjs"

  function Config(appUrl: string, environmentId: string): Arg {
    Object(map["appUrl" := appUrl, "environmentId" := environmentId])
  }

  /** A config object with both fields non-empty is accepted as it is. */
  lemma ConfigAccepted(appUrl: string, environmentId: string)
    requires appUrl != "" && environmentId != ""
    ensures ValidateSetupArgs([Config(appUrl, environmentId)]) == Accepted(SetupArgs(appUrl, environmentId))
  {
  }

  /** A mocked SDK with `setup` and `track`, neither throwing: their promises settle as the environment decides. */
  const Sdk := Handle({"setup", "track"}, {})

  /** The script injected for the app URL of these runs. */
  lemma AppScriptSrc()
    ensures ScriptSrc(AppUrl) == AppScript
  {
  }

  /** A valid `setup` injects one script under the app URL and hands the SDK's `setup` the caller's own argument. */
  method SetupWithValidArguments() returns (injected: seq<string>, received: seq<Call>, initialized: bool)
    ensures injected == [AppScript]
    ensures received == [Call("setup", [Config(AppUrl, "env123")])]
    ensures initialized
  {
    var loader := new Loader(None);
    ConfigAccepted(AppUrl, "env123");
    var reply := loader.Route("setup", [Config(AppUrl, "env123")]);
    AppScriptSrc();
    loader.SetGlobal(Some(Sdk));
    loader.ResumeAfterLoad(Loaded);
    loader.ResumeAfterSetup(true);
    assert Replay([], Sdk) == Replayed([], [], None);
    injected, received, initialized := loader.scripts, loader.sdkCalls, loader.isInitialized;
  }

  /** A `setup` without `appUrl` logs that it is required and changes nothing else. */
  method MissingAppUrl() returns (logged: seq<LogEntry>, injected: seq<string>, initializing: bool)
    ensures logged == [Error(Required("appUrl"))]
    ensures injected == [] && !initializing
  {
    var loader := new Loader(None);
    var reply := loader.Route("setup", [Object(map["environmentId" := "env123"])]);
    logged, injected, initializing := loader.log, loader.scripts, loader.isInitializing;
  }

  /** A `setup` with an app URL but no `environmentId` logs that the id is required. */
  method MissingEnvironmentId() returns (logged: seq<LogEntry>, injected: seq<string>, initializing: bool)
    ensures logged == [Error(Required("environmentId"))]
    ensures injected == [] && !initializing
  {
    var loader := new Loader(None);
    var reply := loader.Route("setup", [Object(map["appUrl" := AppUrl])]);
    logged, injected, initializing := loader.log, loader.scripts, loader.isInitializing;
  }

  /** A `setup` with no argument at all rejects with the destructuring TypeError and logs nothing. */
  method SetupWithoutArgument() returns (reply: Reply, logged: seq<LogEntry>, initializing: bool)
    ensures reply == Rejected(CannotDestructure)
    ensures logged == [] && !initializing
  {
    var loader := new Loader(None);
    reply := loader.Route("setup", []);
    logged, initializing := loader.log, loader.isInitializing;
  }

  /** With the handle already on the page no script is injected, and the SDK's `setup` is still called. */
  method AlreadyAvailable() returns (injected: seq<string>, received: seq<Call>)
    ensures injected == []
    ensures received == [Call("setup", [Config(AppUrl, "env123")])]
  {
    var sdk := Handle(InterfaceMethods, {});
    var loader := new Loader(Some(sdk));
    ConfigAccepted(AppUrl, "env123");
    var reply := loader.Route("setup", [Config(AppUrl, "env123")]);
    loader.ResumeAfterLoad(Timeout);
    loader.ResumeAfterSetup(true);
    assert Replay([], sdk) == Replayed([], [], None);
    injected, received := loader.scripts, loader.sdkCalls;
  }

  /** A script that errors fails the bootstrap and leaves the loader uninitialised. */
  method ScriptError() returns (logged: seq<LogEntry>, initializing: bool, initialized: bool)
    ensures logged == [Error(FailedToLoad)]
    ensures !initializing && !initialized
  {
    var loader := new Loader(None);
    ConfigAccepted(AppUrl, "env123");
    var reply := loader.Route("setup", [Config(AppUrl, "env123")]);
    loader.ResumeAfterLoad(LoadError);
    logged, initializing, initialized := loader.log, loader.isInitializing, loader.isInitialized;
  }

  /**
   * A load that times out fails the bootstrap but keeps the queue, and a
   * second `setup` is not blocked: it injects a second script.
   */
  method TimeoutThenRetry() returns (injected: seq<string>, queue: seq<Call>, logged: seq<LogEntry>, retry: Reply)
    ensures injected == [ScriptSrc(AppUrl), ScriptSrc(AppUrl)]
    ensures queue == [Call("track", [Text("queued-event")])]
    ensures logged == [Warn(NotInitializedWarning), Error(FailedToLoad)]
    ensures retry == AwaitingBootstrap
  {
    var config := Config(AppUrl, "env123");
    var loader := new Loader(None);
    var reply := loader.Route("track", [Text("queued-event")]);
    ConfigAccepted(AppUrl, "env123");
    reply := loader.Route("setup", [config]);
    loader.ResumeAfterLoad(Timeout);
    retry := loader.Route("setup", [config]);
    injected, queue, logged := loader.scripts, loader.functionsToProcess, loader.log;
  }

  /** When the SDK's own `setup` rejects, the loader stays uninitialised and the queue stays for a retry. */
  method SetupRejected() returns (logged: seq<LogEntry>, initialized: bool, queue: seq<Call>)
    ensures logged == [Warn(NotInitializedWarning), ErrorWith(SetupFailed, RejectedBy("setup"))]
    ensures !initialized
    ensures queue == [Call("track", [Text("queued-event")])]
  {
    var loader := new Loader(None);
    var reply := loader.Route("track", [Text("queued-event")]);
    ConfigAccepted(AppUrl, "env123");
    reply := loader.Route("setup", [Config(AppUrl, "env123")]);
    loader.SetGlobal(Some(Handle({"setup"}, {})));
    loader.ResumeAfterLoad(Loaded);
    loader.ResumeAfterSetup(false);
    logged, initialized, queue := loader.log, loader.isInitialized, loader.functionsToProcess;
  }

  /** A second `setup` while the first is loading only warns: one script, one bootstrap. */
  method ConcurrentSetup() returns (second: Reply, injected: seq<string>, logged: seq<LogEntry>)
    ensures second == Resolved
    ensures injected == [AppScript]
    ensures logged == [Warn(AlreadyInitializingWarning)]
  {
    var loader := new Loader(None);
    ConfigAccepted(AppUrl, "env123");
    var first := loader.Route("setup", [Config(AppUrl, "env123")]);
    second := loader.Route("setup", [Config(AppUrl, "env123")]);
    AppScriptSrc();
    injected, logged := loader.scripts, loader.log;
  }

  /** The warnings logged while `n` calls are queued. */
  function Warnings(n: nat): seq<LogEntry> {
    if n == 0 then [] else Warnings(n - 1) + [Warn(NotInitializedWarning)]
  }

  /** Routes each call in turn through a loader not yet initialised: with no `setup` among them, every one is queued. */
  method RouteAll(loader: Loader, calls: seq<Call>)
    requires loader.Valid() && !loader.isInitialized
    requires forall c :: c in calls ==> c.prop != "setup"
    modifies loader
    ensures loader.Valid() && !loader.isInitialized
    ensures loader.functionsToProcess == old(loader.functionsToProcess) + calls
    ensures loader.isInitializing == old(loader.isInitializing) && loader.stage == old(loader.stage)
    ensures loader.formbricks == old(loader.formbricks) && loader.scripts == old(loader.scripts)
    ensures loader.sdkCalls == old(loader.sdkCalls)
    ensures loader.log == old(loader.log) + Warnings(|calls|)
  {
    for i := 0 to |calls|
      invariant loader.Valid() && !loader.isInitialized
      invariant loader.functionsToProcess == old(loader.functionsToProcess) + calls[..i]
      invariant loader.isInitializing == old(loader.isInitializing) && loader.stage == old(loader.stage)
      invariant loader.formbricks == old(loader.formbricks) && loader.scripts == old(loader.scripts)
      invariant loader.sdkCalls == old(loader.sdkCalls)
      invariant loader.log == old(loader.log) + Warnings(i)
    {
      assert calls[i] in calls;
      var _ := loader.Route(calls[i].prop, calls[i].args);
      assert calls[..i + 1] == calls[..i] + [calls[i]];
    }
    assert calls[..|calls|] == calls;
  }

  /**
   * Calls made before `setup` and while it is loading are all queued, and once
   * the SDK's `setup` resolves the handle receives them after its `setup`, in
   * arrival order, skipping those it has no method for.
   */
  method QueueThenSetup(before: seq<Call>, during: seq<Call>, sdk: Handle, appUrl: string, environmentId: string)
    returns (received: seq<Call>, injected: seq<string>, initialized: bool)
    requires appUrl != "" && environmentId != ""
    requires forall c :: c in before + during ==> c.prop != "setup"
    requires "setup" in sdk.methods && "setup" !in sdk.throwing
    requires forall c :: c in before + during ==> !Throws(c, sdk)
    ensures injected == [ScriptSrc(appUrl)]
    ensures received == [Call("setup", [Config(appUrl, environmentId)])] + Kept(before + during, sdk)
    ensures initialized
  {
    var loader := new Loader(None);
    assert forall c :: c in before ==> c in before + during;
    RouteAll(loader, before);
    var config := Config(appUrl, environmentId);
    ConfigAccepted(appUrl, environmentId);
    var reply := loader.Route("setup", [config]);
    assert loader.stage == Loading([config], true);
    assert forall c :: c in during ==> c in before + during;
    RouteAll(loader, during);
    assert loader.functionsToProcess == before + during;
    assert loader.stage == Loading([config], true) && loader.sdkCalls == [] && loader.scripts == [ScriptSrc(appUrl)];
    loader.SetGlobal(Some(sdk));
    loader.ResumeAfterLoad(Loaded);
    assert loader.stage == SettingUp(sdk) && loader.sdkCalls == [Call("setup", [config])];
    loader.ResumeAfterSetup(true);
    ReplayWithoutThrow(before + during, sdk);
    received, injected, initialized := loader.sdkCalls, loader.scripts, loader.isInitialized;
  }

  /**
   * Queues `calls`, then runs a bootstrap whose load and SDK `setup` both
   * succeed: the handle receives `setup` and then what the replay of the
   * queue invokes, and the log holds the queueing warnings and what the
   * replay logs.
   */
  method QueueThenBootstrap(calls: seq<Call>, sdk: Handle) returns (loader: Loader)
    requires forall c :: c in calls ==> c.prop != "setup"
    requires "setup" in sdk.methods && "setup" !in sdk.throwing
    ensures loader.isInitialized && !loader.isInitializing
    ensures loader.functionsToProcess == calls
    ensures var r := Replay(calls, sdk);
      && loader.sdkCalls == [Call("setup", [Config(AppUrl, "env123")])] + r.invoked
      && loader.log == Warnings(|calls|) + r.errors + (if r.thrown.Some? then [ErrorWith(SetupFailed, Threw(r.thrown.value))] else [])
  {
    loader := new Loader(None);
    RouteAll(loader, calls);
    var config := Config(AppUrl, "env123");
    ConfigAccepted(AppUrl, "env123");
    var reply := loader.Route("setup", [config]);
    assert loader.stage == Loading([config], true) && loader.sdkCalls == [];
    assert loader.functionsToProcess == calls && loader.log == Warnings(|calls|);
    loader.SetGlobal(Some(sdk));
    loader.ResumeAfterLoad(Loaded);
    assert loader.stage == SettingUp(sdk) && loader.sdkCalls == [Call("setup", [config])];
    assert loader.functionsToProcess == calls && loader.log == Warnings(|calls|);
    loader.ResumeAfterSetup(true);
  }

  /** A queued call to a method the handle lacks is skipped with an error; the next queued call still runs. */
  method MissingQueuedMethod() returns (received: seq<Call>, logged: seq<LogEntry>)
    ensures received == [Call("setup", [Config(AppUrl, "env123")]), Call("track", [Text("x")])]
    ensures logged == [Warn(NotInitializedWarning), Warn(NotInitializedWarning), Error(MethodMissing("doesNotExist"))]
  {
    var sdk := Handle({"setup", "track"}, {});
    var missing, track := Call("doesNotExist", []), Call("track", [Text("x")]);
    var loader := QueueThenBootstrap([missing, track], sdk);
    assert Replay([missing, track], sdk) == Replayed([track], [Error(MethodMissing("doesNotExist"))], None) by {
      MissingMethodSkipped([], missing, [track], sdk);
      assert [] + [missing] + [track] == [missing, track];
      assert Kept([], sdk) == [] && Skipped([], sdk) == [];
      SingleEntry(track, sdk);
    }
    assert Warnings(2) == [Warn(NotInitializedWarning), Warn(NotInitializedWarning)];
    received, logged := loader.sdkCalls, loader.log;
  }

  /**
   * A queued method that throws synchronously ends the replay and is reported
   * as a failed setup, although the loader is already initialised and stays so.
   */
  method QueuedThrowAfterCommit() returns (received: seq<Call>, logged: seq<LogEntry>, initialized: bool)
    ensures received == [Call("setup", [Config(AppUrl, "env123")]), Call("track", [Text("x")])]
    ensures logged == [Warn(NotInitializedWarning), Warn(NotInitializedWarning), ErrorWith(SetupFailed, Threw("track"))]
    ensures initialized
  {
    var q := [Call("track", [Text("x")]), Call("logout", [])];
    var sdk := Handle({"setup", "track", "logout"}, {"track"});
    var loader := QueueThenBootstrap(q, sdk);
    assert Replay(q, sdk) == Replayed([q[0]], [], Some("track")) by {
      ReplayStopsAtThrow(q, sdk, 0);
      assert q[..1] == [q[0]] && q[..0] == [];
      SingleEntry(q[0], sdk);
    }
    assert Warnings(2) == [Warn(NotInitializedWarning), Warn(NotInitializedWarning)];
    received, logged, initialized := loader.sdkCalls, loader.log, loader.isInitialized;
  }

  /** After initialisation every call, `setup` included, goes straight to the handle with its arguments and is never queued. */
  method DirectAfterInit() returns (received: seq<Call>, queue: seq<Call>, replies: seq<Reply>)
    ensures received == [
      Call("setup", [Config(AppUrl, "env123")]),
      Call("track", [Text("test-event")]),
      Call("setup", [Config(AppUrl, "other")])]
    ensures queue == []
    ensures replies == [AwaitingSdk, AwaitingSdk, Rejected(NotAFunction("unknown"))]
  {
    var loader := new Loader(None);
    ConfigAccepted(AppUrl, "env123");
    var reply := loader.Route("setup", [Config(AppUrl, "env123")]);
    loader.SetGlobal(Some(Sdk));
    loader.ResumeAfterLoad(Loaded);
    loader.ResumeAfterSetup(true);
    assert Replay([], Sdk) == Replayed([], [], None);
    var r1 := loader.Route("track", [Text("test-event")]);
    var r2 := loader.Route("setup", [Config(AppUrl, "other")]);
    var r3 := loader.Route("unknown", []);
    received, queue, replies := loader.sdkCalls, loader.functionsToProcess, [r1, r2, r3];
  }

  /** After initialisation, with the handle gone from the page, a call is a silent no-op. */
  method DirectWithoutHandle() returns (reply: Reply, received: seq<Call>, logged: seq<LogEntry>)
    ensures reply == Resolved
    ensures received == [Call("setup", [Config(AppUrl, "env123")])]
    ensures logged == []
  {
    var loader := new Loader(None);
    ConfigAccepted(AppUrl, "env123");
    var r := loader.Route("setup", [Config(AppUrl, "env123")]);
    loader.SetGlobal(Some(Sdk));
    loader.ResumeAfterLoad(Loaded);
    loader.ResumeAfterSetup(true);
    assert Replay([], Sdk) == Replayed([], [], None);
    loader.SetGlobal(None);
    reply := loader.Route("track", [Text("e")]);
    received, logged := loader.sdkCalls, loader.log;
  }
}
