/**
 * Reference definitions for the standalone server's lifecycle: the calls
 * `runFromConfig` makes into its collaborators, in the order it makes them,
 * the rule that the first call to throw aborts the rest of the `try` block,
 * the `finally` cleanup, the `shutdown` teardown and the `close` request.
 *
 * A collaborator call is an `Op`; what each fallible call does in one run is
 * given by an `Env`. Every request of a call is recorded, including the one
 * that throws.
 */
module Lifecycle {
  import opened Util
  import opened Throwables
  import opened ExitOutcome

  /** The two client listeners: unencrypted and encrypted. */
  datatype Listener = Plain | Secure

  /** The parts of the parsed server configuration that decide the control flow. */
  datatype Config = Config(clientPortAddress: Option<string>, secureClientPortAddress: Option<string>)

  /** Whether at least one client address is configured. */
  predicate Configured(cfg: Config) {
    cfg.clientPortAddress.Some? || cfg.secureClientPortAddress.Some?
  }

  /** The container-manager system properties, where set. */
  datatype SystemProperties = SystemProperties(
    checkIntervalMs: Option<int>,
    maxPerMinute: Option<int>,
    maxNeverUsedIntervalMs: Option<int>)

  /** The arguments the container manager is constructed with. */
  datatype ContainerParams = ContainerParams(checkIntervalMs: int, maxPerMinute: int, maxNeverUsedIntervalMs: int)

  const DefaultCheckIntervalMs: int := 60000     // one minute in milliseconds
  const DefaultMaxPerMinute: int := 10000
  const DefaultMaxNeverUsedIntervalMs: int := 0

  /** A property's value where it is set, its default otherwise. */
  function ContainerSettings(p: SystemProperties): ContainerParams {
    ContainerParams(
      if p.checkIntervalMs.Some? then p.checkIntervalMs.value else DefaultCheckIntervalMs,
      if p.maxPerMinute.Some? then p.maxPerMinute.value else DefaultMaxPerMinute,
      if p.maxNeverUsedIntervalMs.Some? then p.maxNeverUsedIntervalMs.value else DefaultMaxNeverUsedIntervalMs)
  }

  /** With no property set, the container manager runs every minute, reclaims at most 10000 per minute, with no idle delay. */
  lemma DefaultContainerSettings(p: SystemProperties)
    requires p.checkIntervalMs.None? && p.maxPerMinute.None? && p.maxNeverUsedIntervalMs.None?
    ensures ContainerSettings(p) == ContainerParams(60000, 10000, 0)
  {
  }

  /** The calls the lifecycle code makes into its collaborators. */
  datatype Op =
    | BootMetrics                           // start the configured metrics provider
    | OpenTxnLog                            // construct the transaction log over the data directories
    | CreateServer                          // construct the server engine over the log
    | StartAdmin                            // start the admin server bound to the engine
    | Configure(l: Listener)                // configure a listener for its address
    | Startup(l: Listener, activate: bool)  // start a listener; `activate` also starts the engine
    | StartContainers(params: ContainerParams)
    | AuditStart                            // the server-start audit entry
    | AwaitShutdown                         // wait for the shutdown latch
    | StopContainers
    | StopListener(l: Listener)
    | StopAdmin
    | Join(l: Listener)                     // wait for a listener's threads to finish
    | ShutdownServer                        // shut the engine down
    | CloseTxnLog
    | StopMetrics
    | RequestShutdown                       // hand the SHUTDOWN state to the engine's shutdown handler

  /** The position of each call in the fixed lifecycle order. */
  function Rank(op: Op): nat {
    match op
    case BootMetrics => 0
    case OpenTxnLog => 1
    case CreateServer => 2
    case StartAdmin => 3
    case Configure(l) => if l == Plain then 4 else 6
    case Startup(l, _) => if l == Plain then 5 else 7
    case StartContainers(_) => 8
    case AuditStart => 9
    case AwaitShutdown => 10
    case StopContainers => 11
    case StopListener(l) => if l == Plain then 12 else 13
    case StopAdmin => 14
    case Join(l) => if l == Plain then 15 else 16
    case ShutdownServer => 17
    case CloseTxnLog => 18
    case StopMetrics => 19
    case RequestShutdown => 20
  }

  /** What each fallible collaborator call does in one run, and the inputs read at run time. */
  datatype Env = Env(
    bootMetrics: Outcome,
    openTxnLog: Outcome,
    createServer: Outcome,
    startAdmin: Outcome,
    configurePlain: Outcome,
    startupPlain: Outcome,
    configureSecure: Outcome,
    startupSecure: Outcome,
    startContainers: Outcome,
    await: Outcome,
    stopAdmin: Outcome,
    joinPlain: Outcome,
    joinSecure: Outcome,
    canShutdown: bool,
    closeTxnLog: Outcome,
    stopMetrics: Outcome,
    props: SystemProperties)

  /** What the collaborator does when `op` is called. */
  function Raw(env: Env, op: Op): Outcome {
    match op
    case BootMetrics => env.bootMetrics
    case OpenTxnLog => env.openTxnLog
    case CreateServer => env.createServer
    case StartAdmin => env.startAdmin
    case Configure(l) => if l == Plain then env.configurePlain else env.configureSecure
    case Startup(l, _) => if l == Plain then env.startupPlain else env.startupSecure
    case StartContainers(_) => env.startContainers
    case AwaitShutdown => env.await
    case StopAdmin => env.stopAdmin
    case Join(l) => if l == Plain then env.joinPlain else env.joinSecure
    case CloseTxnLog => env.closeTxnLog
    case StopMetrics => env.stopMetrics
    case _ => Returns
  }

  /**
   * The exception that leaves the call site of `op`: a metrics life-cycle
   * failure is rethrown as an IOException, an AdminServerException from the
   * admin shutdown is caught and only logged.
   */
  function Escaping(env: Env, op: Op): Option<ExnClass> {
    match Raw(env, op)
    case Returns => None
    case Throws(e) =>
      if op == BootMetrics && InstanceOf(e, MetricsProviderLifeCycleException) then Some(IOException)
      else if op == StopAdmin && InstanceOf(e, AdminServerException) then None
      else Some(e)
  }

  /** The call that threw, and what it threw. */
  datatype Failure = Failure(op: Op, exn: ExnClass)

  /** The calls of a plan that completed, and the failing call if one threw. */
  datatype Run = Run(done: seq<Op>, failure: Option<Failure>)

  /** Every call requested in a run: those that completed and then the one that threw. */
  function Calls(r: Run): seq<Op> {
    r.done + if r.failure.Some? then [r.failure.value.op] else []
  }

  /** Running the calls of `plan` in order until one throws. */
  function Attempt(plan: seq<Op>, env: Env): Run
    decreases |plan|
  {
    if plan == [] then Run([], None)
    else match Escaping(env, plan[0])
      case Some(e) => Run([], Some(Failure(plan[0], e)))
      case None =>
        var r := Attempt(plan[1..], env);
        Run([plan[0]] + r.done, r.failure)
  }

  /**
   * The completed calls of a run are the longest prefix of its plan none of
   * whose calls throws, and the next call of the plan, if there is one, is
   * the failing call.
   */
  lemma {:induction false} AttemptSpec(plan: seq<Op>, env: Env)
    ensures var r := Attempt(plan, env);
      && |r.done| <= |plan| && r.done == plan[..|r.done|]
      && (forall i :: 0 <= i < |r.done| ==> Escaping(env, plan[i]).None?)
      && (r.failure.None? <==> |r.done| == |plan|)
      && (r.failure.Some? ==>
            plan[|r.done|] == r.failure.value.op && Escaping(env, r.failure.value.op) == Some(r.failure.value.exn))
    decreases |plan|
  {
    if plan != [] && Escaping(env, plan[0]).None? {
      AttemptSpec(plan[1..], env);
      var r := Attempt(plan[1..], env);
      assert forall i :: 1 <= i <= |r.done| ==> plan[i] == plan[1..][i - 1];
    }
  }

  /** Attempting a call followed by a plan. */
  lemma AttemptCons(op: Op, rest: seq<Op>, env: Env)
    ensures Attempt([op] + rest, env) ==
      match Escaping(env, op)
      case Some(e) => Run([], Some(Failure(op, e)))
      case None => Run([op] + Attempt(rest, env).done, Attempt(rest, env).failure)
  {
    assert ([op] + rest)[0] == op && ([op] + rest)[1..] == rest;
  }

  /** A plan none of whose calls throws completes entirely. */
  lemma {:induction false} AttemptCompletes(plan: seq<Op>, env: Env)
    requires forall i :: 0 <= i < |plan| ==> Escaping(env, plan[i]).None?
    ensures Attempt(plan, env) == Run(plan, None)
    decreases |plan|
  {
    if plan != [] {
      AttemptCompletes(plan[1..], env);
      assert [plan[0]] + plan[1..] == plan;
    }
  }

  /** The calls of a run form a prefix of its plan. */
  lemma CallsArePrefix(plan: seq<Op>, env: Env)
    ensures |Calls(Attempt(plan, env))| <= |plan|
    ensures Calls(Attempt(plan, env)) == plan[..|Calls(Attempt(plan, env))|]
  {
    AttemptSpec(plan, env);
    var r := Attempt(plan, env);
    if r.failure.Some? {
      assert plan[..|r.done| + 1] == plan[..|r.done|] + [plan[|r.done|]];
    }
  }

  /** Running two plans one after the other is running their concatenation. */
  lemma {:induction false} AttemptAppend(p: seq<Op>, q: seq<Op>, env: Env)
    ensures Attempt(p + q, env) ==
      var a := Attempt(p, env);
      if a.failure.Some? then a else Run(p + Attempt(q, env).done, Attempt(q, env).failure)
  {
    if p == [] {
      assert p + q == q;
    } else {
      assert (p + q)[0] == p[0];
      assert (p + q)[1..] == p[1..] + q;
      AttemptAppend(p[1..], q, env);
      if Escaping(env, p[0]).None? {
        assert [p[0]] + (p[1..] + Attempt(q, env).done) == p + Attempt(q, env).done;
      }
    }
  }

  /** Which subsystem handles are non-null. */
  datatype Handles = Handles(metrics: bool, admin: bool, plain: bool, secure: bool, containers: bool)

  const NoHandles := Handles(false, false, false, false, false)

  /** The listener's calls when its address is configured: configure it, then start it. */
  function ListenerOps(l: Listener, address: Option<string>, activate: bool): seq<Op> {
    if address.Some? then [Configure(l), Startup(l, activate)] else []
  }

  /** The calls before the wait: the plain listener always activates the engine, the secure one only without a plain one. */
  function ServingPlan(cfg: Config, props: SystemProperties): seq<Op> {
    [BootMetrics, OpenTxnLog, CreateServer, StartAdmin]
    + ListenerOps(Plain, cfg.clientPortAddress, true)
    + ListenerOps(Secure, cfg.secureClientPortAddress, cfg.clientPortAddress.None?)
    + [StartContainers(ContainerSettings(props)), AuditStart]
  }

  /** The startup calls followed by the wait for the shutdown signal. */
  function StartupPlan(cfg: Config, props: SystemProperties): seq<Op> {
    ServingPlan(cfg, props) + [AwaitShutdown]
  }

  /** The handles after every startup call of a run has been made. */
  function Started(h0: Handles, cfg: Config): Handles {
    Handles(true, true, h0.plain || cfg.clientPortAddress.Some?, h0.secure || cfg.secureClientPortAddress.Some?, true)
  }

  /** `shutdown()`: stop the container manager, the plain listener, the secure listener, the admin server, skipping null handles. */
  function ShutdownPlan(h: Handles): seq<Op> {
    StopsBeforeAdmin(h) + Optional(h.admin, StopAdmin)
  }

  /** The stops `shutdown()` makes outside its `try` block. */
  function StopsBeforeAdmin(h: Handles): seq<Op> {
    Optional(h.containers, StopContainers) + Optional(h.plain, StopListener(Plain)) + Optional(h.secure, StopListener(Secure))
  }

  /** A call made only when its condition holds. */
  function Optional(present: bool, op: Op): seq<Op> {
    if present then [op] else []
  }

  /** After `shutdown()`: join each started listener, plain first, then shut the engine down if it allows it. */
  function JoinPlan(h: Handles, canShutdown: bool): seq<Op> {
    Optional(h.plain, Join(Plain)) + Optional(h.secure, Join(Secure)) + Optional(canShutdown, ShutdownServer)
  }

  /** The wait for the shutdown signal, `shutdown()` and the joins, on the handles set by the startup. */
  function TeardownPlan(h: Handles, canShutdown: bool): seq<Op> {
    [AwaitShutdown] + ShutdownPlan(h) + JoinPlan(h, canShutdown)
  }

  /** Every call of the `try` block of `runFromConfig`, in order, if none throws. */
  function BodyPlan(h0: Handles, cfg: Config, env: Env): seq<Op> {
    StartupPlan(cfg, env.props) + ShutdownPlan(Started(h0, cfg)) + JoinPlan(Started(h0, cfg), env.canShutdown)
  }

  /** The run of the `try` block. */
  function BodyRun(h0: Handles, cfg: Config, env: Env): Run {
    Attempt(BodyPlan(h0, cfg, env), env)
  }

  /**
   * The handles after a run: the metrics provider is assigned once its boot
   * returns; the admin server, each listener and the container manager are
   * assigned just before their first fallible call.
   */
  function HandlesOf(h0: Handles, done: seq<Op>, calls: seq<Op>, params: ContainerParams): Handles {
    Handles(
      h0.metrics || BootMetrics in done,
      h0.admin || StartAdmin in calls,
      h0.plain || Configure(Plain) in calls,
      h0.secure || Configure(Secure) in calls,
      h0.containers || StartContainers(params) in calls)
  }

  function HandlesAfter(h0: Handles, cfg: Config, env: Env): Handles {
    var r := BodyRun(h0, cfg, env);
    HandlesOf(h0, r.done, Calls(r), ContainerSettings(env.props))
  }

  /** `catch (InterruptedException e)`: an interruption ends the `try` block normally. */
  function Caught(r: Run): Completion {
    if r.failure.None? || InstanceOf(r.failure.value.exn, InterruptedException) then Normal
    else Threw(r.failure.value.exn)
  }

  /** The calls made in the `finally` block and how `runFromConfig` completes. */
  datatype Finish = Finish(calls: seq<Op>, completion: Completion)

  /**
   * `finally`: close the log if it was opened, then stop the metrics provider
   * if its handle is set, swallowing whatever it throws. An exception from
   * closing the log replaces the pending completion and skips the rest.
   */
  function Cleanup(txnLogOpen: bool, metrics: bool, env: Env, pending: Completion): Finish {
    if txnLogOpen && env.closeTxnLog.Throws? then Finish([CloseTxnLog], Threw(env.closeTxnLog.exn))
    else Finish(Optional(txnLogOpen, CloseTxnLog) + Optional(metrics, StopMetrics), pending)
  }

  function RunFinish(h0: Handles, cfg: Config, env: Env): Finish {
    var r := BodyRun(h0, cfg, env);
    Cleanup(OpenTxnLog in r.done, HandlesAfter(h0, cfg, env).metrics, env, Caught(r))
  }

  /** Every collaborator call `runFromConfig` makes, in order. */
  function RunTrace(h0: Handles, cfg: Config, env: Env): seq<Op> {
    Calls(BodyRun(h0, cfg, env)) + RunFinish(h0, cfg, env).calls
  }

  /** How `runFromConfig` completes. */
  function RunCompletion(h0: Handles, cfg: Config, env: Env): Completion {
    RunFinish(h0, cfg, env).completion
  }

  // ---------------------------------------------------------------------------
  // Order

  /** The calls appear in strictly increasing rank, hence each at most once. */
  ghost predicate Ranked(s: seq<Op>) {
    forall i, j :: 0 <= i < j < |s| ==> Rank(s[i]) < Rank(s[j])
  }

  ghost predicate Within(s: seq<Op>, lo: nat, hi: nat) {
    forall i :: 0 <= i < |s| ==> lo <= Rank(s[i]) < hi
  }

  /** The ranks strictly increase from at least `lo` and stay below `hi`. */
  ghost predicate Chain(s: seq<Op>, lo: nat, hi: nat)
    decreases |s|
  {
    s == [] || (lo <= Rank(s[0]) < hi && Chain(s[1..], Rank(s[0]) + 1, hi))
  }

  lemma {:induction false} ChainOrdered(s: seq<Op>, lo: nat, hi: nat)
    requires Chain(s, lo, hi)
    ensures Ranked(s) && Within(s, lo, hi)
    decreases |s|
  {
    if s != [] {
      var t := s[1..];
      ChainOrdered(t, Rank(s[0]) + 1, hi);
      assert forall i :: 1 <= i < |s| ==> s[i] == t[i - 1];
    }
  }

  lemma ChainLower(s: seq<Op>, lo: nat, lo': nat, hi: nat)
    requires lo' <= lo && Chain(s, lo, hi)
    ensures Chain(s, lo', hi)
  {
  }

  lemma {:induction false} ChainConcat(a: seq<Op>, b: seq<Op>, lo: nat, mid: nat, hi: nat)
    requires lo <= mid <= hi && Chain(a, lo, mid) && Chain(b, mid, hi)
    ensures Chain(a + b, lo, hi)
    decreases |a|
  {
    if a == [] {
      assert a + b == b;
      ChainLower(b, mid, lo, hi);
    } else {
      assert (a + b)[0] == a[0] && (a + b)[1..] == a[1..] + b;
      ChainConcat(a[1..], b, Rank(a[0]) + 1, mid, hi);
    }
  }

  lemma {:induction false} ChainPrefix(s: seq<Op>, k: nat, lo: nat, hi: nat)
    requires Chain(s, lo, hi) && k <= |s|
    ensures Chain(s[..k], lo, hi)
    decreases k
  {
    if k > 0 {
      assert s[..k][0] == s[0] && s[..k][1..] == s[1..][..k - 1];
      ChainPrefix(s[1..], k - 1, Rank(s[0]) + 1, hi);
    }
  }

  lemma OptionalChain(present: bool, op: Op)
    ensures Chain(Optional(present, op), Rank(op), Rank(op) + 1)
  {
    if present {
      assert Optional(present, op)[1..] == [];
    }
  }

  lemma ListenerOpsChain(l: Listener, address: Option<string>, activate: bool)
    ensures Chain(ListenerOps(l, address, activate), Rank(Configure(l)), Rank(Configure(l)) + 2)
  {
    var ops := ListenerOps(l, address, activate);
    if address.Some? {
      assert ops[1..] == [Startup(l, activate)] && ops[1..][1..] == [];
    }
  }

  lemma CoreChain()
    ensures Chain([BootMetrics, OpenTxnLog, CreateServer, StartAdmin], 0, 4)
  {
    var core := [BootMetrics, OpenTxnLog, CreateServer, StartAdmin];
    assert core[1..] == [OpenTxnLog, CreateServer, StartAdmin];
    assert core[1..][1..] == [CreateServer, StartAdmin];
    assert core[1..][1..][1..] == [StartAdmin];
    assert core[1..][1..][1..][1..] == [];
    assert Chain([StartAdmin], 3, 4);
    assert Chain([CreateServer, StartAdmin], 2, 4);
    assert Chain([OpenTxnLog, CreateServer, StartAdmin], 1, 4);
  }

  lemma ServingTailChain(params: ContainerParams)
    ensures Chain([StartContainers(params), AuditStart, AwaitShutdown], 8, 11)
  {
    var tail := [StartContainers(params), AuditStart, AwaitShutdown];
    assert tail[1..] == [AuditStart, AwaitShutdown];
    assert tail[1..][1..] == [AwaitShutdown];
    assert tail[1..][1..][1..] == [];
    assert Chain([AwaitShutdown], 10, 11);
    assert Chain([AuditStart, AwaitShutdown], 9, 11);
  }

  lemma ServingPlanRanked(cfg: Config, props: SystemProperties)
    ensures Ranked(StartupPlan(cfg, props)) && Within(StartupPlan(cfg, props), 0, 11)
  {
    ServingPlanChain(cfg, props);
    ChainOrdered(StartupPlan(cfg, props), 0, 11);
  }

  lemma ServingPlanChain(cfg: Config, props: SystemProperties)
    ensures Chain(StartupPlan(cfg, props), 0, 11)
  {
    var core := [BootMetrics, OpenTxnLog, CreateServer, StartAdmin];
    var lp := ListenerOps(Plain, cfg.clientPortAddress, true);
    var ls := ListenerOps(Secure, cfg.secureClientPortAddress, cfg.clientPortAddress.None?);
    var tail := [StartContainers(ContainerSettings(props)), AuditStart, AwaitShutdown];
    assert StartupPlan(cfg, props) == core + lp + ls + tail;
    CoreChain();
    ListenerOpsChain(Plain, cfg.clientPortAddress, true);
    ListenerOpsChain(Secure, cfg.secureClientPortAddress, cfg.clientPortAddress.None?);
    ServingTailChain(ContainerSettings(props));
    ChainConcat(core, lp, 0, 4, 6);
    ChainConcat(core + lp, ls, 0, 6, 8);
    ChainConcat(core + lp + ls, tail, 0, 8, 11);
  }

  lemma ShutdownPlanRanked(h: Handles)
    ensures Ranked(ShutdownPlan(h)) && Within(ShutdownPlan(h), 11, 15)
  {
    ShutdownPlanChain(h);
    ChainOrdered(ShutdownPlan(h), 11, 15);
  }

  lemma ShutdownPlanChain(h: Handles)
    ensures Chain(ShutdownPlan(h), 11, 15)
  {
    var s1 := Optional(h.containers, StopContainers);
    var s2 := Optional(h.plain, StopListener(Plain));
    var s3 := Optional(h.secure, StopListener(Secure));
    var s4 := Optional(h.admin, StopAdmin);
    OptionalChain(h.containers, StopContainers);
    OptionalChain(h.plain, StopListener(Plain));
    OptionalChain(h.secure, StopListener(Secure));
    OptionalChain(h.admin, StopAdmin);
    ChainConcat(s1, s2, 11, 12, 13);
    ChainConcat(s1 + s2, s3, 11, 13, 14);
    ChainConcat(s1 + s2 + s3, s4, 11, 14, 15);
  }

  lemma JoinPlanRanked(h: Handles, canShutdown: bool)
    ensures Ranked(JoinPlan(h, canShutdown)) && Within(JoinPlan(h, canShutdown), 15, 18)
  {
    JoinPlanChain(h, canShutdown);
    ChainOrdered(JoinPlan(h, canShutdown), 15, 18);
  }

  lemma JoinPlanChain(h: Handles, canShutdown: bool)
    ensures Chain(JoinPlan(h, canShutdown), 15, 18)
  {
    var j1 := Optional(h.plain, Join(Plain));
    var j2 := Optional(h.secure, Join(Secure));
    var j3 := Optional(canShutdown, ShutdownServer);
    OptionalChain(h.plain, Join(Plain));
    OptionalChain(h.secure, Join(Secure));
    OptionalChain(canShutdown, ShutdownServer);
    ChainConcat(j1, j2, 15, 16, 17);
    ChainConcat(j1 + j2, j3, 15, 17, 18);
  }

  lemma BodyPlanRanked(h0: Handles, cfg: Config, env: Env)
    ensures Ranked(BodyPlan(h0, cfg, env)) && Within(BodyPlan(h0, cfg, env), 0, 18)
  {
    BodyPlanChain(h0, cfg, env);
    ChainOrdered(BodyPlan(h0, cfg, env), 0, 18);
  }

  lemma BodyPlanChain(h0: Handles, cfg: Config, env: Env)
    ensures Chain(BodyPlan(h0, cfg, env), 0, 18)
  {
    var h := Started(h0, cfg);
    ServingPlanChain(cfg, env.props);
    ShutdownPlanChain(h);
    JoinPlanChain(h, env.canShutdown);
    ChainConcat(StartupPlan(cfg, env.props), ShutdownPlan(h), 0, 11, 15);
    ChainConcat(StartupPlan(cfg, env.props) + ShutdownPlan(h), JoinPlan(h, env.canShutdown), 0, 15, 18);
  }

  /** The cleanup calls are ranked, after everything in the `try` block. */
  lemma CleanupRanked(txnLogOpen: bool, metrics: bool, env: Env, pending: Completion)
    ensures Within(Cleanup(txnLogOpen, metrics, env, pending).calls, 18, 20)
  {
    CleanupChain(txnLogOpen, metrics, env, pending);
    ChainOrdered(Cleanup(txnLogOpen, metrics, env, pending).calls, 18, 20);
  }

  lemma CleanupChain(txnLogOpen: bool, metrics: bool, env: Env, pending: Completion)
    ensures Chain(Cleanup(txnLogOpen, metrics, env, pending).calls, 18, 20)
  {
    var close := Optional(txnLogOpen, CloseTxnLog);
    var stop := Optional(metrics, StopMetrics);
    OptionalChain(txnLogOpen, CloseTxnLog);
    OptionalChain(metrics, StopMetrics);
    ChainConcat(close, stop, 18, 19, 20);
  }

  /**
   * Every call of `runFromConfig` comes in the fixed order: metrics provider,
   * log, engine, admin server, plain listener, secure listener, container
   * manager, wait, teardown in the order container manager, plain, secure,
   * admin, then the joins, plain before secure, the engine shutdown, and last
   * the cleanup, log before metrics.
   */
  lemma TraceOrdered(h0: Handles, cfg: Config, env: Env)
    ensures Ranked(RunTrace(h0, cfg, env))
  {
    var plan := BodyPlan(h0, cfg, env);
    BodyPlanChain(h0, cfg, env);
    CallsArePrefix(plan, env);
    var calls := Calls(BodyRun(h0, cfg, env));
    ChainPrefix(plan, |calls|, 0, 18);
    var fin := RunFinish(h0, cfg, env);
    CleanupChain(OpenTxnLog in BodyRun(h0, cfg, env).done, HandlesAfter(h0, cfg, env).metrics, env, Caught(BodyRun(h0, cfg, env)));
    ChainConcat(calls, fin.calls, 0, 18, 20);
    ChainOrdered(RunTrace(h0, cfg, env), 0, 20);
  }

  /**
   * Once a call of the `try` block throws, no later call of the block is
   * made: every call ranked after the failing one is cleanup.
   */
  lemma NothingStartsAfterFailure(h0: Handles, cfg: Config, env: Env)
    requires BodyRun(h0, cfg, env).failure.Some?
    ensures var t := RunTrace(h0, cfg, env);
      var f := BodyRun(h0, cfg, env).failure.value;
      forall i :: 0 <= i < |t| && Rank(t[i]) > Rank(f.op) ==> t[i] == CloseTxnLog || t[i] == StopMetrics
  {
    var r := BodyRun(h0, cfg, env);
    var t := RunTrace(h0, cfg, env);
    TraceOrdered(h0, cfg, env);
    assert t[|r.done|] == r.failure.value.op;
    forall i | 0 <= i < |t| && Rank(t[i]) > Rank(r.failure.value.op)
      ensures t[i] == CloseTxnLog || t[i] == StopMetrics
    {
      assert i > |r.done|;
    }
  }

  /** A listener is configured in the startup calls exactly when its address is set. */
  lemma StartupPlanConfigures(cfg: Config, props: SystemProperties)
    ensures Configure(Plain) in StartupPlan(cfg, props) <==> cfg.clientPortAddress.Some?
    ensures Configure(Secure) in StartupPlan(cfg, props) <==> cfg.secureClientPortAddress.Some?
  {
    var core := [BootMetrics, OpenTxnLog, CreateServer, StartAdmin];
    var lp := ListenerOps(Plain, cfg.clientPortAddress, true);
    var ls := ListenerOps(Secure, cfg.secureClientPortAddress, cfg.clientPortAddress.None?);
    var tail := [StartContainers(ContainerSettings(props)), AuditStart, AwaitShutdown];
    assert StartupPlan(cfg, props) == core + lp + ls + tail;
  }

  /** The teardown calls rank after every startup call. */
  lemma TeardownRanked(h: Handles, canShutdown: bool)
    ensures Within(ShutdownPlan(h) + JoinPlan(h, canShutdown), 11, 18)
  {
    ShutdownPlanChain(h);
    JoinPlanChain(h, canShutdown);
    ChainConcat(ShutdownPlan(h), JoinPlan(h, canShutdown), 11, 15, 18);
    ChainOrdered(ShutdownPlan(h) + JoinPlan(h, canShutdown), 11, 18);
  }

  /**
   * Once a run has reached the wait for the shutdown signal, every handle is
   * set, each listener's exactly when it was set before or its address is
   * configured.
   */
  lemma HandlesOnceServed(h0: Handles, cfg: Config, env: Env)
    requires AwaitShutdown in Calls(BodyRun(h0, cfg, env))
    ensures HandlesAfter(h0, cfg, env) == Started(h0, cfg)
  {
    var r := BodyRun(h0, cfg, env);
    var serving := ServingPlan(cfg, env.props);
    var h := Started(h0, cfg);
    var tear := ShutdownPlan(h) + JoinPlan(h, env.canShutdown);
    ServedRun(h0, cfg, env);
    TeardownRanked(h, env.canShutdown);
    StartupPlanConfigures(cfg, env.props);
    ServedHandles(h0, cfg, ContainerSettings(env.props), serving, tear, r.done, Calls(r));
  }

  /** A run that reached the wait completed every serving call, and called nothing outside its plan. */
  lemma ServedRun(h0: Handles, cfg: Config, env: Env)
    requires AwaitShutdown in Calls(BodyRun(h0, cfg, env))
    ensures var serving := ServingPlan(cfg, env.props);
      forall i :: 0 <= i < |serving| ==> serving[i] in BodyRun(h0, cfg, env).done
    ensures forall op :: op in BodyRun(h0, cfg, env).done ==> op in Calls(BodyRun(h0, cfg, env))
    ensures var h := Started(h0, cfg);
      forall op :: op in Calls(BodyRun(h0, cfg, env)) ==>
        op in ServingPlan(cfg, env.props) + [AwaitShutdown] + (ShutdownPlan(h) + JoinPlan(h, env.canShutdown))
  {
    var plan := BodyPlan(h0, cfg, env);
    var r := BodyRun(h0, cfg, env);
    var serving := ServingPlan(cfg, env.props);
    var h := Started(h0, cfg);
    var tear := ShutdownPlan(h) + JoinPlan(h, env.canShutdown);
    BodyPlanSplit(h0, cfg, env);
    Assoc([AwaitShutdown], ShutdownPlan(h), JoinPlan(h, env.canShutdown));
    Assoc(serving, [AwaitShutdown], tear);
    CallsArePrefix(plan, env);
    AttemptSpec(plan, env);
    BodyPlanRanked(h0, cfg, env);
    ReachedServing(plan, r.done, Calls(r), serving, tear);
  }

  lemma ReachedServing(plan: seq<Op>, done: seq<Op>, calls: seq<Op>, serving: seq<Op>, tear: seq<Op>)
    requires plan == serving + [AwaitShutdown] + tear && Ranked(plan)
    requires |calls| <= |plan| && calls == plan[..|calls|]
    requires |done| <= |plan| && done == plan[..|done|] && |done| <= |calls| <= |done| + 1
    requires AwaitShutdown in calls
    ensures forall i :: 0 <= i < |serving| ==> serving[i] in done
    ensures forall op :: op in done ==> op in calls
    ensures forall op :: op in calls ==> op in plan
  {
    assert plan[|serving|] == AwaitShutdown;
    ReachedPrefix(plan, done, calls, |serving|);
    assert forall i :: 0 <= i < |serving| ==> serving[i] == plan[i] == done[i];
    assert forall i :: 0 <= i < |done| ==> done[i] == calls[i];
  }

  /** The handles of a run whose completed calls include every serving call, and whose calls come from its plan. */
  lemma ServedHandles(h0: Handles, cfg: Config, params: ContainerParams, serving: seq<Op>, tear: seq<Op>, done: seq<Op>, calls: seq<Op>)
    requires Within(tear, 11, 18)
    requires |serving| >= 6 && serving[0] == BootMetrics && serving[3] == StartAdmin
    requires serving[|serving| - 2] == StartContainers(params)
    requires Configure(Plain) in serving + [AwaitShutdown] <==> cfg.clientPortAddress.Some?
    requires Configure(Secure) in serving + [AwaitShutdown] <==> cfg.secureClientPortAddress.Some?
    requires forall i :: 0 <= i < |serving| ==> serving[i] in done
    requires forall op :: op in done ==> op in calls
    requires forall op :: op in calls ==> op in serving + [AwaitShutdown] + tear
    ensures HandlesOf(h0, done, calls, params) == Started(h0, cfg)
  {
    assert serving[0] in done && serving[3] in done && serving[|serving| - 2] in done;
    NotWithin(tear, 11, 18, Configure(Plain));
    NotWithin(tear, 11, 18, Configure(Secure));
    forall l: Listener | Configure(l) in serving + [AwaitShutdown] ensures Configure(l) in calls {
      var i :| 0 <= i < |serving| + 1 && (serving + [AwaitShutdown])[i] == Configure(l);
      assert serving[i] in done;
    }
  }

  /** A run of a ranked plan that made the plan's `k`-th call has completed every call before it, and called nothing outside the plan. */
  lemma ReachedPrefix(plan: seq<Op>, done: seq<Op>, calls: seq<Op>, k: nat)
    requires Ranked(plan) && |calls| <= |plan| && calls == plan[..|calls|]
    requires |done| <= |plan| && done == plan[..|done|] && |calls| <= |done| + 1
    requires k < |plan| && plan[k] in calls
    ensures k <= |done|
    ensures forall op :: op in calls ==> op in plan
  {
    var j :| 0 <= j < |calls| && calls[j] == plan[k];
    assert plan[j] == plan[k];
    assert j == k;
  }

  // ---------------------------------------------------------------------------
  // Running a plan part by part

  /** The calls that always open the `try` block. */
  const CoreOps: seq<Op> := [BootMetrics, OpenTxnLog, CreateServer, StartAdmin]

  /**
   * The record of calls after attempting `plan` on top of an earlier record `t`.
   * This and HandlesFrom below describe one run call by call, the form the
   * methods follow; Calls and HandlesOf describe the same run by membership,
   * the form the properties are stated in. TraceFromCalls and HandlesFromRun
   * prove the two agree.
   */
  function TraceFrom(t: seq<Op>, plan: seq<Op>, env: Env): seq<Op>
    decreases |plan|
  {
    if plan == [] then t
    else if Escaping(env, plan[0]).Some? then t + [plan[0]]
    else TraceFrom(t + [plan[0]], plan[1..], env)
  }

  /** What one call does to the handles: the handle it starts is set before the call, the metrics provider only once its boot returns. */
  function Mark(h: Handles, op: Op, completed: bool, params: ContainerParams): Handles {
    match op
    case BootMetrics => if completed then h.(metrics := true) else h
    case StartAdmin => h.(admin := true)
    case Configure(l) => if l == Plain then h.(plain := true) else h.(secure := true)
    // The plan only ever starts the container manager with `params`, the
    // settings read from the properties; the test keeps Mark in step with
    // HandlesOf, which looks for exactly that call.
    case StartContainers(p) => if p == params then h.(containers := true) else h
    case _ => h
  }

  /** The handles after attempting `plan` from handles `h`. */
  function HandlesFrom(h: Handles, plan: seq<Op>, env: Env, params: ContainerParams): Handles
    decreases |plan|
  {
    if plan == [] then h
    else if Escaping(env, plan[0]).Some? then Mark(h, plan[0], false, params)
    else HandlesFrom(Mark(h, plan[0], true, params), plan[1..], env, params)
  }

  /** The record after a plan is the earlier record followed by the calls of its run. */
  lemma {:induction false} TraceFromCalls(t: seq<Op>, plan: seq<Op>, env: Env)
    ensures TraceFrom(t, plan, env) == t + Calls(Attempt(plan, env))
    decreases |plan|
  {
    if plan != [] && Escaping(env, plan[0]).None? {
      var r := Attempt(plan[1..], env);
      TraceFromCalls(t + [plan[0]], plan[1..], env);
      var x := if r.failure.Some? then [r.failure.value.op] else [];
      assert Calls(Attempt(plan, env)) == [plan[0]] + (r.done + x);
      assert (t + [plan[0]]) + (r.done + x) == t + ([plan[0]] + (r.done + x));
    }
  }

  /** The handles after a plan are those its run leaves. */
  lemma {:induction false} HandlesFromRun(h: Handles, plan: seq<Op>, env: Env, params: ContainerParams)
    ensures var r := Attempt(plan, env); HandlesFrom(h, plan, env, params) == HandlesOf(h, r.done, Calls(r), params)
    decreases |plan|
  {
    if plan != [] {
      if Escaping(env, plan[0]).None? {
        var r := Attempt(plan[1..], env);
        HandlesFromRun(Mark(h, plan[0], true, params), plan[1..], env, params);
        AttemptCons(plan[0], plan[1..], env);
        assert [plan[0]] + plan[1..] == plan;
        var x := if r.failure.Some? then [r.failure.value.op] else [];
        assert Calls(Attempt(plan, env)) == [plan[0]] + (r.done + x);
        MarkFirst(h, plan[0], r.done, Calls(r), params);
      } else {
        MarkFailing(h, plan[0], params);
      }
    }
  }

  /** A completed first call marks its handle before the rest of the run. */
  lemma MarkFirst(h: Handles, op: Op, done: seq<Op>, calls: seq<Op>, params: ContainerParams)
    ensures HandlesOf(h, [op] + done, [op] + calls, params) == HandlesOf(Mark(h, op, true, params), done, calls, params)
  {
    var ds, cs := [op] + done, [op] + calls;
    assert (BootMetrics in ds) == (op == BootMetrics || BootMetrics in done);
    assert (StartAdmin in cs) == (op == StartAdmin || StartAdmin in calls);
    assert (Configure(Plain) in cs) == (op == Configure(Plain) || Configure(Plain) in calls);
    assert (Configure(Secure) in cs) == (op == Configure(Secure) || Configure(Secure) in calls);
    assert (StartContainers(params) in cs) == (op == StartContainers(params) || StartContainers(params) in calls);
  }

  /** A first call that throws marks only the handles assigned before it. */
  lemma MarkFailing(h: Handles, op: Op, params: ContainerParams)
    ensures HandlesOf(h, [], [op], params) == Mark(h, op, false, params)
  {
  }

  /**
   * Running a plan `p + q` is running `p` and, if it completes, `q`: the
   * failure, the record and the handles follow from those of the two parts.
   */
  lemma {:induction false} Then(p: seq<Op>, q: seq<Op>, env: Env, t: seq<Op>, h: Handles, params: ContainerParams)
    ensures Attempt(p, env).failure.Some? ==>
      && Attempt(p + q, env) == Attempt(p, env)
      && TraceFrom(t, p + q, env) == TraceFrom(t, p, env)
      && HandlesFrom(h, p + q, env, params) == HandlesFrom(h, p, env, params)
    ensures Attempt(p, env).failure.None? ==>
      && Attempt(p + q, env).failure == Attempt(q, env).failure
      && TraceFrom(t, p + q, env) == TraceFrom(TraceFrom(t, p, env), q, env)
      && HandlesFrom(h, p + q, env, params) == HandlesFrom(HandlesFrom(h, p, env, params), q, env, params)
    decreases |p|
  {
    AttemptAppend(p, q, env);
    if p == [] {
      assert p + q == q;
    } else {
      assert (p + q)[0] == p[0];
      assert (p + q)[1..] == p[1..] + q;
      if Escaping(env, p[0]).None? {
        Then(p[1..], q, env, t + [p[0]], Mark(h, p[0], true, params), params);
      }
    }
  }

  /** The failure a single call ends with, if it throws out of its call site. */
  function StepFailure(env: Env, op: Op): Option<Failure> {
    match Escaping(env, op)
    case None => None
    case Some(e) => Some(Failure(op, e))
  }

  /** Running a plan that begins with `op`: one step of `TraceFrom`, `HandlesFrom` and `Attempt`. */
  lemma Unfold(t: seq<Op>, h: Handles, op: Op, rest: seq<Op>, env: Env, params: ContainerParams)
    ensures var plan := [op] + rest;
      && TraceFrom(t, plan, env) == (if StepFailure(env, op).Some? then t + [op] else TraceFrom(t + [op], rest, env))
      && HandlesFrom(h, plan, env, params)
         == (if StepFailure(env, op).Some? then Mark(h, op, false, params) else HandlesFrom(Mark(h, op, true, params), rest, env, params))
      && Attempt(plan, env).failure == (if StepFailure(env, op).Some? then StepFailure(env, op) else Attempt(rest, env).failure)
      && Attempt(plan, env).done == (if StepFailure(env, op).Some? then [] else [op] + Attempt(rest, env).done)
  {
    AttemptCons(op, rest, env);
    assert ([op] + rest)[0] == op && ([op] + rest)[1..] == rest;
  }

  /** Running a plan that begins with a call made only when its condition holds. */
  lemma OptionalUnfold(t: seq<Op>, present: bool, op: Op, rest: seq<Op>, env: Env)
    ensures var plan, failed := Optional(present, op) + rest, present && StepFailure(env, op).Some?;
      && TraceFrom(t, plan, env) == (if failed then t + [op] else TraceFrom(t + Optional(present, op), rest, env))
      && Attempt(plan, env).failure == (if failed then StepFailure(env, op) else Attempt(rest, env).failure)
  {
    if present {
      Unfold(t, NoHandles, op, rest, env, ContainerSettings(env.props));
    } else {
      assert Optional(present, op) + rest == rest;
      assert t + Optional(present, op) == t;
    }
  }

  /**
   * The four opening calls, call by call: the first that throws ends them;
   * the metrics handle is set once its boot returns, the admin server's once
   * it is reached, and the log is open once its call returns.
   */
  lemma CoreRun(t0: seq<Op>, h0: Handles, env: Env, params: ContainerParams)
    ensures var f1, f2, f3, f4 := StepFailure(env, BootMetrics), StepFailure(env, OpenTxnLog),
                                  StepFailure(env, CreateServer), StepFailure(env, StartAdmin);
      && TraceFrom(t0, CoreOps, env)
         == (if f1.Some? then t0 + [BootMetrics]
             else if f2.Some? then t0 + [BootMetrics] + [OpenTxnLog]
             else if f3.Some? then t0 + [BootMetrics] + [OpenTxnLog] + [CreateServer]
             else t0 + [BootMetrics] + [OpenTxnLog] + [CreateServer] + [StartAdmin])
      && Attempt(CoreOps, env).failure == (if f1.Some? then f1 else if f2.Some? then f2 else if f3.Some? then f3 else f4)
      && HandlesFrom(h0, CoreOps, env, params)
         == (if f1.Some? then h0 else if f2.Some? || f3.Some? then h0.(metrics := true) else h0.(metrics := true, admin := true))
      && (OpenTxnLog in Attempt(CoreOps, env).done <==> f1.None? && f2.None?)
  {
    var r1 := [OpenTxnLog, CreateServer, StartAdmin];
    var r2 := [CreateServer, StartAdmin];
    var r3 := [StartAdmin];
    assert CoreOps == [BootMetrics] + r1 && r1 == [OpenTxnLog] + r2 && r2 == [CreateServer] + r3 && r3 == [StartAdmin] + [];
    var h1 := h0.(metrics := true);
    Unfold(t0, h0, BootMetrics, r1, env, params);
    Unfold(t0 + [BootMetrics], h1, OpenTxnLog, r2, env, params);
    Unfold(t0 + [BootMetrics] + [OpenTxnLog], h1, CreateServer, r3, env, params);
    Unfold(t0 + [BootMetrics] + [OpenTxnLog] + [CreateServer], h1, StartAdmin, [], env, params);
    if StepFailure(env, BootMetrics).None? && StepFailure(env, OpenTxnLog).None? {
      assert Attempt(CoreOps, env).done[1] == OpenTxnLog;
    }
  }

  /** A block of two calls: the second is made once the first returns. */
  lemma PairRun(t0: seq<Op>, h0: Handles, a: Op, b: Op, env: Env, params: ContainerParams)
    ensures var fa, fb := StepFailure(env, a), StepFailure(env, b);
      && TraceFrom(t0, [a, b], env) == (if fa.Some? then t0 + [a] else t0 + [a] + [b])
      && Attempt([a, b], env).failure == (if fa.Some? then fa else fb)
      && HandlesFrom(h0, [a, b], env, params)
         == (if fa.Some? then Mark(h0, a, false, params) else Mark(Mark(h0, a, true, params), b, fb.None?, params))
  {
    assert [a, b] == [a] + [b] && [b] == [b] + [];
    Unfold(t0, h0, a, [b], env, params);
    Unfold(t0 + [a], Mark(h0, a, true, params), b, [], env, params);
  }

  /** The joins after `shutdown()`: the first join that throws ends them. */
  lemma JoinRun(t0: seq<Op>, h: Handles, canShutdown: bool, env: Env)
    ensures var j1, j2, j3 := Optional(h.plain, Join(Plain)), Optional(h.secure, Join(Secure)), Optional(canShutdown, ShutdownServer);
      var g1, g2 := h.plain && StepFailure(env, Join(Plain)).Some?, h.secure && StepFailure(env, Join(Secure)).Some?;
      && TraceFrom(t0, JoinPlan(h, canShutdown), env)
         == (if g1 then t0 + [Join(Plain)] else if g2 then t0 + j1 + [Join(Secure)] else t0 + j1 + j2 + j3)
      && Attempt(JoinPlan(h, canShutdown), env).failure
         == (if g1 then StepFailure(env, Join(Plain)) else if g2 then StepFailure(env, Join(Secure))
             else if canShutdown then StepFailure(env, ShutdownServer) else None)
  {
    var j1, j2, j3 := Optional(h.plain, Join(Plain)), Optional(h.secure, Join(Secure)), Optional(canShutdown, ShutdownServer);
    Assoc(j1, j2, j3);
    assert j3 + [] == j3;
    OptionalUnfold(t0, h.plain, Join(Plain), j2 + j3, env);
    OptionalUnfold(t0 + j1, h.secure, Join(Secure), j3, env);
    OptionalUnfold(t0 + j1 + j2, canShutdown, ShutdownServer, [], env);
  }

  /** The completed calls of `p + q` when `p` completes. */
  lemma ThenDone(p: seq<Op>, q: seq<Op>, env: Env)
    ensures Attempt(p, env).failure.None? ==> Attempt(p + q, env).done == p + Attempt(q, env).done
  {
    AttemptAppend(p, q, env);
    AttemptSpec(p, env);
  }

  /** HandlesKept in the accumulating form: attempting a part ranked past the container manager leaves `h` as it is. */
  lemma HandlesFromKept(h: Handles, seg: seq<Op>, lo: nat, hi: nat, env: Env, params: ContainerParams)
    requires Within(seg, lo, hi) && 9 <= lo && hi <= 18
    ensures HandlesFrom(h, seg, env, params) == h
  {
    HandlesFromRun(h, seg, env, params);
    HandlesKept(h, seg, lo, hi, env, params);
  }

  /** ServingHandles in the accumulating form: a serving run without failure leaves the Started handles. */
  lemma ServingHandlesFrom(h0: Handles, cfg: Config, env: Env)
    ensures var s := ServingPlan(cfg, env.props);
      Attempt(s, env).failure.None? ==> HandlesFrom(h0, s, env, ContainerSettings(env.props)) == Started(h0, cfg)
  {
    var s := ServingPlan(cfg, env.props);
    HandlesFromRun(h0, s, env, ContainerSettings(env.props));
    AttemptSpec(s, env);
    ServingHandles(h0, cfg, env.props);
  }

  /** What `shutdown()` lets escape: only a failure of the admin server's stop other than an AdminServerException. */
  function AdminStopFailure(present: bool, env: Env): Option<Failure> {
    if present && Escaping(env, StopAdmin).Some? then Some(Failure(StopAdmin, Escaping(env, StopAdmin).value)) else None
  }

  /** `shutdown()` makes every stop of its plan; only the last one, the admin server's, can throw. */
  lemma ShutdownRun(t: seq<Op>, h: Handles, env: Env)
    ensures TraceFrom(t, ShutdownPlan(h), env) == t + StopsBeforeAdmin(h) + Optional(h.admin, StopAdmin)
    ensures Attempt(ShutdownPlan(h), env).failure == AdminStopFailure(h.admin, env)
  {
    ShutdownRunTrace(t, h, env);
    ShutdownRunFailure(h, env);
  }

  lemma ShutdownRunTrace(t: seq<Op>, h: Handles, env: Env)
    ensures TraceFrom(t, ShutdownPlan(h), env) == t + StopsBeforeAdmin(h) + Optional(h.admin, StopAdmin)
  {
    var pre, last := StopsBeforeAdmin(h), Optional(h.admin, StopAdmin);
    StopsBeforeAdminQuiet(h, env);
    Then(pre, last, env, t, h, ContainerSettings(env.props));
    TraceFromCalls(t, pre, env);
    TraceFromCalls(t + pre, last, env);
    OptionalRun(h.admin, StopAdmin, env);
  }

  lemma ShutdownRunFailure(h: Handles, env: Env)
    ensures Attempt(ShutdownPlan(h), env).failure == AdminStopFailure(h.admin, env)
  {
    var pre, last := StopsBeforeAdmin(h), Optional(h.admin, StopAdmin);
    StopsBeforeAdminQuiet(h, env);
    Then(pre, last, env, [], h, ContainerSettings(env.props));
    OptionalRun(h.admin, StopAdmin, env);
    Single(StopAdmin, env);
  }


  /**
   * The `try` block is the serving calls followed by the teardown: a failure
   * among the serving calls ends it there; otherwise the teardown runs on
   * the started handles, changes none of them, and the log has been opened.
   */
  lemma BodySplit(t0: seq<Op>, h0: Handles, cfg: Config, env: Env)
    ensures var plan, s := BodyPlan(h0, cfg, env), ServingPlan(cfg, env.props);
      var params, rest := ContainerSettings(env.props), TeardownPlan(Started(h0, cfg), env.canShutdown);
      && (Attempt(s, env).failure.Some? ==>
            && TraceFrom(t0, plan, env) == TraceFrom(t0, s, env)
            && Attempt(plan, env).failure == Attempt(s, env).failure
            && HandlesFrom(h0, plan, env, params) == HandlesFrom(h0, s, env, params)
            && Attempt(plan, env).done == Attempt(s, env).done)
      && (Attempt(s, env).failure.None? ==>
            && TraceFrom(t0, plan, env) == TraceFrom(TraceFrom(t0, s, env), rest, env)
            && Attempt(plan, env).failure == Attempt(rest, env).failure
            && HandlesFrom(h0, s, env, params) == Started(h0, cfg)
            && HandlesFrom(h0, plan, env, params) == Started(h0, cfg)
            && OpenTxnLog in Attempt(plan, env).done)
  {
    var s, params := ServingPlan(cfg, env.props), ContainerSettings(env.props);
    var rest := TeardownPlan(Started(h0, cfg), env.canShutdown);
    BodyPlanSplit(h0, cfg, env);
    Then(s, rest, env, t0, h0, params);
    if Attempt(s, env).failure.Some? {
      AttemptAppend(s, rest, env);
    } else {
      ThenDone(s, rest, env);
      ServingHandlesFrom(h0, cfg, env);
      CoreOpsServed(cfg, env.props);
      TeardownKeepsHandles(Started(h0, cfg), env.canShutdown, env, params);
    }
  }

  lemma BodyPlanSplit(h0: Handles, cfg: Config, env: Env)
    ensures BodyPlan(h0, cfg, env) == ServingPlan(cfg, env.props) + TeardownPlan(Started(h0, cfg), env.canShutdown)
  {
    var s, h := ServingPlan(cfg, env.props), Started(h0, cfg);
    Assoc(s, [AwaitShutdown], ShutdownPlan(h));
    Assoc(s, [AwaitShutdown] + ShutdownPlan(h), JoinPlan(h, env.canShutdown));
  }

  /** The teardown sets no handle. */
  lemma TeardownKeepsHandles(h: Handles, canShutdown: bool, env: Env, params: ContainerParams)
    ensures HandlesFrom(h, TeardownPlan(h, canShutdown), env, params) == h
  {
    var sd, jp := ShutdownPlan(h), JoinPlan(h, canShutdown);
    Assoc([AwaitShutdown], sd, jp);
    Then([AwaitShutdown], sd + jp, env, [], h, params);
    Then(sd, jp, env, [], h, params);
    assert Within([AwaitShutdown], 10, 11);
    HandlesFromKept(h, [AwaitShutdown], 10, 11, env, params);
    ShutdownPlanRanked(h);
    HandlesFromKept(h, sd, 11, 15, env, params);
    JoinPlanRanked(h, canShutdown);
    HandlesFromKept(h, jp, 15, 18, env, params);
  }


  /** A single call: it completes, or it is the failing call. */
  lemma Single(op: Op, env: Env)
    ensures Calls(Attempt([op], env)) == [op]
    ensures Attempt([op], env).failure.Some? <==> Escaping(env, op).Some?
    ensures Escaping(env, op).Some? ==> Attempt([op], env) == Run([], Some(Failure(op, Escaping(env, op).value)))
    ensures Escaping(env, op).None? ==> Attempt([op], env) == Run([op], None)
  {
    AttemptCons(op, [], env);
    assert [op] + [] == [op];
  }

  /** A call made only when its condition holds. */
  lemma OptionalRun(present: bool, op: Op, env: Env)
    ensures Calls(Attempt(Optional(present, op), env)) == Optional(present, op)
    ensures !present ==> Attempt(Optional(present, op), env) == Run([], None)
    ensures present ==> Attempt(Optional(present, op), env) == Attempt([op], env)
  {
    if present {
      Single(op, env);
    }
  }

  /** Judged by membership: no call ranked past the container manager assigns a handle field, whether it completes or fails. */
  lemma HandlesKept(h: Handles, seg: seq<Op>, lo: nat, hi: nat, env: Env, params: ContainerParams)
    requires Within(seg, lo, hi) && 9 <= lo && hi <= 18
    ensures HandlesOf(h, Attempt(seg, env).done, Calls(Attempt(seg, env)), params) == h
  {
    var s := Attempt(seg, env);
    CallsArePrefix(seg, env);
    AttemptSpec(seg, env);
    var calls := Calls(s);
    assert Within(calls, 9, 18) by {
      forall i | 0 <= i < |calls| ensures 9 <= Rank(calls[i]) < 18 {
        assert calls[i] == seg[i];
      }
    }
    assert forall op :: op in s.done ==> op in calls;
    NotWithin(calls, 9, 18, BootMetrics);
    NotWithin(calls, 9, 18, StartAdmin);
    NotWithin(calls, 9, 18, Configure(Plain));
    NotWithin(calls, 9, 18, Configure(Secure));
    NotWithin(calls, 9, 18, StartContainers(params));
  }

  /** Judged by membership: once every serving call is made, each handle is set, or set before, or configured away. */
  lemma ServingHandles(h0: Handles, cfg: Config, props: SystemProperties)
    ensures var s := ServingPlan(cfg, props); HandlesOf(h0, s, s, ContainerSettings(props)) == Started(h0, cfg)
  {
    var s := ServingPlan(cfg, props);
    StartupPlanConfigures(cfg, props);
    assert StartupPlan(cfg, props) == s + [AwaitShutdown];
    assert s[0] == BootMetrics && s[3] == StartAdmin;
    assert s[|s| - 2] == StartContainers(ContainerSettings(props));
  }

  /** The serving calls open the transaction log. */
  lemma CoreOpsServed(cfg: Config, props: SystemProperties)
    ensures OpenTxnLog in ServingPlan(cfg, props)
  {
    assert ServingPlan(cfg, props)[1] == OpenTxnLog;
  }

  lemma Assoc(a: seq<Op>, b: seq<Op>, c: seq<Op>)
    ensures (a + b) + c == a + (b + c)
  {
  }

  // ---------------------------------------------------------------------------
  // Failure scenarios

  /** A run ends at the first call of its plan that throws out of its call site. */
  lemma AttemptFailsAt(plan: seq<Op>, k: nat, env: Env)
    requires k < |plan| && Escaping(env, plan[k]).Some?
    requires forall i :: 0 <= i < k ==> Escaping(env, plan[i]).None?
    ensures Attempt(plan, env) == Run(plan[..k], Some(Failure(plan[k], Escaping(env, plan[k]).value)))
  {
    AttemptSpec(plan, env);
  }

  /** The `try` block always begins with the four fixed startup calls. */
  lemma BodyPlanStarts(h0: Handles, cfg: Config, env: Env)
    ensures var plan := BodyPlan(h0, cfg, env);
      |plan| > 4 && plan[0] == BootMetrics && plan[1] == OpenTxnLog && plan[2] == CreateServer && plan[3] == StartAdmin
  {
    var core := [BootMetrics, OpenTxnLog, CreateServer, StartAdmin];
    var serving := ServingPlan(cfg, env.props);
    assert serving[..4] == core;
    var h := Started(h0, cfg);
    assert BodyPlan(h0, cfg, env) == serving + ([AwaitShutdown] + ShutdownPlan(h) + JoinPlan(h, env.canShutdown));
  }

  /** A metrics boot failure is rethrown as an IOException and nothing else starts; only a stale metrics handle is stopped. */
  lemma MetricsBootFailureRun(h0: Handles, cfg: Config, env: Env)
    requires env.bootMetrics == Throws(MetricsProviderLifeCycleException)
    ensures RunTrace(h0, cfg, env) == [BootMetrics] + (if h0.metrics then [StopMetrics] else [])
    ensures RunCompletion(h0, cfg, env) == Threw(IOException)
  {
    var r := Run([], Some(Failure(BootMetrics, IOException)));
    MetricsBootFailureBody(h0, cfg, env);
    RunParts(h0, cfg, env, r);
    MetricsBootFailureCleanup(h0, r, env);
  }

  lemma MetricsBootFailureBody(h0: Handles, cfg: Config, env: Env)
    requires env.bootMetrics == Throws(MetricsProviderLifeCycleException)
    ensures BodyRun(h0, cfg, env) == Run([], Some(Failure(BootMetrics, IOException)))
  {
    var plan := BodyPlan(h0, cfg, env);
    BodyPlanStarts(h0, cfg, env);
    AttemptFailsAt(plan, 0, env);
  }

  lemma MetricsBootFailureCleanup(h0: Handles, r: Run, env: Env)
    requires r == Run([], Some(Failure(BootMetrics, IOException)))
    ensures var fin := Cleanup(OpenTxnLog in r.done, h0.metrics || BootMetrics in r.done, env, Caught(r));
      Calls(r) + fin.calls == [BootMetrics] + (if h0.metrics then [StopMetrics] else []) && fin.completion == Threw(IOException)
  {
    assert OpenTxnLog !in r.done && BootMetrics !in r.done;
    assert !InstanceOf(IOException, InterruptedException);
  }

  /** ... and `main` then reports UNEXPECTED_ERROR. */
  lemma MetricsBootFailureScenario(h0: Handles, cfg: Config, env: Env)
    requires env.bootMetrics == Throws(MetricsProviderLifeCycleException)
    ensures Code(MainOutcome(RunCompletion(h0, cfg, env))) == Some(UnexpectedError)
  {
    MetricsBootFailureRun(h0, cfg, env);
    IOExceptionIsUnexpected(RunCompletion(h0, cfg, env));
  }

  lemma IOExceptionIsUnexpected(c: Completion)
    requires c == Threw(IOException)
    ensures Code(MainOutcome(c)) == Some(UnexpectedError)
  {
    assert FirstMatch(MainClauses, IOException) == Some(4);
  }

  /**
   * The data directory cannot be opened: the admin server, the listeners and
   * the container manager never start, and the metrics provider is still
   * stopped.
   */
  lemma DatadirFailureRun(h0: Handles, cfg: Config, env: Env)
    requires env.bootMetrics == Returns && env.openTxnLog == Throws(DatadirException)
    ensures RunTrace(h0, cfg, env) == [BootMetrics, OpenTxnLog, StopMetrics]
    ensures RunCompletion(h0, cfg, env) == Threw(DatadirException)
  {
    var r := Run([BootMetrics], Some(Failure(OpenTxnLog, DatadirException)));
    DatadirFailureBody(h0, cfg, env);
    RunParts(h0, cfg, env, r);
    DatadirFailureCleanup(h0, r, env);
  }

  lemma DatadirFailureBody(h0: Handles, cfg: Config, env: Env)
    requires env.bootMetrics == Returns && env.openTxnLog == Throws(DatadirException)
    ensures BodyRun(h0, cfg, env) == Run([BootMetrics], Some(Failure(OpenTxnLog, DatadirException)))
  {
    var plan := BodyPlan(h0, cfg, env);
    BodyPlanStarts(h0, cfg, env);
    AttemptFailsAt(plan, 1, env);
    assert plan[..1] == [BootMetrics];
  }

  lemma DatadirFailureCleanup(h0: Handles, r: Run, env: Env)
    requires r == Run([BootMetrics], Some(Failure(OpenTxnLog, DatadirException)))
    ensures var fin := Cleanup(OpenTxnLog in r.done, h0.metrics || BootMetrics in r.done, env, Caught(r));
      Calls(r) + fin.calls == [BootMetrics, OpenTxnLog, StopMetrics] && fin.completion == Threw(DatadirException)
  {
    assert OpenTxnLog !in r.done && BootMetrics in r.done;
    assert !InstanceOf(DatadirException, InterruptedException);
  }

  /** ... and `main` then reports UNABLE_TO_ACCESS_DATADIR. */
  lemma DatadirFailureScenario(h0: Handles, cfg: Config, env: Env)
    requires env.bootMetrics == Returns && env.openTxnLog == Throws(DatadirException)
    ensures Code(MainOutcome(RunCompletion(h0, cfg, env))) == Some(UnableToAccessDatadir)
  {
    DatadirFailureRun(h0, cfg, env);
    DatadirCategory(DatadirException);
  }


  /**
   * The admin server fails to start after the log and the engine were
   * created: no listener is configured or started, and the log is still
   * closed; an exception from closing it replaces the admin failure.
   */
  lemma AdminFailureRun(h0: Handles, cfg: Config, env: Env)
    requires env.bootMetrics == Returns && env.openTxnLog == Returns && env.createServer == Returns
    requires env.startAdmin == Throws(AdminServerException)
    ensures RunTrace(h0, cfg, env) == [BootMetrics, OpenTxnLog, CreateServer, StartAdmin, CloseTxnLog]
                                      + (if env.closeTxnLog.Returns? then [StopMetrics] else [])
    ensures RunCompletion(h0, cfg, env)
         == if env.closeTxnLog.Returns? then Threw(AdminServerException) else Threw(env.closeTxnLog.exn)
  {
    var r := Run([BootMetrics, OpenTxnLog, CreateServer], Some(Failure(StartAdmin, AdminServerException)));
    AdminFailureBody(h0, cfg, env);
    RunParts(h0, cfg, env, r);
    AdminFailureCleanup(r, env);
  }

  lemma AdminFailureBody(h0: Handles, cfg: Config, env: Env)
    requires env.bootMetrics == Returns && env.openTxnLog == Returns && env.createServer == Returns
    requires env.startAdmin == Throws(AdminServerException)
    ensures BodyRun(h0, cfg, env) == Run([BootMetrics, OpenTxnLog, CreateServer], Some(Failure(StartAdmin, AdminServerException)))
  {
    var plan := BodyPlan(h0, cfg, env);
    BodyPlanStarts(h0, cfg, env);
    AttemptFailsAt(plan, 3, env);
    assert plan[..3] == [BootMetrics, OpenTxnLog, CreateServer];
  }

  lemma AdminFailureCleanup(r: Run, env: Env)
    requires r == Run([BootMetrics, OpenTxnLog, CreateServer], Some(Failure(StartAdmin, AdminServerException)))
    ensures var fin := Cleanup(OpenTxnLog in r.done, BootMetrics in r.done, env, Caught(r));
      Calls(r) + fin.calls == [BootMetrics, OpenTxnLog, CreateServer, StartAdmin, CloseTxnLog]
                              + (if env.closeTxnLog.Returns? then [StopMetrics] else [])
      && fin.completion == if env.closeTxnLog.Returns? then Threw(AdminServerException) else Threw(env.closeTxnLog.exn)
  {
    assert OpenTxnLog in r.done && BootMetrics in r.done by {
      assert r.done[1] == OpenTxnLog && r.done[0] == BootMetrics;
    }
    assert !InstanceOf(AdminServerException, InterruptedException);
  }

  /** A run's trace and completion, given its `try` block's run. */
  lemma RunParts(h0: Handles, cfg: Config, env: Env, r: Run)
    requires BodyRun(h0, cfg, env) == r
    ensures var fin := Cleanup(OpenTxnLog in r.done, h0.metrics || BootMetrics in r.done, env, Caught(r));
      RunTrace(h0, cfg, env) == Calls(r) + fin.calls && RunCompletion(h0, cfg, env) == fin.completion
  {
  }

  /** ... and, unless closing the log throws, `main` then reports ERROR_STARTING_ADMIN_SERVER. */
  lemma AdminFailureScenario(h0: Handles, cfg: Config, env: Env)
    requires env.bootMetrics == Returns && env.openTxnLog == Returns && env.createServer == Returns
    requires env.startAdmin == Throws(AdminServerException) && env.closeTxnLog.Returns?
    ensures Code(MainOutcome(RunCompletion(h0, cfg, env))) == Some(ErrorStartingAdminServer)
  {
    AdminFailureRun(h0, cfg, env);
    AdminServerCategory(AdminServerException);
  }

  // ---------------------------------------------------------------------------
  // Engine activation

  /** The number of listener startups that also start the engine. */
  function Activations(s: seq<Op>): nat {
    if s == [] then 0
    else (if s[0].Startup? && s[0].activate then 1 else 0) + Activations(s[1..])
  }

  lemma {:induction false} ActivationsAppend(a: seq<Op>, b: seq<Op>)
    ensures Activations(a + b) == Activations(a) + Activations(b)
  {
    if a == [] {
      assert a + b == b;
    } else {
      assert (a + b)[1..] == a[1..] + b;
      ActivationsAppend(a[1..], b);
    }
  }

  /** Calls ranked above both listener startups include no activation. */
  lemma {:induction false} NoActivationAbove(s: seq<Op>, lo: nat, hi: nat)
    requires Within(s, lo, hi) && lo > 7
    ensures Activations(s) == 0
  {
    if s != [] {
      assert Within(s[1..], lo, hi) by { assert forall i :: 0 <= i < |s| - 1 ==> s[1..][i] == s[i + 1]; }
      NoActivationAbove(s[1..], lo, hi);
    }
  }

  lemma ListenerActivations(l: Listener, address: Option<string>, activate: bool)
    ensures Activations(ListenerOps(l, address, activate)) == if address.Some? && activate then 1 else 0
  {
    var ops := ListenerOps(l, address, activate);
    if address.Some? {
      assert ops[1..][1..] == [];
      assert Activations(ops[1..]) == (if activate then 1 else 0) + Activations(ops[1..][1..]);
    }
  }

  /** The plan requests engine activation exactly once when a client address is configured, and never otherwise. */
  lemma ActivationPlanned(cfg: Config, props: SystemProperties)
    ensures Activations(StartupPlan(cfg, props)) == if Configured(cfg) then 1 else 0
  {
    var core := [BootMetrics, OpenTxnLog, CreateServer, StartAdmin];
    var lp := ListenerOps(Plain, cfg.clientPortAddress, true);
    var ls := ListenerOps(Secure, cfg.secureClientPortAddress, cfg.clientPortAddress.None?);
    var tail := [StartContainers(ContainerSettings(props)), AuditStart, AwaitShutdown];
    assert StartupPlan(cfg, props) == core + lp + ls + tail;
    ActivationsAppend(core + lp + ls, tail);
    ActivationsAppend(core + lp, ls);
    ActivationsAppend(core, lp);
    ListenerActivations(Plain, cfg.clientPortAddress, true);
    ListenerActivations(Secure, cfg.secureClientPortAddress, cfg.clientPortAddress.None?);
    assert Within(core, 0, 4);
    assert Activations(core) == 0 by {
      assert core[1..][1..][1..][1..] == [];
    }
    assert Within(tail, 8, 11);
    NoActivationAbove(tail, 8, 11);
  }

  /** The whole `try` block requests activation as often as its startup part. */
  lemma BodyActivations(h0: Handles, cfg: Config, env: Env)
    ensures Activations(BodyPlan(h0, cfg, env)) == if Configured(cfg) then 1 else 0
  {
    var h := Started(h0, cfg);
    ActivationPlanned(cfg, env.props);
    ShutdownPlanRanked(h);
    JoinPlanRanked(h, env.canShutdown);
    NoActivationAbove(ShutdownPlan(h), 11, 15);
    NoActivationAbove(JoinPlan(h, env.canShutdown), 15, 18);
    ActivationsAppend(StartupPlan(cfg, env.props), ShutdownPlan(h));
    ActivationsAppend(StartupPlan(cfg, env.props) + ShutdownPlan(h), JoinPlan(h, env.canShutdown));
  }

  /** The calls of a run are calls of its plan, or cleanup. */
  lemma TraceFromPlan(h0: Handles, cfg: Config, env: Env)
    ensures forall op :: op in RunTrace(h0, cfg, env) ==>
      op in BodyPlan(h0, cfg, env) || op == CloseTxnLog || op == StopMetrics
  {
    var plan := BodyPlan(h0, cfg, env);
    var calls := Calls(BodyRun(h0, cfg, env));
    CallsArePrefix(plan, env);
    assert forall i :: 0 <= i < |calls| ==> calls[i] == plan[i];
    CleanupRanked(OpenTxnLog in BodyRun(h0, cfg, env).done, HandlesAfter(h0, cfg, env).metrics, env, Caught(BodyRun(h0, cfg, env)));
  }

  /** A call ranked outside a sequence's bounds does not occur in it. */
  lemma NotWithin(s: seq<Op>, lo: nat, hi: nat, op: Op)
    requires Within(s, lo, hi) && !(lo <= Rank(op) < hi)
    ensures op !in s
  {
  }

  /** The startup calls: the plain listener always activates, the secure one only without a plain address. */
  lemma StartupPlanStartups(cfg: Config, props: SystemProperties)
    ensures Startup(Plain, false) !in StartupPlan(cfg, props)
    ensures Startup(Secure, true) in StartupPlan(cfg, props) ==> cfg.clientPortAddress.None?
  {
    var core := [BootMetrics, OpenTxnLog, CreateServer, StartAdmin];
    var lp := ListenerOps(Plain, cfg.clientPortAddress, true);
    var ls := ListenerOps(Secure, cfg.secureClientPortAddress, cfg.clientPortAddress.None?);
    var tail := [StartContainers(ContainerSettings(props)), AuditStart, AwaitShutdown];
    assert StartupPlan(cfg, props) == core + lp + ls + tail;
  }

  lemma PlannedStartups(h0: Handles, cfg: Config, env: Env)
    ensures Startup(Plain, false) !in BodyPlan(h0, cfg, env)
    ensures Startup(Secure, true) in BodyPlan(h0, cfg, env) ==> cfg.clientPortAddress.None?
  {
    var h := Started(h0, cfg);
    StartupPlanStartups(cfg, env.props);
    ShutdownPlanRanked(h);
    JoinPlanRanked(h, env.canShutdown);
    NotWithin(ShutdownPlan(h), 11, 15, Startup(Plain, false));
    NotWithin(ShutdownPlan(h), 11, 15, Startup(Secure, true));
    NotWithin(JoinPlan(h, env.canShutdown), 15, 18, Startup(Plain, false));
    NotWithin(JoinPlan(h, env.canShutdown), 15, 18, Startup(Secure, true));
  }

  /** A prefix of a plan followed by cleanup calls activates no more often than the plan, and calls nothing else. */
  lemma PrefixThenCleanup(plan: seq<Op>, calls: seq<Op>, fin: seq<Op>)
    requires |calls| <= |plan| && calls == plan[..|calls|] && Within(fin, 18, 20)
    ensures Activations(calls + fin) <= Activations(plan)
    ensures forall op :: op in calls + fin ==> op in plan || 18 <= Rank(op) < 20
  {
    NoActivationAbove(fin, 18, 20);
    assert plan == calls + plan[|calls|..];
    ActivationsAppend(calls, plan[|calls|..]);
    ActivationsAppend(calls, fin);
  }

  /**
   * Once a ranked plan is run past a call ranked above both startups, the
   * run requests activation exactly as often as the plan.
   */
  lemma PrefixPastStartups(plan: seq<Op>, calls: seq<Op>, fin: seq<Op>, op: Op)
    requires Ranked(plan) && Within(plan, 0, 18)
    requires |calls| <= |plan| && calls == plan[..|calls|] && Within(fin, 18, 20)
    requires op in calls + fin && 7 < Rank(op) < 18
    ensures Activations(calls + fin) == Activations(plan)
  {
    NotWithin(fin, 18, 20, op);
    var k :| 0 <= k < |calls| && calls[k] == op;
    assert plan[k] == op;
    var rest := plan[|calls|..];
    assert Within(rest, Rank(op) + 1, 18) by {
      forall i | 0 <= i < |rest| ensures Rank(op) + 1 <= Rank(rest[i]) < 18 {
        assert rest[i] == plan[|calls| + i];
      }
    }
    NoActivationAbove(rest, Rank(op) + 1, 18);
    NoActivationAbove(fin, 18, 20);
    assert plan == calls + rest;
    ActivationsAppend(calls, rest);
    ActivationsAppend(calls, fin);
  }

  /**
   * Activation is requested at most once in any run; the plain listener
   * always requests it, the secure one only when no plain address is
   * configured.
   */
  lemma ActivationAtMostOnce(h0: Handles, cfg: Config, env: Env)
    ensures Activations(RunTrace(h0, cfg, env)) <= 1
    ensures Startup(Plain, false) !in RunTrace(h0, cfg, env)
    ensures Startup(Secure, true) in RunTrace(h0, cfg, env) ==> cfg.clientPortAddress.None?
  {
    var plan := BodyPlan(h0, cfg, env);
    var calls := Calls(BodyRun(h0, cfg, env));
    var fin := RunFinish(h0, cfg, env).calls;
    CallsArePrefix(plan, env);
    CleanupRanked(OpenTxnLog in BodyRun(h0, cfg, env).done, HandlesAfter(h0, cfg, env).metrics, env, Caught(BodyRun(h0, cfg, env)));
    PrefixThenCleanup(plan, calls, fin);
    PlannedStartups(h0, cfg, env);
    BodyActivations(h0, cfg, env);
    assert RunTrace(h0, cfg, env) == calls + fin;
  }

  /** Once the run reaches the wait, activation has been requested exactly once if a client address is configured, and never otherwise. */
  lemma ActivationOnceWhenServing(h0: Handles, cfg: Config, env: Env)
    requires AwaitShutdown in RunTrace(h0, cfg, env)
    ensures Activations(RunTrace(h0, cfg, env)) == if Configured(cfg) then 1 else 0
  {
    var r := BodyRun(h0, cfg, env);
    var plan := BodyPlan(h0, cfg, env);
    var calls := Calls(r);
    var metrics := h0.metrics || BootMetrics in r.done;
    var fin := Cleanup(OpenTxnLog in r.done, metrics, env, Caught(r)).calls;
    RunParts(h0, cfg, env, r);
    CallsArePrefix(plan, env);
    BodyPlanRanked(h0, cfg, env);
    CleanupRanked(OpenTxnLog in r.done, metrics, env, Caught(r));
    BodyActivations(h0, cfg, env);
    ServedActivations(RunTrace(h0, cfg, env), plan, calls, fin);
  }

  /** A trace made of a ranked plan's prefix past the wait and a cleanup requests activation as often as the plan. */
  lemma ServedActivations(trace: seq<Op>, plan: seq<Op>, calls: seq<Op>, fin: seq<Op>)
    requires trace == calls + fin && AwaitShutdown in trace
    requires Ranked(plan) && Within(plan, 0, 18)
    requires |calls| <= |plan| && calls == plan[..|calls|] && Within(fin, 18, 20)
    ensures Activations(trace) == Activations(plan)
  {
    PrefixPastStartups(plan, calls, fin, AwaitShutdown);
  }

  // ---------------------------------------------------------------------------
  // Cleanup

  /**
   * The `finally` cleanup runs on every path: the log is closed exactly when
   * its construction returned; the metrics provider is stopped exactly when
   * its handle is set, unless closing the log threw; whatever stopping the
   * metrics provider throws is swallowed; and with a clean close the pending
   * completion of the `try` block is the result.
   */
  lemma CleanupAlwaysRuns(h0: Handles, cfg: Config, env: Env, stop: Outcome)
    ensures CloseTxnLog in RunTrace(h0, cfg, env) <==> OpenTxnLog in BodyRun(h0, cfg, env).done
    ensures StopMetrics in RunTrace(h0, cfg, env) <==>
      HandlesAfter(h0, cfg, env).metrics && !(OpenTxnLog in BodyRun(h0, cfg, env).done && env.closeTxnLog.Throws?)
    ensures RunCompletion(h0, cfg, env.(stopMetrics := stop)) == RunCompletion(h0, cfg, env)
    ensures env.closeTxnLog.Returns? ==> RunCompletion(h0, cfg, env) == Caught(BodyRun(h0, cfg, env))
    ensures HandlesAfter(h0, cfg, env).metrics <==> h0.metrics || BootMetrics in BodyRun(h0, cfg, env).done
  {
    var plan := BodyPlan(h0, cfg, env);
    BodyPlanRanked(h0, cfg, env);
    CallsArePrefix(plan, env);
    NoCleanupInPlan(plan, Calls(BodyRun(h0, cfg, env)));
    CleanupIgnoresStopOutcome(h0, cfg, env, stop);
  }

  /** Neither cleanup call is part of the `try` block's plan or of a prefix of it. */
  lemma NoCleanupInPlan(plan: seq<Op>, calls: seq<Op>)
    requires Within(plan, 0, 18) && |calls| <= |plan| && calls == plan[..|calls|]
    ensures CloseTxnLog !in calls && StopMetrics !in calls && StopMetrics !in plan
  {
    NotWithin(plan, 0, 18, StopMetrics);
    NotWithin(plan, 0, 18, CloseTxnLog);
    assert forall i :: 0 <= i < |calls| ==> calls[i] == plan[i];
  }

  lemma CleanupIgnoresStopOutcome(h0: Handles, cfg: Config, env: Env, stop: Outcome)
    ensures RunCompletion(h0, cfg, env.(stopMetrics := stop)) == RunCompletion(h0, cfg, env)
  {
    var plan := BodyPlan(h0, cfg, env);
    BodyPlanRanked(h0, cfg, env);
    NotWithin(plan, 0, 18, StopMetrics);
    assert BodyPlan(h0, cfg, env.(stopMetrics := stop)) == plan;
    AttemptIgnoresCleanupOutcomes(plan, env, stop);
  }

  /** The outcome of stopping the metrics provider plays no part in the `try` block. */
  lemma {:induction false} AttemptIgnoresCleanupOutcomes(plan: seq<Op>, env: Env, stop: Outcome)
    requires StopMetrics !in plan
    ensures Attempt(plan, env.(stopMetrics := stop)) == Attempt(plan, env)
    decreases |plan|
  {
    if plan != [] {
      AttemptIgnoresCleanupOutcomes(plan[1..], env, stop);
    }
  }

  /** No call of the sequence throws out of its call site. */
  ghost predicate Quiet(env: Env, s: seq<Op>) {
    forall i :: 0 <= i < |s| ==> Escaping(env, s[i]).None?
  }

  lemma QuietAppend(env: Env, a: seq<Op>, b: seq<Op>)
    requires Quiet(env, a) && Quiet(env, b)
    ensures Quiet(env, a + b)
  {
    forall i | 0 <= i < |a + b| ensures Escaping(env, (a + b)[i]).None? {
      if i >= |a| { assert (a + b)[i] == b[i - |a|]; }
    }
  }

  lemma InterruptedWaitRun(h0: Handles, cfg: Config, env: Env)
    requires env.bootMetrics == Returns && env.openTxnLog == Returns && env.createServer == Returns
    requires env.startAdmin == Returns && env.configurePlain == Returns && env.startupPlain == Returns
    requires env.configureSecure == Returns && env.startupSecure == Returns && env.startContainers == Returns
    requires env.await == Throws(InterruptedException)
    ensures BodyRun(h0, cfg, env) == Run(ServingPlan(cfg, env.props), Some(Failure(AwaitShutdown, InterruptedException)))
  {
    var serving := ServingPlan(cfg, env.props);
    var h := Started(h0, cfg);
    var rest := ShutdownPlan(h) + JoinPlan(h, env.canShutdown);
    BodyPlanSplit(h0, cfg, env);
    Assoc([AwaitShutdown], ShutdownPlan(h), JoinPlan(h, env.canShutdown));
    ServingCompletes(cfg, env);
    AttemptAppend(serving, [AwaitShutdown] + rest, env);
    AttemptCons(AwaitShutdown, rest, env);
  }
  /** When no startup call throws, every serving call completes. */
  lemma ServingCompletes(cfg: Config, env: Env)
    requires env.bootMetrics == Returns && env.openTxnLog == Returns && env.createServer == Returns
    requires env.startAdmin == Returns && env.configurePlain == Returns && env.startupPlain == Returns
    requires env.configureSecure == Returns && env.startupSecure == Returns && env.startContainers == Returns
    ensures Attempt(ServingPlan(cfg, env.props), env) == Run(ServingPlan(cfg, env.props), None)
  {
    var serving := ServingPlan(cfg, env.props);
    var core := [BootMetrics, OpenTxnLog, CreateServer, StartAdmin];
    var lp := ListenerOps(Plain, cfg.clientPortAddress, true);
    var ls := ListenerOps(Secure, cfg.secureClientPortAddress, cfg.clientPortAddress.None?);
    var tail := [StartContainers(ContainerSettings(env.props)), AuditStart];
    assert serving == core + lp + ls + tail;
    assert Quiet(env, core) && Quiet(env, lp) && Quiet(env, ls) && Quiet(env, tail);
    QuietAppend(env, core, lp);
    QuietAppend(env, core + lp, ls);
    QuietAppend(env, core + lp + ls, tail);
    AttemptCompletes(serving, env);
  }


  /**
   * An interruption while waiting for the shutdown signal ends the run
   * normally once cleanup has run; `shutdown()`, the joins and the engine
   * shutdown are skipped.
   */
  lemma InterruptedWaitEndsNormally(h0: Handles, cfg: Config, env: Env)
    requires env.bootMetrics == Returns && env.openTxnLog == Returns && env.createServer == Returns
    requires env.startAdmin == Returns && env.configurePlain == Returns && env.startupPlain == Returns
    requires env.configureSecure == Returns && env.startupSecure == Returns && env.startContainers == Returns
    requires env.await == Throws(InterruptedException) && env.closeTxnLog == Returns
    ensures RunTrace(h0, cfg, env) == StartupPlan(cfg, env.props) + [CloseTxnLog, StopMetrics]
    ensures RunCompletion(h0, cfg, env) == Normal
  {
    InterruptedWaitRun(h0, cfg, env);
    var serving := ServingPlan(cfg, env.props);
    var r := BodyRun(h0, cfg, env);
    assert Calls(r) == StartupPlan(cfg, env.props);
    assert OpenTxnLog in r.done && BootMetrics in r.done by {
      assert serving[0] == BootMetrics && serving[1] == OpenTxnLog;
    }
    assert Caught(r) == Normal;
  }

  // ---------------------------------------------------------------------------
  // Teardown

  /**
   * `shutdown()` requests the stop of every non-null handle and of no other,
   * in the order container manager, plain listener, secure listener, admin
   * server; only an admin-shutdown failure that is not an
   * AdminServerException leaves it.
   */
  lemma ShutdownStopsStartedHandles(h: Handles, env: Env)
    ensures Calls(Attempt(ShutdownPlan(h), env)) == ShutdownPlan(h)
    ensures Attempt(ShutdownPlan(h), env).failure.Some? <==>
      h.admin && env.stopAdmin.Throws? && !InstanceOf(env.stopAdmin.exn, AdminServerException)
  {
    ShutdownRun([], h, env);
    TraceFromCalls([], ShutdownPlan(h), env);
    assert [] + StopsBeforeAdmin(h) + Optional(h.admin, StopAdmin) == ShutdownPlan(h);
    StopAdminEscapes(env);
  }


  /** The stops outside the `try` block of `shutdown()` never throw. */
  lemma StopsBeforeAdminQuiet(h: Handles, env: Env)
    ensures Attempt(StopsBeforeAdmin(h), env) == Run(StopsBeforeAdmin(h), None)
  {
    var pre := StopsBeforeAdmin(h);
    assert Quiet(env, pre) by {
      forall i | 0 <= i < |pre| ensures Escaping(env, pre[i]).None? {
        assert pre[i].StopContainers? || pre[i].StopListener?;
      }
    }
    AttemptCompletes(pre, env);
  }

  /** The failure that leaves `shutdown()` is the admin server's. */
  lemma ShutdownFailure(h: Handles, env: Env)
    requires Attempt(ShutdownPlan(h), env).failure.Some?
    ensures env.stopAdmin.Throws? && Attempt(ShutdownPlan(h), env).failure.value == Failure(StopAdmin, env.stopAdmin.exn)
  {
    var pre := StopsBeforeAdmin(h);
    var last := Optional(h.admin, StopAdmin);
    StopsBeforeAdminQuiet(h, env);
    AttemptAppend(pre, last, env);
    if h.admin {
      AttemptCons(StopAdmin, [], env);
    }
  }

  /** Only an admin-shutdown failure that is not an AdminServerException leaves its call site. */
  lemma StopAdminEscapes(env: Env)
    ensures Escaping(env, StopAdmin).Some? <==> env.stopAdmin.Throws? && !InstanceOf(env.stopAdmin.exn, AdminServerException)
  {
  }

  /** `shutdown()` stops exactly the non-null handles, each once, in the fixed order. */
  lemma ShutdownPlanContents(h: Handles)
    ensures Ranked(ShutdownPlan(h))
    ensures StopContainers in ShutdownPlan(h) <==> h.containers
    ensures StopListener(Plain) in ShutdownPlan(h) <==> h.plain
    ensures StopListener(Secure) in ShutdownPlan(h) <==> h.secure
    ensures StopAdmin in ShutdownPlan(h) <==> h.admin
  {
    ShutdownPlanRanked(h);
  }

  /** The plan joins each started listener and shuts the engine down only when it allows it. */
  lemma PlannedJoins(h0: Handles, cfg: Config, env: Env)
    ensures ShutdownServer in BodyPlan(h0, cfg, env) <==> env.canShutdown
    ensures Join(Plain) in BodyPlan(h0, cfg, env) <==> Started(h0, cfg).plain
    ensures Join(Secure) in BodyPlan(h0, cfg, env) <==> Started(h0, cfg).secure
  {
    var h := Started(h0, cfg);
    ServingPlanRanked(cfg, env.props);
    ShutdownPlanRanked(h);
    var sp := StartupPlan(cfg, env.props);
    var sd := ShutdownPlan(h);
    assert ShutdownServer !in sp && Join(Plain) !in sp && Join(Secure) !in sp;
    assert ShutdownServer !in sd && Join(Plain) !in sd && Join(Secure) !in sd;
  }

  /**
   * After the signal and a clean `shutdown()`, each started listener is
   * joined and the engine is shut down exactly when it allows it; it is
   * never shut down when it does not allow it.
   */
  lemma JoinsThenConditionalShutdown(h0: Handles, cfg: Config, env: Env)
    ensures ShutdownServer in RunTrace(h0, cfg, env) ==> env.canShutdown
    ensures BodyRun(h0, cfg, env).failure.None? ==>
      && (ShutdownServer in RunTrace(h0, cfg, env) <==> env.canShutdown)
      && (Join(Plain) in RunTrace(h0, cfg, env) <==> Started(h0, cfg).plain)
      && (Join(Secure) in RunTrace(h0, cfg, env) <==> Started(h0, cfg).secure)
  {
    TraceFromPlan(h0, cfg, env);
    PlannedJoins(h0, cfg, env);
    AttemptSpec(BodyPlan(h0, cfg, env), env);
  }

  // ---------------------------------------------------------------------------
  // External close

  /** The listener `close()` acts on: the plain one when its handle is set, else the secure one. */
  function Primary(h: Handles): Option<Listener> {
    if h.plain then Some(Plain) else if h.secure then Some(Secure) else None
  }

  /** What `close()` calls, how it completes, and whether it re-sets the thread's interrupt flag. */
  datatype CloseResult = CloseResult(calls: seq<Op>, completion: Completion, reinterrupt: bool)

  /** `close()`, given whether the chosen listener has an engine attached. */
  function CloseOutcome(h: Handles, attached: bool, env: Env): CloseResult {
    match Primary(h)
    case None => CloseResult([], Normal, false)
    case Some(l) =>
      if !attached then CloseResult([], Normal, false)
      else
        var calls := [RequestShutdown, Join(l)];
        match Raw(env, Join(l))
        case Returns => CloseResult(calls, Normal, false)
        case Throws(e) =>
          if InstanceOf(e, InterruptedException) then CloseResult(calls, Normal, true)
          else CloseResult(calls, Threw(e), false)
  }

  /** Without a listener handle, or with no engine attached to the chosen one, `close()` has no effect. */
  lemma CloseWithoutServerIsNoOp(h: Handles, attached: bool, env: Env)
    requires !(h.plain || h.secure) || !attached
    ensures CloseOutcome(h, attached, env) == CloseResult([], Normal, false)
  {
  }

  /**
   * Otherwise `close()` requests SHUTDOWN and then joins only the chosen
   * listener, the secure one only when there is no plain one; an
   * interruption of the join re-sets the interrupt flag instead of
   * propagating.
   */
  lemma CloseJoinsPrimaryOnly(h: Handles, attached: bool, env: Env)
    requires (h.plain || h.secure) && attached
    ensures var c := CloseOutcome(h, attached, env);
      && |c.calls| == 2 && c.calls[0] == RequestShutdown && c.calls[1].Join?
      && (c.calls[1] == Join(Secure) <==> !h.plain)
      && (c.reinterrupt <==> Raw(env, c.calls[1]).Throws? && InstanceOf(Raw(env, c.calls[1]).exn, InterruptedException))
      && (c.completion.Threw? <==> Raw(env, c.calls[1]).Throws? && !InstanceOf(Raw(env, c.calls[1]).exn, InterruptedException))
      && (c.completion.Threw? ==> c.completion.exn == Raw(env, c.calls[1]).exn)
  {
  }
}
