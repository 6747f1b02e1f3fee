/**
 * The standalone server's entry point as an object: `ZooKeeperServerMain`
 * keeps one nullable handle per subsystem it starts and updates them in
 * place while `runFromConfig` runs. Every collaborator call it requests is
 * appended to the ghost `trace`; each method is proved to make exactly the
 * calls, leave exactly the handles and complete exactly as the reference
 * definitions of the Lifecycle module say.
 */
module ZooKeeperServerMain {
  import opened Util
  import opened Throwables
  import opened ExitOutcome
  import opened Lifecycle

  /** The handle classes of the subsystems; only whether a handle is set matters to the lifecycle. */
  class MetricsProvider {
    constructor() {}
  }

  class AdminServer {
    constructor() {}
  }

  class TxnSnapLog {
    constructor() {}
  }

  class CnxnFactory {
    constructor() {}
  }

  class ContainerManager {
    const params: ContainerParams

    constructor(params: ContainerParams)
      ensures this.params == params
    {
      this.params := params;
    }
  }

  /** Where the configuration is read from: a configuration file, or port, data directory and further positional values. */
  datatype ConfigSource = ConfigFile(path: string) | Positional(args: seq<string>)

  /** `initializeAndRun` parses a single argument as a configuration file path, any other argument list positionally. */
  function Dispatch(args: seq<string>): (s: ConfigSource)
    ensures s.ConfigFile? <==> |args| == 1
    ensures s.ConfigFile? ==> s.path == args[0]
    ensures s.Positional? ==> s.args == args
  {
    if |args| == 1 then ConfigFile(args[0]) else Positional(args)
  }

  /** How `initializeAndRun` completes on a fresh object, given the configuration parser. */
  function InitializeCompletion(args: seq<string>, parse: ConfigSource -> Result<Config, ExnClass>, env: Env): Completion {
    match parse(Dispatch(args))
    case Err(e) => Threw(e)
    case Ok(cfg) => RunCompletion(NoHandles, cfg, env)
  }

  /** An argument or configuration error from parsing makes `main` request INVALID_INVOCATION, before anything starts. */
  lemma InvalidArgumentsExit(args: seq<string>, parse: ConfigSource -> Result<Config, ExnClass>, env: Env)
    requires parse(Dispatch(args)).Err?
    requires InstanceOf(parse(Dispatch(args)).error, IllegalArgumentException) || InstanceOf(parse(Dispatch(args)).error, ConfigException)
    ensures var r := MainOutcome(InitializeCompletion(args, parse, env));
      r == Exited(InvalidInvocation, [ServerStartFailureAudit, RequestSystemExit(InvalidInvocation)])
  {
    var e := parse(Dispatch(args)).error;
    InvalidInvocationCategory(e);
    AuditBeforeExit(Threw(e));
  }

  class ServerMain {
    var cnxnFactory: CnxnFactory?
    var secureCnxnFactory: CnxnFactory?
    var containerManager: ContainerManager?
    var metricsProvider: MetricsProvider?
    var adminServer: AdminServer?
    /** Every collaborator call requested so far, in order. */
    ghost var trace: seq<Op>

    /** Which handles are set. */
    function Snapshot(): Handles
      reads this`metricsProvider, this`adminServer, this`cnxnFactory, this`secureCnxnFactory, this`containerManager
    {
      Handles(metricsProvider != null, adminServer != null, cnxnFactory != null,
              secureCnxnFactory != null, containerManager != null)
    }

    constructor()
      ensures Snapshot() == NoHandles && trace == []
    {
      cnxnFactory := null;
      secureCnxnFactory := null;
      containerManager := null;
      metricsProvider := null;
      adminServer := null;
      trace := [];
    }

    /** A call into a collaborator: it is recorded, and it returns or throws as the environment says. */
    method Call(op: Op, env: Env) returns (o: Outcome)
      modifies this`trace
      ensures trace == old(trace) + [op]
      ensures o == Raw(env, op)
    {
      trace := trace + [op];
      o := Raw(env, op);
    }

    /** A call whose call site catches nothing: what it throws ends the enclosing block. */
    method Step(op: Op, env: Env) returns (failure: Option<Failure>)
      requires op != BootMetrics && op != StopAdmin
      modifies this`trace
      ensures trace == old(trace) + [op]
      ensures failure == StepFailure(env, op)
    {
      var o := Call(op, env);
      failure := if o.Throws? then Some(Failure(op, o.exn)) else None;
    }

    /** `Step` guarded by a condition: the call is made only when it holds. */
    method OptionalStep(present: bool, op: Op, env: Env) returns (failure: Option<Failure>)
      requires op != BootMetrics && op != StopAdmin
      modifies this`trace
      ensures trace == old(trace) + Optional(present, op)
      ensures failure == if present then StepFailure(env, op) else None
    {
      failure := None;
      if present {
        failure := Step(op, env);
      }
    }

    /** Boot the metrics provider: a life-cycle failure is rethrown as an IOException; the handle is set once the boot returns. */
    method StartMetrics(env: Env) returns (failure: Option<Failure>)
      modifies this`trace, this`metricsProvider
      ensures trace == old(trace) + [BootMetrics]
      ensures failure == StepFailure(env, BootMetrics)
      ensures Snapshot() == Mark(old(Snapshot()), BootMetrics, failure.None?, ContainerSettings(env.props))
    {
      var o := Call(BootMetrics, env);
      if o.Throws? {
        var e := if InstanceOf(o.exn, MetricsProviderLifeCycleException) then IOException else o.exn;
        failure := Some(Failure(BootMetrics, e));
        return;
      }
      metricsProvider := new MetricsProvider();
      failure := None;
    }

    /** Open the transaction log; the handle exists once the call returns. */
    method OpenLog(env: Env) returns (failure: Option<Failure>, txnLog: TxnSnapLog?)
      modifies this`trace
      ensures trace == old(trace) + [OpenTxnLog]
      ensures failure == StepFailure(env, OpenTxnLog)
      ensures txnLog != null <==> failure.None?
    {
      txnLog := null;
      failure := Step(OpenTxnLog, env);
      if failure.None? {
        txnLog := new TxnSnapLog();
      }
    }

    /** Create the admin server, setting its handle, and start it. */
    method StartAdminServer(env: Env) returns (failure: Option<Failure>)
      modifies this`trace, this`adminServer
      ensures trace == old(trace) + [StartAdmin]
      ensures failure == StepFailure(env, StartAdmin)
      ensures Snapshot() == old(Snapshot()).(admin := true)
    {
      adminServer := new AdminServer();
      failure := Step(StartAdmin, env);
    }

    /**
     * The opening of the `try` block: boot the metrics provider, open the
     * transaction log, create the engine and start the admin server.
     */
    method StartCore(env: Env) returns (failure: Option<Failure>, txnLog: TxnSnapLog?)
      modifies this`trace, this`metricsProvider, this`adminServer
      ensures trace == TraceFrom(old(trace), CoreOps, env)
      ensures failure == Attempt(CoreOps, env).failure
      ensures Snapshot() == HandlesFrom(old(Snapshot()), CoreOps, env, ContainerSettings(env.props))
      ensures txnLog != null <==> OpenTxnLog in Attempt(CoreOps, env).done
    {
      ghost var t0, h0, params := trace, Snapshot(), ContainerSettings(env.props);
      CoreRun(t0, h0, env, params);

      failure := StartMetrics(env);
      if failure.Some? {
        txnLog := null;
        return;
      }
      failure, txnLog := OpenLog(env);
      if failure.Some? {
        return;
      }
      failure := Step(CreateServer, env);
      if failure.Some? {
        return;
      }
      failure := StartAdminServer(env);
    }

    /** `ServerCnxnFactory.createFactory()`: the listener's factory handle is set. */
    method CreateFactory(l: Listener)
      modifies this`cnxnFactory, this`secureCnxnFactory
      ensures Snapshot() == if l == Plain then old(Snapshot()).(plain := true) else old(Snapshot()).(secure := true)
    {
      var factory := new CnxnFactory();
      if l == Plain {
        cnxnFactory := factory;
      } else {
        secureCnxnFactory := factory;
      }
    }

    /** A listener block: when its address is configured, create the factory, configure it and start it. */
    method StartListener(l: Listener, address: Option<string>, activate: bool, env: Env) returns (failure: Option<Failure>)
      modifies this`trace, this`cnxnFactory, this`secureCnxnFactory
      ensures trace == TraceFrom(old(trace), ListenerOps(l, address, activate), env)
      ensures failure == Attempt(ListenerOps(l, address, activate), env).failure
      ensures Snapshot() == HandlesFrom(old(Snapshot()), ListenerOps(l, address, activate), env, ContainerSettings(env.props))
    {
      failure := None;
      if address.Some? {
        PairRun(trace, Snapshot(), Configure(l), Startup(l, activate), env, ContainerSettings(env.props));

        CreateFactory(l);
        failure := Step(Configure(l), env);
        if failure.Some? {
          return;
        }
        failure := Step(Startup(l, activate), env);
      }
    }

    /** Create the container manager with the settings read from the system properties; its handle is set. */
    method CreateContainerManager(env: Env)
      modifies this`containerManager
      ensures Snapshot() == old(Snapshot()).(containers := true)
      ensures containerManager != null && containerManager.params == ContainerSettings(env.props)
    {
      containerManager := new ContainerManager(ContainerSettings(env.props));
    }

    /** Create the container manager, start it, and audit the start. */
    method StartContainerManager(env: Env) returns (failure: Option<Failure>)
      modifies this`trace, this`containerManager
      ensures var tail := [StartContainers(ContainerSettings(env.props)), AuditStart];
        && trace == TraceFrom(old(trace), tail, env)
        && failure == Attempt(tail, env).failure
        && Snapshot() == HandlesFrom(old(Snapshot()), tail, env, ContainerSettings(env.props))
    {
      ghost var params := ContainerSettings(env.props);
      PairRun(trace, Snapshot(), StartContainers(params), AuditStart, env, params);

      CreateContainerManager(env);
      failure := Step(StartContainers(containerManager.params), env);
      if failure.Some? {
        return;
      }
      failure := Step(AuditStart, env);
    }

    /**
     * The startup calls of the `try` block of `runFromConfig`, block by
     * block: a block that throws ends the `try` block with its failure. The
     * engine is started by the plain listener, or by the secure one when
     * there is no plain one.
     */
    method StartServing(cfg: Config, env: Env) returns (failure: Option<Failure>, txnLog: TxnSnapLog?)
      modifies this`trace, this`metricsProvider, this`adminServer, this`cnxnFactory, this`secureCnxnFactory,
               this`containerManager
      ensures var s := ServingPlan(cfg, env.props);
        && trace == TraceFrom(old(trace), s, env)
        && failure == Attempt(s, env).failure
        && Snapshot() == HandlesFrom(old(Snapshot()), s, env, ContainerSettings(env.props))
        && (txnLog != null <==> OpenTxnLog in Attempt(s, env).done)
    {
      ghost var t0, h0, params := trace, Snapshot(), ContainerSettings(env.props);
      ghost var lp := ListenerOps(Plain, cfg.clientPortAddress, true);
      ghost var ls := ListenerOps(Secure, cfg.secureClientPortAddress, cfg.clientPortAddress.None?);
      ghost var tail := [StartContainers(params), AuditStart];
      Then(CoreOps, lp, env, t0, h0, params);
      Then(CoreOps + lp, ls, env, t0, h0, params);
      Then(CoreOps + lp + ls, tail, env, t0, h0, params);
      ThenDone(CoreOps, lp, env);
      ThenDone(CoreOps + lp, ls, env);
      ThenDone(CoreOps + lp + ls, tail, env);
      AttemptSpec(CoreOps, env);

      failure, txnLog := StartCore(env);
      if failure.Some? {
        return;
      }
      var needStartServer := true;
      failure := StartListener(Plain, cfg.clientPortAddress, needStartServer, env);
      if failure.Some? {
        return;
      }
      if cfg.clientPortAddress.Some? {
        needStartServer := false;
      }
      failure := StartListener(Secure, cfg.secureClientPortAddress, needStartServer, env);
      if failure.Some? {
        return;
      }
      failure := StartContainerManager(env);
    }

    /** The stops of `shutdown()` before the admin server's: each is made when its handle is set and none throws. */
    method StopQuietly(env: Env)
      modifies this`trace
      ensures trace == old(trace) + StopsBeforeAdmin(Snapshot())
    {
      if containerManager != null {
        var o := Call(StopContainers, env);
      }
      if cnxnFactory != null {
        var o := Call(StopListener(Plain), env);
      }
      if secureCnxnFactory != null {
        var o := Call(StopListener(Secure), env);
      }
    }

    /** The admin server's stop, inside its `try` block: an AdminServerException is caught, any other exception escapes. */
    method StopAdminServer(env: Env) returns (escaped: Option<Failure>)
      modifies this`trace
      ensures trace == old(trace) + Optional(adminServer != null, StopAdmin)
      ensures escaped == AdminStopFailure(adminServer != null, env)
    {
      escaped := None;
      if adminServer != null {
        var o := Call(StopAdmin, env);
        if o.Throws? && !InstanceOf(o.exn, AdminServerException) {
          escaped := Some(Failure(StopAdmin, o.exn));
        }
      }
    }

    /**
     * `shutdown()`: stop every subsystem whose handle is set, in the fixed
     * order; the stops before the admin server's do not throw.
     */
    method Shutdown(env: Env) returns (escaped: Option<Failure>)
      modifies this`trace
      ensures trace == TraceFrom(old(trace), ShutdownPlan(Snapshot()), env)
      ensures escaped == Attempt(ShutdownPlan(Snapshot()), env).failure
    {
      ShutdownRun(trace, Snapshot(), env);
      StopQuietly(env);
      escaped := StopAdminServer(env);
    }

    /** After `shutdown()`: join each listener whose handle is set, then shut the engine down if it allows it. */
    method JoinListeners(env: Env) returns (failure: Option<Failure>)
      modifies this`trace
      ensures trace == TraceFrom(old(trace), JoinPlan(Snapshot(), env.canShutdown), env)
      ensures failure == Attempt(JoinPlan(Snapshot(), env.canShutdown), env).failure
    {
      JoinRun(trace, Snapshot(), env.canShutdown, env);
      failure := OptionalStep(cnxnFactory != null, Join(Plain), env);
      if failure.Some? {
        return;
      }
      failure := OptionalStep(secureCnxnFactory != null, Join(Secure), env);
      if failure.Some? {
        return;
      }
      failure := OptionalStep(env.canShutdown, ShutdownServer, env);
    }

    /** The rest of the `try` block: wait for the shutdown signal, call `shutdown()` and join the listeners. */
    method Teardown(env: Env) returns (failure: Option<Failure>)
      modifies this`trace
      ensures trace == TraceFrom(old(trace), TeardownPlan(Snapshot(), env.canShutdown), env)
      ensures failure == Attempt(TeardownPlan(Snapshot(), env.canShutdown), env).failure
    {
      ghost var t0, h, params := trace, Snapshot(), ContainerSettings(env.props);
      ghost var sd, jp := ShutdownPlan(h), JoinPlan(h, env.canShutdown);
      Assoc([AwaitShutdown], sd, jp);
      Unfold(t0, h, AwaitShutdown, sd + jp, env, params);

      failure := Step(AwaitShutdown, env);
      if failure.Some? {
        return;
      }
      Then(sd, jp, env, trace, h, params);
      failure := Shutdown(env);
      if failure.Some? {
        return;
      }
      failure := JoinListeners(env);
    }

    /**
     * The `try` block of `runFromConfig`: start serving, wait for the
     * shutdown signal, call `shutdown()` and join the listeners; the first
     * call that throws ends it.
     */
    method RunBody(cfg: Config, env: Env) returns (failure: Option<Failure>, txnLog: TxnSnapLog?)
      modifies this
      ensures var plan := BodyPlan(old(Snapshot()), cfg, env);
        && trace == TraceFrom(old(trace), plan, env)
        && failure == Attempt(plan, env).failure
        && Snapshot() == HandlesFrom(old(Snapshot()), plan, env, ContainerSettings(env.props))
        && (txnLog != null <==> OpenTxnLog in Attempt(plan, env).done)
    {
      BodySplit(trace, Snapshot(), cfg, env);
      failure, txnLog := StartServing(cfg, env);
      if failure.Some? {
        return;
      }
      failure := Teardown(env);
    }

    /**
     * The `finally` block of `runFromConfig`: close the log if it was opened,
     * then stop the metrics provider if its handle is set, ignoring what the
     * stop throws. An exception from closing the log replaces the pending
     * completion and skips the rest.
     */
    method Finish(txnLog: TxnSnapLog?, pending: Completion, env: Env) returns (c: Completion)
      modifies this`trace
      ensures var fin := Cleanup(txnLog != null, metricsProvider != null, env, pending);
        trace == old(trace) + fin.calls && c == fin.completion
    {
      ghost var t0 := trace;
      c := pending;
      if txnLog != null {
        var o := Call(CloseTxnLog, env);
        if o.Throws? {
          c := Threw(o.exn);
          return;
        }
      }
      if metricsProvider != null {
        var o := Call(StopMetrics, env);
      }
      Assoc(t0, Optional(txnLog != null, CloseTxnLog), Optional(metricsProvider != null, StopMetrics));
    }

    /**
     * `runFromConfig`: run the `try` block, keep an exception other than an
     * interruption as the pending outcome, then run the `finally` block.
     */
    method RunFromConfig(cfg: Config, env: Env) returns (c: Completion)
      modifies this
      ensures trace == old(trace) + RunTrace(old(Snapshot()), cfg, env)
      ensures Snapshot() == HandlesAfter(old(Snapshot()), cfg, env)
      ensures c == RunCompletion(old(Snapshot()), cfg, env)
    {
      ghost var h0, t0 := Snapshot(), trace;
      var failure, txnLog := RunBody(cfg, env);
      TraceFromCalls(t0, BodyPlan(h0, cfg, env), env);
      HandlesFromRun(h0, BodyPlan(h0, cfg, env), env, ContainerSettings(env.props));
      Assoc(t0, Calls(BodyRun(h0, cfg, env)), RunFinish(h0, cfg, env).calls);
      var pending := Normal;
      if failure.Some? && !InstanceOf(failure.value.exn, InterruptedException) {
        pending := Threw(failure.value.exn);
      }
      c := Finish(txnLog, pending, env);
    }

    /**
     * `close()`: pick the plain listener, or the secure one when there is no
     * plain one; if it has an engine attached, hand SHUTDOWN to the engine's
     * shutdown handler and wait for the listener, re-setting the interrupt
     * flag instead of propagating an interruption of the wait.
     */
    method Close(attached: bool, env: Env) returns (c: Completion, reinterrupt: bool)
      modifies this`trace
      ensures var r := CloseOutcome(old(Snapshot()), attached, env);
        trace == old(trace) + r.calls && c == r.completion && reinterrupt == r.reinterrupt
    {
      var primary := cnxnFactory;
      var l := Plain;
      if primary == null {
        primary := secureCnxnFactory;
        l := Secure;
      }
      c, reinterrupt := Normal, false;
      if primary == null || !attached {
        return;
      }
      var o := Call(RequestShutdown, env);
      o := Call(Join(l), env);
      if o.Throws? {
        if InstanceOf(o.exn, InterruptedException) {
          reinterrupt := true;
        } else {
          c := Threw(o.exn);
        }
      }
    }

    /** `initializeAndRun`: parse the arguments into a configuration, then run from it. */
    method InitializeAndRun(args: seq<string>, parse: ConfigSource -> Result<Config, ExnClass>, env: Env)
      returns (c: Completion)
      modifies this
      ensures match parse(Dispatch(args))
        case Err(e) => c == Threw(e) && trace == old(trace) && Snapshot() == old(Snapshot())
        case Ok(cfg) =>
          && c == RunCompletion(old(Snapshot()), cfg, env)
          && trace == old(trace) + RunTrace(old(Snapshot()), cfg, env)
          && Snapshot() == HandlesAfter(old(Snapshot()), cfg, env)
    {
      match parse(Dispatch(args))
      case Err(e) =>
        c := Threw(e);
      case Ok(cfg) =>
        c := RunFromConfig(cfg, env);
    }
  }

  /** `main`: run a fresh object and turn how it completes into the exit request. */
  method Launch(args: seq<string>, parse: ConfigSource -> Result<Config, ExnClass>, env: Env) returns (r: MainResult)
    ensures r == MainOutcome(InitializeCompletion(args, parse, env))
  {
    var server := new ServerMain();
    var c := server.InitializeAndRun(args, parse, env);
    r := MainOutcome(c);
  }
}
