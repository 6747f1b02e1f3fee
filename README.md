# ZooKeeperServerMain, modelled in Dafny

This project models the entry point of the standalone ZooKeeper server:
`ZooKeeperServerMain`. The class boots a metrics provider, opens the transaction
log, creates the server engine and starts the admin server. It then starts the
plain and secure client listeners and the container manager, in that order. It
waits for the shutdown signal, tears everything down, and, in a `finally` block,
closes the log and stops the metrics provider. `main` maps the way this
completes onto an exit code. `close()` is an external shutdown request.

Every collaborator (metrics provider, `FileTxnSnapLog`, `ZooKeeperServer`,
`AdminServer`, `ServerCnxnFactory`, `ContainerManager`) is abstract. Each call
into one is an `Op`. An input `Env` says, for each call that can fail, whether it
returns or which exception class it throws, together with `canShutdown()` and the
container-manager system properties.

The modules follow the program:

- `Throwables` (throwables.dfy) holds the Java exception classes the code
  mentions, their superclass chain, and `instanceof`.
- `ExitOutcome` (exit_outcome.dfy) is `main`'s catch chain. A list of clauses
  is searched by Java's first-match rule. Each clause gives an exit code and
  its effects: the server-start failure audit entry and the exit request.
- `Lifecycle` (lifecycle.dfy) holds the reference definitions:
  - the ordered plan of calls the `try` block of `runFromConfig` makes;
  - `Attempt`, a run in which the first call that throws out of its call site
    ends the block;
  - the `catch`/`finally` handling, the `shutdown()` plan and the `close()`
    outcome;
  - the lemmas proving the properties below about these definitions.
- `ZooKeeperServerMain` (server_main.dfy) is the imperative model. The class
  `ServerMain` has the five nullable handle fields of the Java class and a ghost
  `trace` recording every collaborator call in order. Its methods assign the
  fields step by step as `runFromConfig` does. Each method is proved to produce
  exactly the trace, handle state and completion that the `Lifecycle`
  definitions give. `Launch` is `main`.

Four behaviours of the code are easy to miss; the model follows the code:

- Teardown is not the reverse of startup. `shutdown()` stops the container
  manager, then the plain listener, the secure listener and the admin server;
  the `finally` block then closes the log and stops the metrics provider.
- An exception from closing the transaction log is not swallowed. It replaces
  the pending completion and skips the metrics stop.
- An interruption of the wait leaves the `try` block before `shutdown()`, so in
  that case no subsystem is stopped or joined. Only the log is closed and the
  metrics provider stopped.
- `main` records the start-failure audit entry only on a failure path; a normal
  completion records none.

## Model

| member | source | states |
|---|---|---|
| ExitOutcome.FirstMatch | zookeeper-server/src/main/java/org/apache/zookeeper/server/ZooKeeperServerMain.java:66-94 | the clause chosen is the first whose class the thrown class is an instance of; no clause is chosen when none applies |
| ExitOutcome.HandlerTable | zookeeper-server/src/main/java/org/apache/zookeeper/server/ZooKeeperServerMain.java:69-94 | for every exception class, the first-match rule picks exactly the handler of an independent per-class table |
| ExitOutcome.CaughtIffException | zookeeper-server/src/main/java/org/apache/zookeeper/server/ZooKeeperServerMain.java:90 | `main` catches a failure if and only if it is an `Exception`; anything else propagates out of `main` unchanged |
| ExitOutcome.InvalidInvocationCategory | zookeeper-server/src/main/java/org/apache/zookeeper/server/ZooKeeperServerMain.java:69-79 | INVALID_INVOCATION is requested exactly for IllegalArgumentException, ConfigException and their subclasses |
| ExitOutcome.DatadirCategory | zookeeper-server/src/main/java/org/apache/zookeeper/server/ZooKeeperServerMain.java:80-84 | UNABLE_TO_ACCESS_DATADIR is requested exactly for a DatadirException |
| ExitOutcome.AdminServerCategory | zookeeper-server/src/main/java/org/apache/zookeeper/server/ZooKeeperServerMain.java:85-89 | ERROR_STARTING_ADMIN_SERVER is requested exactly for an AdminServerException |
| ExitOutcome.UnexpectedCategory | zookeeper-server/src/main/java/org/apache/zookeeper/server/ZooKeeperServerMain.java:90-93 | UNEXPECTED_ERROR is requested exactly for an Exception of none of the four specific categories |
| ExitOutcome.AuditBeforeExit | zookeeper-server/src/main/java/org/apache/zookeeper/server/ZooKeeperServerMain.java:66-96 | every caught failure records the start-failure audit entry and then requests exit with a failure code; a normal return requests EXECUTION_FINISHED with no audit entry |
| ExitOutcome.CatchAllCoversEarlierClauses | zookeeper-server/src/main/java/org/apache/zookeeper/server/ZooKeeperServerMain.java:69-90 | every class a specific clause catches is also caught by the final `Exception` clause, so the specific clauses must come first |
| ExitOutcome.EveryClauseReachable | zookeeper-server/src/main/java/org/apache/zookeeper/server/ZooKeeperServerMain.java:69-90 | no clause is shadowed by an earlier one: each clause's own class is handled by that clause |
| ZooKeeperServerMain.Dispatch | zookeeper-server/src/main/java/org/apache/zookeeper/server/ZooKeeperServerMain.java:108-114 | exactly one argument is read as a configuration file path; any other number of arguments is read positionally |
| ZooKeeperServerMain.InvalidArgumentsExit | zookeeper-server/src/main/java/org/apache/zookeeper/server/ZooKeeperServerMain.java:69-79 | a parse failure of the argument or configuration categories makes `main` audit and request INVALID_INVOCATION |
| ZooKeeperServerMain.Launch | zookeeper-server/src/main/java/org/apache/zookeeper/server/ZooKeeperServerMain.java:64-97 | `main` runs a fresh object and requests the exit its completion maps to |
| ZooKeeperServerMain.ServerMain.InitializeAndRun | zookeeper-server/src/main/java/org/apache/zookeeper/server/ZooKeeperServerMain.java:99-117 | a parse failure propagates with no collaborator call and no handle change; otherwise the object runs from the parsed configuration |
| ZooKeeperServerMain.ServerMain.RunFromConfig | zookeeper-server/src/main/java/org/apache/zookeeper/server/ZooKeeperServerMain.java:125-223 | the calls made, the handles left set and the completion are exactly those of the reference run |
| ZooKeeperServerMain.ServerMain.RunBody | zookeeper-server/src/main/java/org/apache/zookeeper/server/ZooKeeperServerMain.java:129-206 | the `try` block makes the calls of its plan up to and including the first that throws, and ends with that failure; it sets the handles its completed calls set; the log exists iff its construction completed |
| ZooKeeperServerMain.ServerMain.StartCore | zookeeper-server/src/main/java/org/apache/zookeeper/server/ZooKeeperServerMain.java:130-158 | metrics boot, log, engine and admin server start in order and stop at the first failure; the metrics handle is set only once its boot returns, the admin handle once it is created |
| ZooKeeperServerMain.ServerMain.StartMetrics | zookeeper-server/src/main/java/org/apache/zookeeper/server/ZooKeeperServerMain.java:130-136 | a MetricsProviderLifeCycleException from the boot is rethrown as an IOException |
| ZooKeeperServerMain.ServerMain.OpenLog | zookeeper-server/src/main/java/org/apache/zookeeper/server/ZooKeeperServerMain.java:142 | the log handle exists if and only if its construction returned |
| ZooKeeperServerMain.ServerMain.StartAdminServer | zookeeper-server/src/main/java/org/apache/zookeeper/server/ZooKeeperServerMain.java:156-158 | the admin handle is set before the start, so it is set even when the start throws |
| ZooKeeperServerMain.ServerMain.StartListener | zookeeper-server/src/main/java/org/apache/zookeeper/server/ZooKeeperServerMain.java:161-178 | a listener with an address is created, configured and started, the start skipped if the configure throws; without an address nothing happens |
| ZooKeeperServerMain.ServerMain.StartContainerManager | zookeeper-server/src/main/java/org/apache/zookeeper/server/ZooKeeperServerMain.java:180-188 | the container manager is built with the configured or default settings and started; the start audit entry follows a successful start |
| ZooKeeperServerMain.ServerMain.StartServing | zookeeper-server/src/main/java/org/apache/zookeeper/server/ZooKeeperServerMain.java:129-188 | the startup blocks run in order; the plain listener activates the engine, the secure one only when there is no plain address |
| ZooKeeperServerMain.ServerMain.Teardown | zookeeper-server/src/main/java/org/apache/zookeeper/server/ZooKeeperServerMain.java:192-206 | wait, `shutdown()` and the joins run in order, each ending the block if it throws |
| ZooKeeperServerMain.ServerMain.Shutdown | zookeeper-server/src/main/java/org/apache/zookeeper/server/ZooKeeperServerMain.java:228-245 | `shutdown()` makes the stops of the shutdown plan of its handles; only a non-AdminServerException from the admin stop escapes |
| ZooKeeperServerMain.ServerMain.JoinListeners | zookeeper-server/src/main/java/org/apache/zookeeper/server/ZooKeeperServerMain.java:196-206 | the set listeners are joined, plain first, then the engine is shut down if it allows it |
| ZooKeeperServerMain.ServerMain.Finish | zookeeper-server/src/main/java/org/apache/zookeeper/server/ZooKeeperServerMain.java:210-222 | the log is closed if it exists; the metrics provider is then stopped if set, whatever the stop throws; a close failure replaces the pending completion and skips the stop |
| ZooKeeperServerMain.ServerMain.Close | zookeeper-server/src/main/java/org/apache/zookeeper/server/ZooKeeperServerMain.java:260-277 | calls, completion and interrupt flag are exactly those of the reference `close()` outcome for the current handles |
| Lifecycle.DefaultContainerSettings | zookeeper-server/src/main/java/org/apache/zookeeper/server/ZooKeeperServerMain.java:183-185 | with no property set the container manager checks every 60000 ms, reclaims at most 10000 per minute and waits 0 ms |
| Lifecycle.AttemptSpec | zookeeper-server/src/main/java/org/apache/zookeeper/server/ZooKeeperServerMain.java:129-206 | a run completes a prefix of its plan whose calls do not throw; it ends either with the whole plan or with the next call and what it threw |
| Lifecycle.CoreRun | zookeeper-server/src/main/java/org/apache/zookeeper/server/ZooKeeperServerMain.java:130-158 | the opening four calls stop at the first that throws; the metrics handle and the log are set once their calls return, the admin handle once it is created, before its start |
| Lifecycle.BodySplit | zookeeper-server/src/main/java/org/apache/zookeeper/server/ZooKeeperServerMain.java:129-206 | a startup failure ends the `try` block; otherwise the teardown runs on the started handles, changes none of them, and the log is open |
| Lifecycle.TraceOrdered | zookeeper-server/src/main/java/org/apache/zookeeper/server/ZooKeeperServerMain.java:129-222 | every run's calls follow the fixed order metrics, log, engine, admin, plain, secure, containers, audit, wait, stops, joins, engine shutdown, log close, metrics stop, each at most once |
| Lifecycle.NothingStartsAfterFailure | zookeeper-server/src/main/java/org/apache/zookeeper/server/ZooKeeperServerMain.java:129-222 | after the failing call of the `try` block, only the log close and the metrics stop are made |
| Lifecycle.MetricsBootFailureRun | zookeeper-server/src/main/java/org/apache/zookeeper/server/ZooKeeperServerMain.java:130-136 | a metrics life-cycle failure starts nothing else, stops only a metrics handle set by an earlier run, and completes with IOException |
| Lifecycle.MetricsBootFailureScenario | zookeeper-server/src/main/java/org/apache/zookeeper/server/ZooKeeperServerMain.java:134-135 | that failure leads `main` to UNEXPECTED_ERROR |
| Lifecycle.DatadirFailureRun | zookeeper-server/src/main/java/org/apache/zookeeper/server/ZooKeeperServerMain.java:142 | on any object, fresh or reused, a data-directory failure makes exactly the calls boot, log construction, metrics stop: the admin server, the listeners and the container manager stay unstarted, the metrics provider is still stopped, and DatadirException propagates |
| Lifecycle.DatadirFailureScenario | zookeeper-server/src/main/java/org/apache/zookeeper/server/ZooKeeperServerMain.java:80-84 | that failure leads `main` to UNABLE_TO_ACCESS_DATADIR |
| Lifecycle.AdminFailureRun | zookeeper-server/src/main/java/org/apache/zookeeper/server/ZooKeeperServerMain.java:156-158 | an admin start failure leaves both listeners unconfigured and the engine not shut down; the log is closed, and a close failure replaces the admin failure |
| Lifecycle.AdminFailureScenario | zookeeper-server/src/main/java/org/apache/zookeeper/server/ZooKeeperServerMain.java:85-89 | that failure leads `main` to ERROR_STARTING_ADMIN_SERVER when the log closes cleanly |
| Lifecycle.StartupPlanConfigures | zookeeper-server/src/main/java/org/apache/zookeeper/server/ZooKeeperServerMain.java:161-178 | a listener is configured if and only if its address is set |
| Lifecycle.ActivationPlanned | zookeeper-server/src/main/java/org/apache/zookeeper/server/ZooKeeperServerMain.java:160-178 | the startup plan asks for engine activation exactly once when an address is configured, never otherwise |
| Lifecycle.PlannedStartups | zookeeper-server/src/main/java/org/apache/zookeeper/server/ZooKeeperServerMain.java:160-178 | the plain listener always activates; the secure one activates only without a plain address |
| Lifecycle.ActivationAtMostOnce | zookeeper-server/src/main/java/org/apache/zookeeper/server/ZooKeeperServerMain.java:160-178 | in every run the engine is asked to start at most once, never by a non-activating plain start, by the secure listener only without a plain address |
| Lifecycle.ActivationOnceWhenServing | zookeeper-server/src/main/java/org/apache/zookeeper/server/ZooKeeperServerMain.java:160-192 | a run that reaches the wait has asked for activation exactly once if an address is configured, never otherwise |
| Lifecycle.HandlesOnceServed | zookeeper-server/src/main/java/org/apache/zookeeper/server/ZooKeeperServerMain.java:156-192 | once the wait is reached, the metrics, admin and container handles are set, and each listener's handle is set iff it was already set or its address is configured |
| Lifecycle.ServedRun | zookeeper-server/src/main/java/org/apache/zookeeper/server/ZooKeeperServerMain.java:129-206 | a run that reaches the wait has completed every startup call, and makes no call outside its plan |
| Lifecycle.CleanupAlwaysRuns | zookeeper-server/src/main/java/org/apache/zookeeper/server/ZooKeeperServerMain.java:210-222 | the log is closed iff its construction completed; the metrics provider is stopped iff its handle is set and no close failure intervened; with a clean close the completion is the `try` block's |
| Lifecycle.CleanupIgnoresStopOutcome | zookeeper-server/src/main/java/org/apache/zookeeper/server/ZooKeeperServerMain.java:215-221 | whatever the metrics stop throws, the completion is the same |
| Lifecycle.InterruptedWaitRun | zookeeper-server/src/main/java/org/apache/zookeeper/server/ZooKeeperServerMain.java:192-209 | an interrupted wait ends the `try` block after the startup calls, before `shutdown()` |
| Lifecycle.InterruptedWaitEndsNormally | zookeeper-server/src/main/java/org/apache/zookeeper/server/ZooKeeperServerMain.java:207-222 | after an interrupted wait, when closing the log does not throw, the log is closed, the metrics provider stopped, and `runFromConfig` returns normally |
| Lifecycle.ShutdownRun | zookeeper-server/src/main/java/org/apache/zookeeper/server/ZooKeeperServerMain.java:228-245 | `shutdown()` makes all its stops; only the admin stop can end it with a failure |
| Lifecycle.ShutdownStopsStartedHandles | zookeeper-server/src/main/java/org/apache/zookeeper/server/ZooKeeperServerMain.java:228-245 | every planned stop is made, and `shutdown()` fails iff the admin stop throws something other than an AdminServerException |
| Lifecycle.ShutdownFailure | zookeeper-server/src/main/java/org/apache/zookeeper/server/ZooKeeperServerMain.java:238-244 | a failure of `shutdown()` is the admin stop's own exception |
| Lifecycle.ShutdownPlanContents | zookeeper-server/src/main/java/org/apache/zookeeper/server/ZooKeeperServerMain.java:228-241 | the stops are ordered containers, plain, secure, admin, and each is made iff its handle is set |
| Lifecycle.PlannedJoins | zookeeper-server/src/main/java/org/apache/zookeeper/server/ZooKeeperServerMain.java:196-206 | the plan joins each started listener and shuts the engine down iff `canShutdown()` holds |
| Lifecycle.JoinsThenConditionalShutdown | zookeeper-server/src/main/java/org/apache/zookeeper/server/ZooKeeperServerMain.java:196-206 | the engine is never shut down without `canShutdown()`; in a run without failure each started listener is joined and the engine is shut down iff allowed |
| Lifecycle.CloseWithoutServerIsNoOp | zookeeper-server/src/main/java/org/apache/zookeeper/server/ZooKeeperServerMain.java:261-268 | with no listener, or no engine attached to the chosen one, `close()` does nothing |
| Lifecycle.CloseJoinsPrimaryOnly | zookeeper-server/src/main/java/org/apache/zookeeper/server/ZooKeeperServerMain.java:261-276 | otherwise it requests SHUTDOWN and joins only the primary listener, the secure one iff there is no plain one; an interrupted join re-sets the flag, and any other failure of the join leaves `close()` with the join's own class |

## Left out

- JMX registration of the logging beans (lines 101–105) only logs a warning when it fails, so it is not modelled.
- Parsing the configuration (lines 110 and 113) is a parameter `parse` of the entry points. Only the two client addresses of the parsed configuration are modelled.
- The metrics wiring (`ServerMetrics.metricsProviderInitialized`, `ProviderRegistry.initialize`, lines 137–138) is not modelled.
- The pause monitor (lines 143–146), `setServerStats` (148), the shutdown-handler registration (153) and `setZooKeeperServer` (157) are not modelled.
- These calls are assumed never to throw: those just listed, the container-manager and listener stops, the start audit entry and `zkServer.shutdown(true)`.
- The latch and the threads behind it are concurrency. The wait is one call whose outcome is an input (it returns or throws InterruptedException). The listeners' joins are calls whose outcomes are inputs.
- `canShutdown()` is an input. So is whether the chosen listener has an engine attached in `close()`.
- The listener configure arguments (maximum connections, backlog, secure flag) are not modelled. Nor are the engine's constructor arguments beyond the log.
- `AdminServerFactory.createAdminServer()` and `ServerCnxnFactory.createFactory()` are folded into the handle assignment; they are not separate failing calls.
- The `new ContainerManager(...)` construction (line 180) is folded into the container manager's start call, which sets its handle; the construction is not a separate failing call.
- The shutdown handler's `handle(SHUTDOWN)` in `close()` (line 270) is assumed never to throw.
- ExitCode's numeric values are not part of this model; only the named codes are. ExitCode.java is not part of this model.
- What happens after `requestSystemExit` is not modelled. The first exit requested is the outcome; the fall-through to line 96 after a failure branch is not.
- Lifecycle.ContainerSettings: the properties are unbounded integers. The 32-bit width of `Integer.getInteger` and the fallback on an unparsable value are not modelled.
- Whether `close()` is idempotent depends on the external shutdown handler, so it is not modelled.
- Logging and the usage text on standard error are not modelled.
