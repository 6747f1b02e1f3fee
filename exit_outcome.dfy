/**
 * The standalone server's `main`: the catch chain that turns the way
 * `initializeAndRun` completed into a requested process exit code, with a
 * server-start-failure audit entry on every failure branch.
 */
module ExitOutcome {
  import opened Util
  import opened Throwables

  /** The exit codes `main` can request (their numeric values are defined outside this model). */
  datatype ExitCode =
    | ExecutionFinished
    | UnexpectedError
    | InvalidInvocation
    | UnableToAccessDatadir
    | ErrorStartingAdminServer

  /** One `catch (K e)` clause of `main`, with the exit code its handler requests. */
  datatype Clause = Clause(catches: ExnClass, code: ExitCode)

  /** `main`'s catch clauses, in source order. */
  const MainClauses: seq<Clause> := [
    Clause(IllegalArgumentException, InvalidInvocation),
    Clause(ConfigException, InvalidInvocation),
    Clause(DatadirException, UnableToAccessDatadir),
    Clause(AdminServerException, ErrorStartingAdminServer),
    Clause(Exception, UnexpectedError)
  ]

  /** Java's choice of handler: the first clause whose class the thrown instance belongs to. */
  function FirstMatch(clauses: seq<Clause>, e: ExnClass): (r: Option<nat>)
    ensures r.Some? ==> r.value < |clauses| && InstanceOf(e, clauses[r.value].catches)
    ensures r.Some? ==> forall j :: 0 <= j < r.value ==> !InstanceOf(e, clauses[j].catches)
    ensures r.None? ==> forall j :: 0 <= j < |clauses| ==> !InstanceOf(e, clauses[j].catches)
  {
    FirstMatchFrom(clauses, e, 0)
  }

  /** The first clause from position `i` on whose class the thrown instance belongs to. */
  function FirstMatchFrom(clauses: seq<Clause>, e: ExnClass, i: nat): (r: Option<nat>)
    requires i <= |clauses|
    ensures r.Some? ==> i <= r.value < |clauses| && InstanceOf(e, clauses[r.value].catches)
    ensures r.Some? ==> forall j :: i <= j < r.value ==> !InstanceOf(e, clauses[j].catches)
    ensures r.None? ==> forall j :: i <= j < |clauses| ==> !InstanceOf(e, clauses[j].catches)
    decreases |clauses| - i
  {
    if i == |clauses| then None
    else if InstanceOf(e, clauses[i].catches) then Some(i)
    else FirstMatchFrom(clauses, e, i + 1)
  }

  /** Externally visible effects of `main` after `initializeAndRun` completes. */
  datatype Effect = ServerStartFailureAudit | RequestSystemExit(code: ExitCode)

  /** Either the exit requested first, with the effects up to it, or a throwable that no clause catches. */
  datatype MainResult = Exited(code: ExitCode, effects: seq<Effect>) | Escaped(exn: ExnClass)

  /** The exit code requested, if any. */
  function Code(r: MainResult): Option<ExitCode> {
    if r.Exited? then Some(r.code) else None
  }

  /** `main`'s reaction to the completion of `initializeAndRun`. */
  function MainOutcome(c: Completion): MainResult {
    match c
    case Normal => Exited(ExecutionFinished, [RequestSystemExit(ExecutionFinished)])
    case Threw(e) =>
      match FirstMatch(MainClauses, e)
      case None => Escaped(e)
      case Some(i) =>
        var code := MainClauses[i].code;
        Exited(code, [ServerStartFailureAudit, RequestSystemExit(code)])
  }

  /** Whether `e` belongs to one of the four specific failure categories. */
  predicate SpecificCategory(e: ExnClass) {
    InstanceOf(e, IllegalArgumentException) || InstanceOf(e, ConfigException)
    || InstanceOf(e, DatadirException) || InstanceOf(e, AdminServerException)
  }

  /** The handler `main` picks for each class, read off the clause list by hand. */
  function Handler(e: ExnClass): Option<nat> {
    match e
    case Throwable | Error => None
    case IllegalArgumentException | NumberFormatException => Some(0)
    case ConfigException => Some(1)
    case DatadirException => Some(2)
    case AdminServerException => Some(3)
    case Exception | RuntimeException | IOException | MetricsProviderLifeCycleException | InterruptedException => Some(4)
  }

  /** The first-match rule picks exactly the handler of the table. */
  lemma HandlerTable(e: ExnClass)
    ensures FirstMatch(MainClauses, e) == Handler(e)
  {
  }

  /** Only instances of Exception are caught by `main`; any other throwable leaves it unchanged. */
  lemma CaughtIffException(e: ExnClass)
    ensures MainOutcome(Threw(e)).Exited? <==> InstanceOf(e, Exception)
    ensures MainOutcome(Threw(e)).Escaped? ==> MainOutcome(Threw(e)).exn == e
  {
    HandlerTable(e);
    ExceptionOrError(e);
  }

  /** IllegalArgumentException (including NumberFormatException) and ConfigException, and only they, give INVALID_INVOCATION. */
  lemma InvalidInvocationCategory(e: ExnClass)
    ensures Code(MainOutcome(Threw(e))) == Some(InvalidInvocation)
        <==> InstanceOf(e, IllegalArgumentException) || InstanceOf(e, ConfigException)
  {
    HandlerTable(e);
  }

  /** DatadirException, and only it, gives UNABLE_TO_ACCESS_DATADIR. */
  lemma DatadirCategory(e: ExnClass)
    ensures Code(MainOutcome(Threw(e))) == Some(UnableToAccessDatadir) <==> InstanceOf(e, DatadirException)
  {
    HandlerTable(e);
  }

  /** AdminServerException, and only it, gives ERROR_STARTING_ADMIN_SERVER. */
  lemma AdminServerCategory(e: ExnClass)
    ensures Code(MainOutcome(Threw(e))) == Some(ErrorStartingAdminServer) <==> InstanceOf(e, AdminServerException)
  {
    HandlerTable(e);
  }

  /** Every other Exception, and only such, gives UNEXPECTED_ERROR. */
  lemma UnexpectedCategory(e: ExnClass)
    ensures Code(MainOutcome(Threw(e))) == Some(UnexpectedError) <==> InstanceOf(e, Exception) && !SpecificCategory(e)
  {
    HandlerTable(e);
  }

  /**
   * A failure audit entry is recorded exactly on the failure branches, always
   * before the exit request; the normal return requests EXECUTION_FINISHED.
   */
  lemma AuditBeforeExit(c: Completion)
    ensures MainOutcome(c).Exited? ==>
      var r := MainOutcome(c);
      && r.effects[|r.effects| - 1] == RequestSystemExit(r.code)
      && (ServerStartFailureAudit in r.effects <==> c.Threw?)
      && (c.Threw? ==> r.effects == [ServerStartFailureAudit, RequestSystemExit(r.code)])
    ensures c.Normal? ==> MainOutcome(c) == Exited(ExecutionFinished, [RequestSystemExit(ExecutionFinished)])
    ensures c.Threw? && MainOutcome(c).Exited? ==> MainOutcome(c).code != ExecutionFinished
  {
  }

  /**
   * The catch-all clause comes last and covers every earlier clause, so each
   * earlier, more specific clause must precede it to be reachable.
   */
  lemma CatchAllCoversEarlierClauses(i: nat, e: ExnClass)
    requires i < |MainClauses| && InstanceOf(e, MainClauses[i].catches)
    ensures InstanceOf(e, MainClauses[|MainClauses| - 1].catches)
  {
    InstanceOfTransitive(e, MainClauses[i].catches, Exception);
  }

  /** No clause is shadowed by an earlier one: an instance of each clause's own class is handled by it. */
  lemma EveryClauseReachable(i: nat)
    requires i < |MainClauses|
    ensures FirstMatch(MainClauses, MainClauses[i].catches) == Some(i)
  {
  }
}
