/**
 * The Java throwable classes that reach, or leave, the standalone server's
 * startup code, with the subclass relation Java declares for them, and the
 * two ways a Java statement can complete.
 */
module Throwables {

  /** Throwable classes; each constructor stands for instances of exactly that class. */
  datatype ExnClass =
    | Throwable
    | Exception
    | Error                               // java.lang.Error, e.g. OutOfMemoryError
    | RuntimeException
    | IllegalArgumentException
    | NumberFormatException               // thrown by integer parsing of positional arguments
    | IOException
    | DatadirException                    // FileTxnSnapLog.DatadirException
    | ConfigException                     // QuorumPeerConfig.ConfigException
    | AdminServerException                // AdminServer.AdminServerException
    | MetricsProviderLifeCycleException
    | InterruptedException

  /** Distance from `Throwable` in the class hierarchy. */
  function Depth(c: ExnClass): nat {
    match c
    case Throwable => 0
    case Exception | Error => 1
    case RuntimeException | IOException | ConfigException | AdminServerException
       | MetricsProviderLifeCycleException | InterruptedException => 2
    case IllegalArgumentException | DatadirException => 3
    case NumberFormatException => 4
  }

  /** The direct superclass of every class below `Throwable`. */
  function Parent(c: ExnClass): (p: ExnClass)
    requires c != Throwable
    ensures Depth(p) + 1 == Depth(c)
  {
    match c
    case Exception | Error => Throwable
    case RuntimeException | IOException | ConfigException | AdminServerException
       | MetricsProviderLifeCycleException | InterruptedException => Exception
    case IllegalArgumentException => RuntimeException
    case NumberFormatException => IllegalArgumentException
    case DatadirException => IOException
  }

  /** Java's `instanceof`: an instance of class `c` is an instance of `k`. */
  predicate InstanceOf(c: ExnClass, k: ExnClass)
    decreases Depth(c)
  {
    c == k || (c != Throwable && InstanceOf(Parent(c), k))
  }

  /** How a Java statement completes: normally, or abruptly by throwing. */
  datatype Completion = Normal | Threw(exn: ExnClass)

  /** What a single call into a collaborator does: return, or throw an instance of a class. */
  datatype Outcome = Returns | Throws(exn: ExnClass)

  /** `instanceof` is transitive along the hierarchy. */
  lemma {:induction false} InstanceOfTransitive(a: ExnClass, b: ExnClass, c: ExnClass)
    requires InstanceOf(a, b) && InstanceOf(b, c)
    ensures InstanceOf(a, c)
    decreases Depth(a)
  {
    if a != b {
      InstanceOfTransitive(Parent(a), b, c);
    }
  }

  /** Every throwable is an Exception, an Error, or a bare Throwable, and never both of the first two. */
  lemma {:induction false} ExceptionOrError(c: ExnClass)
    ensures InstanceOf(c, Exception) || InstanceOf(c, Error) || c == Throwable
    ensures !(InstanceOf(c, Exception) && InstanceOf(c, Error))
    decreases Depth(c)
  {
    if c != Throwable && c != Exception && c != Error {
      ExceptionOrError(Parent(c));
    }
  }
}
