/** Signal numbers and the small vocabulary shared by the whole model.

    The numbers are those of Linux on x86, the POSIX build being modelled.
    Nothing in the model depends on a particular value beyond the signals
    being positive and pairwise distinct. */
module Signals {

  datatype Option<+T> = None | Some(value: T)

  const SIGHUP: int := 1
  const SIGINT: int := 2
  const SIGQUIT: int := 3
  const SIGILL: int := 4
  const SIGABRT: int := 6
  const SIGBUS: int := 7
  const SIGFPE: int := 8
  const SIGSEGV: int := 11
  const SIGALRM: int := 14
  const SIGTERM: int := 15

  /** The signals the interrupt handler is written for (the comment above
      cysigs_interrupt_handler lists SIGHUP, SIGINT, SIGALRM and SIGTERM).
      A POSIX build installs it for SIGHUP, SIGINT and SIGALRM only; SIGTERM
      reaches it only in a Windows build, so this set is a superset of what
      a POSIX build delivers. */
  predicate IsInterruptSignal(sig: int) {
    sig == SIGHUP || sig == SIGINT || sig == SIGALRM || sig == SIGTERM
  }

  /** The signals routed to the critical handler. */
  predicate IsCriticalSignal(sig: int) {
    sig == SIGQUIT || sig == SIGILL || sig == SIGABRT || sig == SIGFPE
    || sig == SIGBUS || sig == SIGSEGV
  }

  /** The "orderly shutdown" signals that a pending slot never gives up. */
  predicate IsShutdownSignal(sig: int) {
    sig == SIGHUP || sig == SIGTERM
  }
}
