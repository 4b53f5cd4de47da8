/** The sig_on/sig_off state machine as pure transitions on a snapshot of
    the cysigs_t record (struct_signals.h:57-98). Each function is one
    macro or handler of macros.h and implementation.c: it returns the new
    snapshot, what the code returns, and the calls it makes into Python,
    the hook registry and the operating system, in order. The class of
    machine.dfy runs the same steps in place and is proved against these
    functions. */
module SigState {
  import opened Signals
  import opened SigDie
  import IntFormat
  import CustomHandlers

  /** The fields of cysigs_t that the machine reads and writes. */
  datatype Cysigs = Cysigs(
    /** reference counter of sig_on(); strictly positive inside sig_on() */
    sigOnCount: int,
    /** 0, or the interrupt signal that arrived when it could not be handled */
    interruptReceived: int,
    /** 1 while cysigs_signal_handler handles a fault, until recovery */
    insideSignalHandler: int,
    /** nonzero inside sig_block() */
    blockSigint: int,
    /** the text for the exception; None is the NULL of plain sig_on() */
    s: Option<string>)

  /** The record as memset leaves it when the handlers are installed. */
  const Initial: Cysigs := Cysigs(0, 0, 0, 0, None)

  /** A call out of the machine. */
  datatype Event =
    | RaiseException(sig: int, msg: Option<string>)  // sig_raise_exception(sig, cysigs.s)
    | SetInterrupt                                   // PyErr_SetInterrupt()
    | Warning(text: string)                          // PyErr_WarnEx(PyExc_RuntimeWarning, text, 2)
    | ProcRaise(sig: int)                            // kill(getpid(), sig)
    | Stderr(text: string)                           // a diagnostic on standard error
    | ResetDefaults                                  // sig_reset_defaults()
    | HooksUnblocked                                 // custom_signal_unblock()
    | HooksPending(sig: int)                         // custom_set_pending_signal(sig)

  /** What happens when a signal is delivered: control goes back to the
      checkpoint of sig_on() with value `val`, the handler returns and the
      signal stays pending, or the process is terminated. */
  datatype Outcome = Jump(val: int) | Deferred | Die(sig: int, msg: Option<string>)

  /** The result of a macro: the new record, its return value (0 for the
      void ones) and the calls it made. */
  datatype Step = Step(st: Cysigs, ret: int, events: seq<Event>)

  /** The result of a signal delivery. */
  datatype Delivery = Delivery(st: Cysigs, outcome: Outcome, events: seq<Event>)

  /** The result of sig_unblock(): the outcome of the signal it re-raised,
      if it re-raised one. */
  datatype Unblocked = Unblocked(st: Cysigs, reraised: Option<Outcome>, events: seq<Event>)

  /** The hook-registry calls one event makes, one per registered slot. */
  function EventCalls(e: Event, n: nat): seq<CustomHandlers.HookCall> {
    match e
    case HooksUnblocked => CustomHandlers.UnblockCalls(n)
    case HooksPending(sig) => CustomHandlers.PendingCalls(n, sig)
    case _ => []
  }

  /** The hook-registry calls among `events`, one per registered slot. */
  function HookCalls(events: seq<Event>, n: nat): seq<CustomHandlers.HookCall>
  {
    if events == [] then [] else EventCalls(events[0], n) + HookCalls(events[1..], n)
  }

  lemma {:induction false} HookCallsAppend(a: seq<Event>, b: seq<Event>, n: nat)
    ensures HookCalls(a + b, n) == HookCalls(a, n) + HookCalls(b, n)
  {
    if a != [] {
      var ab := a + b;
      assert ab[0] == a[0] && ab[1..] == a[1..] + b;
      HookCallsAppend(a[1..], b, n);
      var h, ra, rb := EventCalls(a[0], n), HookCalls(a[1..], n), HookCalls(b, n);
      assert HookCalls(ab, n) == h + (ra + rb);
      assert h + (ra + rb) == (h + ra) + rb;
    } else {
      assert a + b == b;
    }
  }

  // ---- checkpoints ---------------------------------------------------------

  /** The value cysetjmp returns when cylongjmp(env, val) lands on it: a
      jump never makes the checkpoint look like a first entry. */
  function Land(val: int): (r: int)
    ensures r != 0
    ensures r > 0 <==> val >= 0
    ensures val != 0 ==> r == val
  {
    if val == 0 then 1 else val
  }

  // ---- sig_on ----------------------------------------------------------------

  /** _sig_on_prejmp: stores the message; inside sig_on() it only counts one
      more level and answers 1, so that no checkpoint is taken. */
  function Prejmp(st: Cysigs, message: Option<string>): (r: Step)
    ensures r.st.s == message && r.events == []
    ensures r.ret == 1 <==> st.sigOnCount > 0
    ensures r.ret == 1 ==> r.st == st.(sigOnCount := st.sigOnCount + 1, s := message)
    ensures r.ret != 1 ==> r.ret == 0 && r.st == st.(s := message)
  {
    if st.sigOnCount > 0 then Step(st.(sigOnCount := st.sigOnCount + 1, s := message), 1, [])
    else Step(st.(s := message), 0, [])
  }

  /** _sig_on_recover: every counter back to zero, the hooks unblocked and
      told that nothing is pending. */
  function Recover(st: Cysigs): (r: Step)
    ensures r.st == Cysigs(0, 0, 0, 0, st.s)
    ensures r.events == [HooksUnblocked, HooksPending(0)]
  {
    Step(st.(blockSigint := 0, sigOnCount := 0, interruptReceived := 0, insideSignalHandler := 0),
         0, [HooksUnblocked, HooksPending(0)])
  }

  /** _sig_on_interrupt_received: raises the pending interrupt, then leaves
      sig_on() and forgets the interrupt. sig_block() nesting and the
      fault flag are left as they were. */
  function InterruptReceived(st: Cysigs): (r: Step)
    ensures r.st.sigOnCount == 0 && r.st.interruptReceived == 0
    ensures r.st.blockSigint == st.blockSigint && r.st.insideSignalHandler == st.insideSignalHandler
    ensures r.st.s == st.s
    ensures r.events == [RaiseException(st.interruptReceived, st.s), HooksUnblocked]
  {
    Step(st.(sigOnCount := 0, interruptReceived := 0), 0,
         [RaiseException(st.interruptReceived, st.s), HooksUnblocked])
  }

  /** _sig_on_postjmp: `jmpret` is what the checkpoint returned. A positive
      value is a signal that jumped back: recover and answer 0. Otherwise
      (first entry, or a retry) sig_on() is entered at depth 1, unless an
      interrupt is pending, which is raised instead. */
  function Postjmp(st: Cysigs, jmpret: int): (r: Step)
    ensures r.ret == 0 || r.ret == 1
    ensures jmpret > 0 ==> r == Recover(st)
    ensures jmpret <= 0 ==> (r.ret == 1 <==> st.interruptReceived == 0)
    ensures jmpret <= 0 && r.ret == 1 ==> r.st == st.(sigOnCount := 1) && r.events == []
    ensures jmpret <= 0 && r.ret == 0 ==> r == InterruptReceived(st.(sigOnCount := 1))
  {
    if jmpret > 0 then Recover(st)
    else
      var entered := st.(sigOnCount := 1);
      if entered.interruptReceived != 0 then InterruptReceived(entered)
      else Step(entered, 1, [])
  }

  /** _sig_on_ on its way in: prejmp, and the checkpoint's first return (0)
      only when prejmp did not short-circuit. */
  function SigOn(st: Cysigs, message: Option<string>): (r: Step)
    ensures r.ret == 0 || r.ret == 1
    ensures r.ret == 0 <==> st.sigOnCount <= 0 && st.interruptReceived != 0
    ensures r.ret == 1 ==> r.st.sigOnCount == (if st.sigOnCount > 0 then st.sigOnCount + 1 else 1)
    ensures r.ret == 1 ==> r.events == [] && r.st.s == message
    ensures r.ret == 1 ==>
              r.st == st.(sigOnCount := if st.sigOnCount > 0 then st.sigOnCount + 1 else 1, s := message)
    ensures r.ret == 0 ==> r == InterruptReceived(st.(sigOnCount := 1, s := message))
  {
    var pre := Prejmp(st, message);
    if pre.ret == 1 then pre
    else
      var post := Postjmp(pre.st, 0);
      Step(post.st, post.ret, pre.events + post.events)
  }

  /** _sig_on_ when a jump with value `val` lands on its checkpoint. */
  function Landed(st: Cysigs, val: int): (r: Step)
  {
    Postjmp(st, Land(val))
  }

  // ---- sig_off, sig_check, sig_block, sig_unblock ------------------------

  /** The text of _sig_off_warning: snprintf into a 320-byte buffer keeps at
      most 319 characters. */
  function OffWarningText(file: string, line: int): (r: string)
    ensures |r| <= 319
    ensures StartsWith(r, "sig_off() without sig_on() at ")
  {
    var full := "sig_off() without sig_on() at " + file + ":" + IntFormat.LongText(line, 10);
    if |full| <= 319 then full else full[..319]
  }

  /** _sig_off_: one level less inside sig_on(); outside, a warning and no
      change at all. */
  function SigOff(st: Cysigs, file: string, line: int): (r: Step)
    ensures st.sigOnCount > 0 ==> r.st == st.(sigOnCount := st.sigOnCount - 1) && r.events == []
    ensures st.sigOnCount <= 0 ==> r.st == st && r.events == [Warning(OffWarningText(file, line))]
    ensures r.ret == 0
  {
    if st.sigOnCount <= 0 then Step(st, 0, [Warning(OffWarningText(file, line))])
    else Step(st.(sigOnCount := st.sigOnCount - 1), 0, [])
  }

  /** sig_check: 0 after raising an interrupt that is pending outside
      sig_on(); otherwise 1 and nothing happens. */
  function SigCheck(st: Cysigs): (r: Step)
    ensures r.ret == 0 <==> st.interruptReceived != 0 && st.sigOnCount == 0
    ensures r.ret == 0 ==> r == InterruptReceived(st)
    ensures r.ret != 0 ==> r == Step(st, 1, [])
  {
    if st.interruptReceived != 0 && st.sigOnCount == 0 then InterruptReceived(st)
    else Step(st, 1, [])
  }

  /** sig_block: one level deeper in blocking interrupts. */
  function SigBlock(st: Cysigs): (r: Cysigs)
    ensures r.blockSigint == st.blockSigint + 1
    ensures r.(blockSigint := st.blockSigint) == st
  {
    st.(blockSigint := st.blockSigint + 1)
  }

  // ---- the two signal handlers --------------------------------------------

  /** cysigs_interrupt_handler (SIGHUP, SIGINT, SIGALRM, SIGTERM) for signal
      `sig`; `hooksBlocked` is what custom_signal_is_blocked answers, asked
      only inside sig_on() outside sig_block(). Handled at once when it can
      be, otherwise deferred: the Python flag is set outside sig_on(), and
      the signal is stored and forwarded unless a SIGHUP or SIGTERM is
      already pending. */
  function Interrupt(st: Cysigs, sig: int, hooksBlocked: bool): (r: Delivery)
    ensures r.outcome.Jump? <==> st.sigOnCount > 0 && st.blockSigint == 0 && !hooksBlocked
    ensures r.outcome.Jump? ==> r.outcome.val == sig && r.st == st && r.events == [RaiseException(sig, st.s)]
    ensures !r.outcome.Jump? ==> r.outcome == Deferred
    ensures r.st.(interruptReceived := st.interruptReceived) == st
    ensures !r.outcome.Jump? ==>
              r.st.interruptReceived ==
                (if IsShutdownSignal(st.interruptReceived) then st.interruptReceived else sig)
    ensures !r.outcome.Jump? ==>
              r.events == (if st.sigOnCount > 0 then [] else [SetInterrupt])
                          + (if IsShutdownSignal(st.interruptReceived) then [] else [HooksPending(sig)])
  {
    if st.sigOnCount > 0 && st.blockSigint == 0 && !hooksBlocked then
      Delivery(st, Jump(sig), [RaiseException(sig, st.s)])
    else
      var flag := if st.sigOnCount > 0 then [] else [SetInterrupt];
      if st.interruptReceived != SIGHUP && st.interruptReceived != SIGTERM then
        Delivery(st.(interruptReceived := sig), Deferred, flag + [HooksPending(sig)])
      else
        Delivery(st, Deferred, flag)
  }

  /** cysigs_signal_handler (SIGQUIT, SIGILL, SIGABRT, SIGFPE, SIGBUS,
      SIGSEGV) for signal `sig`: marks that a fault is being handled; jumps
      back to sig_on() only for a first fault inside sig_on() that is not
      SIGQUIT, and otherwise resets the handlers and terminates with the
      message of sigdie_for_sig. */
  function Critical(st: Cysigs, sig: int): (r: Delivery)
    ensures r.st == st.(insideSignalHandler := 1)
    ensures r.outcome.Jump? <==> st.insideSignalHandler == 0 && st.sigOnCount > 0 && sig != SIGQUIT
    ensures r.outcome.Jump? ==> r.outcome.val == sig && r.events == [RaiseException(sig, st.s)]
    ensures !r.outcome.Jump? ==> r.outcome == Die(sig, DieMessage(sig, st.insideSignalHandler))
    ensures !r.outcome.Jump? ==> r.events == [ResetDefaults]
  {
    var inside := st.insideSignalHandler;
    var marked := st.(insideSignalHandler := 1);
    if inside == 0 && st.sigOnCount > 0 && sig != SIGQUIT then
      Delivery(marked, Jump(sig), [RaiseException(sig, st.s)])
    else
      Delivery(marked, Die(sig, DieMessage(sig, inside)), [ResetDefaults])
  }

  /** sig_unblock: one level less of blocking; a pending interrupt is sent
      to the process again as soon as it can be handled, and that signal is
      delivered to the interrupt handler before the call returns. */
  function SigUnblock(st: Cysigs, hooksBlocked: bool): (r: Unblocked)
    ensures r.reraised.Some? <==>
              st.interruptReceived != 0 && st.sigOnCount > 0 && st.blockSigint - 1 == 0
    ensures r.reraised.None? ==> r.st == st.(blockSigint := st.blockSigint - 1) && r.events == []
    ensures r.reraised.Some? ==>
              var d := Interrupt(st.(blockSigint := 0), st.interruptReceived, hooksBlocked);
              r.reraised.value == d.outcome && r.st == d.st &&
              r.events == [ProcRaise(st.interruptReceived)] + d.events
  {
    var unblocked := st.(blockSigint := st.blockSigint - 1);
    if unblocked.interruptReceived != 0 && unblocked.sigOnCount > 0 && unblocked.blockSigint == 0 then
      var d := Interrupt(unblocked, unblocked.interruptReceived, hooksBlocked);
      Unblocked(d.st, Some(d.outcome), [ProcRaise(unblocked.interruptReceived)] + d.events)
    else
      Unblocked(unblocked, None, [])
  }

  // ---- sig_retry, sig_error ------------------------------------------------

  /** sig_retry: inside sig_on(), jump back to the checkpoint with -1;
      outside, say so and send SIGABRT, which the fault handler makes fatal. */
  function SigRetry(st: Cysigs): (r: Delivery)
    ensures st.sigOnCount > 0 ==> r == Delivery(st, Jump(-1), [])
    ensures st.sigOnCount <= 0 ==>
              r.outcome == Die(SIGABRT, DieMessage(SIGABRT, st.insideSignalHandler)) &&
              r.events == [Stderr("sig_retry() without sig_on()\n"), ProcRaise(SIGABRT), ResetDefaults]
  {
    if st.sigOnCount <= 0 then
      var d := Critical(st, SIGABRT);
      Delivery(d.st, d.outcome, [Stderr("sig_retry() without sig_on()\n"), ProcRaise(SIGABRT)] + d.events)
    else
      Delivery(st, Jump(-1), [])
  }

  /** sig_error: always sends SIGABRT, after a diagnostic when outside
      sig_on(); the fault handler then jumps back to sig_on() or terminates. */
  function SigError(st: Cysigs): (r: Delivery)
    ensures var d := Critical(st, SIGABRT); r.st == d.st && r.outcome == d.outcome
    ensures st.sigOnCount <= 0 ==>
              r.outcome.Die? &&
              r.events == [Stderr("sig_error() without sig_on()\n"), ProcRaise(SIGABRT), ResetDefaults]
    ensures st.sigOnCount > 0 ==> r.events == [ProcRaise(SIGABRT)] + Critical(st, SIGABRT).events
  {
    var note := if st.sigOnCount <= 0 then [Stderr("sig_error() without sig_on()\n")] else [];
    var d := Critical(st, SIGABRT);
    Delivery(d.st, d.outcome, note + [ProcRaise(SIGABRT)] + d.events)
  }

  // ---- _set_debug_level ------------------------------------------------------

  /** _set_debug_level(level) with the current level `current`: returns the
      answer and the level afterwards. A build without debugging knows only
      level 0 and reports -1 for any other. */
  function SetDebugLevel(debugBuild: bool, current: int, level: int): (r: (int, int))
    ensures debugBuild ==> r == (current, level)
    ensures !debugBuild ==> r.1 == current && (r.0 == 0 <==> level == 0) && (r.0 != 0 ==> r.0 == -1)
  {
    if debugBuild then (current, level)
    else if level == 0 then (0, current)
    else (-1, current)
  }
}
