/** What the sig_on/sig_off machine promises over runs of several steps:
    counter accounting for nested sig_on()/sig_off(), the single pending
    interrupt and the precedence of SIGHUP and SIGTERM, the invariant every
    run keeps, recovery, retries, and fatal reentrant faults. */
module Properties {
  import opened Signals
  import opened SigDie
  import opened SigState

  // ---- nesting ---------------------------------------------------------------

  /** sig_on() (or sig_str()) once per message, without a signal in between. */
  function Nest(st: Cysigs, msgs: seq<Option<string>>): Step
    decreases |msgs|
  {
    if msgs == [] then Step(st, 1, [])
    else
      var first := SigOn(st, msgs[0]);
      var rest := Nest(first.st, msgs[1..]);
      Step(rest.st, if first.ret == 1 then rest.ret else 0, first.events + rest.events)
  }

  /** sig_off() `k` times at the same place. */
  function Unnest(st: Cysigs, k: nat, file: string, line: int): Step
    decreases k
  {
    if k == 0 then Step(st, 0, [])
    else
      var first := SigOff(st, file, line);
      var rest := Unnest(first.st, k - 1, file, line);
      Step(rest.st, 0, first.events + rest.events)
  }

  /** With no interrupt pending, each sig_on() succeeds and adds exactly one
      level, calling nothing outside; only the message changes besides. */
  lemma {:induction false} NestCounts(st: Cysigs, msgs: seq<Option<string>>)
    requires st.sigOnCount >= 0 && st.interruptReceived == 0
    ensures var r := Nest(st, msgs);
            r.ret == 1 && r.events == [] &&
            r.st.(s := st.s) == st.(sigOnCount := st.sigOnCount + |msgs|)
    decreases |msgs|
  {
    if msgs != [] {
      var first := SigOn(st, msgs[0]);
      assert first.ret == 1 && first.events == [];
      assert first.st.(s := st.s) == st.(sigOnCount := st.sigOnCount + 1);
      NestCounts(first.st, msgs[1..]);
    }
  }

  /** Each sig_off() inside sig_on() removes exactly one level and calls
      nothing outside. */
  lemma {:induction false} UnnestCounts(st: Cysigs, k: nat, file: string, line: int)
    requires k <= st.sigOnCount
    ensures var r := Unnest(st, k, file, line);
            r.events == [] && r.st == st.(sigOnCount := st.sigOnCount - k)
    decreases k
  {
    if k > 0 {
      UnnestCounts(SigOff(st, file, line).st, k - 1, file, line);
    }
  }

  /** A balanced nest of sig_on()/sig_off() entered from outside sig_on()
      leaves the counter at 0 again, and one sig_off() too many only warns
      and leaves it at 0. */
  lemma BalancedNesting(st: Cysigs, msgs: seq<Option<string>>, file: string, line: int)
    requires st.sigOnCount == 0 && st.interruptReceived == 0
    ensures var inner := Nest(st, msgs).st;
            var after := Unnest(inner, |msgs|, file, line);
            after.events == [] && after.st.(s := st.s) == st &&
            SigOff(after.st, file, line).st == after.st &&
            SigOff(after.st, file, line).events == [Warning(OffWarningText(file, line))]
  {
    NestCounts(st, msgs);
    UnnestCounts(Nest(st, msgs).st, |msgs|, file, line);
  }

  // ---- the invariant ---------------------------------------------------------

  /** The record's documented meaning: the counters are never negative, a
      pending interrupt is an interrupt signal, and the fault flag is a
      flag. */
  ghost predicate Inv(st: Cysigs) {
    && st.sigOnCount >= 0
    && st.blockSigint >= 0
    && (st.interruptReceived == 0 || IsInterruptSignal(st.interruptReceived))
    && (st.insideSignalHandler == 0 || st.insideSignalHandler == 1)
  }

  /** Everything that can happen to the record: a macro, a jump landing on
      the checkpoint, or a signal delivered to the handler installed for it
      (`hooksBlocked` is what the registry would answer). */
  datatype Op =
    | OpSigOn(msg: Option<string>)
    | OpLand(val: int)
    | OpSigOff(file: string, line: int)
    | OpSigCheck
    | OpSigBlock
    | OpSigUnblock(hooksBlocked: bool)
    | OpInterrupt(sig: int, hooksBlocked: bool)
    | OpFault(sig: int)
    | OpSigRetry
    | OpSigError

  function Apply(st: Cysigs, op: Op): Cysigs {
    match op
    case OpSigOn(msg) => SigOn(st, msg).st
    case OpLand(val) => Landed(st, val).st
    case OpSigOff(file, line) => SigOff(st, file, line).st
    case OpSigCheck => SigCheck(st).st
    case OpSigBlock => SigBlock(st)
    case OpSigUnblock(hb) => SigUnblock(st, hb).st
    case OpInterrupt(sig, hb) => Interrupt(st, sig, hb).st
    case OpFault(sig) => Critical(st, sig).st
    case OpSigRetry => SigRetry(st).st
    case OpSigError => SigError(st).st
  }

  /** The uses the library admits: each handler only receives signals of
      the set it is written for (for the interrupt handler that set also
      holds SIGTERM, which only a Windows build routes to it), and
      sig_unblock() follows a sig_block(). */
  predicate Admitted(st: Cysigs, op: Op) {
    match op
    case OpInterrupt(sig, _) => IsInterruptSignal(sig)
    case OpFault(sig) => IsCriticalSignal(sig)
    case OpSigUnblock(_) => st.blockSigint >= 1
    case _ => true
  }

  /** Every admitted step keeps the invariant. */
  lemma StepKeepsInv(st: Cysigs, op: Op)
    requires Inv(st) && Admitted(st, op)
    ensures Inv(Apply(st, op))
  {
    match op
    case OpSigUnblock(hb) =>
      var u := st.(blockSigint := st.blockSigint - 1);
      if u.interruptReceived != 0 && u.sigOnCount > 0 && u.blockSigint == 0 {
        assert Inv(Interrupt(u, u.interruptReceived, hb).st);
      }
    case _ =>
  }

  /** The record after a run of steps. */
  function Run(st: Cysigs, ops: seq<Op>): Cysigs
    decreases |ops|
  {
    if ops == [] then st else Run(Apply(st, ops[0]), ops[1..])
  }

  predicate AdmittedRun(st: Cysigs, ops: seq<Op>)
    decreases |ops|
  {
    ops == [] || (Admitted(st, ops[0]) && AdmittedRun(Apply(st, ops[0]), ops[1..]))
  }

  /** Any admitted run from the zeroed record keeps the invariant: in
      particular sig_off() never makes the counter negative. */
  lemma {:induction false} RunKeepsInv(st: Cysigs, ops: seq<Op>)
    requires Inv(st) && AdmittedRun(st, ops)
    ensures Inv(Run(st, ops))
    decreases |ops|
  {
    if ops != [] {
      StepKeepsInv(st, ops[0]);
      RunKeepsInv(Apply(st, ops[0]), ops[1..]);
    }
  }

  lemma ReachableStatesKeepInv(ops: seq<Op>)
    requires AdmittedRun(Initial, ops)
    ensures Inv(Run(Initial, ops))
  {
    RunKeepsInv(Initial, ops);
  }

  /** Only the fault handler (directly, or through the SIGABRT of
      sig_retry()/sig_error()) sets the fault flag, and only landing on the
      checkpoint clears it. */
  lemma FaultFlagOwnership(st: Cysigs, op: Op)
    ensures !op.OpFault? && !op.OpSigRetry? && !op.OpSigError? && !op.OpLand? ==>
              Apply(st, op).insideSignalHandler == st.insideSignalHandler
    ensures op.OpLand? && Land(op.val) > 0 ==> Apply(st, op).insideSignalHandler == 0
    ensures op.OpFault? ==> Apply(st, op).insideSignalHandler == 1
  {
  }

  // ---- deferred interrupts ---------------------------------------------------

  /** The result of delivering several signals in a row. */
  datatype Deliveries = Deliveries(st: Cysigs, outcomes: seq<Outcome>, events: seq<Event>)

  function DeliverAll(st: Cysigs, sigs: seq<int>, hooksBlocked: bool): (r: Deliveries)
    ensures |r.outcomes| == |sigs|
    decreases |sigs|
  {
    if sigs == [] then Deliveries(st, [], [])
    else
      var d := Interrupt(st, sigs[0], hooksBlocked);
      var rest := DeliverAll(d.st, sigs[1..], hooksBlocked);
      Deliveries(rest.st, [d.outcome] + rest.outcomes, d.events + rest.events)
  }

  /** Interrupts cannot be handled at once: outside sig_on(), inside
      sig_block(), or while a cooperating library blocks them. */
  predicate Deferring(st: Cysigs, hooksBlocked: bool) {
    st.sigOnCount <= 0 || st.blockSigint != 0 || hooksBlocked
  }

  /** While interrupts are deferred, every delivery is deferred, nothing is
      raised, and only the pending slot of the record changes. */
  lemma {:induction false} DeferredOnlyTouchesPending(st: Cysigs, sigs: seq<int>, hb: bool)
    requires Deferring(st, hb)
    ensures var r := DeliverAll(st, sigs, hb);
            r.st.(interruptReceived := st.interruptReceived) == st &&
            (forall i :: 0 <= i < |sigs| ==> r.outcomes[i] == Deferred) &&
            (forall e :: e in r.events ==> !e.RaiseException?)
    decreases |sigs|
  {
    if sigs != [] {
      var d := Interrupt(st, sigs[0], hb);
      DeferredOnlyTouchesPending(d.st, sigs[1..], hb);
    }
  }

  /** A pending SIGHUP or SIGTERM is never overwritten by a later signal. */
  lemma {:induction false} ShutdownIsSticky(st: Cysigs, sigs: seq<int>, hb: bool)
    requires Deferring(st, hb) && IsShutdownSignal(st.interruptReceived)
    ensures DeliverAll(st, sigs, hb).st == st
    decreases |sigs|
  {
    if sigs != [] {
      ShutdownIsSticky(Interrupt(st, sigs[0], hb).st, sigs[1..], hb);
    }
  }

  /** Without SIGHUP or SIGTERM involved, N deferred signals leave a single
      pending value: the last one. */
  lemma {:induction false} LastInterruptWins(st: Cysigs, sigs: seq<int>, hb: bool)
    requires Deferring(st, hb) && !IsShutdownSignal(st.interruptReceived)
    requires sigs != [] && forall i :: 0 <= i < |sigs| ==> !IsShutdownSignal(sigs[i])
    ensures DeliverAll(st, sigs, hb).st.interruptReceived == sigs[|sigs| - 1]
    decreases |sigs|
  {
    var d := Interrupt(st, sigs[0], hb);
    assert d.st.interruptReceived == sigs[0];
    if |sigs| > 1 {
      LastInterruptWins(d.st, sigs[1..], hb);
    }
  }

  /** The first SIGHUP or SIGTERM among deferred signals is the one that
      stays pending, whatever follows it. */
  lemma {:induction false} FirstShutdownWins(st: Cysigs, before: seq<int>, sig: int, after: seq<int>, hb: bool)
    requires Deferring(st, hb) && !IsShutdownSignal(st.interruptReceived)
    requires forall i :: 0 <= i < |before| ==> !IsShutdownSignal(before[i])
    requires IsShutdownSignal(sig)
    ensures DeliverAll(st, before + [sig] + after, hb).st.interruptReceived == sig
    decreases |before|
  {
    var sigs := before + [sig] + after;
    var d := Interrupt(st, sigs[0], hb);
    if before == [] {
      assert d.st.interruptReceived == sig && sigs[1..] == after;
      ShutdownIsSticky(d.st, after, hb);
    } else {
      assert sigs[1..] == before[1..] + [sig] + after;
      FirstShutdownWins(d.st, before[1..], sig, after, hb);
    }
  }

  /** How many times `e` occurs in `events`. */
  function Occurrences(events: seq<Event>, e: Event): nat
    decreases |events|
  {
    if events == [] then 0
    else (if events[0] == e then 1 else 0) + Occurrences(events[1..], e)
  }

  lemma {:induction false} OccurrencesAppend(a: seq<Event>, b: seq<Event>, e: Event)
    ensures Occurrences(a + b, e) == Occurrences(a, e) + Occurrences(b, e)
  {
    if a == [] {
      assert a + b == b;
    } else {
      assert (a + b)[0] == a[0] && (a + b)[1..] == a[1..] + b;
      OccurrencesAppend(a[1..], b, e);
    }
  }

  /** Outside sig_on() every interrupt sets Python's interrupt flag once. */
  lemma {:induction false} OutsideEveryInterruptFlagsPython(st: Cysigs, sigs: seq<int>, hb: bool)
    requires st.sigOnCount <= 0
    ensures Occurrences(DeliverAll(st, sigs, hb).events, SetInterrupt) == |sigs|
    decreases |sigs|
  {
    if sigs != [] {
      var d := Interrupt(st, sigs[0], hb);
      OutsideEveryInterruptFlagsPython(d.st, sigs[1..], hb);
      OccurrencesAppend(d.events, DeliverAll(d.st, sigs[1..], hb).events, SetInterrupt);
      assert Occurrences(d.events, SetInterrupt) == 1 by {
        if IsShutdownSignal(st.interruptReceived) {
          assert d.events == [SetInterrupt];
        } else {
          assert d.events == [SetInterrupt, HooksPending(sigs[0])];
          assert d.events[1..][1..] == [];
        }
      }
    }
  }

  // ---- sig_block / sig_unblock -------------------------------------------------

  /** sig_unblock() changes nothing but the blocking level, whether or not it
      re-raises: a re-raised interrupt either jumps or is stored again. */
  lemma UnblockOnlyChangesBlock(st: Cysigs, hb: bool)
    ensures SigUnblock(st, hb).st == st.(blockSigint := st.blockSigint - 1)
  {
    var u := st.(blockSigint := st.blockSigint - 1);
    if u.interruptReceived != 0 && u.sigOnCount > 0 && u.blockSigint == 0 {
      var d := Interrupt(u, u.interruptReceived, hb);
      assert d.st == u;
    }
  }

  /** Re-raising a pending interrupt at the end of the outermost
      sig_block() inside sig_on() jumps back with it at once. */
  lemma UnblockRaisesPending(st: Cysigs)
    requires st.sigOnCount > 0 && st.blockSigint == 1 && st.interruptReceived != 0
    ensures var pending := st.interruptReceived;
            SigUnblock(st, false) ==
              Unblocked(st.(blockSigint := 0), Some(Jump(pending)),
                        [ProcRaise(pending), RaiseException(pending, st.s)])
  {
  }

  /** Inside sig_on(): block, take any number of interrupts, unblock. Each
      one is deferred and none raised; sig_unblock() then raises exactly
      one exception, for the single pending signal, and jumps back to
      sig_on() with it, where recovery clears everything. */
  lemma BlockedInterruptsRaisedOnce(st: Cysigs, sigs: seq<int>)
    requires Inv(st) && st.sigOnCount > 0 && st.blockSigint == 0 && st.interruptReceived == 0
    requires sigs != [] && forall i :: 0 <= i < |sigs| ==> IsInterruptSignal(sigs[i])
    ensures var blocked := DeliverAll(SigBlock(st), sigs, false);
            var pending := blocked.st.interruptReceived;
            var u := SigUnblock(blocked.st, false);
            pending in sigs &&
            (forall e :: e in blocked.events ==> !e.RaiseException?) &&
            u.reraised == Some(Jump(pending)) &&
            u.events == [ProcRaise(pending), RaiseException(pending, st.s)] &&
            Landed(u.st, pending).st == Cysigs(0, 0, 0, 0, st.s)
  {
    var b := SigBlock(st);
    var blocked := DeliverAll(b, sigs, false);
    DeferredOnlyTouchesPending(b, sigs, false);
    PendingIsDelivered(b, sigs, false);
    assert IsInterruptSignal(blocked.st.interruptReceived) && blocked.st.s == st.s;
    UnblockThenLand(blocked.st);
  }

  /** The re-raise at the outermost sig_unblock() inside sig_on(), and the
      landing of its jump. */
  lemma UnblockThenLand(b: Cysigs)
    requires b.sigOnCount > 0 && b.blockSigint == 1 && b.interruptReceived > 0
    ensures var pending := b.interruptReceived;
            var u := SigUnblock(b, false);
            u.reraised == Some(Jump(pending)) &&
            u.events == [ProcRaise(pending), RaiseException(pending, b.s)] &&
            Landed(u.st, pending).st == Cysigs(0, 0, 0, 0, b.s)
  {
    UnblockRaisesPending(b);
    RecoverAtAnyDepth(SigUnblock(b, false).st, b.interruptReceived);
  }

  /** After deferred deliveries the pending value is one of the signals
      delivered, provided at least one was. */
  lemma {:induction false} PendingIsDelivered(st: Cysigs, sigs: seq<int>, hb: bool)
    requires Deferring(st, hb) && st.interruptReceived == 0 && sigs != []
    requires forall i :: 0 <= i < |sigs| ==> IsInterruptSignal(sigs[i])
    ensures DeliverAll(st, sigs, hb).st.interruptReceived in sigs
    decreases |sigs|
  {
    var d := Interrupt(st, sigs[0], hb);
    assert d.st.interruptReceived == sigs[0];
    if |sigs| > 1 {
      PendingFrom(d.st, sigs[1..], hb, sigs[0]);
      assert sigs == [sigs[0]] + sigs[1..];
    }
  }

  lemma {:induction false} PendingFrom(st: Cysigs, sigs: seq<int>, hb: bool, prev: int)
    requires Deferring(st, hb) && st.interruptReceived == prev
    ensures var p := DeliverAll(st, sigs, hb).st.interruptReceived; p == prev || p in sigs
    decreases |sigs|
  {
    if sigs != [] {
      var d := Interrupt(st, sigs[0], hb);
      PendingFrom(d.st, sigs[1..], hb, d.st.interruptReceived);
      assert sigs == [sigs[0]] + sigs[1..];
    }
  }

  // ---- sig_check -----------------------------------------------------------------

  /** sig_check() does what sig_on() followed by sig_off() would do, except
      that it leaves the stored message alone (and so raises a pending
      interrupt with the message already stored, where sig_on() would use
      none). */
  lemma SigCheckIsSigOnSigOff(st: Cysigs, file: string, line: int)
    requires st.sigOnCount >= 0
    ensures var on := SigOn(st, None);
            var check := SigCheck(st);
            check.ret == on.ret &&
            (on.ret == 1 ==>
               SigOff(on.st, file, line).st == check.st.(s := None) &&
               check.events == [] && SigOff(on.st, file, line).events == []) &&
            (on.ret == 0 ==>
               on.st == check.st.(s := None) &&
               on.events == [RaiseException(st.interruptReceived, None), HooksUnblocked] &&
               check.events == [RaiseException(st.interruptReceived, st.s), HooksUnblocked])
  {
  }

  // ---- faults, recovery and retries -------------------------------------------

  /** However deep the nesting, a signal that jumps back lands in sig_on()
      with everything reset to zero, and sig_on() reports failure. */
  lemma RecoverAtAnyDepth(st: Cysigs, sig: int)
    requires sig > 0
    ensures Landed(st, sig) == Step(Cysigs(0, 0, 0, 0, st.s), 0, [HooksUnblocked, HooksPending(0)])
  {
  }

  /** A fault that arrives while an earlier one is being handled, that is
      before the jump has landed, terminates the process with a message
      that says so. */
  lemma ReentrantFaultIsFatal(st: Cysigs, first: int, second: int)
    requires second != SIGQUIT
    ensures var d1 := Critical(st, first);
            var d2 := Critical(d1.st, second);
            d2.outcome == Die(second, DieMessage(second, 1)) &&
            EndsWith(d2.outcome.msg.value, " during signal handling.")
  {
    DieMessageTellsInside(second, 1);
  }

  /** Once the jump has landed, the next fault inside sig_on() is handled
      again instead of being fatal. */
  lemma FaultHandledAgainAfterLanding(st: Cysigs, first: int, second: int)
    requires st.insideSignalHandler == 0 && st.sigOnCount > 0 && st.interruptReceived == 0
    requires IsCriticalSignal(first) && IsCriticalSignal(second) && first != SIGQUIT && second != SIGQUIT
    ensures var d1 := Critical(st, first);
            var landed := Landed(d1.st, first).st;
            var again := SigOn(landed, None);
            d1.outcome == Jump(first) && again.ret == 1 &&
            Critical(again.st, second).outcome == Jump(second)
  {
  }

  /** A fault outside sig_on() is fatal, with the message that explains it. */
  lemma FaultOutsideIsFatal(st: Cysigs, sig: int)
    requires st.sigOnCount <= 0 && st.insideSignalHandler == 0 && sig != SIGQUIT
    ensures Critical(st, sig).outcome == Die(sig, DieMessage(sig, 0))
    ensures !EndsWith(Critical(st, sig).outcome.msg.value, " during signal handling.")
  {
    DieMessageTellsInside(sig, 0);
  }

  /** sig_retry() inside sig_on() lands as a fresh entry into sig_on() at
      depth 1, as if nothing had happened since the outermost sig_on(). */
  lemma RetryReenters(st: Cysigs)
    requires st.sigOnCount > 0 && st.interruptReceived == 0
    ensures SigRetry(st).outcome == Jump(-1)
    ensures Landed(SigRetry(st).st, -1) == Step(st.(sigOnCount := 1), 1, [])
  {
  }

  /** sig_retry() and sig_error() outside sig_on() end the process through
      SIGABRT, after the diagnostic. */
  lemma RetryAndErrorOutsideAreFatal(st: Cysigs)
    requires st.sigOnCount <= 0 && st.insideSignalHandler == 0
    ensures SigRetry(st).outcome == Die(SIGABRT, Some("Unhandled SIGABRT: An abort() occurred."))
    ensures SigError(st).outcome == Die(SIGABRT, Some("Unhandled SIGABRT: An abort() occurred."))
    ensures SigRetry(st).events[0] == Stderr("sig_retry() without sig_on()\n")
    ensures SigError(st).events[0] == Stderr("sig_error() without sig_on()\n")
  {
    assert DieMessage(SIGABRT, 0).value == "Unhandled SIGABRT: An abort() occurred.";
  }

  /** sig_error() inside sig_on() jumps back with SIGABRT, so the exception
      already set is seen by sig_on(). */
  lemma ErrorInsideJumps(st: Cysigs)
    requires st.sigOnCount > 0 && st.insideSignalHandler == 0
    ensures SigError(st).outcome == Jump(SIGABRT)
    ensures SigError(st).events == [ProcRaise(SIGABRT), RaiseException(SIGABRT, st.s)]
  {
  }

  // ---- _set_debug_level ----------------------------------------------------------

  /** With debugging, setting back the level that was returned restores the
      old one; without it, nothing is ever stored. */
  lemma DebugLevelRestores(debugBuild: bool, current: int, level: int)
    ensures var first := SetDebugLevel(debugBuild, current, level);
            SetDebugLevel(debugBuild, first.1, if debugBuild then first.0 else 0).1 == current
  {
  }
}
