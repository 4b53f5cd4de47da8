/** The global cysigs record and the code that updates it in place: the
    sig_on/sig_off macros of macros.h and the handlers and recovery
    routines of implementation.c. Every method is proved to do exactly
    what the matching pure transition of SigState says, on the fields,
    on the log of calls out of the machine, and on the hook registry. */
module Machine {
  import opened Signals
  import opened SigState
  import CustomHandlers

  class CySigs {
    var sigOnCount: int
    var interruptReceived: int
    var insideSignalHandler: int
    var blockSigint: int
    var s: Option<string>
    /** debug_level, present in builds with debugging enabled */
    var debugLevel: int
    /** whether the library was built with ENABLE_DEBUG_CYSIGNALS */
    const debugBuild: bool
    /** the hooks of cooperating libraries */
    const hooks: CustomHandlers.Registry
    /** every call out of the machine so far, in order */
    ghost var events: seq<Event>

    /** The registry is well formed and its log of hook calls is exactly
        the one the events imply. */
    ghost predicate Valid()
      reads this, hooks
    {
      hooks.Valid() && hooks.calls == HookCalls(events, hooks.n)
    }

    /** The fields as a value. */
    ghost function State(): Cysigs
      reads this
    {
      Cysigs(sigOnCount, interruptReceived, insideSignalHandler, blockSigint, s)
    }

    /** The record as setup_cysignals_handlers leaves it: all zero. */
    constructor (hooks: CustomHandlers.Registry, debugBuild: bool)
      requires hooks.Valid() && hooks.calls == []
      ensures Valid() && State() == Initial && events == [] && debugLevel == 0
      ensures this.hooks == hooks && this.debugBuild == debugBuild
    {
      sigOnCount, interruptReceived, insideSignalHandler, blockSigint := 0, 0, 0, 0;
      s := None;
      debugLevel := 0;
      this.debugBuild := debugBuild;
      this.hooks := hooks;
      events := [];
    }

    // ---- logging ---------------------------------------------------------

    /** Records a call that does not involve the hooks. */
    ghost method Emit(e: Event)
      requires Valid() && !e.HooksUnblocked? && !e.HooksPending?
      modifies this
      ensures Valid() && State() == old(State()) && debugLevel == old(debugLevel)
      ensures events == old(events) + [e]
    {
      HookCallsAppend(events, [e], hooks.n);
      events := events + [e];
    }

    /** custom_signal_unblock, logged. */
    method UnblockHooks()
      requires Valid()
      modifies this, hooks
      ensures Valid() && State() == old(State()) && debugLevel == old(debugLevel)
      ensures events == old(events) + [HooksUnblocked]
    {
      HookCallsAppend(events, [HooksUnblocked], hooks.n);
      hooks.UnblockAll();
      events := events + [HooksUnblocked];
    }

    /** custom_set_pending_signal(sig), logged. */
    method SetPendingHooks(sig: int)
      requires Valid()
      modifies this, hooks
      ensures Valid() && State() == old(State()) && debugLevel == old(debugLevel)
      ensures events == old(events) + [HooksPending(sig)]
    {
      HookCallsAppend(events, [HooksPending(sig)], hooks.n);
      hooks.SetPendingAll(sig);
      events := events + [HooksPending(sig)];
    }

    // ---- recovery ----------------------------------------------------------

    /** _sig_on_recover. */
    method Recover()
      requires Valid()
      modifies this, hooks
      ensures Valid() && debugLevel == old(debugLevel)
      ensures State() == SigState.Recover(old(State())).st
      ensures events == old(events) + SigState.Recover(old(State())).events
    {
      blockSigint := 0;
      UnblockHooks();
      sigOnCount := 0;
      interruptReceived := 0;
      SetPendingHooks(0);
      insideSignalHandler := 0;
    }

    /** _sig_on_interrupt_received. */
    method InterruptReceived()
      requires Valid()
      modifies this, hooks
      ensures Valid() && debugLevel == old(debugLevel)
      ensures State() == SigState.InterruptReceived(old(State())).st
      ensures events == old(events) + SigState.InterruptReceived(old(State())).events
    {
      Emit(RaiseException(interruptReceived, s));
      sigOnCount := 0;
      interruptReceived := 0;
      UnblockHooks();
    }

    // ---- sig_on ------------------------------------------------------------

    /** _sig_on_prejmp. */
    method SigOnPrejmp(message: Option<string>) returns (r: int)
      requires Valid()
      modifies this
      ensures Valid() && debugLevel == old(debugLevel) && events == old(events)
      ensures State() == Prejmp(old(State()), message).st && r == Prejmp(old(State()), message).ret
    {
      s := message;
      if sigOnCount > 0 {
        sigOnCount := sigOnCount + 1;
        return 1;
      }
      return 0;
    }

    /** _sig_on_postjmp, given the value the checkpoint returned. */
    method SigOnPostjmp(jmpret: int) returns (r: int)
      requires Valid()
      modifies this, hooks
      ensures Valid() && debugLevel == old(debugLevel)
      ensures var step := Postjmp(old(State()), jmpret);
              State() == step.st && r == step.ret && events == old(events) + step.events
    {
      if jmpret > 0 {
        Recover();
        return 0;
      }
      sigOnCount := 1;
      if interruptReceived != 0 {
        InterruptReceived();
        return 0;
      }
      return 1;
    }

    /** _sig_on_ when cylongjmp(env, val) lands on its checkpoint. */
    method SigOnLanded(val: int) returns (r: int)
      requires Valid()
      modifies this, hooks
      ensures Valid() && debugLevel == old(debugLevel)
      ensures var step := Landed(old(State()), val);
              State() == step.st && r == step.ret && events == old(events) + step.events
    {
      var jmpret := if val == 0 then 1 else val;
      r := SigOnPostjmp(jmpret);
    }

    /** _sig_on_ on its way in: the checkpoint is taken only when prejmp
        answers 0, and its first return is 0. */
    method SigOn(message: Option<string>) returns (r: int)
      requires Valid()
      modifies this, hooks
      ensures Valid() && debugLevel == old(debugLevel)
      ensures var step := SigState.SigOn(old(State()), message);
              State() == step.st && r == step.ret && events == old(events) + step.events
    {
      r := SigOnPrejmp(message);
      if r == 1 {
        return;
      }
      r := SigOnPostjmp(0);
    }

    // ---- sig_off, sig_check, sig_block, sig_unblock --------------------------

    /** _sig_off_. */
    method SigOff(file: string, line: int)
      requires Valid()
      modifies this
      ensures Valid() && debugLevel == old(debugLevel)
      ensures var step := SigState.SigOff(old(State()), file, line);
              State() == step.st && events == old(events) + step.events
    {
      if sigOnCount <= 0 {
        Emit(Warning(OffWarningText(file, line)));
      } else {
        sigOnCount := sigOnCount - 1;
      }
    }

    /** sig_check. */
    method SigCheck() returns (r: int)
      requires Valid()
      modifies this, hooks
      ensures Valid() && debugLevel == old(debugLevel)
      ensures var step := SigState.SigCheck(old(State()));
              State() == step.st && r == step.ret && events == old(events) + step.events
    {
      if interruptReceived != 0 && sigOnCount == 0 {
        InterruptReceived();
        return 0;
      }
      return 1;
    }

    /** sig_block. */
    method SigBlock()
      requires Valid()
      modifies this
      ensures Valid()
      ensures State() == SigState.SigBlock(old(State()))
      ensures events == old(events) && debugLevel == old(debugLevel)
    {
      blockSigint := blockSigint + 1;
    }

    /** sig_unblock; a re-raised interrupt is delivered to the interrupt
        handler before the call returns. */
    method SigUnblock() returns (reraised: Option<Outcome>)
      requires Valid()
      modifies this, hooks
      ensures Valid() && debugLevel == old(debugLevel)
      ensures var u := SigState.SigUnblock(old(State()), hooks.AnyBlocked());
              State() == u.st && reraised == u.reraised && events == old(events) + u.events
    {
      blockSigint := blockSigint - 1;
      if interruptReceived != 0 && sigOnCount > 0 && blockSigint == 0 {
        Emit(ProcRaise(interruptReceived));
        var o := InterruptHandler(interruptReceived);
        return Some(o);
      }
      return None;
    }

    // ---- the signal handlers -------------------------------------------------

    /** cysigs_interrupt_handler; the hooks are asked only inside sig_on()
        and outside sig_block(), as the short-circuit of the source does. */
    method InterruptHandler(sig: int) returns (o: Outcome)
      requires Valid()
      modifies this, hooks
      ensures Valid() && debugLevel == old(debugLevel)
      ensures var d := Interrupt(old(State()), sig, hooks.AnyBlocked());
              State() == d.st && o == d.outcome && events == old(events) + d.events
    {
      if sigOnCount > 0 {
        if blockSigint == 0 {
          var blocked := hooks.IsBlocked();
          if blocked == 0 {
            Emit(RaiseException(sig, s));
            return Jump(sig);
          }
        }
      } else {
        Emit(SetInterrupt);
      }
      if interruptReceived != SIGHUP && interruptReceived != SIGTERM {
        interruptReceived := sig;
        SetPendingHooks(sig);
      }
      return Deferred;
    }

    /** cysigs_signal_handler. */
    method SignalHandler(sig: int) returns (o: Outcome)
      requires Valid()
      modifies this
      ensures Valid() && debugLevel == old(debugLevel)
      ensures var d := Critical(old(State()), sig);
              State() == d.st && o == d.outcome && events == old(events) + d.events
    {
      var inside := insideSignalHandler;
      insideSignalHandler := 1;
      if inside == 0 && sigOnCount > 0 && sig != SIGQUIT {
        Emit(RaiseException(sig, s));
        return Jump(sig);
      }
      Emit(ResetDefaults);
      return Die(sig, SigDie.DieMessage(sig, inside));
    }

    // ---- sig_retry, sig_error ------------------------------------------------

    /** sig_retry; outside sig_on() the SIGABRT it sends is delivered to the
        fault handler before the jump could be reached. */
    method SigRetry() returns (o: Outcome)
      requires Valid()
      modifies this
      ensures Valid() && debugLevel == old(debugLevel)
      ensures var d := SigState.SigRetry(old(State()));
              State() == d.st && o == d.outcome && events == old(events) + d.events
    {
      if sigOnCount <= 0 {
        Emit(Stderr("sig_retry() without sig_on()\n"));
        Emit(ProcRaise(SIGABRT));
        o := SignalHandler(SIGABRT);
        return;
      }
      return Jump(-1);
    }

    /** sig_error. */
    method SigError() returns (o: Outcome)
      requires Valid()
      modifies this
      ensures Valid() && debugLevel == old(debugLevel)
      ensures var d := SigState.SigError(old(State()));
              State() == d.st && o == d.outcome && events == old(events) + d.events
    {
      if sigOnCount <= 0 {
        Emit(Stderr("sig_error() without sig_on()\n"));
      }
      Emit(ProcRaise(SIGABRT));
      o := SignalHandler(SIGABRT);
    }

    // ---- _set_debug_level ------------------------------------------------------

    /** _set_debug_level. */
    method SetDebugLevel(level: int) returns (r: int)
      requires Valid()
      modifies this
      ensures Valid()
      ensures var res := SigState.SetDebugLevel(debugBuild, old(debugLevel), level);
              r == res.0 && debugLevel == res.1
      ensures State() == old(State()) && events == old(events)
    {
      if debugBuild {
        r := debugLevel;
        debugLevel := level;
      } else if level == 0 {
        r := 0;
      } else {
        r := -1;
      }
    }
  }
}
