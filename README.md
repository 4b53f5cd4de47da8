# cysignals: the sig_on/sig_off state machine, in Dafny

cysignals lets compiled extension code for Python be interrupted. Code
between `sig_on()` and `sig_off()` can receive SIGINT, SIGALRM, SIGSEGV and
other signals. The handler raises a Python exception and jumps back to the
checkpoint taken by `sig_on()`. Outside such a region, interrupts are
deferred and faults are fatal.

This project models the heart of it:

- **The state record** `cysigs_t`. It is `Machine.CySigs`, a class whose
  methods update the fields in place:
  - `sig_on_count`, `interrupt_received`, `inside_signal_handler`,
    `block_sigint` and `s`;
  - `debug_level`, in debug builds.
- **The pure transitions** behind each method, in `SigState`. They cover:
  - the macros `_sig_on_prejmp`, `_sig_on_postjmp`, `_sig_off_`,
    `sig_check`, `sig_block`, `sig_unblock`, `sig_retry`, `sig_error` and
    `_set_debug_level`;
  - the interrupt handler and the fault handler;
  - the two recovery routines.

  Every method is proved to do what its transition says. This covers the
  fields, the log of calls it makes, and the calls it makes into the hook
  registry.
- **Checkpoints and jumps** are values. `cysetjmp` returning 0 is a first
  entry. A jump is the outcome `Jump(val)`. Landing on the checkpoint runs
  `_sig_on_postjmp` with `val`, after cylongjmp's rule that 0 becomes 1.
- **Signal deliveries** are explicit calls of the handler methods. Each
  returns `Jump(val)`, `Deferred` or `Die(sig, message)`.
  - `proc_raise`, that is `kill(getpid(), sig)`, is assumed to deliver
    the signal to the calling thread and to run its handler before `kill`
    returns, as Linux does for the main thread when the signal is not
    blocked. Under that assumption `sig_unblock`, `sig_retry` and
    `sig_error` deliver the signal they send inside the same call. POSIX
    does not guarantee it (src/cysignals/macros.h:59-62).
- **Calls into Python** are entries of a ghost event log:
  - `sig_raise_exception`, `PyErr_SetInterrupt`, `PyErr_WarnEx`;
  - the stderr diagnostics and `sig_reset_defaults`.
- **The hook registry of cooperating libraries** is `CustomHandlers.Registry`.
  It has 16 slots. What each library's "is blocked" hook answers is given
  when the registry is built. The unblock and set-pending calls are logged
  per slot.
- **Helpers of the crash path**:
  - the async-signal-safe formatter `ulong_to_str`/`long_to_str`, which
    writes a `char` array backwards in place;
  - the fatal-message table of `sigdie_for_sig`;
  - the 4096-byte round-up of the trampoline stack;
  - the Cygwin mapping from Windows exception codes to signals.

The POSIX build is modelled, with Linux signal numbers. The properties only
use the signals by name.

Properties proved (module `Properties`):

- **Nesting.** A balanced nest of `sig_on`/`sig_off` returns the counter to
  zero. `sig_off` outside `sig_on` only warns.
- **Invariant.** Every admitted run from the zeroed record keeps it:
  - the counters are never negative;
  - the pending slot is empty or holds an interrupt signal;
  - the fault flag is 0 or 1.
- **Deferred interrupts.** While interrupts are deferred:
  - nothing is raised;
  - the last signal wins;
  - the first SIGHUP/SIGTERM sticks;
  - outside `sig_on`, each one sets Python's flag once.
- **Blocking.** Inside `sig_on`, and with no hook blocking interrupts,
  interrupts taken inside `sig_block` lead to exactly one exception when
  the outermost `sig_unblock` is reached. Outside `sig_on` each of them
  sets Python's flag instead and nothing is re-raised, and when a hook
  blocks interrupts the re-raised signal is deferred again.
- **Recovery.** A jump at any depth recovers to zero.
- **Faults.** A second fault before the jump lands is fatal, with a
  message that says so. After landing, faults are handled again.
- **Retries.** `sig_retry` re-enters at depth 1. Outside `sig_on`,
  `sig_retry` and `sig_error` are fatal.
- **sig_check.** It behaves like `sig_on(); sig_off()`, up to the stored
  message.

Formatting keeps C's semantics explicitly:

- `unsigned long` and `long` are 64-bit subset types.
- `uintptr_t` is `bv64`, so the alignment expression wraps as it does in C.
- `long_to_str` negates `val` before converting it to `unsigned long`.
  The model takes the mathematical magnitude. For `LONG_MIN` that is
  2^63, the value a two's complement machine produces.

## Model

| member | source | states |
|---|---|---|
| `SigDie.DieMessage` | src/cysignals/implementation.c:223-270 | SIGQUIT is the only signal with no message. Each fault signal's message starts with "Unhandled " and the signal's name. Any other signal's message starts with "Unknown signal " |
| `SigDie.DieMessageTellsInside` | src/cysignals/implementation.c:230-269 | For every signal but SIGQUIT, the message ends with " during signal handling." exactly when the signal arrived while a fault was being handled |
| `SigDie.DieMessagesDistinct` | src/cysignals/implementation.c:231-261 | Two different fault signals never get the same text. Neither does one fault signal inside and outside fault handling |
| `CustomHandlers.Registry.constructor` | src/cysignals/implementation.c:58-63 | The registry starts with the given hooks in slots 0..n-1 (at most 16) and no calls made |
| `CustomHandlers.Registry.IsBlocked` | src/cysignals/implementation.c:65-72 | Returns 0 or 1. It returns 1 exactly when some registered hook reports blocked |
| `CustomHandlers.Registry.UnblockAll` | src/cysignals/implementation.c:74-78 | Calls every registered unblock hook exactly once, in slot order |
| `CustomHandlers.Registry.SetPendingAll` | src/cysignals/implementation.c:81-85 | Forwards the same signal to every registered hook exactly once, in slot order |
| `IntFormat.Digits` | src/cysignals/implementation.c:157-168 | The base-`base` numeral of a value has at least one digit |
| `IntFormat.DigitsShape` | src/cysignals/implementation.c:163-167 | The numeral starts with '0' only for 0 and never holds a sign |
| `IntFormat.DigitsRoundTrip` | src/cysignals/implementation.c:157-168 | Parsing the digits back in the same base gives the formatted value |
| `IntFormat.DigitsFit` | src/cysignals/implementation.c:163-164 | A value below base^k has at most k digits |
| `IntFormat.LongText` | src/cysignals/implementation.c:170-174 | The text of a long starts with '-' exactly when the value is negative |
| `IntFormat.LongTextRoundTrip` | src/cysignals/implementation.c:170-174 | Parsing long_to_str's text back, sign included, gives the formatted value |
| `IntFormat.DecimalLongFitsBuffer` | src/cysignals/implementation.c:176-181 | The decimal text of any 64-bit long, plus its NUL, fits the 21-byte buffer of print_stderr_long |
| `IntFormat.HexPointerFitsBuffer` | src/cysignals/implementation.c:183-193 | The hexadecimal text of any 64-bit pointer, plus its NUL, fits the 17-byte buffer of print_stderr_ptr |
| `IntFormat.UlongToStr` | src/cysignals/implementation.c:157-168 | Writes exactly the numeral of `val`, then a NUL, at the given place in the array. Every other cell stays as it was |
| `IntFormat.LongToStr` | src/cysignals/implementation.c:170-174 | Writes exactly long_to_str's text of `val`, then a NUL. Every other cell stays as it was |
| `TrampolineStack.TrampolineStackSize` | src/cysignals/implementation.c:448-453 | The stack size is 1 << 17, raised to PTHREAD_STACK_MIN when that is larger |
| `TrampolineStack.AlignUpBounds` | src/cysignals/implementation.c:457-461 | The rounded address is a multiple of 4096. It is at least the block's start and less than 4096 bytes past it |
| `TrampolineStack.AlignUpWrapsInLastPage` | src/cysignals/implementation.c:460 | In the last page of the address space the rounding wraps to 0 |
| `TrampolineStack.AlignedStackFits` | src/cysignals/implementation.c:454-461 | The aligned stack of `size` bytes lies inside the malloc'ed block of `size + 4096` bytes |
| `Cygwin.ExceptionSignal` | src/cysignals/implementation_cygwin.c:27-66 | Each case group maps to its own signal, in both directions: FPE, ILL, ALRM, BUS, SEGV and INT. An unlisted code leaves 0 |
| `Cygwin.AltstackHandler` | src/cysignals/implementation_cygwin.c:5-70 | Execution continues exactly when no fault is being handled. Otherwise the process dies with the mapped signal and the inside-handling message |
| `Cygwin.UnlistedCodeIsUnknown` | src/cysignals/implementation_cygwin.c:7-68 | An unlisted code during fault handling ends with "Unknown signal during signal handling." |
| `SigState.Land` | src/cysignals/cysetjmp.h:92 | A landed jump never looks like a first entry. It is positive exactly for non-negative values and keeps every nonzero value |
| `SigState.Prejmp` | src/cysignals/macros.h:115-140 | Always stores the message. It answers 1 exactly inside sig_on, and then counts one more level. Otherwise it answers 0 and changes nothing else |
| `SigState.Recover` | src/cysignals/implementation.c:528-542 | Block level, counter, pending signal and fault flag all become 0. The hooks are unblocked, then told that 0 is pending |
| `SigState.InterruptReceived` | src/cysignals/implementation.c:508-524 | Raises the pending signal with the stored message. Then it zeroes only the counter and the pending slot, and unblocks the hooks. The block level and fault flag are kept |
| `SigState.Postjmp` | src/cysignals/macros.h:147-173 | A positive checkpoint value recovers and answers 0. Otherwise it enters at depth 1: it answers 1 when nothing is pending, and otherwise raises the pending interrupt and answers 0 |
| `SigState.SigOn` | src/cysignals/macros.h:110-172 | sig_on fails exactly when entered from outside with an interrupt pending. On success it adds a level (or enters at 1), stores the message, calls nothing, and leaves the pending slot, the block level and the fault flag as they were. On failure it stores the message, enters at depth 1, raises the pending interrupt, clears the counter and the slot, and unblocks the hooks |
| `SigState.OffWarningText` | src/cysignals/implementation.c:545-549 | The warning text fits snprintf's 320-byte buffer and starts with "sig_off() without sig_on() at " |
| `SigState.SigOff` | src/cysignals/macros.h:180-198 | Inside sig_on it removes exactly one level. Outside, it only warns and changes nothing |
| `SigState.SigCheck` | src/cysignals/macros.h:216-225 | Answers 0 exactly when an interrupt is pending outside sig_on, which it then raises. Otherwise it answers 1 and changes nothing |
| `SigState.SigBlock` | src/cysignals/macros.h:246-253 | One more blocking level. Nothing else changes |
| `SigState.SigUnblock` | src/cysignals/macros.h:255-271 | One level less. It re-raises exactly when an interrupt is pending inside sig_on and the level reaches 0. The re-raised signal is delivered to the interrupt handler |
| `SigState.Interrupt` | src/cysignals/implementation.c:299-349 | Jumps with `sig` exactly inside sig_on, outside sig_block, with no hook blocked; it then raises and changes nothing. Otherwise it defers, and only the pending slot can change. A pending SIGHUP or SIGTERM is kept; any other slot value becomes `sig`. Python's interrupt flag is set only outside sig_on. `sig` is forwarded to the hooks exactly when it is stored |
| `SigState.Critical` | src/cysignals/implementation.c:356-392 | Always sets the fault flag. Jumps with `sig` exactly for a first fault inside sig_on that is not SIGQUIT. Otherwise it resets the handlers and dies with sigdie_for_sig's message |
| `SigState.SigRetry` | src/cysignals/macros.h:277-287 | Inside sig_on it jumps with -1. Outside, it prints the diagnostic, sends SIGABRT and dies |
| `SigState.SigError` | src/cysignals/macros.h:292-299 | Always sends SIGABRT and ends as the fault handler decides. Outside sig_on it prints a diagnostic first and is fatal |
| `SigState.SetDebugLevel` | src/cysignals/macros.h:302-314 | With debugging, returns the old level and stores the new one. Without it, returns 0 exactly for level 0 and -1 otherwise, and stores nothing |
| `Machine.CySigs.constructor` | src/cysignals/implementation.c:596-597 | Every field starts at zero and the message is NULL |
| `Machine.CySigs.Recover` | src/cysignals/implementation.c:528-542 | Updates the record, the log and the hook calls exactly as `SigState.Recover` says |
| `Machine.CySigs.InterruptReceived` | src/cysignals/implementation.c:508-524 | Updates the record, the log and the hook calls exactly as `SigState.InterruptReceived` says |
| `Machine.CySigs.SigOnPrejmp` | src/cysignals/macros.h:115-140 | Updates the record and returns exactly as `SigState.Prejmp` says |
| `Machine.CySigs.SigOnPostjmp` | src/cysignals/macros.h:147-173 | Updates the record, the log and the hooks and returns exactly as `SigState.Postjmp` says |
| `Machine.CySigs.SigOnLanded` | src/cysignals/cysetjmp.h:92 | A landing jump runs postjmp on the landed value |
| `Machine.CySigs.SigOn` | src/cysignals/macros.h:110 | Runs prejmp, and the checkpoint only when prejmp answers 0, as `SigState.SigOn` says |
| `Machine.CySigs.SigOff` | src/cysignals/macros.h:180-198 | Updates the record and the log as `SigState.SigOff` says |
| `Machine.CySigs.SigCheck` | src/cysignals/macros.h:216-225 | Updates the record, the log and the hooks and returns as `SigState.SigCheck` says |
| `Machine.CySigs.SigBlock` | src/cysignals/macros.h:246-253 | Adds one blocking level and nothing else |
| `Machine.CySigs.SigUnblock` | src/cysignals/macros.h:255-271 | Updates the record and the log as `SigState.SigUnblock` says, given the hooks' actual answer |
| `Machine.CySigs.InterruptHandler` | src/cysignals/implementation.c:299-349 | Behaves as `SigState.Interrupt` for the hooks' actual answer: the same fields, outcome and logged calls |
| `Machine.CySigs.SignalHandler` | src/cysignals/implementation.c:356-392 | Updates the record and the log and returns the outcome as `SigState.Critical` says |
| `Machine.CySigs.SigRetry` | src/cysignals/macros.h:277-287 | Behaves as `SigState.SigRetry` |
| `Machine.CySigs.SigError` | src/cysignals/macros.h:292-299 | Behaves as `SigState.SigError` |
| `Machine.CySigs.SetDebugLevel` | src/cysignals/macros.h:302-314 | Returns and stores as `SigState.SetDebugLevel` says. The record is untouched |
| `Properties.NestCounts` | src/cysignals/macros.h:132-136 | With nothing pending, k nested sig_on calls all succeed and raise the counter by exactly k. They call nothing outside |
| `Properties.UnnestCounts` | src/cysignals/macros.h:190-197 | k sig_off calls inside a depth of at least k lower the counter by exactly k. They call nothing outside |
| `Properties.BalancedNesting` | src/cysignals/macros.h:110-198 | A balanced nest entered from outside leaves the counter at 0. One extra sig_off only warns |
| `Properties.StepKeepsInv` | src/cysignals/struct_signals.h:59-80 | Every admitted macro, landing or delivery keeps the invariant. The counters stay non-negative, a pending value is an interrupt signal, and the fault flag is 0 or 1 |
| `Properties.RunKeepsInv` | src/cysignals/struct_signals.h:59-80 | Every admitted run keeps the invariant |
| `Properties.ReachableStatesKeepInv` | src/cysignals/implementation.c:597 | Every admitted run from the zeroed record satisfies the invariant |
| `Properties.FaultFlagOwnership` | src/cysignals/struct_signals.h:71-75 | Only the fault handler and landing change the fault flag. The interrupt handler never touches it |
| `Properties.DeliverAll` | src/cysignals/implementation.c:299-349 | Delivering n signals gives n outcomes |
| `Properties.DeferredOnlyTouchesPending` | src/cysignals/implementation.c:329-348 | While deferring, every delivery is deferred and nothing is raised. Only the pending slot changes |
| `Properties.ShutdownIsSticky` | src/cysignals/implementation.c:337-348 | A pending SIGHUP or SIGTERM is never overwritten |
| `Properties.LastInterruptWins` | src/cysignals/implementation.c:340-348 | Without SIGHUP or SIGTERM, n deferred signals leave one pending value, the last one |
| `Properties.FirstShutdownWins` | src/cysignals/implementation.c:340-348 | The first SIGHUP or SIGTERM among deferred signals is the one that stays pending |
| `Properties.PendingIsDelivered` | src/cysignals/struct_signals.h:63-69 | After deferring at least one signal, the pending value is one of the delivered signals |
| `Properties.PendingFrom` | src/cysignals/implementation.c:340-348 | After deferred deliveries, the pending value is the previous one or one of the delivered signals |
| `Properties.OutsideEveryInterruptFlagsPython` | src/cysignals/implementation.c:329-335 | Outside sig_on, n interrupts set Python's interrupt flag exactly n times |
| `Properties.UnblockOnlyChangesBlock` | src/cysignals/macros.h:255-271 | sig_unblock changes only the block level, whether or not it re-raises |
| `Properties.UnblockRaisesPending` | src/cysignals/macros.h:265-270 | Leaving the outermost sig_block inside sig_on with an interrupt pending raises it and jumps with it |
| `Properties.BlockedInterruptsRaisedOnce` | src/cysignals/macros.h:228-271 | Inside sig_on, interrupts taken within sig_block are all deferred. sig_unblock then raises exactly one exception, for the single pending signal. Landing recovers to zero |
| `Properties.SigCheckIsSigOnSigOff` | src/cysignals/macros.h:210-225 | sig_check gives the same answer, state and calls as sig_on followed by sig_off, except for the stored message |
| `Properties.RecoverAtAnyDepth` | src/cysignals/macros.h:149-154 | Whatever the nesting depth, a signal landing on the checkpoint resets every counter to 0 and makes sig_on fail |
| `Properties.ReentrantFaultIsFatal` | src/cysignals/implementation.c:358-391 | A fault arriving before the previous fault's jump lands is fatal. Its message ends with " during signal handling." |
| `Properties.FaultHandledAgainAfterLanding` | src/cysignals/implementation.c:541 | After the landing, re-entering sig_on lets the next fault jump again |
| `Properties.FaultOutsideIsFatal` | src/cysignals/implementation.c:384-391 | A fault outside sig_on is fatal, with the message for a fault outside handling |
| `Properties.RetryReenters` | src/cysignals/macros.h:156-158 | sig_retry inside sig_on lands as a fresh entry at depth 1 |
| `Properties.RetryAndErrorOutsideAreFatal` | src/cysignals/macros.h:279-298 | Outside sig_on, sig_retry and sig_error print their diagnostic and die of SIGABRT with the abort() message |
| `Properties.ErrorInsideJumps` | src/cysignals/macros.h:292-299 | sig_error inside sig_on sends SIGABRT, raises for it and jumps back |
| `Properties.DebugLevelRestores` | src/cysignals/macros.h:302-314 | In a debug build, setting back the returned level restores the old one. Without debugging, nothing is stored |

## Left out

- Non-local control transfer. The assembly of `cysetjmp`/`cylongjmp` and
  `sigsetjmp`/`siglongjmp` is not modelled. A jump is an outcome value, and
  landing is a separate call.
- The trampoline thread and stacks. `_sig_on_trampoline`, `setup_trampoline`
  apart from its size and alignment arithmetic, `setup_alt_stack` and
  `setup_cysignals_handlers` are left out, apart from the zeroing of the
  record. They are thread, `sigaltstack` and `sigaction` plumbing.
- Signal masks and atomicity. The `sigprocmask` calls that block interrupts
  during handlers and recovery are left out, and so is the `volatile` or
  atomic type of the fields. Interleaving is modelled only as explicit
  delivery calls between steps.
- The Windows build, in which the handlers do not jump.
- The crash reporter's I/O: `sigdie`'s backtraces, environment lookups,
  writes and the final `raise`/`exit`. Only the choice of message is
  modelled, and `Die` stands for termination. The `print_backtrace` after a
  sig_off warning is left out for the same reason.
- What Python does with `sig_raise_exception`, `PyErr_SetInterrupt` and
  `PyErr_WarnEx`. signals.pyx is not part of this model. These calls appear
  only as log entries.
- The record fields `env`, `exc_value` and `gc_pause_until`. Only code
  outside this model (the jump buffer, and signals.pyx) uses them.
- Hook registration, which lives in signals.pyx. The registry is built with
  its hooks.
- `ENABLE_DEBUG_CYSIGNALS` diagnostics and timing: the prints, the
  backtraces and `get_monotonic_time`. Of the debug build only
  `_set_debug_level` is modelled.
- CustomHandlers.Registry.IsBlocked: a hook's answer is a fixed value per
  slot. A foreign hook could answer differently from call to call.
- TrampolineStack.AlignUpBounds: stated only for blocks that start at most at
  0xffff_ffff_ffff_f000. Above that the rounding wraps to 0
  (`TrampolineStack.AlignUpWrapsInLastPage`). A malloc'ed block of more than
  128 KiB cannot start there.
- Asynchronous delivery of the signals `proc_raise` sends. The model
  assumes the handler runs in the calling thread before `kill` returns.
  Delivery to another thread, or after a delay, is not modelled. This
  assumption underlies `Properties.UnblockRaisesPending`,
  `Properties.BlockedInterruptsRaisedOnce`, `Properties.ErrorInsideJumps`
  and `Properties.RetryAndErrorOutsideAreFatal`.
- Integer width of the counters. `sig_on_count` and `block_sigint` are C
  `int`s (src/cysignals/struct_signals.h:61, 80) but unbounded here, so the
  wrap after 2^31 nested levels is not modelled. No real nesting gets near it.
- Machine.CySigs.InterruptHandler: the hooks are asked whether they block
  interrupts only inside sig_on and outside sig_block. The method's body
  does this, but its contract does not state it, because those queries have
  no side effect and are not logged.
- SigState.OffWarningText: the file name is taken as given. The `%i`
  conversion is modelled by the decimal formatter of this project.
