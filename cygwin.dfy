/** The Cygwin last-resort exception handler (implementation_cygwin.c:5-70):
    a Windows exception that reaches the alternate stack while a fault is
    being handled is mapped to a signal and reported as fatal. */
module Cygwin {
  import opened Signals
  import opened SigDie

  // Windows exception codes (NTSTATUS values)
  const STATUS_FLOAT_DENORMAL_OPERAND: int := 0xC000_008D
  const STATUS_FLOAT_DIVIDE_BY_ZERO: int := 0xC000_008E
  const STATUS_FLOAT_INEXACT_RESULT: int := 0xC000_008F
  const STATUS_FLOAT_INVALID_OPERATION: int := 0xC000_0090
  const STATUS_FLOAT_OVERFLOW: int := 0xC000_0091
  const STATUS_FLOAT_STACK_CHECK: int := 0xC000_0092
  const STATUS_FLOAT_UNDERFLOW: int := 0xC000_0093
  const STATUS_INTEGER_DIVIDE_BY_ZERO: int := 0xC000_0094
  const STATUS_INTEGER_OVERFLOW: int := 0xC000_0095
  const STATUS_PRIVILEGED_INSTRUCTION: int := 0xC000_0096
  const STATUS_ILLEGAL_INSTRUCTION: int := 0xC000_001D
  const STATUS_NONCONTINUABLE_EXCEPTION: int := 0xC000_0025
  const STATUS_TIMEOUT: int := 0x0000_0102
  const STATUS_GUARD_PAGE_VIOLATION: int := 0x8000_0001
  const STATUS_DATATYPE_MISALIGNMENT: int := 0x8000_0002
  const STATUS_ACCESS_VIOLATION: int := 0xC000_0005
  const STATUS_IN_PAGE_ERROR: int := 0xC000_0006
  const STATUS_NO_MEMORY: int := 0xC000_0017
  const STATUS_INVALID_DISPOSITION: int := 0xC000_0026
  const STATUS_ARRAY_BOUNDS_EXCEEDED: int := 0xC000_008C
  const STATUS_STACK_OVERFLOW: int := 0xC000_00FD
  const STATUS_CONTROL_C_EXIT: int := 0xC000_013A

  // The case groups of the switch, one per signal.
  const FpeCodes: set<int> := {STATUS_FLOAT_DENORMAL_OPERAND, STATUS_FLOAT_DIVIDE_BY_ZERO,
    STATUS_FLOAT_INVALID_OPERATION, STATUS_FLOAT_STACK_CHECK, STATUS_FLOAT_INEXACT_RESULT,
    STATUS_FLOAT_OVERFLOW, STATUS_FLOAT_UNDERFLOW, STATUS_INTEGER_DIVIDE_BY_ZERO,
    STATUS_INTEGER_OVERFLOW}
  const IllCodes: set<int> := {STATUS_ILLEGAL_INSTRUCTION, STATUS_PRIVILEGED_INSTRUCTION,
    STATUS_NONCONTINUABLE_EXCEPTION}
  const AlrmCodes: set<int> := {STATUS_TIMEOUT}
  const BusCodes: set<int> := {STATUS_GUARD_PAGE_VIOLATION, STATUS_DATATYPE_MISALIGNMENT}
  const SegvCodes: set<int> := {STATUS_ACCESS_VIOLATION, STATUS_STACK_OVERFLOW,
    STATUS_ARRAY_BOUNDS_EXCEEDED, STATUS_IN_PAGE_ERROR, STATUS_NO_MEMORY,
    STATUS_INVALID_DISPOSITION}
  const IntCodes: set<int> := {STATUS_CONTROL_C_EXIT}

  /** The signal the switch assigns to an exception code; 0, the initial
      value of `sig`, for a code no case lists. */
  function ExceptionSignal(code: int): (sig: int)
    ensures sig == SIGFPE <==> code in FpeCodes
    ensures sig == SIGILL <==> code in IllCodes
    ensures sig == SIGALRM <==> code in AlrmCodes
    ensures sig == SIGBUS <==> code in BusCodes
    ensures sig == SIGSEGV <==> code in SegvCodes
    ensures sig == SIGINT <==> code in IntCodes
    ensures sig == 0 <==> code !in FpeCodes + IllCodes + AlrmCodes + BusCodes + SegvCodes + IntCodes
  {
    if code in FpeCodes then SIGFPE
    else if code in IllCodes then SIGILL
    else if code in AlrmCodes then SIGALRM
    else if code in BusCodes then SIGBUS
    else if code in SegvCodes then SIGSEGV
    else if code in IntCodes then SIGINT
    else 0
  }

  /** What the handler does: continue execution, or terminate through the
      crash path with the given signal and message. */
  datatype AltstackOutcome = ContinueExecution | Terminate(sig: int, msg: Option<string>)

  /** win32_altstack_handler for an exception with code `code`, given the
      current value of inside_signal_handler. */
  function AltstackHandler(insideSignalHandler: int, code: int): (r: AltstackOutcome)
    ensures insideSignalHandler == 0 <==> r == ContinueExecution
    ensures r.Terminate? ==> r.sig == ExceptionSignal(code) && r.msg == DieMessage(r.sig, 1)
  {
    if insideSignalHandler == 0 then ContinueExecution
    else
      var sig := ExceptionSignal(code);
      Terminate(sig, DieMessage(sig, 1))
  }

  /** An exception code that no case lists ends the process with the text
      for an unknown signal during signal handling. */
  lemma UnlistedCodeIsUnknown(insideSignalHandler: int, code: int)
    requires insideSignalHandler != 0
    requires code !in FpeCodes + IllCodes + AlrmCodes + BusCodes + SegvCodes + IntCodes
    ensures AltstackHandler(insideSignalHandler, code)
            == Terminate(0, Some("Unknown signal during signal handling."))
  {
  }
}
