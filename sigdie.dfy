/** The fatal-message table of the crash path: which text the process
    prints before it kills itself with the signal it could not handle. */
module SigDie {
  import opened Signals

  predicate StartsWith(s: string, prefix: string) {
    |prefix| <= |s| && s[..|prefix|] == prefix
  }

  predicate EndsWith(s: string, suffix: string) {
    |suffix| <= |s| && s[|s| - |suffix|..] == suffix
  }

  /** The fault signals that have a message of their own. */
  predicate HasOwnMessage(sig: int) {
    sig == SIGILL || sig == SIGABRT || sig == SIGFPE || sig == SIGSEGV || sig == SIGBUS
  }

  function SignalName(sig: int): string
    requires HasOwnMessage(sig)
  {
    if sig == SIGILL then "SIGILL"
    else if sig == SIGABRT then "SIGABRT"
    else if sig == SIGFPE then "SIGFPE"
    else if sig == SIGSEGV then "SIGSEGV"
    else "SIGBUS"
  }

  /** What the outside-of-handling message says about each fault. */
  function Explanation(sig: int): string
    requires HasOwnMessage(sig)
  {
    if sig == SIGILL then "An illegal instruction occurred."
    else if sig == SIGABRT then "An abort() occurred."
    else if sig == SIGFPE then "An unhandled floating point exception occurred."
    else if sig == SIGSEGV then "A segmentation fault occurred."
    else "A bus error occurred."
  }

  /** The message sigdie_for_sig hands to the crash reporter for a signal
      `sig` that arrived while `inside` (nonzero: during the handling of an
      earlier fault) or not. None stands for the NULL message of SIGQUIT,
      for which nothing is explained before the process dies. The texts are
      those of the table, assembled from the signal's name and explanation. */
  function DieMessage(sig: int, inside: int): (r: Option<string>)
    ensures r.None? <==> sig == SIGQUIT
    ensures HasOwnMessage(sig) ==> StartsWith(r.value, "Unhandled " + SignalName(sig))
    ensures !HasOwnMessage(sig) && sig != SIGQUIT ==> StartsWith(r.value, "Unknown signal ")
  {
    if HasOwnMessage(sig) then
      if inside != 0 then Some("Unhandled " + SignalName(sig) + " during signal handling.")
      else Some("Unhandled " + SignalName(sig) + ": " + Explanation(sig))
    else if sig == SIGQUIT then None
    else if inside != 0 then Some("Unknown signal during signal handling.")
    else Some("Unknown signal received.")
  }

  /** A message names the handling of an earlier fault exactly when the
      fault arrived inside the handler. */
  lemma DieMessageTellsInside(sig: int, inside: int)
    requires sig != SIGQUIT
    ensures inside != 0 <==> EndsWith(DieMessage(sig, inside).value, " during signal handling.")
  {
    if inside == 0 {
      var m := DieMessage(sig, inside).value;
      OutsideMessageEnd(sig);
      // the suffix has 'g' where every outside message has 'd'
      assert m[|m| - 24..][22] == m[|m| - 2];
    }
  }

  /** Every message for a fault outside the handler ends in "d.", as in
      "occurred." and "received.". */
  lemma OutsideMessageEnd(sig: int)
    requires sig != SIGQUIT
    ensures var m := DieMessage(sig, 0).value; |m| >= 24 && m[|m| - 2] == 'd'
  {
    if HasOwnMessage(sig) {
      ExplanationEnd(sig);
      LastButOne("Unhandled " + SignalName(sig) + ": ", Explanation(sig));
    } else {
      assert DieMessage(sig, 0).value == "Unknown signal received.";
    }
  }

  lemma ExplanationEnd(sig: int)
    requires HasOwnMessage(sig)
    ensures var e := Explanation(sig); |e| >= 20 && e[|e| - 2] == 'd'
  {
  }

  lemma LastButOne(p: string, e: string)
    requires |e| >= 2
    ensures (p + e)[|p + e| - 2] == e[|e| - 2]
  {
  }

  /** The fourth letters of the names (the ones after "SIG") tell the
      faults apart. */
  lemma NamesDifferAfterPrefix(sig1: int, sig2: int)
    requires HasOwnMessage(sig1) && HasOwnMessage(sig2) && sig1 != sig2
    ensures |SignalName(sig1)| > 3 && |SignalName(sig2)| > 3
    ensures SignalName(sig1)[3] != SignalName(sig2)[3]
  {
  }

  lemma NameIsLong(sig: int)
    requires HasOwnMessage(sig)
    ensures |SignalName(sig)| > 3
  {
  }

  /** Where "Unhandled " + name + tail keeps the name's fourth letter and
      the first character of the tail. */
  lemma UnhandledShape(n: string, tail: string)
    requires |n| > 3 && |tail| > 0
    ensures var m := "Unhandled " + n + tail;
            |m| > 10 + |n| && m[13] == n[3] && m[10 + |n|] == tail[0]
  {
    var m := "Unhandled " + n + tail;
    assert m[13] == ("Unhandled " + n)[13];
  }

  /** A fault's message carries its name from index 10, followed by a
      blank inside the handler or a colon outside it. */
  lemma MessageShape(sig: int, inside: int)
    requires HasOwnMessage(sig)
    ensures var m := DieMessage(sig, inside).value; var n := SignalName(sig);
            |n| > 3 && |m| > 10 + |n| && m[13] == n[3] &&
            m[10 + |n|] == (if inside != 0 then ' ' else ':')
  {
    var n := SignalName(sig);
    NameIsLong(sig);
    if inside != 0 {
      UnhandledShape(n, " during signal handling.");
    } else {
      UnhandledShape(n, ": " + Explanation(sig));
    }
  }

  /** Different fault signals, or the same one inside and outside fault
      handling, are always explained by different texts. */
  lemma DieMessagesDistinct(sig1: int, inside1: int, sig2: int, inside2: int)
    requires HasOwnMessage(sig1) && HasOwnMessage(sig2)
    requires sig1 != sig2 || (inside1 != 0) != (inside2 != 0)
    ensures DieMessage(sig1, inside1) != DieMessage(sig2, inside2)
  {
    MessageShape(sig1, inside1);
    MessageShape(sig2, inside2);
    if sig1 != sig2 {
      assert SignalName(sig1)[3] != SignalName(sig2)[3];
    }
  }
}
