/** The registry of cooperating libraries (implementation.c:58-85): up to
    MAX_N_CUSTOM_HANDLERS hook triples, each library contributing an
    "is blocked" query, an "unblock" action and a "set pending signal"
    action. The hooks are foreign code: what a query answers is given by
    `replies`, and the actions are recorded, in call order, in `calls`. */
module CustomHandlers {

  const MAX_N_CUSTOM_HANDLERS: int := 16

  /** One call into a registered hook: which slot, and with what signal. */
  datatype HookCall = Unblock(slot: int) | SetPending(slot: int, sig: int)

  /** The calls that unblock every registered hook once, in index order. */
  function UnblockCalls(n: nat): (r: seq<HookCall>)
  {
    seq(n, i => Unblock(i))
  }

  /** The calls that forward `sig` to every registered hook once, in index order. */
  function PendingCalls(n: nat, sig: int): (r: seq<HookCall>)
  {
    seq(n, i => SetPending(i, sig))
  }

  class Registry {
    /** replies[i] is what the is_blocked hook of slot i answers (nonzero: blocked). */
    const replies: array<int>
    /** n_custom_handlers: the number of slots in use. */
    const n: int
    /** Every unblock / set-pending hook call made so far. */
    ghost var calls: seq<HookCall>

    ghost predicate Valid()
      reads this
    {
      replies.Length == MAX_N_CUSTOM_HANDLERS && 0 <= n <= MAX_N_CUSTOM_HANDLERS
    }

    /** Some hook among the registered ones reports that its library is blocked. */
    ghost predicate AnyBlocked()
      reads this, replies
      requires Valid()
    {
      exists i :: 0 <= i < n && replies[i] != 0
    }

    /** A registry holding the hooks of `answers`, registered in that order
        (registration itself happens in signals.pyx, which is not part of
        this model). */
    constructor (answers: seq<int>)
      requires |answers| <= MAX_N_CUSTOM_HANDLERS
      ensures Valid() && fresh(replies) && calls == []
      ensures n == |answers| && replies[..n] == answers
    {
      var a := new int[MAX_N_CUSTOM_HANDLERS](_ => 0);
      var i := 0;
      while i < |answers|
        invariant 0 <= i <= |answers|
        invariant a[..i] == answers[..i]
      {
        a[i] := answers[i];
        i := i + 1;
      }
      replies := a;
      n := |answers|;
      calls := [];
    }

    /** custom_signal_is_blocked: 1 iff some registered hook reports blocked,
        asking the hooks in index order and stopping at the first that does. */
    method IsBlocked() returns (r: int)
      requires Valid()
      ensures r == 0 || r == 1
      ensures r == 1 <==> AnyBlocked()
    {
      var i := 0;
      while i < n
        invariant 0 <= i <= n
        invariant forall j :: 0 <= j < i ==> replies[j] == 0
      {
        if replies[i] != 0 {
          return 1;
        }
        i := i + 1;
      }
      return 0;
    }

    /** custom_signal_unblock: calls every registered unblock hook once, in order. */
    method UnblockAll()
      requires Valid()
      modifies this
      ensures Valid()
      ensures calls == old(calls) + UnblockCalls(n)
    {
      var i := 0;
      while i < n
        invariant 0 <= i <= n
        invariant calls == old(calls) + UnblockCalls(i)
      {
        calls := calls + [Unblock(i)];
        i := i + 1;
      }
    }

    /** custom_set_pending_signal: forwards `sig` to every registered hook once, in order. */
    method SetPendingAll(sig: int)
      requires Valid()
      modifies this
      ensures Valid()
      ensures calls == old(calls) + PendingCalls(n, sig)
    {
      var i := 0;
      while i < n
        invariant 0 <= i <= n
        invariant calls == old(calls) + PendingCalls(i, sig)
      {
        calls := calls + [SetPending(i, sig)];
        i := i + 1;
      }
    }
  }
}
