/** The queue has no deadlock: operations that all wait for each other wait for tickets
  that nobody has drawn yet. */
module QueueProgress {
  import opened Tickets
  import opened QueueProtocol
  import opened QueueInvariant
  import opened QueueWakeups
  import opened QueueTheorems

  predicate WaitsAt(op: Op, at: nat) {
    && op.Own?
    && (op.pc == Wait(at) || op.pc == Asleep(at) || (op.pc.Mark? && op.pc.at == at) || (op.pc.Block? && op.pc.at == at))
  }

  /** Operation `i` waits for the turn of ticket `at`, and it is not there. */
  ghost predicate Blocked(s: State, i: nat, at: nat)
    requires Shape(s)
  {
    i < |s.ops| && WaitsAt(s.ops[i], at) && !Ready(s.cap, s.turns, s.ops[i].kind, at)
  }

  /** No operation can get past its next version test. */
  ghost predicate Stuck(s: State)
    requires Shape(s)
  {
    forall i :: 0 <= i < |s.ops| ==> s.ops[i].Idle? || exists at: nat :: Blocked(s, i, at)
  }

  /** The ticket that must complete first has not been drawn. */
  predicate Starved(s: State, k: Kind, at: nat) {
    if k.Pop? then at >= |s.pushers| else at >= |s.poppers| + s.cap
  }

  /** The holder of an open ticket `u` waits in the same round or an earlier one, less than a
    round ahead of `u`. */
  lemma HolderWaits(s: State, k: Kind, u: nat) returns (i: nat, at: nat)
    requires Inv(s) && Stuck(s) && u < |Owners(s, k)| && Open(s.cap, s.turns, k, u)
    ensures Blocked(s, i, at) && s.ops[i].kind == k && at < u + s.cap
    ensures Turn(s.cap, k, at) <= Turn(s.cap, k, u)
  {
    assert Progress(s, k, u);
    i := Owners(s, k)[u];
    var op := s.ops[i];
    assert !op.Idle?;
    at :| Blocked(s, i, at);
    assert OpOk(s, op);
    SameRound(s.cap, op.lo, at);
    RoundsInOrder(s.cap, op.lo, u);
  }

  lemma RoundsInOrder(cap: nat, t: nat, u: nat)
    requires cap > 0 && t <= u
    ensures t / cap <= u / cap
  {
    DivMod(cap, t);
    DivMod(cap, u);
    MulStep(u / cap, t / cap, cap);
  }

  /** The ticket an operation waits for is its own. */
  lemma WaiterOwns(s: State, i: nat, at: nat)
    requires Inv(s) && i < |s.ops| && WaitsAt(s.ops[i], at)
    ensures at < |Owners(s, s.ops[i].kind)| && Open(s.cap, s.turns, s.ops[i].kind, at)
  {
    var op := s.ops[i];
    assert OpOk(s, op) && OwnedBy(s, i, op);
    assert Drawn(Owners(s, op.kind), at, i);
    assert Progress(s, op.kind, at);
  }

  /** If every operation is stuck, each waits for a ticket that nobody has drawn: a pop
    for a push that has not begun, a push for such a pop.  The proof follows the wait to
    the holder of the missing ticket, whose turn is earlier. */
  lemma {:induction false} StuckIsStarved(s: State, i: nat, at: nat)
    requires Inv(s) && Stuck(s) && Blocked(s, i, at)
    ensures Starved(s, s.ops[i].kind, at)
    decreases Turn(s.cap, s.ops[i].kind, at)
  {
    WaiterOwns(s, i, at);
    if s.ops[i].kind.Pop? {
      if at < |s.pushers| {
        NextRound(s.cap, at);
        var j, u := HolderWaits(s, Push, at);
        StuckIsStarved(s, j, u);
      }
    } else if at < |s.poppers| + s.cap {
      PushNeedsPop(s, at);
      NextRound(s.cap, at - s.cap);
      var j, u := HolderWaits(s, Pop, at - s.cap);
      StuckIsStarved(s, j, u);
    }
  }

  lemma PushNeedsPop(s: State, at: nat)
    requires Inv(s) && Open(s.cap, s.turns, Push, at) && !Ready(s.cap, s.turns, Push, at)
    ensures at >= s.cap && Open(s.cap, s.turns, Pop, at - s.cap)
  {
    DivMod(s.cap, at);
    RoundsBack(s.cap, at, 1);
  }

  ghost predicate AllAsleep(s: State) {
    forall i :: 0 <= i < |s.ops| ==> s.ops[i].Idle? || (s.ops[i].Own? && s.ops[i].pc.Asleep?)
  }

  /** Nobody sleeps on a version that has come while all others sleep or are idle. */
  lemma SleepersBlocked(run: seq<State>, n: nat)
    requires IsRun(run) && NearRun(run) && run[0].allWake && n < |run| && AllAsleep(run[n])
    ensures Inv(run[n]) && Stuck(run[n])
  {
    RunKeeps(run, n);
    var s := run[n];
    forall i | 0 <= i < |s.ops|
      ensures s.ops[i].Idle? || exists at: nat :: Blocked(s, i, at)
    {
      if !s.ops[i].Idle? {
        var op := s.ops[i];
        var at := op.pc.at;
        NoLostWakeup(run, n, i);
        assert OpOk(s, op);
        SameRound(s.cap, op.lo, at);
        assert Near(s);
        HeldTestExact(s, i, at);
        assert Blocked(s, i, at);
      }
    }
  }

  /** No deadlock: if every operation wakes and all are idle or asleep, then a sleeping pop
    waits for a push that has not begun, and a sleeping push for such a pop. */
  lemma NoDeadlock(run: seq<State>, n: nat, i: nat)
    requires IsRun(run) && NearRun(run) && run[0].allWake && n < |run| && AllAsleep(run[n])
    requires i < |run[n].ops| && !run[n].ops[i].Idle?
    ensures Starved(run[n], run[n].ops[i].kind, run[n].ops[i].pc.at)
  {
    SleepersBlocked(run, n);
    var at: nat :| Blocked(run[n], i, at);
    StuckIsStarved(run[n], i, at);
  }

  /** Then pops and pushes cannot both be asleep, and if no more pops were begun than pushes
    nor more pushes than there is room for, nobody is. */
  lemma SleepOnOneSide(run: seq<State>, n: nat, i: nat)
    requires IsRun(run) && NearRun(run) && run[0].allWake && n < |run| && AllAsleep(run[n])
    requires i < |run[n].ops| && !run[n].ops[i].Idle?
    ensures var s := run[n];
      if s.ops[i].kind.Pop? then |s.pushers| < |s.poppers| else |s.pushers| > |s.poppers| + s.cap
  {
    NoDeadlock(run, n, i);
    RunKeeps(run, n);
    WaiterOwns(run[n], i, run[n].ops[i].pc.at);
  }
}
