/** The bound of 2^15 operations is exact: one more and two callbacks can meet. */
module QueueLimit {
  import opened Tickets
  import opened QueueProtocol
  import opened QueueInvariant
  import opened QueueTheorems

  /** Operation `j` after drawing all tickets of round `j` as one push batch. */
  function Pusher(cap: nat, j: nat): Op {
    Own(Push, false, true, true, j * cap, j * cap + cap, j * cap + cap, j * cap + cap, j * cap, Wait(j * cap))
  }

  function RoundOwners(cap: nat, n: nat): (r: seq<nat>)
    ensures |r| == n * cap
  {
    if n == 0 then [] else
      assert n * cap == (n - 1) * cap + cap;
      RoundOwners(cap, n - 1) + seq(cap, _ => n - 1)
  }

  /** `n` of `ops` operations have drawn a round each and none has looked at a slot. */
  function Crowd(cap: nat, ops: nat, n: nat): State {
    State(cap, true, seq(cap, _ => Word(0, 0)), seq(cap, _ => 0), seq(cap, _ => 0),
          RoundOwners(cap, n), [], seq(ops, j requires 0 <= j => if j < n then Pusher(cap, j) else Idle),
          map[], map[])
  }

  lemma CrowdStep(cap: nat, ops: nat, n: nat)
    requires 0 < cap && n < ops
    ensures Next(Crowd(cap, ops, n), Crowd(cap, ops, n + 1))
  {
    var s, s' := Crowd(cap, ops, n), Crowd(cap, ops, n + 1);
    DivModUnique(cap, n * cap, n, 0);
    assert RoundEnd(cap, n * cap) == n * cap + cap;
    assert s'.ops == s.ops[n := Pusher(cap, n)];
    assert Begin(s, s', n, Push, cap, false, true, true);
    assert Step(s, s', n, DoBegin(Push, cap, false, true, true));
  }

  /** Nothing is published yet, and only push tickets of the first `n` rounds are out. */
  ghost predicate Untouched(s: State, n: nat) {
    && |s.turns| == s.cap > 0 && (forall q :: 0 <= q < s.cap ==> s.turns[q] == 0)
    && forall i :: 0 <= i < |s.ops| ==>
         !s.ops[i].Try? && (s.ops[i].Own? ==> s.ops[i].kind == Push && s.ops[i].end <= n * s.cap)
  }

  ghost predicate UntouchedRun(run: seq<State>, n: nat) {
    forall m :: 0 <= m < |run| ==> Untouched(run[m], n)
  }

  lemma UntouchedWithin(s: State, n: nat)
    requires Untouched(s, n) && n > 0
    ensures Within(s, 2 * n - 1)
  {
    forall i, t: nat | 0 <= i < |s.ops| && s.ops[i].Own? && Holds(s.ops[i], s.ops[i].kind, t)
      ensures Close(s, s.ops[i].kind, t, 2 * n - 1)
    {
      EarlyTurn(s.cap, n, t);
    }
  }

  lemma EarlyTurn(cap: nat, n: nat, t: nat)
    requires 0 < cap && t < n * cap
    ensures Turn(cap, Push, t) + 2 <= 2 * n
  {
    DivMod(cap, t);
    MulStep(n - 1, t / cap, cap);
    assert (n - 1) * cap + cap == n * cap;
  }

  lemma CrowdUntouched(cap: nat, ops: nat, n: nat, rounds: nat)
    requires 0 < cap && n <= ops && n <= rounds
    ensures Untouched(Crowd(cap, ops, n), rounds)
  {
    var s := Crowd(cap, ops, n);
    forall i | 0 <= i < |s.ops| && s.ops[i].Own?
      ensures s.ops[i].end <= rounds * cap
    {
      MulStep(i, rounds, cap);
    }
  }

  lemma {:induction false} CrowdRun(cap: nat, ops: nat, n: nat, rounds: nat) returns (run: seq<State>)
    requires 0 < cap && n <= ops && n <= rounds
    ensures IsRun(run) && run[0].cap == cap && |run[0].ops| == ops && UntouchedRun(run, rounds)
    ensures run[|run| - 1] == Crowd(cap, ops, n)
  {
    CrowdUntouched(cap, ops, n, rounds);
    if n == 0 {
      run := [Crowd(cap, ops, 0)];
    } else {
      var r := CrowdRun(cap, ops, n - 1, rounds);
      CrowdStep(cap, ops, n - 1);
      run := r + [Crowd(cap, ops, n)];
      ExtendRun(r, Crowd(cap, ops, n));
    }
  }

  lemma ExtendRun(run: seq<State>, s: State)
    requires IsRun(run) && Next(run[|run| - 1], s)
    ensures IsRun(run + [s])
  {
  }

  /** A pusher whose run starts at slot 0 and whose turn wraps to 0 sees its version. */
  ghost predicate Deceived(s: State, i: nat, lo: nat) {
    && AtOwn(s, i) && Slot(s.cap, lo) == 0 && Expected(s.cap, Push, lo) == 0
    && s.ops[i].pc.Wait? && s.ops[i].kind == Push && s.ops[i].lo == lo
    && s.ops[i].hi == lo + s.cap && lo <= s.ops[i].pc.at < lo + s.cap
    && forall q :: 0 <= q < s.cap ==> s.words[q].version == 0
  }

  /** The state after one passed test. */
  function Passed(s: State, i: nat): State
    requires i < |s.ops| && s.ops[i].Own? && s.ops[i].pc.Wait?
  {
    s.(ops := s.ops[i := AfterWait(s.ops[i], s.ops[i].pc.at)])
  }

  lemma PassOne(s: State, i: nat, lo: nat)
    requires Deceived(s, i, lo)
    ensures Next(s, Passed(s, i))
  {
    assert WaitStep(s, Passed(s, i), i);
    assert Step(s, Passed(s, i), i, DoWait);
  }

  lemma PassedIs(s: State, i: nat, lo: nat, rounds: nat)
    requires Deceived(s, i, lo) && Untouched(s, rounds)
    ensures Untouched(Passed(s, i), rounds)
    ensures var op := s.ops[i];
      if op.pc.at + 1 < op.hi then
        && Deceived(Passed(s, i), i, lo) && Passed(s, i).ops[i] == op.(pc := Wait(op.pc.at + 1))
        && Passed(s, i).(ops := Passed(s, i).ops[i := op.(pc := Touch(lo))])
           == s.(ops := s.ops[i := op.(pc := Touch(lo))])
      else Passed(s, i) == s.(ops := s.ops[i := op.(pc := Touch(lo))])
  {
  }

  /** It passes all its slots and enters its callback. */
  lemma {:induction false} EnterCallback(run: seq<State>, i: nat, lo: nat, rounds: nat) returns (run': seq<State>)
    requires IsRun(run) && UntouchedRun(run, rounds) && Deceived(run[|run| - 1], i, lo)
    ensures IsRun(run') && run'[0] == run[0] && UntouchedRun(run', rounds)
    ensures var s := run[|run| - 1];
            run'[|run'| - 1] == s.(ops := s.ops[i := s.ops[i].(pc := Touch(lo))])
    decreases run[|run| - 1].ops[i].hi - run[|run| - 1].ops[i].pc.at
  {
    var s := run[|run| - 1];
    var s' := Passed(s, i);
    assert Untouched(s, rounds);
    PassOne(s, i, lo);
    PassedIs(s, i, lo, rounds);
    ExtendRun(run, s');
    run' := run + [s'];
    if s.ops[i].pc.at + 1 < s.ops[i].hi {
      run' := EnterCallback(run', i, lo, rounds);
    }
  }

  /** 2^15 + 1 operations: the last one's version wraps onto the first one's.  No ticket
    is more than 2^15 rounds ahead. */
  lemma TwoInOneSlot(cap: nat, ops: nat) returns (run: seq<State>)
    requires 0 < cap && MAX_OPS < ops
    ensures IsRun(run) && run[0].cap == cap && |run[0].ops| == ops
    ensures forall m :: 0 <= m < |run| ==> Within(run[m], VERSIONS + 1)
    ensures !ExclusiveSlots(run[|run| - 1])
  {
    var far := MAX_OPS;
    run := CrowdRun(cap, ops, far + 1, far + 1);
    DivModUnique(cap, 0 * cap, 0, 0);
    DivModUnique(cap, far * cap, far, 0);
    run := EnterCallback(run, 0, 0 * cap, far + 1);
    run := EnterCallback(run, far, far * cap, far + 1);
    forall m | 0 <= m < |run|
      ensures Within(run[m], VERSIONS + 1)
    {
      UntouchedWithin(run[m], far + 1);
    }
    var s := run[|run| - 1];
    assert InCallback(s.cap, s.ops[0], 0) && InCallback(s.cap, s.ops[far], 0);
  }

  /** Slots stay exclusive in every execution exactly when at most 2^15 operations are
    in flight, whatever the capacity. */
  lemma ExclusiveExactlyUpToLimit(cap: nat, ops: nat)
    requires 0 < cap
    ensures (forall run: seq<State> :: IsRun(run) && run[0].cap == cap && |run[0].ops| == ops ==>
               ExclusiveSlots(run[|run| - 1]))
            <==> ops <= MAX_OPS
  {
    if ops <= MAX_OPS {
      forall run: seq<State> | IsRun(run) && run[0].cap == cap && |run[0].ops| == ops
        ensures ExclusiveSlots(run[|run| - 1])
      {
        FewOpsNearRun(run);
        QueueSafety(run, |run| - 1);
      }
    } else {
      var run := TwoInOneSlot(cap, ops);
    }
  }

  /** Every state of the run keeps its outstanding tickets within `bound` turns. */
  ghost predicate WithinRun(run: seq<State>, bound: nat) {
    forall m :: 0 <= m < |run| ==> Within(run[m], bound)
  }

  /** With any number of operations, slots stay exclusive in every execution whose
    tickets stay less than `bound` turns ahead of their slots exactly when `bound` is at
    most 2^16, that is, fewer than 2^15 rounds. */
  lemma ExclusiveExactlyWhileNear(cap: nat, bound: nat)
    requires 0 < cap
    ensures (forall run: seq<State> :: IsRun(run) && run[0].cap == cap && WithinRun(run, bound) ==>
               ExclusiveSlots(run[|run| - 1]))
            <==> bound <= VERSIONS
  {
    if bound <= VERSIONS {
      forall run: seq<State> | IsRun(run) && run[0].cap == cap && WithinRun(run, bound)
        ensures ExclusiveSlots(run[|run| - 1])
      {
        forall m | 0 <= m < |run|
          ensures Near(run[m])
        {
          WithinMore(run[m], bound, VERSIONS);
        }
        QueueSafety(run, |run| - 1);
      }
    } else {
      var run := TwoInOneSlot(cap, MAX_OPS + 1);
      forall m | 0 <= m < |run|
        ensures Within(run[m], bound)
      {
        WithinMore(run[m], VERSIONS + 1, bound);
      }
    }
  }

  lemma WithinMore(s: State, bound: nat, more: nat)
    requires Within(s, bound) && bound <= more
    ensures Within(s, more)
  {
    assert forall k, t: nat :: Close(s, k, t, bound) ==> Close(s, k, t, more);
  }
}
