/** Executions of the ring with their actions: what the calls carry through the ring. */
module RingCalls {
  import opened RingProtocol
  import opened RingTheorems

  /** Step `k` is action `acts[k]` of operation `who[k]`. */
  ghost predicate Labelled(run: seq<State>, who: seq<nat>, acts: seq<Action>) {
    && |run| == |who| + 1 == |acts| + 1 && Init(run[0])
    && forall k :: 0 <= k < |who| ==> Step(run[k], run[k + 1], who[k], acts[k])
  }

  lemma LabelledIsRun(run: seq<State>, who: seq<nat>, acts: seq<Action>)
    requires Labelled(run, who, acts)
    ensures IsRun(run)
  {
    forall n | 0 <= n < |run| - 1
      ensures Next(run[n], run[n + 1])
    {
      assert Step(run[n], run[n + 1], who[n], acts[n]);
    }
  }

  /** Every execution has labels. */
  lemma {:induction false} RunHasLabels(run: seq<State>) returns (who: seq<nat>, acts: seq<Action>)
    requires IsRun(run)
    ensures Labelled(run, who, acts)
    decreases |run|
  {
    if |run| == 1 {
      who, acts := [], [];
    } else {
      var last := |run| - 2;
      var who0, acts0 := RunHasLabels(run[..last + 1]);
      assert Next(run[last], run[last + 1]);
      var i, a :| Step(run[last], run[last + 1], i, a);
      who, acts := who0 + [i], acts0 + [a];
      forall k | 0 <= k < |who|
        ensures Step(run[k], run[k + 1], who[k], acts[k])
      {
        if k < last {
          assert Step(run[..last + 1][k], run[..last + 1][k + 1], who0[k], acts0[k]);
        }
      }
    }
  }

  predicate Starts(who: seq<nat>, acts: seq<Action>, k: nat, i: nat)
    requires k < |who| == |acts|
  {
    who[k] == i && acts[k].DoBegin?
  }

  /** The step that began the latest call of operation `i` before `n`, or -1. */
  function LastBegin(who: seq<nat>, acts: seq<Action>, n: nat, i: nat): (b: int)
    requires n <= |who| == |acts|
    ensures -1 <= b < n && (b >= 0 ==> Starts(who, acts, b, i))
    ensures forall k :: b < k < n ==> !Starts(who, acts, k, i)
  {
    if n == 0 then -1 else if Starts(who, acts, n - 1, i) then n - 1 else LastBegin(who, acts, n - 1, i)
  }

  /** `op` is at work on the call that action `a` began. */
  ghost predicate OfCall(op: Op, a: Action) {
    && !op.Idle? && a.DoBegin? && op.side == a.side && op.n == a.n && op.single == a.single
    && (a.side.Prod? ==> op.objs == a.objs)
  }

  ghost predicate SameCall(op: Op, op': Op) {
    && !op.Idle? && !op'.Idle? && op'.side == op.side && op'.n == op.n && op'.single == op.single
    && (op.side.Prod? ==> op'.objs == op.objs)
  }


  lemma StepCarries(s: State, s': State, j: nat, a: Action, i: nat)
    requires Step(s, s', j, a) && i < |s.ops|
    ensures i < |s'.ops|
    ensures if j == i && a.DoBegin? then OfCall(s'.ops[i], a) else s'.ops[i].Idle? || SameCall(s.ops[i], s'.ops[i])
  {
  }

  lemma {:induction false} SameOps(run: seq<State>, who: seq<nat>, acts: seq<Action>, n: nat)
    requires Labelled(run, who, acts) && n < |run|
    ensures |run[n].ops| == |run[0].ops|
  {
    if n > 0 {
      SameOps(run, who, acts, n - 1);
      assert Step(run[n - 1], run[n - 1 + 1], who[n - 1], acts[n - 1]);
    }
  }

  /** An operation at work is at work on its latest call, with that call's objects. */
  lemma {:induction false} CallCarries(run: seq<State>, who: seq<nat>, acts: seq<Action>, n: nat, i: nat)
    requires Labelled(run, who, acts) && n < |run| && i < |run[n].ops| && !run[n].ops[i].Idle?
    ensures var b := LastBegin(who, acts, n, i); b >= 0 && OfCall(run[n].ops[i], acts[b])
  {
    SameOps(run, who, acts, n);
    if n > 0 {
      SameOps(run, who, acts, n - 1);
      assert Step(run[n - 1], run[n - 1 + 1], who[n - 1], acts[n - 1]);
      StepCarries(run[n - 1], run[n], who[n - 1], acts[n - 1], i);
      if !Starts(who, acts, n - 1, i) {
        CallCarries(run, who, acts, n - 1, i);
      }
    }
  }

  /** The objects that the latest call of operation `i` was given. */
  function CallObjs(who: seq<nat>, acts: seq<Action>, n: nat, i: nat): seq<Value>
    requires n <= |who| == |acts|
  {
    var b := LastBegin(who, acts, n, i);
    if b >= 0 then acts[b].objs else []
  }

  /** The objects of the enqueue calls, in the order in which they moved the producer head. */
  function Enqueued(run: seq<State>, who: seq<nat>, acts: seq<Action>, n: nat): seq<Value>
    requires n < |run| == |who| + 1 == |acts| + 1
  {
    if n == 0 then []
    else
      Enqueued(run, who, acts, n - 1)
      + if run[n].prodHead != run[n - 1].prodHead then CallObjs(who, acts, n - 1, who[n - 1]) else []
  }

  lemma StreamStep(s: State, s': State, j: nat, a: Action)
    requires Inv(s) && NotLapped(s) && SinglesAlone(s) && Step(s, s', j, a)
    ensures if s'.prodHead != s.prodHead
            then j < |s.ops| && !s.ops[j].Idle? && s.ops[j].side.Prod? && s'.stream == s.stream + s.ops[j].objs
            else s'.stream == s.stream
  {
    if a.DoMoveHead? {
      assert OpOk(s, j, s.ops[j]);
      if s.ops[j].single || HeadOf(s, s.ops[j].side) % WORD == s.ops[j].seen % WORD {
        HeadReached(s, j);
        assert s.stream[..s.prodHead] == s.stream;
      }
    }
  }

  /** The stream of the ring is what the enqueue calls were given. */
  lemma {:induction false} StreamIsEnqueued(run: seq<State>, who: seq<nat>, acts: seq<Action>, n: nat)
    requires Labelled(run, who, acts) && Orderly(run) && n < |run|
    ensures run[n].stream == Enqueued(run, who, acts, n)
  {
    if n > 0 {
      StreamIsEnqueued(run, who, acts, n - 1);
      LabelledIsRun(run, who, acts);
      RunKeeps(run, n - 1);
      assert NotLapped(run[n - 1]) && SinglesAlone(run[n - 1]);
      assert Step(run[n - 1], run[n - 1 + 1], who[n - 1], acts[n - 1]);
      StreamStep(run[n - 1], run[n], who[n - 1], acts[n - 1]);
      if run[n].prodHead != run[n - 1].prodHead {
        CallCarries(run, who, acts, n - 1, who[n - 1]);
      }
    }
  }

  /** Published dequeues are a prefix of what the enqueue calls were given. */
  lemma TakenIsEnqueued(run: seq<State>, who: seq<nat>, acts: seq<Action>, n: nat)
    requires Labelled(run, who, acts) && Orderly(run) && n < |run|
    ensures run[n].taken <= Enqueued(run, who, acts, n) && |run[n].taken| == run[n].consTail
  {
    StreamIsEnqueued(run, who, acts, n);
    LabelledIsRun(run, who, acts);
    RingSafety(run, n);
  }

  /** A reservation of an enqueue call holds exactly the objects it was called with. */
  lemma EnqueueCarries(run: seq<State>, who: seq<nat>, acts: seq<Action>, n: nat, i: nat)
    requires Labelled(run, who, acts) && Orderly(run) && n < |run| && i < |run[n].ops|
    requires (run[n].ops[i].Copy? || run[n].ops[i].Publish?) && run[n].ops[i].side.Prod?
    ensures var op, b := run[n].ops[i], LastBegin(who, acts, n, i);
      && b >= 0 && acts[b].side.Prod? && op.lo + |acts[b].objs| <= |Enqueued(run, who, acts, n)|
      && Enqueued(run, who, acts, n)[op.lo..op.lo + |acts[b].objs|] == acts[b].objs
  {
    StreamIsEnqueued(run, who, acts, n);
    CallCarries(run, who, acts, n, i);
    LabelledIsRun(run, who, acts);
    RunKeeps(run, n);
    assert OpOk(run[n], i, run[n].ops[i]);
  }

  /** A dequeue call delivers as many objects as it was asked for, and they are the
    stretch it reserved of what the enqueue calls were given. */
  lemma DequeueDelivers(run: seq<State>, who: seq<nat>, acts: seq<Action>, n: nat, i: nat)
    requires Labelled(run, who, acts) && Orderly(run) && n < |run| && i < |run[n].ops|
    requires run[n].ops[i].Publish? && run[n].ops[i].side.Cons?
    ensures var op, b := run[n].ops[i], LastBegin(who, acts, n, i);
      && b >= 0 && acts[b].side.Cons? && op.lo + acts[b].n <= |Enqueued(run, who, acts, n)|
      && op.objs == Enqueued(run, who, acts, n)[op.lo..op.lo + acts[b].n]
  {
    StreamIsEnqueued(run, who, acts, n);
    CallCarries(run, who, acts, n, i);
    LabelledIsRun(run, who, acts);
    ConsumerReadsStream(run, n, i);
  }

  // -------------------------------------------------------------- outcomes

  /** The call has published all positions it reserved. */
  ghost predicate Succeeds(s: State, s': State, i: nat)
    requires i < |s.ops|
  {
    var op := s.ops[i];
    && op.Publish? && TailOf(s, op.side) == op.lo && TailOf(s', op.side) == op.lo + op.n
    && HeadOf(s', op.side) == HeadOf(s, op.side) && s'.stream == s.stream
    && s'.taken == (if op.side.Cons? then s.taken + op.objs else s.taken)
  }

  /** The call ends before it has reserved anything. */
  ghost predicate Refused(s: State, s': State, i: nat)
    requires i < |s.ops|
  {
    && s.ops[i].Head? && s'.stream == s.stream && s'.taken == s.taken
    && s'.prodHead == s.prodHead && s'.consHead == s.consHead
    && s'.prodTail == s.prodTail && s'.consTail == s.consTail
  }

  /** What can be reserved on a side. */
  function RealRoom(s: State, side: Side): int {
    if side.Prod? then s.consTail + s.cap - s.prodHead else s.prodTail - s.consHead
  }

  /** No head has moved so far since a load that the computed room wraps around. */
  ghost predicate NoFalseRoom(s: State) {
    MovedLess(s, if s.cap <= WORD then WORD - s.cap else 0)
  }

  lemma RoomAtLeast(s: State, side: Side, seen: nat)
    requires Shape(s) && seen <= HeadOf(s, side) < seen + WORD - s.cap
    ensures RoomSeen(s, side, seen) >= RealRoom(s, side)
  {
    var a := if side.Prod? then s.consTail else s.prodTail;
    var c := if side.Prod? then s.cap else 0;
    var d := c + a - seen;
    assert 0 <= d < WORD;
    var k := (a / WORD) - (seen / WORD);
    assert c + a % WORD - seen % WORD == d - k * WORD;
    ResidueShift(d, k);
  }

  lemma CallEnds(s: State, s': State, j: nat, a: Action, i: nat)
    requires Inv(s) && SinglesAlone(s) && Step(s, s', j, a) && i < |s.ops|
    requires i < |s'.ops| && !s.ops[i].Idle? && s'.ops[i].Idle?
    ensures Succeeds(s, s', i) || Refused(s, s', i)
    ensures s.ops[i].Head? ==> s.ops[i].n == 0 || s.ops[i].n > RoomSeen(s, s.ops[i].side, s.ops[i].seen)
  {
    if a.DoUpdateTail? {
      TailReached(s, s', i);
    }
  }

  lemma RefusedHonestly(s: State, s': State, j: nat, a: Action, i: nat)
    requires Inv(s) && SinglesAlone(s) && NoFalseRoom(s) && Step(s, s', j, a) && i < |s.ops|
    requires i < |s'.ops| && s.ops[i].Head? && s'.ops[i].Idle?
    ensures s.ops[i].n == 0 || RealRoom(s, s.ops[i].side) < s.ops[i].n
  {
    CallEnds(s, s', j, a, i);
    assert OpOk(s, i, s.ops[i]);
    RoomAtLeast(s, s.ops[i].side, s.ops[i].seen);
  }

  /** A call that ends has moved all its objects at its place in the queue, or nothing at
    all, and then it asked for nothing or for more than there was at that instant, unless
    a head has moved almost a round of the counters since the call loaded it. */
  lemma CallOutcome(run: seq<State>, who: seq<nat>, acts: seq<Action>, n: nat, i: nat)
    requires Labelled(run, who, acts) && Orderly(run) && n + 1 < |run|
    requires i < |run[n].ops| && i < |run[n + 1].ops| && !run[n].ops[i].Idle? && run[n + 1].ops[i].Idle?
    ensures var s, s', b := run[n], run[n + 1], LastBegin(who, acts, n, i);
      && b >= 0 && s.ops[i].n == acts[b].n && s.ops[i].side == acts[b].side
      && (|| Succeeds(s, s', i)
          || (Refused(s, s', i)
              && (NoFalseRoom(s) ==> acts[b].n == 0 || RealRoom(s, acts[b].side) < acts[b].n)))
  {
    LabelledIsRun(run, who, acts);
    RunKeeps(run, n);
    CallCarries(run, who, acts, n, i);
    var s, s' := run[n], run[n + 1];
    assert Step(s, s', who[n], acts[n]);
    assert SinglesAlone(s);
    CallEnds(s, s', who[n], acts[n], i);
    if NoFalseRoom(s) && s.ops[i].Head? {
      RefusedHonestly(s, s', who[n], acts[n], i);
    }
  }
}
