/** What the ring's two hypotheses are needed for. */
module RingLimits {
  import opened RingProtocol
  import opened RingTheorems
  import opened RingCalls

  lemma Extend(run: seq<State>, s': State, i: nat, a: Action)
    requires IsRun(run) && Step(run[|run| - 1], s', i, a)
    ensures IsRun(run + [s'])
  {
    var run' := run + [s'];
    forall n | 0 <= n < |run'| - 1
      ensures Next(run'[n], run'[n + 1])
    {
      if n < |run| - 1 {
        assert Next(run[n], run[n + 1]);
      } else {
        assert Step(run'[n], run'[n + 1], i, a);
      }
    }
  }

  // -------------------------------------------------------- a lapped swap

  function Zeros(n: nat): seq<Value> { seq(n, _ => 0) }

  function Ones(n: nat): seq<nat> { seq(n, _ => 1) }

  /** Operation 0 has loaded head 0; it is stuck before its load of the tail or its swap. */
  predicate Stale(w: Op) {
    w == Head(Prod, [0], 1, 0, false) || w == Room(Prod, [0], 1, 0, false)
  }

  /** `p` enqueues and `c` dequeues of the object 0, all by operation 1, with operation 0
    stuck at `w` and operation 1 at `op`. */
  function Busy(w: Op, cap: nat, p: nat, c: nat, op: Op): State {
    State(cap, p, p, c, c, Zeros(cap), [w, op],
          Ones(p), Ones(c), Zeros(p), Zeros(c))
  }

  /** Every state keeps its heads less than `bound` past the loads still in use. */
  ghost predicate BoundedRun(run: seq<State>, bound: nat) {
    forall n :: 0 <= n < |run| ==> MovedLess(run[n], bound) && SinglesAlone(run[n])
  }

  lemma BusyShape(w: Op, cap: nat, p: nat, c: nat, op: Op)
    requires GoodSize(cap) && c <= p <= c + cap
    ensures Shape(Busy(w, cap, p, c, op))
  {
    assert Zeros(c) == Zeros(p)[..c];
  }

  /** The head operation 0 waits on is within the bound, and operation 1's own is current. */
  ghost predicate Fresh(s: State, bound: nat) {
    && |s.ops| == 2 && Stale(s.ops[0]) && s.prodHead < bound
    && (s.ops[1].Head? || s.ops[1].Room? ==> s.ops[1].seen == HeadOf(s, s.ops[1].side))
    && (!s.ops[1].Idle? ==> !s.ops[1].single)
  }

  lemma ExtendBounded(run: seq<State>, s': State, i: nat, a: Action, bound: nat)
    requires IsRun(run) && BoundedRun(run, bound) && Step(run[|run| - 1], s', i, a) && Fresh(s', bound)
    ensures IsRun(run + [s']) && BoundedRun(run + [s'], bound)
  {
    Extend(run, s', i, a);
  }

  /** Reservation and copy by operation 1: the states of an enqueue. */
  lemma EnqueueSteps(w: Op, cap: nat, p: nat, c: nat, s0: State, s1: State, s2: State, s3: State, s4: State, s5: State)
    requires GoodSize(cap) && c <= p < c + cap
    requires s0 == Busy(w, cap, p, c, Idle)
    requires s1 == Busy(w, cap, p, c, Head(Prod, [0], 1, p, false))
    requires s2 == Busy(w, cap, p, c, Room(Prod, [0], 1, p, false))
    requires s3 == Busy(w, cap, p + 1, c, Copy(Prod, [0], 1, p, p, false)).(prodTail := p)
    requires s4 == Busy(w, cap, p + 1, c, Publish(Prod, [0], 1, p, false)).(prodTail := p)
    requires s5 == Busy(w, cap, p + 1, c, Idle)
    ensures Step(s0, s1, 1, DoBegin(Prod, [0], 1, false)) && Step(s1, s2, 1, DoLoadTail)
    ensures Step(s2, s3, 1, DoMoveHead) && Step(s3, s4, 1, DoCopy) && Step(s4, s5, 1, DoUpdateTail)
  {
    assert s1.ops == s0.ops[1 := s1.ops[1]];
    BusyShape(w, cap, p, c, s1.ops[1]);
    RoomExact(s1, Prod, p);
    assert s2.ops == s1.ops[1 := s2.ops[1]];
    assert s3 == Reserve(s2, 1, p) by {
      assert s3.ops == s2.ops[1 := s3.ops[1]];
      assert Ones(p)[..p] + seq(1, _ => 1) == Ones(p + 1) && Zeros(p)[..p] + [0] == Zeros(p + 1);
    }
    assert s4.ops == s3.ops[1 := s4.ops[1]];
    assert s3.cells[Cell(cap, p % WORD + (p - p)) := 0] == s3.cells;
    assert s5.ops == s4.ops[1 := Idle];
  }

  lemma EnqueueOne(run: seq<State>, bound: nat, w: Op, cap: nat, p: nat, c: nat) returns (run': seq<State>)
    requires GoodSize(cap) && c <= p < c + cap && p + 1 < bound && Stale(w)
    requires IsRun(run) && BoundedRun(run, bound) && run[|run| - 1] == Busy(w, cap, p, c, Idle)
    ensures IsRun(run') && BoundedRun(run', bound)
    ensures run'[0] == run[0] && run'[|run'| - 1] == Busy(w, cap, p + 1, c, Idle)
  {
    var s1 := Busy(w, cap, p, c, Head(Prod, [0], 1, p, false));
    var s2 := Busy(w, cap, p, c, Room(Prod, [0], 1, p, false));
    var s3 := Busy(w, cap, p + 1, c, Copy(Prod, [0], 1, p, p, false)).(prodTail := p);
    var s4 := Busy(w, cap, p + 1, c, Publish(Prod, [0], 1, p, false)).(prodTail := p);
    var s5 := Busy(w, cap, p + 1, c, Idle);
    EnqueueSteps(w, cap, p, c, run[|run| - 1], s1, s2, s3, s4, s5);
    ExtendBounded(run, s1, 1, DoBegin(Prod, [0], 1, false), bound);
    var run1 := run + [s1];
    ExtendBounded(run1, s2, 1, DoLoadTail, bound);
    var run2 := run1 + [s2];
    ExtendBounded(run2, s3, 1, DoMoveHead, bound);
    var run3 := run2 + [s3];
    ExtendBounded(run3, s4, 1, DoCopy, bound);
    var run4 := run3 + [s4];
    ExtendBounded(run4, s5, 1, DoUpdateTail, bound);
    run' := run4 + [s5];
  }

  lemma DequeueSteps(w: Op, cap: nat, p: nat, c: nat, s0: State, s1: State, s2: State, s3: State, s4: State, s5: State)
    requires GoodSize(cap) && c < p <= c + cap
    requires s0 == Busy(w, cap, p, c, Idle)
    requires s1 == Busy(w, cap, p, c, Head(Cons, [], 1, c, false))
    requires s2 == Busy(w, cap, p, c, Room(Cons, [], 1, c, false))
    requires s3 == Busy(w, cap, p, c, Copy(Cons, [], 1, c, c, false)).(consHead := c + 1, takers := Ones(c + 1))
    requires s4 == Busy(w, cap, p, c, Publish(Cons, [0], 1, c, false)).(consHead := c + 1, takers := Ones(c + 1))
    requires s5 == Busy(w, cap, p, c + 1, Idle)
    ensures Step(s0, s1, 1, DoBegin(Cons, [], 1, false)) && Step(s1, s2, 1, DoLoadTail)
    ensures Step(s2, s3, 1, DoMoveHead) && Step(s3, s4, 1, DoCopy) && Step(s4, s5, 1, DoUpdateTail)
  {
    assert s1.ops == s0.ops[1 := s1.ops[1]];
    BusyShape(w, cap, p, c, s1.ops[1]);
    RoomExact(s1, Cons, c);
    assert s2.ops == s1.ops[1 := s2.ops[1]];
    assert s3 == Reserve(s2, 1, c) by {
      assert s3.ops == s2.ops[1 := s3.ops[1]];
      assert Ones(c)[..c] + seq(1, _ => 1) == Ones(c + 1);
    }
    assert s4.ops == s3.ops[1 := s4.ops[1]];
    assert [] + [s3.cells[Cell(cap, c % WORD + (c - c))]] == [0];
    assert s5.ops == s4.ops[1 := Idle] && Zeros(c) + [0] == Zeros(c + 1);
  }

  lemma DequeueOne(run: seq<State>, bound: nat, w: Op, cap: nat, p: nat, c: nat) returns (run': seq<State>)
    requires GoodSize(cap) && c < p <= c + cap && p < bound && Stale(w)
    requires IsRun(run) && BoundedRun(run, bound) && run[|run| - 1] == Busy(w, cap, p, c, Idle)
    ensures IsRun(run') && BoundedRun(run', bound)
    ensures run'[0] == run[0] && run'[|run'| - 1] == Busy(w, cap, p, c + 1, Idle)
  {
    var s1 := Busy(w, cap, p, c, Head(Cons, [], 1, c, false));
    var s2 := Busy(w, cap, p, c, Room(Cons, [], 1, c, false));
    var s3 := Busy(w, cap, p, c, Copy(Cons, [], 1, c, c, false)).(consHead := c + 1, takers := Ones(c + 1));
    var s4 := Busy(w, cap, p, c, Publish(Cons, [0], 1, c, false)).(consHead := c + 1, takers := Ones(c + 1));
    var s5 := Busy(w, cap, p, c + 1, Idle);
    DequeueSteps(w, cap, p, c, run[|run| - 1], s1, s2, s3, s4, s5);
    ExtendBounded(run, s1, 1, DoBegin(Cons, [], 1, false), bound);
    var run1 := run + [s1];
    ExtendBounded(run1, s2, 1, DoLoadTail, bound);
    var run2 := run1 + [s2];
    ExtendBounded(run2, s3, 1, DoMoveHead, bound);
    var run3 := run2 + [s3];
    ExtendBounded(run3, s4, 1, DoCopy, bound);
    var run4 := run3 + [s4];
    ExtendBounded(run4, s5, 1, DoUpdateTail, bound);
    run' := run4 + [s5];
  }

  lemma Stuck(cap: nat, w: Op, bound: nat) returns (run: seq<State>)
    requires GoodSize(cap) && Stale(w) && bound > 0
    ensures IsRun(run) && BoundedRun(run, bound) && run[0].cap == cap && run[|run| - 1] == Busy(w, cap, 0, 0, Idle)
  {
    var head := Head(Prod, [0], 1, 0, false);
    var s0 := State(cap, 0, 0, 0, 0, Zeros(cap), [Idle, Idle], [], [], [], []);
    var s1 := Busy(head, cap, 0, 0, Idle);
    assert s1.ops == s0.ops[0 := head];
    Extend([s0], s1, 0, DoBegin(Prod, [0], 1, false));
    run := [s0] + [s1];
    if w != head {
      var s2 := Busy(w, cap, 0, 0, Idle);
      assert s2.ops == s1.ops[0 := w];
      assert Shape(s1);
      RoomExact(s1, Prod, 0);
      assert Step(s1, s2, 0, DoLoadTail);
      Extend(run, s2, 0, DoLoadTail);
      run := run + [s2];
    }
  }

  /** `c` objects have gone through the ring and `k` are in it. */
  lemma {:induction false} Pumped(cap: nat, c: nat, k: nat, w: Op, bound: nat) returns (run: seq<State>)
    requires GoodSize(cap) && k <= cap && c + k < bound && Stale(w)
    ensures IsRun(run) && BoundedRun(run, bound) && run[0].cap == cap
    ensures run[|run| - 1] == Busy(w, cap, c + k, c, Idle)
    decreases c, k
  {
    if k > 0 {
      run := Pumped(cap, c, k - 1, w, bound);
      run := EnqueueOne(run, bound, w, cap, c + k - 1, c);
    } else if c > 0 {
      run := Pumped(cap, c - 1, 1, w, bound);
      run := DequeueOne(run, bound, w, cap, c, c - 1);
    } else {
      run := Stuck(cap, w, bound);
    }
  }

  ghost predicate Overrun(s: State) {
    s.prodHead > s.consTail + s.cap
  }

  /** After exactly 2^32 reservations on a full ring the stale swap succeeds and the
    ring is overrun, whatever its size. */
  lemma LapOverruns(cap: nat) returns (run: seq<State>)
    requires GoodSize(cap)
    ensures IsRun(run) && run[0].cap == cap && BoundedRun(run, WORD + 1) && Overrun(run[|run| - 1])
  {
    run := Pumped(cap, WORD - cap, cap, Room(Prod, [0], 1, 0, false), WORD + 1);
    var s := run[|run| - 1];
    var s' := Reserve(s, 0, WORD);
    assert MoveHead(s, s', 0);
    assert Step(s, s', 0, DoMoveHead);
    assert MovedLess(s', WORD + 1) && SinglesAlone(s');
    Extend(run, s', 0, DoMoveHead);
    run := run + [s'];
  }

  /** The ring is never overrun in executions whose heads move less than `bound`
    between a load and its swap, exactly when `bound` is at most 2^32. */
  lemma SafeExactlyBelowFullRound(cap: nat, bound: nat)
    requires GoodSize(cap)
    ensures (forall run: seq<State> :: IsRun(run) && run[0].cap == cap && BoundedRun(run, bound) ==>
               !Overrun(run[|run| - 1]))
            <==> bound <= WORD
  {
    if bound <= WORD {
      forall run: seq<State> | IsRun(run) && run[0].cap == cap && BoundedRun(run, bound)
        ensures !Overrun(run[|run| - 1])
      {
        assert Orderly(run);
        RingSafety(run, |run| - 1);
      }
    } else {
      var run := LapOverruns(cap);
      assert BoundedRun(run, bound);
    }
  }

  // -------------------------------------------------------- a false refusal

  /** If operation `i` ends empty-handed at this step, it asked for nothing or for more
    than there was. */
  ghost predicate Honest(s: State, s': State, i: nat) {
    i < |s.ops| && i < |s'.ops| && s.ops[i].Head? && s'.ops[i].Idle? ==>
      s.ops[i].n == 0 || RealRoom(s, s.ops[i].side) < s.ops[i].n
  }

  ghost predicate HonestAt(run: seq<State>, n: nat, i: nat) {
    n + 1 < |run| ==> Honest(run[n], run[n + 1], i)
  }

  ghost predicate HonestRun(run: seq<State>) {
    forall n: nat, i: nat :: HonestAt(run, n, i)
  }

  lemma HonestBelow(run: seq<State>, bound: nat)
    requires IsRun(run) && BoundedRun(run, bound) && bound + run[0].cap <= WORD
    ensures HonestRun(run)
  {
    assert Orderly(run);
    forall n: nat, i: nat
      ensures HonestAt(run, n, i)
    {
      if n + 1 < |run| && i < |run[n].ops| && i < |run[n + 1].ops| && run[n].ops[i].Head? && run[n + 1].ops[i].Idle? {
        RunKeeps(run, n);
        CapStays(run, n);
        assert MovedLess(run[n], bound) && SinglesAlone(run[n]);
        assert NoFalseRoom(run[n]);
        assert Next(run[n], run[n + 1]);
        var j, a :| Step(run[n], run[n + 1], j, a);
        RefusedHonestly(run[n], run[n + 1], j, a, i);
      }
    }
  }

  lemma {:induction false} CapStays(run: seq<State>, n: nat)
    requires IsRun(run) && n < |run|
    ensures run[n].cap == run[0].cap
  {
    if n > 0 {
      CapStays(run, n - 1);
      assert Next(run[n - 1], run[n - 1 + 1]);
      var j, a :| Step(run[n - 1], run[n], j, a);
    }
  }

  lemma FalseRefusal(cap: nat, s: State, s': State)
    requires GoodSize(cap) && s == Busy(Head(Prod, [0], 1, 0, false), cap, WORD - cap, WORD - cap, Idle)
    requires s' == Busy(Idle, cap, WORD - cap, WORD - cap, Idle)
    ensures Step(s, s', 0, DoLoadTail) && !Honest(s, s', 0)
  {
    assert s'.ops == s.ops[0 := Idle];
    assert RoomSeen(s, Prod, 0) == 0;
  }

  /** After 2^32 - cap enqueues and dequeues the stale call computes room 0 and refuses one
    object, although the ring is empty. */
  lemma EmptyRingRefuses(cap: nat) returns (run: seq<State>)
    requires GoodSize(cap)
    ensures IsRun(run) && run[0].cap == cap && BoundedRun(run, WORD - cap + 1) && !HonestRun(run)
  {
    run := Pumped(cap, WORD - cap, 0, Head(Prod, [0], 1, 0, false), WORD - cap + 1);
    var n := |run| - 1;
    var s' := Busy(Idle, cap, WORD - cap, WORD - cap, Idle);
    FalseRefusal(cap, run[n], s');
    Extend(run, s', 0, DoLoadTail);
    run := run + [s'];
    assert !HonestAt(run, n, 0);
  }

  /** Refusals are honest in all executions whose heads move less than `bound` between a
    load and its test, exactly when `bound` is at most 2^32 - cap. */
  lemma HonestExactlyBelow(cap: nat, bound: nat)
    requires GoodSize(cap)
    ensures (forall run: seq<State> :: IsRun(run) && run[0].cap == cap && BoundedRun(run, bound) ==> HonestRun(run))
            <==> bound <= WORD - cap
  {
    if bound <= WORD - cap {
      forall run: seq<State> | IsRun(run) && run[0].cap == cap && BoundedRun(run, bound)
        ensures HonestRun(run)
      {
        HonestBelow(run, bound);
      }
    } else {
      var run := EmptyRingRefuses(cap);
      assert BoundedRun(run, bound);
    }
  }

  // --------------------------------------------------- two single producers

  /** Two producers in single mode have both loaded head 0 and found room. */
  lemma TwoSinglesLoad(cap: nat) returns (run: seq<State>)
    requires GoodSize(cap)
    ensures IsRun(run) && run[0].cap == cap && forall n :: 0 <= n < |run| ==> NotLapped(run[n])
    ensures run[|run| - 1] == State(cap, 0, 0, 0, 0, Zeros(cap),
                                    [Room(Prod, [0], 1, 0, true), Room(Prod, [0], 1, 0, true)], [], [], [], [])
  {
    var head, room := Head(Prod, [0], 1, 0, true), Room(Prod, [0], 1, 0, true);
    var s0 := State(cap, 0, 0, 0, 0, Zeros(cap), [Idle, Idle], [], [], [], []);
    var s1 := s0.(ops := [head, Idle]);
    var s2 := s0.(ops := [head, head]);
    var s3 := s0.(ops := [room, head]);
    var s4 := s0.(ops := [room, room]);
    LoadSteps(cap, s0, s1, s2, s3, s4);
    var begin := DoBegin(Prod, [0], 1, true);
    Extend([s0], s1, 0, begin);
    var run1 := [s0] + [s1];
    Extend(run1, s2, 1, begin);
    var run2 := run1 + [s2];
    Extend(run2, s3, 0, DoLoadTail);
    var run3 := run2 + [s3];
    Extend(run3, s4, 1, DoLoadTail);
    run := run3 + [s4];
  }

  /** Nothing is lapped, yet both then hold position 0. */
  lemma TwoSinglesCollide(cap: nat) returns (run: seq<State>)
    requires GoodSize(cap)
    ensures IsRun(run) && run[0].cap == cap && forall n :: 0 <= n < |run| ==> NotLapped(run[n])
    ensures var s := run[|run| - 1];
            |s.ops| == 2 && Reserves(s.ops[0], Prod, 0) && Reserves(s.ops[1], Prod, 0)
  {
    var run0 := TwoSinglesLoad(cap);
    var s0 := run0[|run0| - 1];
    var s1 := Reserve(s0, 0, 0);
    var s2 := Reserve(s1, 1, 0);
    assert Step(s0, s1, 0, DoMoveHead) && Step(s1, s2, 1, DoMoveHead);
    Extend(run0, s1, 0, DoMoveHead);
    var run1 := run0 + [s1];
    Extend(run1, s2, 1, DoMoveHead);
    run := run1 + [s2];
  }

  lemma LoadSteps(cap: nat, s0: State, s1: State, s2: State, s3: State, s4: State)
    requires GoodSize(cap) && s0 == State(cap, 0, 0, 0, 0, Zeros(cap), [Idle, Idle], [], [], [], [])
    requires s1 == s0.(ops := [Head(Prod, [0], 1, 0, true), Idle])
    requires s2 == s0.(ops := [Head(Prod, [0], 1, 0, true), Head(Prod, [0], 1, 0, true)])
    requires s3 == s0.(ops := [Room(Prod, [0], 1, 0, true), Head(Prod, [0], 1, 0, true)])
    requires s4 == s0.(ops := [Room(Prod, [0], 1, 0, true), Room(Prod, [0], 1, 0, true)])
    ensures Step(s0, s1, 0, DoBegin(Prod, [0], 1, true)) && Step(s1, s2, 1, DoBegin(Prod, [0], 1, true))
    ensures Step(s2, s3, 0, DoLoadTail) && Step(s3, s4, 1, DoLoadTail)
  {
    assert s1.ops == s0.ops[0 := s1.ops[0]] && s2.ops == s1.ops[1 := s2.ops[1]];
    assert Shape(s2) && Shape(s3);
    RoomExact(s2, Prod, 0);
    RoomExact(s3, Prod, 0);
    assert s3.ops == s2.ops[0 := s3.ops[0]] && s4.ops == s3.ops[1 := s4.ops[1]];
  }
}
