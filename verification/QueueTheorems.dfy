/** What every execution of the queue protocol guarantees. */
module QueueTheorems {
  import opened Tickets
  import opened QueueProtocol
  import opened QueueInvariant
  import opened QueueSteps
  import opened QueueWakeups

  /** Some callback of the operation may access slot `q` now. */
  predicate InCallback(cap: nat, op: Op, q: nat)
    requires cap > 0
  {
    op.Own? && op.pc.Touch? && Slot(cap, op.lo) <= q < Slot(cap, op.lo) + (op.hi - op.lo)
  }

  /** No slot is open to two callbacks. */
  ghost predicate ExclusiveSlots(s: State) {
    s.cap > 0 ==>
      forall i, j, q: nat | 0 <= i < |s.ops| && 0 <= j < |s.ops| ::
        InCallback(s.cap, s.ops[i], q) && InCallback(s.cap, s.ops[j], q) ==> i == j
  }

  /** What a pop ticket received is what the push with the same ticket wrote. */
  ghost predicate Fifo(s: State) {
    forall t :: t in s.popped ==> t in s.pushed && s.popped[t] == s.pushed[t]
  }

  /** For waiting ticket holders the 16-bit comparison is the unbounded one. */
  ghost predicate VersionTestsExact(s: State) {
    && Shape(s)
    && forall i, t: nat :: 0 <= i < |s.ops| && s.ops[i].Own? && Holds(s.ops[i], s.ops[i].kind, t) ==>
         (s.words[Slot(s.cap, t)].version == Turn(s.cap, s.ops[i].kind, t) % VERSIONS
          <==> s.turns[Slot(s.cap, t)] == Turn(s.cap, s.ops[i].kind, t))
  }

  /** No outstanding ticket is ever 2^15 or more rounds ahead of its slot. */
  ghost predicate NearRun(run: seq<State>) {
    forall m :: 0 <= m < |run| ==> Near(run[m])
  }

  lemma NextKeeps(s: State, s': State)
    requires Inv(s) && Near(s) && Next(s, s')
    ensures Inv(s') && |s'.ops| == |s.ops|
  {
    var i, a :| Step(s, s', i, a);
    StepKeeps(s, s', i, a);
  }

  lemma RunNext(run: seq<State>, n: nat)
    requires IsRun(run) && n + 1 < |run|
    ensures Next(run[n], run[n + 1])
  {
  }

  lemma {:induction false} RunKeeps(run: seq<State>, n: nat)
    requires IsRun(run) && NearRun(run) && n < |run|
    ensures Inv(run[n]) && |run[n].ops| == |run[0].ops|
  {
    if n == 0 {
      InitInv(run[0]);
    } else {
      RunKeeps(run, n - 1);
      RunNext(run, n - 1);
      NextKeeps(run[n - 1], run[n]);
    }
  }

  lemma SlotsExclusive(s: State)
    requires Inv(s)
    ensures ExclusiveSlots(s)
  {
    forall i, j, q: nat | 0 <= i < |s.ops| && 0 <= j < |s.ops|
        && InCallback(s.cap, s.ops[i], q) && InCallback(s.cap, s.ops[j], q)
      ensures i == j
    {
      assert OpOk(s, s.ops[i]) && OpOk(s, s.ops[j]);
      var t := s.ops[i].lo + (q - Slot(s.cap, s.ops[i].lo));
      var u := s.ops[j].lo + (q - Slot(s.cap, s.ops[j].lo));
      SameRound(s.cap, s.ops[i].lo, t);
      SameRound(s.cap, s.ops[j].lo, u);
      Exclusive(s, i, t, j, u);
    }
  }

  lemma InvIsSafe(s: State)
    requires Inv(s) && Near(s)
    ensures ExclusiveSlots(s) && Fifo(s) && VersionTestsExact(s)
  {
    SlotsExclusive(s);
    forall t | t in s.popped
      ensures t in s.pushed && s.popped[t] == s.pushed[t]
    {
      assert Contents(s, t);
    }
    forall i, t: nat | 0 <= i < |s.ops| && s.ops[i].Own? && Holds(s.ops[i], s.ops[i].kind, t)
      ensures s.words[Slot(s.cap, t)].version == Turn(s.cap, s.ops[i].kind, t) % VERSIONS
              <==> s.turns[Slot(s.cap, t)] == Turn(s.cap, s.ops[i].kind, t)
    {
      HeldTestExact(s, i, t);
    }
  }

  /** Safety of every execution, with any number of operations, in which no outstanding
    ticket gets 2^15 rounds ahead of its slot. */
  lemma QueueSafety(run: seq<State>, n: nat)
    requires IsRun(run) && NearRun(run) && n < |run|
    ensures ExclusiveSlots(run[n]) && Fifo(run[n]) && VersionTestsExact(run[n])
  {
    RunKeeps(run, n);
    InvIsSafe(run[n]);
  }

  lemma {:induction false} FewOpsKeep(run: seq<State>, n: nat)
    requires IsRun(run) && |run[0].ops| <= MAX_OPS && n < |run|
    ensures Inv(run[n]) && Near(run[n]) && |run[n].ops| == |run[0].ops|
  {
    if n == 0 {
      InitInv(run[0]);
    } else {
      FewOpsKeep(run, n - 1);
      RunNext(run, n - 1);
      NextKeeps(run[n - 1], run[n]);
    }
    FewOpsNear(run[n]);
  }

  /** With at most 2^15 operations in flight that holds by itself. */
  lemma FewOpsNearRun(run: seq<State>)
    requires IsRun(run) && |run[0].ops| <= MAX_OPS
    ensures NearRun(run)
  {
    forall m | 0 <= m < |run|
      ensures Near(run[m])
    {
      FewOpsKeep(run, m);
    }
  }

  // --------------------------------------------------------- histories

  /** Tickets are issued once and a recorded value is never replaced. */
  ghost predicate Extends(s: State, s': State) {
    && s.pushers <= s'.pushers && s.poppers <= s'.poppers
    && (forall t :: t in s.pushed ==> t in s'.pushed && s'.pushed[t] == s.pushed[t])
    && (forall t :: t in s.popped ==> t in s'.popped && s'.popped[t] == s.popped[t])
  }

  lemma TouchIsNew(s: State, i: nat)
    requires Inv(s) && i < |s.ops| && s.ops[i].Own? && s.ops[i].pc.Touch?
    ensures s.ops[i].pc.at !in History(s, s.ops[i].kind)
  {
    var op := s.ops[i];
    assert OpOk(s, op) && OwnedBy(s, i, op);
    assert Drawn(Owners(s, op.kind), op.pc.at, i);
    assert Progress(s, op.kind, op.pc.at) && Recorded(s, op.kind, op.pc.at);
  }

  /** Only draws and callbacks touch the logs. */
  lemma LogsStay(s: State, s': State, i: nat, a: Action)
    requires Step(s, s', i, a) && !a.DoTouch? && !a.DoBegin? && !a.DoTryCas?
    ensures s'.pushers == s.pushers && s'.poppers == s.poppers && s'.pushed == s.pushed && s'.popped == s.popped
  {
  }

  lemma StepExtends(s: State, s': State, i: nat, a: Action)
    requires Inv(s) && Step(s, s', i, a)
    ensures Extends(s, s')
  {
    if a.DoTouch? {
      TouchIsNew(s, i);
    } else if !a.DoBegin? && !a.DoTryCas? {
      LogsStay(s, s', i, a);
    }
  }

  lemma NextExtends(s: State, s': State)
    requires Inv(s) && Next(s, s')
    ensures Extends(s, s')
  {
    var i, a :| Step(s, s', i, a);
    StepExtends(s, s', i, a);
  }

  lemma ExtendsTrans(a: State, b: State, c: State)
    requires Extends(a, b) && Extends(b, c)
    ensures Extends(a, c)
  {
  }

  lemma {:induction false} ExtendsAlong(run: seq<State>, m: nat, n: nat)
    requires m <= n < |run| && forall k :: 0 <= k < |run| - 1 ==> Extends(run[k], run[k + 1])
    ensures Extends(run[m], run[n])
    decreases n
  {
    if m < n {
      ExtendsAlong(run, m, n - 1);
      assert Extends(run[n - 1], run[n - 1 + 1]);
      ExtendsTrans(run[m], run[n - 1], run[n]);
    }
  }

  lemma RunExtends(run: seq<State>, m: nat, n: nat)
    requires IsRun(run) && NearRun(run) && m <= n < |run|
    ensures Extends(run[m], run[n])
  {
    forall k | 0 <= k < |run| - 1
      ensures Extends(run[k], run[k + 1])
    {
      RunKeeps(run, k);
      RunNext(run, k);
      NextExtends(run[k], run[k + 1]);
    }
    ExtendsAlong(run, m, n);
  }

  // ------------------------------------------------------- failed tries

  /** Ticket `t` cannot be served: for a pop, the push with the same ticket is not
    complete; for a push, the pop one round before is not. */
  ghost predicate Unready(s: State, k: Kind, t: nat)
    requires Shape(s)
  {
    if k.Pop? then Open(s.cap, s.turns, Push, t) else t >= s.cap && Open(s.cap, s.turns, Pop, t - s.cap)
  }

  /** What a try operation finds when it gives up: the next ticket cannot be served. */
  ghost predicate NothingToTake(s: State, k: Kind, t: nat)
    requires Shape(s)
  {
    t == |Owners(s, k)| && Unready(s, k, t)
  }

  lemma NotReadyMeans(s: State, k: Kind, t: nat)
    requires Inv(s) && t >= |Owners(s, k)| && !Ready(s.cap, s.turns, k, t)
    ensures Unready(s, k, t)
  {
    assert Progress(s, k, t);
    if k.Push? {
      DivMod(s.cap, t);
      RoundsBack(s.cap, t, 1);
    }
  }

  /** A step of another operation starts no failure. */
  lemma OthersMissNot(s: State, s': State, i: nat, j: nat, a: Action)
    requires Step(s, s', j, a) && i < |s.ops| == |s'.ops| && i != j
    ensures s'.ops[i] == s.ops[i] || s'.ops[i].Own?
  {
  }

  lemma WaitersMissNot(s: State, s': State, i: nat, a: Action)
    requires Step(s, s', i, a) && i < |s.ops| == |s'.ops| && s.ops[i].Own? && Early(a)
    ensures !s'.ops[i].Miss?
  {
  }

  lemma OwnersMissNot(s: State, s': State, i: nat, a: Action)
    requires Step(s, s', i, a) && i < |s.ops| == |s'.ops| && s.ops[i].Own?
    ensures !s'.ops[i].Miss?
  {
    if Early(a) {
      WaitersMissNot(s, s', i, a);
    }
  }

  /** Only a failed version test starts to give up. */
  lemma MissComesFromCheck(s: State, s': State, i: nat, a: Action)
    requires Step(s, s', i, a) && i < |s.ops| == |s'.ops| && s'.ops[i].Miss?
    ensures a.DoTryCheck?
  {
    if s.ops[i].Own? {
      OwnersMissNot(s, s', i, a);
    }
  }

  /** The failed test read the slot of the index, and the index was current. */
  lemma CheckMissed(s: State, s': State, i: nat)
    requires Inv(s) && Near(s) && TryCheck(s, s', i) && s'.ops[i].Miss?
    requires s'.ops[i].idx == |Owners(s, s'.ops[i].kind)|
    ensures NothingToTake(s, s'.ops[i].kind, s'.ops[i].idx)
  {
    var op := s.ops[i];
    assert OpOk(s, op);
    assert AimsAt(s, op, op.idx + op.seen);
    SameRound(s.cap, op.idx, op.idx + op.seen);
    TryTestExact(s, i, op.idx + op.seen);
    NotReadyMeans(s, op.kind, op.idx);
  }

  /** One step back from an operation about to give up: it was already, with the same
    index, or it has just found nothing to take. */
  ghost predicate MissedOrMissing(s: State, s': State, i: nat)
    requires Shape(s) && i < |s.ops| && i < |s'.ops| && s'.ops[i].Miss?
  {
    var op := s'.ops[i];
    || (s.ops[i] == op && op.idx == |Owners(s, op.kind)|)
    || (s.ops[i].Try? && s.ops[i].idx == op.idx && NothingToTake(s, op.kind, op.idx))
  }

  lemma StepBack(s: State, s': State, i: nat)
    requires Inv(s) && Near(s) && Next(s, s') && i < |s.ops| == |s'.ops| && s'.ops[i].Miss?
    requires s'.ops[i].idx == |Owners(s', s'.ops[i].kind)|
    ensures MissedOrMissing(s, s', i)
  {
    var j, a :| Step(s, s', j, a);
    StepExtends(s, s', j, a);
    if s.ops[i] == s'.ops[i] {
      MissIndex(s, i);
    } else {
      if i != j {
        OthersMissNot(s, s', i, j, a);
      }
      MissComesFromCheck(s, s', i, a);
      CheckMissed(s, s', i);
    }
  }

  /** Operation `i` is about to give up, and its index has not moved. */
  ghost predicate Missing(s: State, i: nat) {
    i < |s.ops| && s.ops[i].Miss? && s.ops[i].idx == |Owners(s, s.ops[i].kind)|
  }

  ghost predicate CameFrom(s: State, s': State, i: nat)
    requires Missing(s', i)
  {
    Shape(s) && i < |s.ops| && MissedOrMissing(s, s', i)
  }

  lemma RunBack(run: seq<State>, n: nat, i: nat)
    requires IsRun(run) && NearRun(run) && n < |run| && Missing(run[n], i)
    ensures n > 0 && CameFrom(run[n - 1], run[n], i)
  {
    assert n > 0;
    RunKeeps(run, n);
    RunKeeps(run, n - 1);
    RunNext(run, n - 1);
    StepBack(run[n - 1], run[n], i);
  }

  lemma {:induction false} BackToTest(run: seq<State>, n: nat, i: nat) returns (m: nat)
    requires n < |run| && Missing(run[n], i)
    requires forall l :: 0 <= l < |run| && Missing(run[l], i) ==> l > 0 && CameFrom(run[l - 1], run[l], i)
    ensures m < n && i < |run[m].ops| && run[m].ops[i].Try? && run[m].ops[i].idx == run[n].ops[i].idx
    ensures Shape(run[m]) && NothingToTake(run[m], run[n].ops[i].kind, run[n].ops[i].idx)
    ensures forall l :: m < l <= n ==> i < |run[l].ops| && run[l].ops[i] == run[n].ops[i]
  {
    assert CameFrom(run[n - 1], run[n], i);
    if run[n - 1].ops[i] == run[n].ops[i] {
      m := BackToTest(run, n - 1, i);
    } else {
      m := n - 1;
    }
  }

  /** try_push and try_pop give up (TryAgain with an unmoved index) only if at some
    instant `m` of the call the index was the same and there was nothing to take. */
  lemma FailedTry(run: seq<State>, n: nat, i: nat) returns (m: nat)
    requires IsRun(run) && NearRun(run) && n < |run| && Missing(run[n], i)
    ensures m < n && i < |run[m].ops| && run[m].ops[i].Try? && run[m].ops[i].idx == run[n].ops[i].idx
    ensures Shape(run[m]) && NothingToTake(run[m], run[n].ops[i].kind, run[n].ops[i].idx)
    ensures forall l :: m < l <= n ==> i < |run[l].ops| && run[l].ops[i] == run[n].ops[i]
  {
    forall l | 0 <= l < |run| && Missing(run[l], i)
      ensures l > 0 && CameFrom(run[l - 1], run[l], i)
    {
      RunBack(run, l, i);
    }
    m := BackToTest(run, n, i);
  }

  lemma MissIndex(s: State, i: nat)
    requires Inv(s) && i < |s.ops| && s.ops[i].Miss?
    ensures s.ops[i].idx <= |Owners(s, s.ops[i].kind)|
  {
    assert OpOk(s, s.ops[i]);
  }

  // ------------------------------------------------------------- at rest

  ghost predicate AllIdle(s: State) {
    forall i :: 0 <= i < |s.ops| ==> s.ops[i].Idle?
  }

  /** With nothing in flight a ticket is complete exactly when it was issued. */
  lemma IdleTicket(s: State, k: Kind, t: nat)
    requires Inv(s) && AllIdle(s)
    ensures t in History(s, k) <==> t < |Owners(s, k)|
    ensures Open(s.cap, s.turns, k, t) <==> t >= |Owners(s, k)|
  {
    assert Progress(s, k, t) && Recorded(s, k, t);
  }

  /** Pops never overtake pushes and pushes never lap pops. */
  lemma IdleCounts(s: State)
    requires Inv(s) && AllIdle(s)
    ensures |s.poppers| <= |s.pushers| <= |s.poppers| + s.cap
  {
    IdleTicket(s, Push, |s.pushers|);
    IdleTicket(s, Pop, |s.pushers|);
    IdleTicket(s, Pop, |s.poppers|);
    IdleTicket(s, Push, |s.poppers| + s.cap);
    NextRound(s.cap, |s.poppers|);
  }

  /** When nothing is in flight, exactly the issued tickets are in the histories and
    the unpopped ones fill at most `cap` slots, each with the value pushed there. */
  lemma AtRest(s: State, t: nat)
    requires Inv(s) && AllIdle(s)
    ensures |s.poppers| <= |s.pushers| <= |s.poppers| + s.cap
    ensures t in s.pushed <==> t < |s.pushers|
    ensures t in s.popped <==> t < |s.poppers|
    ensures |s.poppers| <= t < |s.pushers| ==>
              && Slot(s.cap, t) < |s.values| == |s.words|
              && s.values[Slot(s.cap, t)] == s.pushed[t]
              && s.words[Slot(s.cap, t)].version == Turn(s.cap, Pop, t) % VERSIONS
  {
    IdleCounts(s);
    IdleTicket(s, Push, t);
    IdleTicket(s, Pop, t);
    assert Contents(s, t);
  }

  // ---------------------------------------------------------- wake-ups

  /** The invariant of runs in which every operation wakes. */
  ghost predicate WakeInv(s: State) {
    Inv(s) && s.allWake && SleepInv(s)
  }

  lemma {:induction false} RunKeepsSleep(run: seq<State>, n: nat)
    requires IsRun(run) && NearRun(run) && run[0].allWake && n < |run|
    ensures WakeInv(run[n])
  {
    if n == 0 {
      InitSleep(run[0]);
    } else {
      RunKeepsSleep(run, n - 1);
      RunNext(run, n - 1);
      NextKeepsSleep(run[n - 1], run[n]);
    }
  }

  lemma InitSleep(s: State)
    requires Init(s) && s.allWake
    ensures WakeInv(s)
  {
  }

  lemma NextKeepsSleep(s: State, s': State)
    requires WakeInv(s) && Near(s) && Next(s, s')
    ensures WakeInv(s')
  {
    var i, a :| Step(s, s', i, a);
    StepKeeps(s, s', i, a);
    StepKeepsSleep(s, s', i, a);
    AllWakeFixed(s, s', i, a);
  }

  lemma AllWakeFixed(s: State, s': State, i: nat, a: Action)
    requires Step(s, s', i, a)
    ensures s'.allWake == s.allWake
  {
  }

  /** No lost wake-up: if every operation wakes and the word of a sleeper shows the
    version it waits for, some operation is about to wake that slot or has stored that
    very version and has the check of the slot's mark, which is set, still ahead. */
  lemma NoLostWakeup(run: seq<State>, n: nat, j: nat)
    requires IsRun(run) && NearRun(run) && run[0].allWake && n < |run|
    requires j < |run[n].ops| && run[n].ops[j].Own? && run[n].ops[j].pc.Asleep?
    ensures var s := run[n]; var op := s.ops[j];
            && Inv(s) && Slot(s.cap, op.pc.at) < s.cap
            && (s.words[Slot(s.cap, op.pc.at)].version == Expected(s.cap, op.kind, op.lo) ==>
                  || Waking(s, Slot(s.cap, op.pc.at))
                  || (s.words[Slot(s.cap, op.pc.at)].waiters == 1
                      && WakePending(s, Slot(s.cap, op.pc.at))))
  {
    RunKeepsSleep(run, n);
    var s := run[n];
    var op := s.ops[j];
    var q := Slot(s.cap, op.pc.at);
    assert OpOk(s, op);
    SameRound(s.cap, op.lo, op.pc.at);
    assert SleepsOn(s.cap, op, q);
    assert Attended(s, q, Turn(s.cap, op.kind, op.lo));
    HeldTestExact(s, j, op.pc.at);
  }
}
