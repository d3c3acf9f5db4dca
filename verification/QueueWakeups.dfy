/** No wake-up is lost: a sleeper whose version has arrived always has a waker. */
module QueueWakeups {
  import opened Tickets
  import opened QueueProtocol
  import opened QueueInvariant
  import opened QueueSteps

  /** The operation is about to wake every sleeper of slot `q`. */
  predicate WakesAll(cap: nat, op: Op, q: nat)
    requires cap > 0
  {
    op.Own? && op.pc.WakeAll? && op.lo <= op.pc.at && Place(cap, op.lo, op.pc.at) == q
  }

  /** First ticket of the run whose wake-up check is still ahead. */
  function WakeFrom(op: Op): nat
    requires op.Own?
  {
    match op.pc
    case Publish => op.lo
    case WakeLoad(at) => at
    case WakeCas(at, _) => at
    case WakeAll(at) => at + 1
    case _ => op.hi
  }

  /** The operation stored the current version of slot `q` and will still check it
    for waiters. */
  predicate WillWake(cap: nat, turns: seq<nat>, op: Op, q: nat)
    requires |turns| == cap > 0 && q < cap
  {
    && op.Own? && op.wake && !op.single && Slot(cap, op.lo) <= q
    && var t := op.lo + (q - Slot(cap, op.lo));
    && WakeFrom(op) <= t < op.next
    && turns[q] == Turn(cap, op.kind, op.lo) + 1
  }

  ghost predicate Waking(s: State, q: nat)
    requires Shape(s)
  {
    exists i :: 0 <= i < |s.ops| && WakesAll(s.cap, s.ops[i], q)
  }

  ghost predicate WakePending(s: State, q: nat)
    requires Shape(s) && q < s.cap
  {
    exists i :: 0 <= i < |s.ops| && WillWake(s.cap, s.turns, s.ops[i], q)
  }

  /** A sleeper is about to be woken, or it is marked and either its version has not
    arrived or the storer of the current version will check the mark. */
  ghost predicate Attended(s: State, q: nat, turn: nat)
    requires Shape(s) && q < s.cap
  {
    Waking(s, q) || (s.words[q].waiters == 1 && (s.turns[q] < turn || WakePending(s, q)))
  }

  ghost predicate SleepInv(s: State)
    requires Shape(s)
  {
    forall j, q :: 0 <= j < |s.ops| && 0 <= q < s.cap && SleepsOn(s.cap, s.ops[j], q) ==>
      Attended(s, q, Turn(s.cap, s.ops[j].kind, s.ops[j].lo))
  }

  /** Operation `i` has nothing to wake, and sleepers and marks stay. */
  lemma QuietStep(s: State, s': State, i: nat, q: nat, turn: nat)
    requires Shape(s) && Shape(s') && q < s.cap && Attended(s, q, turn) && i < |s.ops|
    requires s'.cap == s.cap && s'.turns == s.turns && |s'.ops| == |s.ops|
    requires s'.ops == s.ops[i := s'.ops[i]]
    requires s.words[q].waiters == 1 ==> s'.words[q].waiters == 1
    requires !WakesAll(s.cap, s.ops[i], q) && !WillWake(s.cap, s.turns, s.ops[i], q)
    ensures Attended(s', q, turn)
  {
    if Waking(s, q) {
      var n :| 0 <= n < |s.ops| && WakesAll(s.cap, s.ops[n], q);
      assert WakesAll(s'.cap, s'.ops[n], q);
    } else if WakePending(s, q) {
      var n :| 0 <= n < |s.ops| && WillWake(s.cap, s.turns, s.ops[n], q);
      assert WillWake(s'.cap, s'.turns, s'.ops[n], q);
    }
  }

  /** Before it publishes, an operation has no wake-up duty. */
  lemma NoDuty(s: State, i: nat, q: nat)
    requires Inv(s) && i < |s.ops| && q < s.cap
    requires s.ops[i].Own? ==> s.ops[i].next == s.ops[i].lo
    ensures !WakesAll(s.cap, s.ops[i], q) && !WillWake(s.cap, s.turns, s.ops[i], q)
  {
  }

  /** A holder's slot has not passed the holder's turn. */
  lemma NotPassed(s: State, i: nat, t: nat)
    requires Inv(s) && i < |s.ops| && s.ops[i].Own? && s.ops[i].next <= t < s.ops[i].hi
    ensures Place(s.cap, s.ops[i].lo, t) == Slot(s.cap, t) < s.cap
    ensures s.turns[Slot(s.cap, t)] <= Turn(s.cap, s.ops[i].kind, s.ops[i].lo)
  {
    var op := s.ops[i];
    assert OpOk(s, op) && OwnedBy(s, i, op);
    SameRound(s.cap, op.lo, t);
    assert Drawn(Owners(s, op.kind), t, i);
    assert Progress(s, op.kind, t);
  }

  /** A new sleeper saw its own mark and a version that is not yet its own. */
  lemma FallsAsleep(s: State, s': State, i: nat, q: nat)
    requires Inv(s) && FutexWait(s, s', i) && q < s.cap && SleepsOn(s'.cap, s'.ops[i], q)
    ensures Shape(s') && Attended(s', q, Turn(s.cap, s.ops[i].kind, s.ops[i].lo))
  {
    assert OpOk(s, s.ops[i]);
    NotPassed(s, i, s.ops[i].pc.at);
  }

  /** Steps before publication. */
  predicate Early(a: Action) {
    a.DoBegin? || a.DoBeginTry? || a.DoTryCheck? || a.DoTryAgain? || a.DoTryCas?
    || a.DoTryCasFails? || a.DoWait? || a.DoMark? || a.DoFutexWait? || a.DoSpuriousWake? || a.DoTouch?
  }

  /** An early step changes one operation, and of the words at most one mark. */
  lemma EarlyStepShape(s: State, s': State, i: nat, a: Action)
    requires Shape(s) && Step(s, s', i, a) && Early(a)
    ensures i < |s.ops| && |s'.ops| == |s.ops| && s'.cap == s.cap && s'.turns == s.turns
    ensures s'.ops == s.ops[i := s'.ops[i]]
    ensures |s'.words| == s.cap && (!a.DoMark? ==> s'.words == s.words)
  {
  }

  lemma EarlyStepIsQuiet(s: State, s': State, i: nat, a: Action, q: nat)
    requires Inv(s) && Step(s, s', i, a) && Early(a) && q < s.cap
    ensures i < |s.ops| && |s'.ops| == |s.ops| && s'.cap == s.cap && s'.turns == s.turns
    ensures s'.ops == s.ops[i := s'.ops[i]]
    ensures |s'.words| == s.cap && (s.words[q].waiters == 1 ==> s'.words[q].waiters == 1)
    ensures s.ops[i].Own? ==> s.ops[i].next == s.ops[i].lo
    ensures s'.ops[i].Own? && s'.ops[i].pc.Asleep? ==> a.DoFutexWait?
  {
    EarlyStepShape(s, s', i, a);
    assert OpOk(s, s.ops[i]);
  }

  lemma EarlyStepAttended(s: State, s': State, i: nat, a: Action, j: nat, q: nat)
    requires Inv(s) && SleepInv(s) && Inv(s') && Step(s, s', i, a) && Early(a)
    requires j < |s'.ops| && q < s'.cap && SleepsOn(s'.cap, s'.ops[j], q)
    ensures Attended(s', q, Turn(s'.cap, s'.ops[j].kind, s'.ops[j].lo))
  {
    EarlyStepIsQuiet(s, s', i, a, q);
    if j == i {
      FallsAsleep(s, s', i, q);
    } else {
      NoDuty(s, i, q);
      QuietStep(s, s', i, q, Turn(s.cap, s.ops[j].kind, s.ops[j].lo));
    }
  }

  /** After its store the storer has the new version's slot still to check. */
  lemma StorerWillWake(s: State, s': State, i: nat)
    requires Inv(s) && s.allWake && StoreStep(s, s', i) && Inv(s')
    ensures WillWake(s'.cap, s'.turns, s'.ops[i], Slot(s.cap, s.ops[i].next))
  {
    var op := s.ops[i];
    assert OpOk(s, op);
    PublishStepIs(s, s', i);
    SameRound(s.cap, op.lo, op.next);
  }

  /** Storing a version leaves the mark, and the storer will check it. */
  lemma StoreAttended(s: State, s': State, i: nat, q: nat, turn: nat)
    requires Inv(s) && s.allWake && StoreStep(s, s', i) && Inv(s') && q < s.cap
    requires Attended(s, q, turn)
    ensures Attended(s', q, turn)
  {
    var op := s.ops[i];
    assert OpOk(s, op);
    PublishStepIs(s, s', i);
    if Waking(s, q) {
      var n :| 0 <= n < |s.ops| && WakesAll(s.cap, s.ops[n], q);
      assert WakesAll(s'.cap, s'.ops[n], q);
    } else if q == Slot(s.cap, op.next) {
      StorerWillWake(s, s', i);
    } else if WakePending(s, q) {
      var n :| 0 <= n < |s.ops| && WillWake(s.cap, s.turns, s.ops[n], q);
      assert WillWake(s'.cap, s'.turns, s'.ops[n], q);
    }
  }

  /** Exchanging a marked word makes the exchanger the waker. */
  lemma ExchangeAttended(s: State, s': State, i: nat, q: nat, turn: nat)
    requires Inv(s) && ExchangeStep(s, s', i) && Inv(s') && q < s.cap
    requires Attended(s, q, turn)
    ensures Attended(s', q, turn)
  {
    var op := s.ops[i];
    assert OpOk(s, op);
    PublishStepIs(s, s', i);
    if Waking(s, q) {
      var n :| 0 <= n < |s.ops| && WakesAll(s.cap, s.ops[n], q);
      assert WakesAll(s'.cap, s'.ops[n], q);
    } else if q == Slot(s.cap, op.next) {
      assert WakesAll(s'.cap, s'.ops[i], q);
    } else if WakePending(s, q) {
      var n :| 0 <= n < |s.ops| && WillWake(s.cap, s.turns, s.ops[n], q);
      assert WillWake(s'.cap, s'.turns, s'.ops[n], q);
    }
  }

  /** The slot a waker is due to wake shows the version it stored. */
  lemma WakerSees(s: State, i: nat, q: nat)
    requires Inv(s) && i < |s.ops| && q < s.cap && WillWake(s.cap, s.turns, s.ops[i], q)
    requires s.ops[i].Own? && (s.ops[i].pc.WakeLoad? || s.ops[i].pc.WakeCas?)
    ensures s.words[q].version == (Expected(s.cap, s.ops[i].kind, s.ops[i].lo) + 1) % VERSIONS
    ensures Slot(s.cap, s.ops[i].lo) <= q && s.ops[i].lo + (q - Slot(s.cap, s.ops[i].lo)) < s.ops[i].hi
  {
    assert OpOk(s, s.ops[i]);
    NextVersion(Turn(s.cap, s.ops[i].kind, s.ops[i].lo));
  }

  /** A storer that is due to wake a marked slot keeps that duty or starts waking. */
  lemma WakeLoadAdvances(s: State, s': State, i: nat, q: nat)
    requires Inv(s) && WakeLoadStep(s, s', i) && q < s.cap
    requires s.words[q].waiters == 1 && WillWake(s.cap, s.turns, s.ops[i], q)
    ensures WillWake(s'.cap, s'.turns, s'.ops[i], q)
  {
    WakerSees(s, i, q);
    assert OpOk(s, s.ops[i]);
  }

  lemma WakeCasAdvances(s: State, s': State, i: nat, q: nat)
    requires Inv(s) && WakeCasStep(s, s', i) && q < s.cap
    requires s.words[q].waiters == 1 && WillWake(s.cap, s.turns, s.ops[i], q)
    ensures |s'.words| == s.cap
    ensures WakesAll(s'.cap, s'.ops[i], q)
            || (s'.words[q].waiters == 1 && WillWake(s'.cap, s'.turns, s'.ops[i], q))
  {
    WakerSees(s, i, q);
    assert OpOk(s, s.ops[i]);
  }

  lemma WakerAdvances(s: State, s': State, i: nat, q: nat)
    requires Inv(s) && (WakeLoadStep(s, s', i) || WakeCasStep(s, s', i)) && q < s.cap
    requires s.words[q].waiters == 1 && WillWake(s.cap, s.turns, s.ops[i], q)
    ensures |s'.words| == s.cap
    ensures WakesAll(s'.cap, s'.ops[i], q)
            || (s'.words[q].waiters == 1 && WillWake(s'.cap, s'.turns, s'.ops[i], q))
  {
    if s.ops[i].pc.WakeLoad? {
      WakeLoadAdvances(s, s', i, q);
    } else {
      WakeCasAdvances(s, s', i, q);
    }
  }

  lemma WakeCheckAttended(s: State, s': State, i: nat, q: nat, turn: nat)
    requires Inv(s) && (WakeLoadStep(s, s', i) || WakeCasStep(s, s', i)) && Inv(s') && q < s.cap
    requires Attended(s, q, turn)
    ensures Attended(s', q, turn)
  {
    var op := s.ops[i];
    if Waking(s, q) {
      var n :| 0 <= n < |s.ops| && WakesAll(s.cap, s.ops[n], q);
      assert WakesAll(s'.cap, s'.ops[n], q);
    } else if s'.words[q].waiters == 0 {
      assert WakesAll(s'.cap, s'.ops[i], q);
    } else if WakePending(s, q) {
      var n :| 0 <= n < |s.ops| && WillWake(s.cap, s.turns, s.ops[n], q);
      if n == i {
        WakerAdvances(s, s', i, q);
      } else {
        assert WillWake(s'.cap, s'.turns, s'.ops[n], q);
      }
    }
  }

  /** Waking a slot leaves no sleeper there; other duties stay. */
  lemma WakeAllAttended(s: State, s': State, i: nat, j: nat, q: nat)
    requires Inv(s) && SleepInv(s) && WakeAllStep(s, s', i) && Inv(s')
    requires j < |s'.ops| && q < s'.cap && SleepsOn(s'.cap, s'.ops[j], q)
    ensures Attended(s', q, Turn(s'.cap, s'.ops[j].kind, s'.ops[j].lo))
  {
    var op := s.ops[i];
    assert OpOk(s, op);
    assert j != i && s'.ops[j] == s.ops[j];
    var turn := Turn(s.cap, s.ops[j].kind, s.ops[j].lo);
    assert Attended(s, q, turn);
    if Waking(s, q) {
      var n :| 0 <= n < |s.ops| && WakesAll(s.cap, s.ops[n], q);
      assert WakesAll(s'.cap, s'.ops[n], q);
    } else if WakePending(s, q) {
      var n :| 0 <= n < |s.ops| && WillWake(s.cap, s.turns, s.ops[n], q);
      assert WillWake(s'.cap, s'.turns, s'.ops[n], q);
    }
  }

  lemma SleeperAttended(s: State, s': State, i: nat, a: Action, j: nat, q: nat)
    requires Inv(s) && SleepInv(s) && s.allWake && Inv(s') && Step(s, s', i, a)
    requires j < |s'.ops| && q < s'.cap && SleepsOn(s'.cap, s'.ops[j], q)
    ensures Attended(s', q, Turn(s'.cap, s'.ops[j].kind, s'.ops[j].lo))
  {
    if Early(a) {
      EarlyStepAttended(s, s', i, a, j, q);
    } else if a.DoWakeAll? {
      WakeAllAttended(s, s', i, j, q);
    } else {
      StaysAsleep(s, s', i, a, j, q);
      var turn := Turn(s.cap, s.ops[j].kind, s.ops[j].lo);
      match a
      case DoStore => StoreAttended(s, s', i, q, turn);
      case DoExchange => ExchangeAttended(s, s', i, q, turn);
      case DoWakeLoad => WakeCheckAttended(s, s', i, q, turn);
      case DoWakeCas => WakeCheckAttended(s, s', i, q, turn);
    }
  }

  /** Publishing and waking operations do not fall asleep. */
  lemma StaysAsleep(s: State, s': State, i: nat, a: Action, j: nat, q: nat)
    requires Step(s, s', i, a) && s'.cap > 0
    requires a.DoStore? || a.DoExchange? || a.DoWakeLoad? || a.DoWakeCas?
    requires j < |s'.ops| && SleepsOn(s'.cap, s'.ops[j], q)
    ensures j != i && j < |s.ops| && s'.ops[j] == s.ops[j] && s'.cap == s.cap
  {
    assert !(s'.ops[i].Own? && s'.ops[i].pc.Asleep?);
  }

  lemma StepKeepsSleep(s: State, s': State, i: nat, a: Action)
    requires Inv(s) && SleepInv(s) && s.allWake && Inv(s') && Step(s, s', i, a)
    ensures SleepInv(s')
  {
    forall j, q | 0 <= j < |s'.ops| && 0 <= q < s'.cap && SleepsOn(s'.cap, s'.ops[j], q)
      ensures Attended(s', q, Turn(s'.cap, s'.ops[j].kind, s'.ops[j].lo))
    {
      SleeperAttended(s, s', i, a, j, q);
    }
  }
}
