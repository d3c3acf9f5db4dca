/** Every step of the queue protocol keeps the invariant. */
module QueueSteps {
  import opened Tickets
  import opened QueueProtocol
  import opened QueueInvariant

  /** Operation `i` moves from `op` to `op'` without touching shared memory. */
  ghost predicate SameClaims(op: Op, op': Op) {
    && (forall k, t: nat :: Holds(op, k, t) <==> Holds(op', k, t))
    && (forall t: nat :: op.Own? && op.next <= t < op.end ==> (TouchedBy(op, t) <==> TouchedBy(op', t)))
    && (op'.Own? ==> op.Own? && op.kind == op'.kind && op.lo <= op'.lo && op'.end <= op.end)
  }

  /** The step moves operations and changes nothing else. */
  ghost predicate OpsOnly(s: State, s': State) {
    && s' == s.(ops := s'.ops) && |s'.ops| == |s.ops|
    && forall j :: 0 <= j < |s.ops| ==> SameClaims(s.ops[j], s'.ops[j])
  }

  lemma OpsProgress(s: State, s': State, k: Kind, t: nat)
    requires Inv(s) && OpsOnly(s, s')
    ensures Shape(s') && Progress(s', k, t) && Recorded(s', k, t)
  {
    assert Progress(s, k, t) && Recorded(s, k, t);
    assert Owners(s', k) == Owners(s, k) && History(s', k) == History(s, k);
    if t < |Owners(s, k)| {
      var j := Owners(s, k)[t];
      assert SameClaims(s.ops[j], s'.ops[j]);
      assert Holds(s.ops[j], k, t) <==> Holds(s'.ops[j], k, t);
    }
  }

  lemma OpsOwned(s: State, s': State, j: nat)
    requires Inv(s) && OpsOnly(s, s') && j < |s.ops|
    ensures OwnedBy(s', j, s'.ops[j])
  {
    assert OwnedBy(s, j, s.ops[j]) && SameClaims(s.ops[j], s'.ops[j]);
    assert Owners(s', Push) == Owners(s, Push) && Owners(s', Pop) == Owners(s, Pop);
  }

  lemma OpsStep(s: State, s': State)
    requires Inv(s) && OpsOnly(s, s')
    requires forall j :: 0 <= j < |s.ops| ==> OpOk(s', s'.ops[j])
    ensures Inv(s')
  {
    forall j | 0 <= j < |s'.ops|
      ensures OwnedBy(s', j, s'.ops[j])
    {
      OpsOwned(s, s', j);
    }
    forall k, t: nat
      ensures Progress(s', k, t) && Recorded(s', k, t)
    {
      OpsProgress(s, s', k, t);
    }
    forall t: nat
      ensures Contents(s', t)
    {
      assert Contents(s, t);
    }
  }

  lemma OpOkTransfer(s: State, s': State, op: Op)
    requires Shape(s) && Shape(s') && OpOk(s, op)
    requires s'.cap == s.cap && s'.turns == s.turns && s'.allWake == s.allWake
    requires s'.pushers == s.pushers && s'.poppers == s.poppers
    ensures OpOk(s', op)
  {
  }

  lemma LocalStep(s: State, s': State, i: nat, op': Op)
    requires Inv(s) && i < |s.ops|
    requires s' == s.(ops := s.ops[i := op'])
    requires OpOk(s', op') && SameClaims(s.ops[i], op')
    ensures Inv(s')
  {
    forall j | 0 <= j < |s.ops|
      ensures OpOk(s', s'.ops[j]) && SameClaims(s.ops[j], s'.ops[j])
    {
      if j != i {
        OpOkTransfer(s, s', s.ops[j]);
      }
    }
    OpsStep(s, s');
  }

  lemma NextRunOk(s: State, op: Op)
    requires Shape(s) && op.Own? && RunShape(s.cap, op) && (s.allWake ==> op.wake)
    requires op.next == op.hi && op.hi <= |Owners(s, op.kind)|
    ensures OpOk(s, NextRun(op))
    ensures NextRun(op).Own? ==> NextRun(op).pc.Wait?
    ensures forall k, t: nat :: Holds(NextRun(op), k, t) <==> Holds(op, k, t)
  {
    RoundEndAhead(s.cap, op.lo);
  }

  lemma AfterWakeKeeps(s: State, s': State, i: nat, at: nat)
    requires Inv(s) && i < |s.ops| && s.ops[i].Own?
    requires s.ops[i].next == s.ops[i].hi && s.ops[i].lo <= at < s.ops[i].hi
    requires s.ops[i].pc.WakeLoad? || s.ops[i].pc.WakeCas? || s.ops[i].pc.WakeAll?
    requires s' == s.(ops := s.ops[i := AfterWake(s.ops[i], at)])
    ensures Inv(s')
  {
    var op := s.ops[i];
    assert OpOk(s, op) && OwnedBy(s, i, op);
    assert Drawn(Owners(s, op.kind), at, i) && Drawn(Owners(s, op.kind), op.hi - 1, i);
    NextRunOk(s, op);
    LocalStep(s, s', i, AfterWake(op, at));
  }

  lemma OnWordShape(cap: nat, op: Op, at: nat, w: Word)
    requires cap > 0 && op.Own? && OwnShape(cap, op) && w.waiters <= 1
    requires (op.pc.Wait? || op.pc.Mark?) && at == op.pc.at
    ensures var op' := OnWord(cap, op, at, w);
            && op'.Own? && OwnShape(cap, op') && op' == op.(pc := op'.pc) && SameClaims(op, op')
            && Verified(op') == if w.version == Expected(cap, op.kind, op.lo) then at + 1 else at
  {
  }

  /** A version match moves a holder on only when its turn has really come. */
  lemma OnWordOk(s: State, i: nat, at: nat)
    requires Inv(s) && Near(s) && i < |s.ops| && s.ops[i].Own?
    requires s.ops[i].pc.Wait? || s.ops[i].pc.Mark?
    requires at == s.ops[i].pc.at
    ensures Place(s.cap, s.ops[i].lo, at) == Slot(s.cap, at) < s.cap
    ensures var op' := OnWord(s.cap, s.ops[i], at, s.words[Slot(s.cap, at)]);
            OpOk(s, op') && SameClaims(s.ops[i], op')
  {
    var op := s.ops[i];
    assert OpOk(s, op);
    SameRound(s.cap, op.lo, at);
    HeldTestExact(s, i, at);
    OnWordShape(s.cap, op, at, s.words[Slot(s.cap, at)]);
  }

  lemma WaitKeeps(s: State, s': State, i: nat)
    requires Inv(s) && Near(s) && WaitStep(s, s', i)
    ensures Inv(s')
  {
    var op := s.ops[i];
    OnWordOk(s, i, op.pc.at);
    LocalStep(s, s', i, OnWord(s.cap, op, op.pc.at, s.words[Slot(s.cap, op.pc.at)]));
  }

  lemma FutexWaitKeeps(s: State, s': State, i: nat)
    requires Inv(s) && (FutexWait(s, s', i) || SpuriousWake(s, s', i))
    ensures Inv(s')
  {
    assert OpOk(s, s.ops[i]);
    LocalStep(s, s', i, s'.ops[i]);
  }

  lemma WakeLoadKeeps(s: State, s': State, i: nat)
    requires Inv(s) && WakeLoadStep(s, s', i)
    ensures Inv(s')
  {
    var op := s.ops[i];
    assert OpOk(s, op);
    if s'.ops[i] == AfterWake(op, op.pc.at) {
      AfterWakeKeeps(s, s', i, op.pc.at);
    } else {
      LocalStep(s, s', i, s'.ops[i]);
    }
  }

  lemma TryLocalKeeps(s: State, s': State, i: nat)
    requires Inv(s) && (TryAgain(s, s', i) || TryCasFails(s, s', i))
    ensures Inv(s')
  {
    assert OpOk(s, s.ops[i]);
    RoundEndAhead(s.cap, |Owners(s, s.ops[i].kind)|);
    LocalStep(s, s', i, s'.ops[i]);
  }

  lemma BeginTryKeeps(s: State, s': State, i: nat, k: Kind, num: nat, single: bool, wake: bool)
    requires Inv(s) && BeginTry(s, s', i, k, num, single, wake)
    ensures Inv(s')
  {
    RoundEndAhead(s.cap, |Owners(s, k)|);
    LocalStep(s, s', i, s'.ops[i]);
  }

  lemma TryCheckKeeps(s: State, s': State, i: nat)
    requires Inv(s) && Near(s) && TryCheck(s, s', i)
    ensures Inv(s')
  {
    var op := s.ops[i];
    assert OpOk(s, op);
    var t := op.idx + op.seen;
    SameRound(s.cap, op.idx, t);
    if op.idx == |Owners(s, op.kind)| {
      TryTestExact(s, i, t);
    }
    LocalStep(s, s', i, s'.ops[i]);
  }

  // ------------------------------------------------------- drawing tickets

  /** Operation `i`, which owned nothing, draws `num` tickets and starts as `op'`. */
  ghost predicate DrawsInto(s: State, s': State, i: nat, num: nat, op': Op) {
    && i < |s.ops| && !s.ops[i].Own? && num > 0
    && op'.Own? && op'.lo == op'.next == |Owners(s, op'.kind)| && op'.end == op'.lo + num
    && (op'.pc == Wait(op'.lo) || op'.pc == Touch(op'.lo))
    && s' == Draw(s, op'.kind, i, num).(ops := s.ops[i := op'])
  }

  /** Drawing appends to one log and leaves versions, words and histories alone. */
  lemma DrawLogs(s: State, s': State, i: nat, num: nat, op': Op)
    requires Shape(s) && DrawsInto(s, s', i, num, op')
    ensures Shape(s') && s'.turns == s.turns && s'.cap == s.cap && s'.allWake == s.allWake
    ensures forall k :: History(s', k) == History(s, k) && Owners(s, k) <= Owners(s', k)
    ensures forall t: nat :: |Owners(s, op'.kind)| <= t < |Owners(s', op'.kind)| ==> Owners(s', op'.kind)[t] == i
    ensures forall k :: k != op'.kind ==> Owners(s', k) == Owners(s, k)
    ensures |Owners(s', op'.kind)| == op'.end && s'.ops == s.ops[i := op']
  {
  }

  lemma DrawOthers(s: State, s': State, i: nat, num: nat, op': Op, j: nat)
    requires Inv(s) && DrawsInto(s, s', i, num, op') && j < |s.ops| && j != i
    ensures Shape(s') && OpOk(s', s'.ops[j]) && OwnedBy(s', j, s'.ops[j])
  {
    DrawLogs(s, s', i, num, op');
    assert OpOk(s, s.ops[j]) && OwnedBy(s, j, s.ops[j]);
    assert forall k, t: nat :: Drawn(Owners(s, k), t, j) ==> Drawn(Owners(s', k), t, j);
  }

  lemma DrawProgress(s: State, s': State, i: nat, num: nat, op': Op, k: Kind, t: nat)
    requires Inv(s) && DrawsInto(s, s', i, num, op')
    ensures Shape(s') && Progress(s', k, t)
  {
    DrawLogs(s, s', i, num, op');
    assert Progress(s, k, t);
    if t < |Owners(s, k)| {
      assert Owners(s', k)[t] == Owners(s, k)[t];
    }
  }

  lemma DrawRecorded(s: State, s': State, i: nat, num: nat, op': Op, k: Kind, t: nat)
    requires Inv(s) && DrawsInto(s, s', i, num, op')
    ensures Shape(s') && Recorded(s', k, t)
  {
    DrawLogs(s, s', i, num, op');
    assert Progress(s, k, t) && Recorded(s, k, t);
    if t < |Owners(s, k)| {
      assert Owners(s', k)[t] == Owners(s, k)[t];
    }
  }

  lemma DrawKeeps(s: State, s': State, i: nat, num: nat, op': Op)
    requires Inv(s) && DrawsInto(s, s', i, num, op') && OpOk(s', op')
    ensures Inv(s')
  {
    forall j | 0 <= j < |s'.ops|
      ensures OpOk(s', s'.ops[j]) && OwnedBy(s', j, s'.ops[j])
    {
      if j != i {
        DrawOthers(s, s', i, num, op', j);
      }
    }
    forall k, t: nat
      ensures Progress(s', k, t) && Recorded(s', k, t)
    {
      DrawProgress(s, s', i, num, op', k, t);
      DrawRecorded(s, s', i, num, op', k, t);
    }
    DrawContents(s, s', i, num, op');
  }

  lemma DrawContents(s: State, s': State, i: nat, num: nat, op': Op)
    requires Inv(s) && DrawsInto(s, s', i, num, op')
    ensures Shape(s') && forall t: nat :: Contents(s', t)
  {
    forall t: nat
      ensures Shape(s') && Contents(s', t)
    {
      assert Contents(s, t);
    }
  }

  lemma BeginKeeps(s: State, s': State, i: nat,
                   k: Kind, num: nat, single: bool, wake: bool, block: bool)
    requires Inv(s) && Begin(s, s', i, k, num, single, wake, block)
    ensures Inv(s')
  {
    RoundEndAhead(s.cap, |Owners(s, k)|);
    DrawKeeps(s, s', i, num, s'.ops[i]);
  }

  /** A stale version match cannot take effect: the swap succeeds only on the index
    that was checked, and then the checked slots are still at their turn. */
  lemma TryCasKeeps(s: State, s': State, i: nat)
    requires Inv(s) && TryCas(s, s', i)
    ensures Inv(s')
  {
    assert OpOk(s, s.ops[i]);
    DrawKeeps(s, s', i, s.ops[i].num, s'.ops[i]);
  }

  // ---------------------------------------------- steps on the waiter mark

  /** The invariant speaks of words only through their versions and mark bound. */
  lemma WordsOnlyKeeps(s: State, s': State)
    requires Inv(s) && s' == s.(words := s'.words) && Shape(s')
    ensures Inv(s')
  {
    assert Owners(s', Push) == Owners(s, Push) && Owners(s', Pop) == Owners(s, Pop);
    forall j | 0 <= j < |s'.ops|
      ensures OpOk(s', s'.ops[j]) && OwnedBy(s', j, s'.ops[j])
    {
      OpOkTransfer(s, s', s.ops[j]);
      assert OwnedBy(s, j, s.ops[j]);
    }
    forall k, t: nat
      ensures Progress(s', k, t) && Recorded(s', k, t)
    {
      assert Progress(s, k, t) && Recorded(s, k, t);
    }
    forall t: nat
      ensures Contents(s', t)
    {
      assert Contents(s, t);
    }
  }

  /** The step changes the waiter mark of one word and moves operation `i`. */
  lemma MarkOnlyKeeps(s: State, s': State, i: nat, q: nat, w: Word, op': Op)
    requires Inv(s) && i < |s.ops| && q < s.cap
    requires w.version == s.words[q].version && w.waiters <= 1
    requires s' == s.(words := s.words[q := w], ops := s.ops[i := op'])
    requires OpOk(s.(ops := s.ops[i := op']), op') && SameClaims(s.ops[i], op')
    ensures Inv(s')
  {
    var s1 := s.(ops := s.ops[i := op']);
    LocalStep(s, s1, i, op');
    WordsOnlyKeeps(s1, s');
  }

  lemma MarkKeeps(s: State, s': State, i: nat)
    requires Inv(s) && Near(s) && MarkStep(s, s', i)
    ensures Inv(s')
  {
    var op := s.ops[i];
    OnWordOk(s, i, op.pc.at);
    var q := Slot(s.cap, op.pc.at);
    if s.words[q] == op.pc.word {
      MarkSetKeeps(s, s', i, q);
    } else {
      LocalStep(s, s', i, s'.ops[i]);
    }
  }

  lemma MarkSetKeeps(s: State, s': State, i: nat, q: nat)
    requires Inv(s) && MarkStep(s, s', i) && s.ops[i].Own? && s.ops[i].pc.Mark?
    requires q == Place(s.cap, s.ops[i].lo, s.ops[i].pc.at) && s.words[q] == s.ops[i].pc.word
    ensures Inv(s')
  {
    assert OpOk(s, s.ops[i]);
    MarkOnlyKeeps(s, s', i, q, s'.words[q], s'.ops[i]);
  }

  lemma WakeCasKeeps(s: State, s': State, i: nat)
    requires Inv(s) && WakeCasStep(s, s', i)
    ensures Inv(s')
  {
    var op := s.ops[i];
    assert OpOk(s, op);
    var q := Place(s.cap, op.lo, op.pc.at);
    if s.words[q] == op.pc.word {
      MarkOnlyKeeps(s, s', i, q, s'.words[q], s'.ops[i]);
    } else {
      AfterWakeKeeps(s, s', i, op.pc.at);
    }
  }

  /** Waking a slot only moves sleepers back to their version test. */
  lemma WakeAllKeeps(s: State, s': State, i: nat)
    requires Inv(s) && WakeAllStep(s, s', i)
    ensures Inv(s')
  {
    var op := s.ops[i];
    assert OpOk(s, op);
    var s1 := s.(ops := s.ops[i := AfterWake(op, op.pc.at)]);
    AfterWakeKeeps(s, s1, i, op.pc.at);
    forall j | 0 <= j < |s1.ops|
      ensures OpOk(s', s'.ops[j]) && SameClaims(s1.ops[j], s'.ops[j])
    {
      OpOkTransfer(s1, s', s1.ops[j]);
    }
    OpsStep(s1, s');
  }

  // ---------------------------------------------------- exclusive accesses

  lemma VerifiedTicket(s: State, i: nat, t: nat)
    requires Inv(s) && i < |s.ops| && s.ops[i].Own?
    requires s.ops[i].next <= t < Verified(s.ops[i])
    ensures Ready(s.cap, s.turns, s.ops[i].kind, t) && Drawn(Owners(s, s.ops[i].kind), t, i)
  {
  }

  /** Whoever passed the version test for the same slot is the same operation with
    the same ticket. */
  lemma Exclusive(s: State, i: nat, t: nat, j: nat, u: nat)
    requires Inv(s) && i < |s.ops| && j < |s.ops| && s.ops[i].Own? && s.ops[j].Own?
    requires s.ops[i].next <= t < Verified(s.ops[i]) && s.ops[j].next <= u < Verified(s.ops[j])
    requires Slot(s.cap, t) == Slot(s.cap, u)
    ensures i == j && t == u
  {
    VerifiedTicket(s, i, t);
    VerifiedTicket(s, j, u);
    TurnsDistinct(s.cap, s.ops[i].kind, t, s.ops[j].kind, u);
  }

  /** A ticket that was touched but not completed is at its turn. */
  lemma TouchedIsReady(s: State, k: Kind, t: nat)
    requires Inv(s) && t in History(s, k) && Open(s.cap, s.turns, k, t)
    ensures Ready(s.cap, s.turns, k, t)
  {
    assert Recorded(s, k, t) && Progress(s, k, t);
    var op := s.ops[Owners(s, k)[t]];
    assert OpOk(s, op);
  }

  lemma TouchProgress(s: State, s': State, i: nat, v: Value, k: Kind, t: nat)
    requires Inv(s) && TouchStep(s, s', i, v)
    ensures Shape(s') && Progress(s', k, t)
  {
    assert Progress(s, k, t);
    assert Owners(s', k) == Owners(s, k);
    if t < |Owners(s, k)| {
      var j := Owners(s, k)[t];
      assert Holds(s.ops[j], k, t) <==> Holds(s'.ops[j], k, t);
    }
  }

  lemma TouchRecorded(s: State, s': State, i: nat, v: Value, k: Kind, t: nat)
    requires Inv(s) && TouchStep(s, s', i, v)
    ensures Shape(s') && Recorded(s', k, t)
  {
    var op := s.ops[i];
    assert OpOk(s, op) && OwnedBy(s, i, op);
    assert Drawn(Owners(s, op.kind), op.pc.at, i);
    assert Progress(s, op.kind, op.pc.at);
    assert Progress(s, k, t) && Recorded(s, k, t);
    assert Owners(s', k) == Owners(s, k);
    if t < |Owners(s, k)| && Owners(s, k)[t] == i && Holds(op, k, t) {
      assert TouchedBy(s'.ops[i], t) <==> TouchedBy(op, t) || t == op.pc.at;
    }
  }

  lemma TouchContents(s: State, s': State, i: nat, v: Value, t: nat)
    requires Inv(s) && TouchStep(s, s', i, v)
    ensures Shape(s') && Contents(s', t)
  {
    var op := s.ops[i];
    var at := op.pc.at;
    assert OpOk(s, op) && OwnedBy(s, i, op);
    SameRound(s.cap, op.lo, at);
    assert Drawn(Owners(s, op.kind), at, i) && Ready(s.cap, s.turns, op.kind, at);
    assert Progress(s, op.kind, at) && Recorded(s, op.kind, at);
    assert Contents(s, t);
    if Slot(s.cap, t) == Slot(s.cap, at) {
      forall k | Ready(s.cap, s.turns, k, t)
        ensures k == op.kind && t == at
      {
        TurnsDistinct(s.cap, k, t, op.kind, at);
      }
    }
    if t == at && op.kind.Push? && t in s.popped {
      TouchedAfterPush(s, t);
    }
  }

  /** A ticket whose push turn has not passed cannot have been popped. */
  lemma TouchedAfterPush(s: State, t: nat)
    requires Inv(s) && Open(s.cap, s.turns, Push, t)
    ensures t !in s.popped
  {
    if t in s.popped {
      TouchedIsReady(s, Pop, t);
      assert false;
    }
  }

  lemma AfterTouchShape(cap: nat, op: Op)
    requires cap > 0 && op.Own? && OwnShape(cap, op) && op.pc.Touch?
    ensures var op' := AfterTouch(op, op.pc.at);
            OwnShape(cap, op') && op' == op.(pc := op'.pc) && Verified(op') == Verified(op)
  {
  }

  lemma TouchOps(s: State, s': State, i: nat, v: Value, j: nat)
    requires Inv(s) && TouchStep(s, s', i, v) && j < |s.ops|
    ensures Shape(s') && OpOk(s', s'.ops[j]) && OwnedBy(s', j, s'.ops[j])
  {
    assert OpOk(s, s.ops[j]) && OwnedBy(s, j, s.ops[j]);
    assert Owners(s', Push) == Owners(s, Push) && Owners(s', Pop) == Owners(s, Pop);
    if j == i {
      AfterTouchShape(s.cap, s.ops[i]);
    } else {
      OpOkTransfer(s, s', s.ops[j]);
    }
  }

  lemma TouchKeeps(s: State, s': State, i: nat, v: Value)
    requires Inv(s) && TouchStep(s, s', i, v)
    ensures Inv(s')
  {
    forall j | 0 <= j < |s'.ops|
      ensures OpOk(s', s'.ops[j]) && OwnedBy(s', j, s'.ops[j])
    {
      TouchOps(s, s', i, v, j);
    }
    forall k, t: nat
      ensures Progress(s', k, t) && Recorded(s', k, t)
    {
      TouchProgress(s, s', i, v, k, t);
      TouchRecorded(s, s', i, v, k, t);
    }
    forall t: nat
      ensures Contents(s', t)
    {
      TouchContents(s, s', i, v, t);
    }
  }

  // ----------------------------------------------------- advancing versions

  /** `op'` continues `op` after its ticket `next` was published. */
  ghost predicate Continues(op: Op, op': Op)
    requires op.Own?
  {
    && (forall k, t: nat :: Holds(op', k, t) <==> Holds(op, k, t) && t != op.next)
    && (forall t: nat :: op.next < t < op.end ==> (TouchedBy(op', t) <==> TouchedBy(op, t)))
    && (op'.Own? ==> op.kind == op'.kind && op.lo <= op'.lo && op'.end <= op.end
                     && op'.next > op.next && Verified(op') <= op.hi)
  }

  /** Operation `i` advances the slot of its ticket `next` and continues as `op'`. */
  ghost predicate Publishes(s: State, s': State, i: nat, w: Word, op': Op) {
    && AtOwn(s, i) && s.ops[i].pc.Publish? && OwnShape(s.cap, s.ops[i])
    && var op := s.ops[i];
    && var q := Slot(s.cap, op.next);
    && w.version == (s.turns[q] + 1) % VERSIONS && w.waiters <= 1
    && s' == s.(words := s.words[q := w], turns := s.turns[q := s.turns[q] + 1],
                ops := s.ops[i := op'])
    && Continues(op, op')
  }

  /** Other tickets keep their relation to their slots when `next` completes. */
  lemma PublishTurns(s: State, s': State, i: nat, w: Word, op': Op, k: Kind, t: nat)
    requires Inv(s) && Publishes(s, s', i, w, op')
    requires !(k == s.ops[i].kind && t == s.ops[i].next)
    ensures Shape(s') && (Open(s'.cap, s'.turns, k, t) <==> Open(s.cap, s.turns, k, t))
    ensures Ready(s.cap, s.turns, k, t) ==> Ready(s'.cap, s'.turns, k, t)
  {
    var op := s.ops[i];
    assert OpOk(s, op);
    assert Ready(s.cap, s.turns, op.kind, op.next);
    if Slot(s.cap, t) == Slot(s.cap, op.next) && Turn(s.cap, k, t) == Turn(s.cap, op.kind, op.next) {
      TurnsDistinct(s.cap, k, t, op.kind, op.next);
    }
  }

  lemma PublishTickets(s: State, s': State, i: nat, w: Word, op': Op, k: Kind, t: nat)
    requires Inv(s) && Publishes(s, s', i, w, op')
    ensures Shape(s') && Progress(s', k, t) && Recorded(s', k, t)
  {
    var op := s.ops[i];
    assert OpOk(s, op) && OwnedBy(s, i, op);
    assert Drawn(Owners(s, op.kind), op.next, i);
    assert Ready(s.cap, s.turns, op.kind, op.next);
    assert Progress(s, k, t) && Recorded(s, k, t);
    assert Owners(s', k) == Owners(s, k);
    if k == op.kind && t == op.next {
      assert !Open(s'.cap, s'.turns, k, t);
    } else {
      PublishTurns(s, s', i, w, op', k, t);
      if t < |Owners(s, k)| && Owners(s, k)[t] == i {
        assert Holds(op', k, t) <==> Holds(op, k, t);
      }
    }
  }

  lemma PublishContents(s: State, s': State, i: nat, w: Word, op': Op, t: nat)
    requires Inv(s) && Publishes(s, s', i, w, op')
    ensures Shape(s') && Contents(s', t)
  {
    var op := s.ops[i];
    var n := op.next;
    assert OpOk(s, op) && OwnedBy(s, i, op);
    assert Drawn(Owners(s, op.kind), n, i) && Ready(s.cap, s.turns, op.kind, n);
    assert Progress(s, op.kind, n) && Recorded(s, op.kind, n);
    assert Contents(s, t);
    if Slot(s.cap, t) == Slot(s.cap, n) {
      if Ready(s'.cap, s'.turns, Pop, t) {
        TurnsDistinct(s.cap, Push, t, op.kind, n);
      }
      if Ready(s'.cap, s'.turns, Push, t) && t in s.pushed {
        TouchedIsReady(s, Push, t);
        assert false;
      }
    }
  }

  lemma PublishOthers(s: State, s': State, i: nat, w: Word, op': Op, j: nat)
    requires Inv(s) && Publishes(s, s', i, w, op') && j < |s.ops| && j != i
    ensures Shape(s') && OpOk(s', s.ops[j])
  {
    var op := s.ops[i];
    assert OpOk(s, op) && OwnedBy(s, i, op) && OpOk(s, s.ops[j]) && OwnedBy(s, j, s.ops[j]);
    assert Drawn(Owners(s, op.kind), op.next, i);
    assert Owners(s', Push) == Owners(s, Push) && Owners(s', Pop) == Owners(s, Pop);
    if s.ops[j].Own? {
      forall t: nat | s.ops[j].next <= t < Verified(s.ops[j])
        ensures Ready(s'.cap, s'.turns, s.ops[j].kind, t)
      {
        assert Drawn(Owners(s, s.ops[j].kind), t, j);
        PublishTurns(s, s', i, w, op', s.ops[j].kind, t);
      }
    } else if s.ops[j].Try? && s.ops[j].idx == |Owners(s, s.ops[j].kind)| {
      forall t: nat | s.ops[j].idx <= t < s.ops[j].idx + s.ops[j].seen
        ensures Ready(s'.cap, s'.turns, s.ops[j].kind, t)
      {
        PublishTurns(s, s', i, w, op', s.ops[j].kind, t);
      }
    }
  }

  lemma PublishSelf(s: State, s': State, i: nat, w: Word, op': Op, t: nat)
    requires Inv(s) && Publishes(s, s', i, w, op') && op'.Own?
    requires op'.next <= t < Verified(op')
    ensures Shape(s') && Ready(s'.cap, s'.turns, op'.kind, t)
  {
    assert OpOk(s, s.ops[i]);
    PublishTurns(s, s', i, w, op', op'.kind, t);
  }

  lemma PublishKeeps(s: State, s': State, i: nat, w: Word, op': Op)
    requires Inv(s) && Publishes(s, s', i, w, op') && Shape(s') && OpOk(s', op')
    ensures Inv(s')
  {
    assert OwnedBy(s, i, s.ops[i]);
    assert Owners(s', Push) == Owners(s, Push) && Owners(s', Pop) == Owners(s, Pop);
    forall j | 0 <= j < |s'.ops|
      ensures OpOk(s', s'.ops[j]) && OwnedBy(s', j, s'.ops[j])
    {
      if j != i {
        PublishOthers(s, s', i, w, op', j);
        assert OwnedBy(s, j, s.ops[j]);
      }
    }
    forall k, t: nat
      ensures Progress(s', k, t) && Recorded(s', k, t)
    {
      PublishTickets(s, s', i, w, op', k, t);
    }
    forall t: nat
      ensures Contents(s', t)
    {
      PublishContents(s, s', i, w, op', t);
    }
  }

  lemma AfterPublish(s: State, op: Op, op': Op)
    requires Shape(s) && op.Own? && OwnShape(s.cap, op) && op.pc.Publish?
    requires (s.allWake ==> op.wake) && op.hi <= |Owners(s, op.kind)|
    requires (op' == AfterStore(op) && !(op.single && op.wake))
             || (op.single && op.wake && op' == NextRun(op.(next := op.hi)))
             || (op.single && op.wake && op' == op.(next := op.hi, pc := WakeAll(op.lo)))
    ensures Continues(op, op')
    ensures op'.Own? ==> OwnShape(s.cap, op')
    ensures op'.Own? && Verified(op') > op'.next ==> op'.pc.Publish?
    ensures !op'.Own? ==> OpOk(s, op') && (op'.Try? ==> op'.seen == 0)
    ensures s.allWake && (op'.Own? || op'.Try?) ==> op'.wake
  {
    if op.next + 1 == op.hi {
      NextRunOk(s, op.(next := op.hi));
    }
  }

  /** Both publishing steps advance the slot of ticket `next` by one version. */
  lemma PublishStepIs(s: State, s': State, i: nat)
    requires Inv(s) && (StoreStep(s, s', i) || ExchangeStep(s, s', i))
    ensures var q := Slot(s.cap, s.ops[i].next);
            && Place(s.cap, s.ops[i].lo, s.ops[i].next) == q < s.cap
            && Ready(s.cap, s.turns, s.ops[i].kind, s.ops[i].next)
            && s'.turns == s.turns[q := s.turns[q] + 1]
            && s'.words == s.words[q := s'.words[q]]
            && s'.words[q].version == (s.turns[q] + 1) % VERSIONS && s'.words[q].waiters <= 1
  {
    var op := s.ops[i];
    assert OpOk(s, op);
    SameRound(s.cap, op.lo, op.next);
    assert Ready(s.cap, s.turns, op.kind, op.next);
    NextVersion(Turn(s.cap, op.kind, op.lo));
  }

  lemma PublishStepKeeps(s: State, s': State, i: nat)
    requires Inv(s) && (StoreStep(s, s', i) || ExchangeStep(s, s', i))
    ensures Inv(s')
  {
    var op := s.ops[i];
    var op' := s'.ops[i];
    var q := Slot(s.cap, op.next);
    assert OpOk(s, op) && OwnedBy(s, i, op);
    assert Drawn(Owners(s, op.kind), op.hi - 1, i);
    PublishStepIs(s, s', i);
    AfterPublish(s, op, op');
    var w := s'.words[q];
    assert Publishes(s, s', i, w, op');
    PublisherReady(s, s', i, w, op');
    PublishKeeps(s, s', i, w, op');
  }

  /** The tickets the publisher still has to publish are at their turn. */
  lemma PublisherReady(s: State, s': State, i: nat, w: Word, op': Op)
    requires Inv(s) && Publishes(s, s', i, w, op')
    ensures Shape(s')
    ensures op'.Own? ==> forall t: nat :: op'.next <= t < Verified(op') ==> Ready(s'.cap, s'.turns, op'.kind, t)
  {
    if op'.Own? {
      forall t: nat | op'.next <= t < Verified(op')
        ensures Ready(s'.cap, s'.turns, op'.kind, t)
      {
        PublishSelf(s, s', i, w, op', t);
      }
    }
  }

  /** Every step of every operation keeps the invariant, whatever the interleaving. */
  lemma StepKeeps(s: State, s': State, i: nat, a: Action)
    requires Inv(s) && Near(s) && Step(s, s', i, a)
    ensures Inv(s') && |s'.ops| == |s.ops|
  {
    match a
    case DoBegin(k, num, single, wake, block) => BeginKeeps(s, s', i, k, num, single, wake, block);
    case DoBeginTry(k, num, single, wake) => BeginTryKeeps(s, s', i, k, num, single, wake);
    case DoTryCheck => TryCheckKeeps(s, s', i);
    case DoTryAgain => TryLocalKeeps(s, s', i);
    case DoTryCas => TryCasKeeps(s, s', i);
    case DoTryCasFails => TryLocalKeeps(s, s', i);
    case DoWait => WaitKeeps(s, s', i);
    case DoMark => MarkKeeps(s, s', i);
    case DoFutexWait => FutexWaitKeeps(s, s', i);
    case DoSpuriousWake => FutexWaitKeeps(s, s', i);
    case DoTouch(v) => TouchKeeps(s, s', i, v);
    case DoStore => PublishStepKeeps(s, s', i);
    case DoExchange => PublishStepKeeps(s, s', i);
    case DoWakeLoad => WakeLoadKeeps(s, s', i);
    case DoWakeCas => WakeCasKeeps(s, s', i);
    case DoWakeAll => WakeAllKeeps(s, s', i);
  }
}
