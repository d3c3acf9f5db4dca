/** Invariant of the queue protocol: ticket ownership, versions and slot contents. */
module QueueInvariant {
  import opened Tickets
  import opened QueueProtocol

  /** At most this many operations in flight keep the 16-bit test exact. */
  const MAX_OPS: nat := 0x8000

  ghost predicate Shape(s: State) {
    && s.cap > 0
    && |s.words| == |s.turns| == |s.values| == s.cap
    && forall q :: 0 <= q < s.cap ==>
         s.words[q].version == s.turns[q] % VERSIONS && s.words[q].waiters <= 1
  }

  /** Ticket `t` has not been completed: its slot has not passed its turn. */
  predicate Open(cap: nat, turns: seq<nat>, k: Kind, t: nat)
    requires |turns| == cap > 0
  {
    turns[Slot(cap, t)] <= Turn(cap, k, t)
  }

  /** It is the turn of ticket `t` on its slot. */
  predicate Ready(cap: nat, turns: seq<nat>, k: Kind, t: nat)
    requires |turns| == cap > 0
  {
    turns[Slot(cap, t)] == Turn(cap, k, t)
  }

  /** Ticket `t` was drawn by operation `i`. */
  predicate Drawn(owners: seq<nat>, t: nat, i: nat) {
    t < |owners| && owners[t] == i
  }

  predicate Holds(op: Op, k: Kind, t: nat) {
    op.Own? && op.kind == k && op.next <= t < op.end
  }

  /** The callback has already accessed the slot of the held ticket `t`. */
  predicate TouchedBy(op: Op, t: nat) {
    op.Own? && ((op.pc.Touch? && t < op.pc.at) || (op.pc.Publish? && t < op.hi))
  }

  function History(s: State, k: Kind): map<nat, Value> {
    if k.Push? then s.pushed else s.popped
  }

  /** Tickets [op.next, Verified(op)) have passed the version test. */
  function Verified(op: Op): nat
    requires op.Own?
  {
    match op.pc
    case Wait(at) => at
    case Mark(at, _) => at
    case Block(at, _) => at
    case Asleep(at) => at
    case Touch(_) => op.hi
    case Publish => op.hi
    case _ => op.next
  }

  /** The run [lo, hi) lies in one round and a batch has at most two runs. */
  predicate RunShape(cap: nat, op: Op)
    requires cap > 0 && op.Own?
  {
    && op.lo < op.hi <= op.end <= op.goal <= op.lo + cap
    && op.hi <= RoundEnd(cap, op.lo)
    && (op.hi < op.goal ==> op.hi == RoundEnd(cap, op.lo))
    && (op.end < op.goal ==> op.hi == op.end)
    && op.lo <= op.next <= op.hi
    && (op.single ==> op.hi == op.lo + 1 == op.goal)
  }

  predicate OwnShape(cap: nat, op: Op)
    requires cap > 0 && op.Own?
  {
    && RunShape(cap, op)
    && match op.pc
       case Wait(at) => op.lo <= at < op.hi && op.next == op.lo
       case Mark(at, w) => op.lo <= at < op.hi && op.next == op.lo && w.waiters == 0
                           && w.version != Expected(cap, op.kind, op.lo)
       case Block(at, w) => op.lo <= at < op.hi && op.next == op.lo && w.waiters == 1
                            && w.version != Expected(cap, op.kind, op.lo)
       case Asleep(at) => op.lo <= at < op.hi && op.next == op.lo
       case Touch(at) => op.lo <= at < op.hi && op.next == op.lo
       case Publish => op.next < op.hi
       case WakeLoad(at) => op.lo <= at < op.hi && op.next == op.hi && op.wake && !op.single
       case WakeCas(at, w) => op.lo <= at < op.hi && op.next == op.hi && op.wake && !op.single
                              && w.waiters == 1
                              && w.version == (Expected(cap, op.kind, op.lo) + 1) % VERSIONS
       case WakeAll(at) => op.lo <= at < op.hi && op.next == op.hi && op.wake
  }

  predicate TryShape(cap: nat, op: Op)
    requires cap > 0 && op.Try?
  {
    && 1 <= op.num && op.seen <= op.num
    && op.idx + op.num <= RoundEnd(cap, op.idx)
    && op.idx + op.num <= op.goal <= op.idx + cap
    && (op.idx + op.num < op.goal ==> op.idx + op.num == RoundEnd(cap, op.idx))
    && (op.single ==> op.num == 1 && op.goal == op.idx + 1)
  }

  ghost predicate OpOk(s: State, op: Op)
    requires Shape(s)
  {
    match op
    case Idle => true
    case Miss(k, wake, idx) => idx <= |Owners(s, k)| && (s.allWake ==> wake)
    case Try(k, _, wake, idx, _, seen, _) =>
      && TryShape(s.cap, op) && idx <= |Owners(s, k)| && (s.allWake ==> wake)
      && (idx == |Owners(s, k)| ==> forall t: nat :: idx <= t < idx + seen ==> Ready(s.cap, s.turns, k, t))
    case Own(k, _, wake, _, _, _, _, _, next, _) =>
      && OwnShape(s.cap, op) && (s.allWake ==> wake)
      && forall t: nat :: next <= t < Verified(op) ==> Ready(s.cap, s.turns, k, t)
  }

  /** Every ticket of an operation was drawn by that operation. */
  ghost predicate OwnedBy(s: State, i: nat, op: Op) {
    op.Own? ==> forall t: nat :: op.lo <= t < op.end ==> Drawn(Owners(s, op.kind), t, i)
  }

  /** A drawn ticket is held by its drawer exactly until its slot passes its turn. */
  ghost predicate Progress(s: State, k: Kind, t: nat)
    requires Shape(s)
  {
    if t < |Owners(s, k)| then
      Owners(s, k)[t] < |s.ops| && (Holds(s.ops[Owners(s, k)[t]], k, t) <==> Open(s.cap, s.turns, k, t))
    else Open(s.cap, s.turns, k, t)
  }

  /** A ticket is in the history exactly when its callback access has happened. */
  ghost predicate Recorded(s: State, k: Kind, t: nat)
    requires Shape(s)
  {
    t in History(s, k) <==>
      t < |Owners(s, k)| && (!Open(s.cap, s.turns, k, t) ||
        (Owners(s, k)[t] < |s.ops| && TouchedBy(s.ops[Owners(s, k)[t]], t)))
  }

  ghost predicate Contents(s: State, t: nat)
    requires Shape(s)
  {
    && (Ready(s.cap, s.turns, Push, t) && t in s.pushed ==> s.values[Slot(s.cap, t)] == s.pushed[t])
    && (Ready(s.cap, s.turns, Pop, t) && t !in s.popped ==> t in s.pushed && s.values[Slot(s.cap, t)] == s.pushed[t])
    && (t in s.popped ==> t in s.pushed && s.popped[t] == s.pushed[t])
  }

  ghost predicate Inv(s: State) {
    && Shape(s)
    && (forall i :: 0 <= i < |s.ops| ==> OpOk(s, s.ops[i]) && OwnedBy(s, i, s.ops[i]))
    && (forall k, t: nat :: Progress(s, k, t))
    && (forall k, t: nat :: Recorded(s, k, t))
    && (forall t: nat :: Contents(s, t))
  }

  lemma InitInv(s: State)
    requires Init(s)
    ensures Inv(s)
  {
  }

  // ------------------------------------------------------------ versions

  /** Tickets of one slot that are still open are held by different operations, so a
    ticket is never further ahead of its slot than there are operations.  The `n`
    tickets are those `first`, `first + 1`, ... rounds before `t`. */
  lemma AheadBound(s: State, k: Kind, t: nat, first: nat, n: nat)
    requires Inv(s) && n > 0
    requires t < |Owners(s, k)| + first * s.cap
    requires s.turns[Slot(s.cap, t)] + 2 * (first + n - 1) <= Turn(s.cap, k, t)
    ensures n <= |s.ops|
    ensures forall i :: 0 <= i < |s.ops| && !s.ops[i].Own? ==> n < |s.ops|
  {
    var us := seq(n, j => t - (first + j) * s.cap);
    forall j | 0 <= j < n
      ensures 0 <= us[j] < |Owners(s, k)| && Owners(s, k)[us[j]] < |s.ops|
      ensures Holds(s.ops[Owners(s, k)[us[j]]], k, us[j])
    {
      assert first + j <= t / s.cap;
      RoundsBack(s.cap, t, first + j);
      MulStep(first, first + j, s.cap);
      assert Progress(s, k, us[j]);
    }
    var hs := seq(n, j requires 0 <= j < n => Owners(s, k)[us[j]]);
    forall a, b | 0 <= a < b < n
      ensures hs[a] != hs[b]
    {
      MulStep(first + a, first + b, s.cap);
      assert OpOk(s, s.ops[hs[a]]);
    }
    Pigeonhole(hs, |s.ops|);
    forall i | 0 <= i < |s.ops| && !s.ops[i].Own?
      ensures n < |s.ops|
    {
      Pigeonhole(hs + [i], |s.ops|);
    }
  }

  lemma SameResidue(a: nat, b: nat)
    requires a < b && a % VERSIONS == b % VERSIONS
    ensures a + VERSIONS <= b
  {
  }

  /** Ticket `t` is less than `bound` turns ahead of its slot. */
  predicate Close(s: State, k: Kind, t: nat, bound: nat)
    requires |s.turns| == s.cap > 0
  {
    Turn(s.cap, k, t) < s.turns[Slot(s.cap, t)] + bound
  }

  /** A try operation whose index is current is about to take ticket `t`. */
  predicate AimsAt(s: State, op: Op, t: nat) {
    op.Try? && op.idx == |Owners(s, op.kind)| && op.idx <= t < op.idx + op.num
  }

  /** Every outstanding ticket is close: those held, and those that a try operation with
    a current index is about to take. */
  ghost predicate Within(s: State, bound: nat) {
    && |s.turns| == s.cap > 0
    && (forall i, t: nat :: 0 <= i < |s.ops| && s.ops[i].Own? && Holds(s.ops[i], s.ops[i].kind, t) ==>
          Close(s, s.ops[i].kind, t, bound))
    && (forall i, t: nat :: 0 <= i < |s.ops| && AimsAt(s, s.ops[i], t) ==> Close(s, s.ops[i].kind, t, bound))
  }

  /** No outstanding ticket is 2^15 or more rounds ahead of its slot: less than 2^16
    turns. */
  ghost predicate Near(s: State) {
    Within(s, VERSIONS)
  }

  /** The 16-bit comparison of a close ticket that is not past decides the unbounded
    one. */
  lemma TestExact(s: State, k: Kind, t: nat)
    requires Inv(s) && Open(s.cap, s.turns, k, t) && Close(s, k, t, VERSIONS)
    ensures s.words[Slot(s.cap, t)].version == Turn(s.cap, k, t) % VERSIONS
            <==> Ready(s.cap, s.turns, k, t)
  {
    var v := s.turns[Slot(s.cap, t)];
    if v % VERSIONS == Turn(s.cap, k, t) % VERSIONS && v != Turn(s.cap, k, t) {
      SameResidue(v, Turn(s.cap, k, t));
    }
  }

  /** The 16-bit comparison of a ticket holder is exact. */
  lemma HeldTestExact(s: State, i: nat, t: nat)
    requires Inv(s) && Near(s)
    requires i < |s.ops| && s.ops[i].Own? && Holds(s.ops[i], s.ops[i].kind, t)
    ensures s.words[Slot(s.cap, t)].version == Turn(s.cap, s.ops[i].kind, t) % VERSIONS
            <==> Ready(s.cap, s.turns, s.ops[i].kind, t)
  {
    var k := s.ops[i].kind;
    assert OwnedBy(s, i, s.ops[i]) && OpOk(s, s.ops[i]);
    assert Drawn(Owners(s, k), t, i);
    assert Progress(s, k, t);
    TestExact(s, k, t);
  }

  /** The 16-bit comparison of a try operation is exact while its index is current. */
  lemma TryTestExact(s: State, i: nat, t: nat)
    requires Inv(s) && Near(s)
    requires i < |s.ops| && AimsAt(s, s.ops[i], t)
    ensures s.words[Slot(s.cap, t)].version == Turn(s.cap, s.ops[i].kind, t) % VERSIONS
            <==> Ready(s.cap, s.turns, s.ops[i].kind, t)
  {
    var k := s.ops[i].kind;
    assert Progress(s, k, t);
    TestExact(s, k, t);
  }

  /** At most 2^15 operations never get that far ahead. */
  lemma FewOpsNear(s: State)
    requires Inv(s) && |s.ops| <= MAX_OPS
    ensures Near(s)
  {
    forall i, t: nat | 0 <= i < |s.ops| && s.ops[i].Own? && Holds(s.ops[i], s.ops[i].kind, t)
      ensures Close(s, s.ops[i].kind, t, VERSIONS)
    {
      var k := s.ops[i].kind;
      assert OwnedBy(s, i, s.ops[i]) && OpOk(s, s.ops[i]);
      assert Drawn(Owners(s, k), t, i);
      if !Close(s, k, t, VERSIONS) {
        AheadBound(s, k, t, 0, MAX_OPS + 1);
      }
    }
    forall i, t: nat | 0 <= i < |s.ops| && AimsAt(s, s.ops[i], t)
      ensures Close(s, s.ops[i].kind, t, VERSIONS)
    {
      assert OpOk(s, s.ops[i]);
      if !Close(s, s.ops[i].kind, t, VERSIONS) {
        AheadBound(s, s.ops[i].kind, t, 1, MAX_OPS);
      }
    }
  }
}
