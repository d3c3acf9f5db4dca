/** The concurrent protocol of `ConcurrentBoundedQueue` as a transition system.

  Any number of operations run at once, one entry of `ops` each.  A step is one atomic
  action on shared memory: a ticket draw, a load, a compare-and-swap, a 16-bit store,
  an exchange, a futex call, or one callback access to a slot.  Executions are
  sequentially consistent.  A compensating batch (a `push_n`/`pop_n` with a reverse
  callback) is a spinning operation whose nested `try_*_n` occupies a second entry. */
module QueueProtocol {
  import opened Sequences
  import opened Tickets

  /** Element type; the protocol never inspects elements. */
  type Value = int

  /** A slot's futex word: 16 bits of version and 16 bits of waiter mark. */
  datatype Word = Word(version: nat, waiters: nat)

  /** Program counter of an operation that owns tickets. */
  datatype Pc =
    | Wait(at: nat)                  // about to load the version for ticket `at`
    | Mark(at: nat, word: Word)      // about to set the waiter mark on `word`
    | Block(at: nat, word: Word)     // about to call futex_wait(word)
    | Asleep(at: nat)                // inside futex_wait
    | Touch(at: nat)                 // inside the callback, next access is ticket `at`
    | Publish                        // about to advance the version of ticket `next`
    | WakeLoad(at: nat)              // wakeup_waiters: about to load the word
    | WakeCas(at: nat, word: Word)   // wakeup_waiters: about to clear the mark
    | WakeAll(at: nat)               // about to call futex_wake

  datatype Op =
    | Idle
    /** try_*: index `idx` was read; versions of `seen` of its `num` slots matched. */
    | Try(kind: Kind, single: bool, wake: bool, idx: nat, num: nat, seen: nat, goal: nat)
    /** try_deal after a version mismatch: about to read the index again. */
    | Miss(kind: Kind, wake: bool, idx: nat)
    /** Owns tickets [next, end); works on the run [lo, hi) of one round. */
    | Own(kind: Kind, single: bool, wake: bool, block: bool,
          lo: nat, hi: nat, end: nat, goal: nat, next: nat, pc: Pc)

  /** `pushers[t]` is the operation that drew push ticket `t`; the counter
    `_next_push_index` is the length of that log.  `turns` are the unbounded versions,
    `pushed` and `popped` record what the callbacks wrote and read. */
  datatype State = State(
    cap: nat,
    allWake: bool,
    words: seq<Word>,
    turns: seq<nat>,
    values: seq<Value>,
    pushers: seq<nat>,
    poppers: seq<nat>,
    ops: seq<Op>,
    pushed: map<nat, Value>,
    popped: map<nat, Value>)

  function Owners(s: State, k: Kind): seq<nat> {
    if k.Push? then s.pushers else s.poppers
  }

  /** `fetch_add(num)` or a successful index compare-and-swap by operation `i`. */
  function Draw(s: State, k: Kind, i: nat, num: nat): (r: State) {
    if k.Push? then s.(pushers := s.pushers + seq(num, _ => i))
    else s.(poppers := s.poppers + seq(num, _ => i))
  }

  /** `slot_index + (t - index)`: the slot the code uses for ticket `t` of a run. */
  function Place(cap: nat, lo: nat, t: nat): nat
    requires cap > 0 && lo <= t
  {
    Slot(cap, lo) + (t - lo)
  }

  /** `expected_version`, computed once per run from its first ticket. */
  function Expected(cap: nat, k: Kind, lo: nat): nat
    requires cap > 0
  {
    Turn(cap, k, lo) % VERSIONS
  }

  /** Continue after a run: the second run of a batch, the second half of a
    `try_*_n`, or done. */
  function NextRun(op: Op): Op
    requires op.Own?
  {
    if op.hi < op.end then op.(lo := op.hi, hi := op.end, next := op.hi, pc := Wait(op.hi))
    else if op.hi < op.goal then
      Try(op.kind, op.single, op.wake, op.hi, op.goal - op.hi, 0, op.goal)
    else Idle
  }

  function AfterWait(op: Op, at: nat): Op
    requires op.Own?
  {
    op.(pc := if at + 1 < op.hi then Wait(at + 1) else Touch(op.lo))
  }

  function AfterTouch(op: Op, at: nat): Op
    requires op.Own?
  {
    op.(pc := if at + 1 < op.hi then Touch(at + 1) else Publish)
  }

  function AfterStore(op: Op): Op
    requires op.Own?
  {
    var op' := op.(next := op.next + 1);
    if op'.next < op.hi then op'
    else if op.wake then op'.(pc := WakeLoad(op.lo))
    else NextRun(op')
  }

  function AfterWake(op: Op, at: nat): Op
    requires op.Own?
  {
    if at + 1 < op.hi then op.(pc := WakeLoad(at + 1)) else NextRun(op)
  }

  /** What a waiting operation does with a word it just read. */
  function OnWord(cap: nat, op: Op, at: nat, word: Word): Op
    requires cap > 0 && op.Own?
  {
    if word.version == Expected(cap, op.kind, op.lo) then AfterWait(op, at)
    else if !op.block then op.(pc := Wait(at))
    else if word.waiters == 0 then op.(pc := Mark(at, word))
    else op.(pc := Block(at, word))
  }

  // ---------------------------------------------------------------- steps

  ghost predicate AtOwn(s: State, i: nat) {
    i < |s.ops| && s.ops[i].Own? && s.cap > 0 && |s.words| == |s.turns| == |s.values| == s.cap
  }

  /** push, pop, push_n, pop_n: draw tickets and cut them at the round end. */
  ghost predicate Begin(s: State, s': State, i: nat,
                        k: Kind, num: nat, single: bool, wake: bool, block: bool) {
    && i < |s.ops| && s.ops[i].Idle? && s.cap > 0
    && 1 <= num <= s.cap && (single ==> num == 1) && (s.allWake ==> wake)
    && var n := |Owners(s, k)|;
    && s' == Draw(s, k, i, num).(ops := s.ops[i :=
         Own(k, single, wake, block, n, Min(n + num, RoundEnd(s.cap, n)), n + num, n + num, n, Wait(n))])
  }

  /** try_push, try_pop, try_push_n, try_pop_n: read the index. */
  ghost predicate BeginTry(s: State, s': State, i: nat,
                           k: Kind, num: nat, single: bool, wake: bool) {
    && i < |s.ops| && s.ops[i].Idle? && s.cap > 0
    && 1 <= num <= s.cap && (single ==> num == 1) && (s.allWake ==> wake)
    && var n := |Owners(s, k)|;
    && s' == s.(ops := s.ops[i :=
         Try(k, single, wake, n, Min(n + num, RoundEnd(s.cap, n)) - n, 0, n + num)])
  }

  /** A try operation compares one more version. */
  ghost predicate TryCheck(s: State, s': State, i: nat) {
    && i < |s.ops| && s.ops[i].Try? && s.cap > 0
    && var op := s.ops[i];
    && op.seen < op.num && Place(s.cap, op.idx, op.idx + op.seen) < |s.words|
    && s' == s.(ops := s.ops[i :=
         if s.words[Place(s.cap, op.idx, op.idx + op.seen)].version == Expected(s.cap, op.kind, op.idx)
         then op.(seen := op.seen + 1)
         else if op.single then Miss(op.kind, op.wake, op.idx)
         else if op.seen == 0 then Idle
         else op.(num := op.seen, goal := op.idx + op.seen)])
  }

  /** try_deal after a mismatch: give up only if the index has not moved. */
  ghost predicate TryAgain(s: State, s': State, i: nat) {
    && i < |s.ops| && s.ops[i].Miss?
    && var op := s.ops[i];
    && var n := |Owners(s, op.kind)|;
    && s' == s.(ops := s.ops[i :=
         if n == op.idx then Idle else Try(op.kind, true, op.wake, n, 1, 0, n + 1)])
  }

  /** A try operation swaps the index forward over the slots it checked. */
  ghost predicate TryCas(s: State, s': State, i: nat) {
    && i < |s.ops| && s.ops[i].Try?
    && var op := s.ops[i];
    && op.seen == op.num && |Owners(s, op.kind)| == op.idx
    && s' == Draw(s, op.kind, i, op.num).(ops := s.ops[i :=
         Own(op.kind, op.single, op.wake, false, op.idx, op.idx + op.num, op.idx + op.num,
             op.goal, op.idx, Touch(op.idx))])
  }

  /** The swap fails, possibly spuriously for try_deal's weak compare-and-swap. */
  ghost predicate TryCasFails(s: State, s': State, i: nat) {
    && i < |s.ops| && s.ops[i].Try?
    && var op := s.ops[i];
    && var n := |Owners(s, op.kind)|;
    && op.seen == op.num && (n == op.idx ==> op.single)
    && s' == s.(ops := s.ops[i :=
         if op.single then Try(op.kind, true, op.wake, n, 1, 0, n + 1) else Idle])
  }

  /** wait_until_reach_expected_version: load the word. */
  ghost predicate WaitStep(s: State, s': State, i: nat) {
    && AtOwn(s, i) && s.ops[i].pc.Wait?
    && var op := s.ops[i];
    && op.lo <= op.pc.at && Place(s.cap, op.lo, op.pc.at) < s.cap
    && s' == s.(ops := s.ops[i :=
         OnWord(s.cap, op, op.pc.at, s.words[Place(s.cap, op.lo, op.pc.at)])])
  }

  /** block_until_reach_expected_version_slow: set the waiter mark. */
  ghost predicate MarkStep(s: State, s': State, i: nat) {
    && AtOwn(s, i) && s.ops[i].pc.Mark?
    && var op := s.ops[i];
    && op.lo <= op.pc.at
    && var q := Place(s.cap, op.lo, op.pc.at);
    && q < s.cap
    && var marked := Word(op.pc.word.version, op.pc.word.waiters + 1);
    && s' == if s.words[q] == op.pc.word
             then s.(words := s.words[q := marked], ops := s.ops[i := op.(pc := Block(op.pc.at, marked))])
             else s.(ops := s.ops[i := OnWord(s.cap, op, op.pc.at, s.words[q])])
  }

  /** futex_wait: compare the word and fall asleep in one atomic action. */
  ghost predicate FutexWait(s: State, s': State, i: nat) {
    && AtOwn(s, i) && s.ops[i].pc.Block?
    && var op := s.ops[i];
    && op.lo <= op.pc.at && Place(s.cap, op.lo, op.pc.at) < s.cap
    && s' == s.(ops := s.ops[i := op.(pc :=
         if s.words[Place(s.cap, op.lo, op.pc.at)] == op.pc.word then Asleep(op.pc.at) else Wait(op.pc.at))])
  }

  /** futex_wait may return without a wake-up. */
  ghost predicate SpuriousWake(s: State, s': State, i: nat) {
    && AtOwn(s, i) && s.ops[i].pc.Asleep?
    && s' == s.(ops := s.ops[i := s.ops[i].(pc := Wait(s.ops[i].pc.at))])
  }

  /** The callback writes (push) or reads and then spoils (pop) one slot. */
  ghost predicate TouchStep(s: State, s': State, i: nat, v: Value) {
    && AtOwn(s, i) && s.ops[i].pc.Touch?
    && var op := s.ops[i];
    && op.lo <= op.pc.at
    && var q := Place(s.cap, op.lo, op.pc.at);
    && q < s.cap
    && var s1 := s.(values := s.values[q := v], ops := s.ops[i := AfterTouch(op, op.pc.at)]);
    && s' == if op.kind.Push? then s1.(pushed := s.pushed[op.pc.at := v])
             else s1.(popped := s.popped[op.pc.at := s.values[q]])
  }

  /** set_version: store the low half of the word and leave the waiter mark. */
  ghost predicate StoreStep(s: State, s': State, i: nat) {
    && AtOwn(s, i) && s.ops[i].pc.Publish? && !(s.ops[i].single && s.ops[i].wake)
    && var op := s.ops[i];
    && op.lo <= op.next
    && var q := Place(s.cap, op.lo, op.next);
    && q < s.cap
    && s' == s.(words := s.words[q :=
                  Word((Expected(s.cap, op.kind, op.lo) + 1) % VERSIONS, s.words[q].waiters)],
                turns := s.turns[q := s.turns[q] + 1],
                ops := s.ops[i := AfterStore(op)])
  }

  /** set_version_and_wakeup_waiters: exchange the whole word. */
  ghost predicate ExchangeStep(s: State, s': State, i: nat) {
    && AtOwn(s, i) && s.ops[i].pc.Publish? && s.ops[i].single && s.ops[i].wake
    && var op := s.ops[i];
    && op.lo <= op.next
    && var q := Place(s.cap, op.lo, op.next);
    && q < s.cap
    && var op' := op.(next := op.next + 1);
    && s' == s.(words := s.words[q := Word((Expected(s.cap, op.kind, op.lo) + 1) % VERSIONS, 0)],
                turns := s.turns[q := s.turns[q] + 1],
                ops := s.ops[i := if s.words[q].waiters == 0 then NextRun(op') else op'.(pc := WakeAll(op.lo))])
  }

  /** wakeup_waiters: load the word and decide whether a wake-up is due. */
  ghost predicate WakeLoadStep(s: State, s': State, i: nat) {
    && AtOwn(s, i) && s.ops[i].pc.WakeLoad?
    && var op := s.ops[i];
    && op.lo <= op.pc.at
    && var q := Place(s.cap, op.lo, op.pc.at);
    && q < s.cap
    && s' == s.(ops := s.ops[i :=
         if s.words[q].waiters == 0 || s.words[q].version != (Expected(s.cap, op.kind, op.lo) + 1) % VERSIONS
         then AfterWake(op, op.pc.at)
         else op.(pc := WakeCas(op.pc.at, s.words[q]))])
  }

  /** wakeup_waiters: clear the mark unless the word has changed. */
  ghost predicate WakeCasStep(s: State, s': State, i: nat) {
    && AtOwn(s, i) && s.ops[i].pc.WakeCas?
    && var op := s.ops[i];
    && op.lo <= op.pc.at
    && var q := Place(s.cap, op.lo, op.pc.at);
    && q < s.cap
    && s' == if s.words[q] == op.pc.word
             then s.(words := s.words[q := Word(op.pc.word.version, 0)],
                     ops := s.ops[i := op.(pc := WakeAll(op.pc.at))])
             else s.(ops := s.ops[i := AfterWake(op, op.pc.at)])
  }

  predicate SleepsOn(cap: nat, op: Op, q: nat)
    requires cap > 0
  {
    op.Own? && op.pc.Asleep? && op.lo <= op.pc.at && Place(cap, op.lo, op.pc.at) == q
  }

  /** futex_wake_all: every sleeper of the slot leaves futex_wait. */
  ghost predicate WakeAllStep(s: State, s': State, i: nat) {
    && AtOwn(s, i) && s.ops[i].pc.WakeAll?
    && var op := s.ops[i];
    && op.lo <= op.pc.at
    && var q := Place(s.cap, op.lo, op.pc.at);
    && s'.ops == seq(|s.ops|, j requires 0 <= j < |s.ops| =>
         if j == i then AfterWake(op, op.pc.at)
         else if SleepsOn(s.cap, s.ops[j], q) then s.ops[j].(pc := Wait(s.ops[j].pc.at))
         else s.ops[j])
    && s' == s.(ops := s'.ops)
  }

  datatype Action =
    | DoBegin(k: Kind, num: nat, single: bool, wake: bool, block: bool)
    | DoBeginTry(k: Kind, num: nat, single: bool, wake: bool)
    | DoTryCheck | DoTryAgain | DoTryCas | DoTryCasFails
    | DoWait | DoMark | DoFutexWait | DoSpuriousWake
    | DoTouch(v: Value) | DoStore | DoExchange
    | DoWakeLoad | DoWakeCas | DoWakeAll

  ghost predicate Step(s: State, s': State, i: nat, a: Action) {
    match a
    case DoBegin(k, num, single, wake, block) => Begin(s, s', i, k, num, single, wake, block)
    case DoBeginTry(k, num, single, wake) => BeginTry(s, s', i, k, num, single, wake)
    case DoTryCheck => TryCheck(s, s', i)
    case DoTryAgain => TryAgain(s, s', i)
    case DoTryCas => TryCas(s, s', i)
    case DoTryCasFails => TryCasFails(s, s', i)
    case DoWait => WaitStep(s, s', i)
    case DoMark => MarkStep(s, s', i)
    case DoFutexWait => FutexWait(s, s', i)
    case DoSpuriousWake => SpuriousWake(s, s', i)
    case DoTouch(v) => TouchStep(s, s', i, v)
    case DoStore => StoreStep(s, s', i)
    case DoExchange => ExchangeStep(s, s', i)
    case DoWakeLoad => WakeLoadStep(s, s', i)
    case DoWakeCas => WakeCasStep(s, s', i)
    case DoWakeAll => WakeAllStep(s, s', i)
  }

  /** An empty queue with every version zero. */
  ghost predicate Init(s: State) {
    && s.cap > 0
    && |s.words| == |s.turns| == |s.values| == s.cap
    && (forall q :: 0 <= q < s.cap ==> s.words[q] == Word(0, 0) && s.turns[q] == 0)
    && s.pushers == [] && s.poppers == [] && s.pushed == map[] && s.popped == map[]
    && (forall i :: 0 <= i < |s.ops| ==> s.ops[i].Idle?)
  }

  ghost predicate Next(s: State, s': State) {
    exists i, a :: Step(s, s', i, a)
  }

  /** A finite execution. */
  ghost predicate IsRun(run: seq<State>) {
    && |run| > 0 && Init(run[0])
    && forall n :: 0 <= n < |run| - 1 ==> Next(run[n], run[n + 1])
  }
}
