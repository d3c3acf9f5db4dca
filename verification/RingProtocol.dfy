/** `RteRing` under many producers and many consumers.

  The four counters are unbounded here; the machine words are their residues modulo
  2^32, and every decision of a step is taken on residues only. */
module RingProtocol {
  type Value = int

  const WORD: nat := 0x1_0000_0000

  datatype Side = Prod | Cons

  /** `seen` is the head an operation loaded; the code keeps `seen % WORD`.
    For a producer `objs` is its object table, for a consumer what it has read.
    `single` is the caller's `is_sp` or `is_sc`: store the head and the tail without
    looking whether another operation of the side has moved them. */
  datatype Op =
    | Idle
    | Head(side: Side, objs: seq<Value>, n: nat, seen: nat, single: bool)   // about to load the opposite tail
    | Room(side: Side, objs: seq<Value>, n: nat, seen: nat, single: bool)   // about to move the head
    | Copy(side: Side, objs: seq<Value>, n: nat, lo: nat, at: nat, single: bool)  // about to copy position `at`
    | Publish(side: Side, objs: seq<Value>, n: nat, lo: nat, single: bool)        // about to move the tail

  /** `stream` lists the objects in reservation order, `taken` those whose dequeue is
    published; `makers[t]` and `takers[t]` reserved position `t` on their side. */
  datatype State = State(
    cap: nat,
    prodHead: nat, prodTail: nat, consHead: nat, consTail: nat,
    cells: seq<Value>,
    ops: seq<Op>,
    makers: seq<nat>, takers: seq<nat>,
    stream: seq<Value>, taken: seq<Value>)

  function HeadOf(s: State, side: Side): nat { if side.Prod? then s.prodHead else s.consHead }
  function TailOf(s: State, side: Side): nat { if side.Prod? then s.prodTail else s.consTail }
  function OwnersOf(s: State, side: Side): seq<nat> { if side.Prod? then s.makers else s.takers }

  /** `uint32_t` subtraction of two words. */
  function Minus(a: int, b: int): nat { (a - b) % WORD }

  /** `free_entries` or `entries` as the code computes them from its two loads. */
  function RoomSeen(s: State, side: Side, seen: nat): nat {
    if side.Prod? then Minus(s.cap + s.consTail % WORD, seen % WORD)
    else Minus(s.prodTail % WORD, seen % WORD)
  }

  /** `(head + k) & mask_`. */
  function Cell(cap: nat, word: nat): nat
    requires cap > 0
  {
    word % cap
  }

  // ---------------------------------------------------------------- steps

  ghost predicate Begin(s: State, s': State, i: nat, side: Side, objs: seq<Value>, n: nat, single: bool) {
    && i < |s.ops| && s.ops[i].Idle?
    && (if side.Prod? then n == |objs| else objs == [])
    && s' == s.(ops := s.ops[i := Head(side, objs, n, HeadOf(s, side), single)])
  }

  /** MoveProdHead / MoveConsHead: load the opposite tail and test the room. */
  ghost predicate LoadTail(s: State, s': State, i: nat) {
    && i < |s.ops| && s.ops[i].Head?
    && var op := s.ops[i];
    && s' == s.(ops := s.ops[i :=
         if op.n > RoomSeen(s, op.side, op.seen) || op.n == 0 then Idle
         else Room(op.side, op.objs, op.n, op.seen, op.single)])
  }

  /** Operation `i` reserves the positions from `h` on.  A store that falls behind the
    head takes positions away again. */
  function Reserve(s: State, i: nat, h: nat): State
    requires i < |s.ops| && s.ops[i].Room? && h <= |OwnersOf(s, s.ops[i].side)| && h <= |s.stream|
  {
    var op := s.ops[i];
    var s1 := s.(ops := s.ops[i := Copy(op.side, op.objs, op.n, h, h, op.single)]);
    if op.side.Prod? then
      s1.(prodHead := h + op.n, makers := s.makers[..h] + seq(op.n, _ => i), stream := s.stream[..h] + op.objs)
    else
      s1.(consHead := h + op.n, takers := s.takers[..h] + seq(op.n, _ => i))
  }

  /** Store the head, or swap it if its word still equals the loaded one. */
  ghost predicate MoveHead(s: State, s': State, i: nat) {
    && i < |s.ops| && s.ops[i].Room?
    && var op := s.ops[i];
    && var h := HeadOf(s, op.side);
    && if !op.single && h % WORD != op.seen % WORD
       then s' == s.(ops := s.ops[i := Head(op.side, op.objs, op.n, h, false)])
       else
         && var from := if op.single then op.seen else h;
         && from <= |OwnersOf(s, op.side)| && from <= |s.stream|
         && s' == Reserve(s, i, from)
  }

  /** Copy one object in or out. */
  ghost predicate CopyOne(s: State, s': State, i: nat) {
    && i < |s.ops| && s.ops[i].Copy? && s.cap > 0
    && var op := s.ops[i];
    && op.lo <= op.at
    && var q := Cell(s.cap, op.lo % WORD + (op.at - op.lo));
    && q < |s.cells| && (op.side.Prod? ==> op.at - op.lo < |op.objs|)
    && var objs' := if op.side.Prod? then op.objs else op.objs + [s.cells[q]];
    && var op' := if op.at + 1 < op.lo + op.n then Copy(op.side, objs', op.n, op.lo, op.at + 1, op.single)
                  else Publish(op.side, objs', op.n, op.lo, op.single);
    && s' == s.(cells := if op.side.Prod? then s.cells[q := op.objs[op.at - op.lo]] else s.cells,
                ops := s.ops[i := op'])
  }

  /** UpdateTail: store the new tail, unless `single` only when the tail word equals the
    reserved head. */
  ghost predicate UpdateTail(s: State, s': State, i: nat) {
    && i < |s.ops| && s.ops[i].Publish?
    && var op := s.ops[i];
    && (op.single || TailOf(s, op.side) % WORD == op.lo % WORD)
    && var to := (if op.single then op.lo else TailOf(s, op.side)) + op.n;
    && s' == if op.side.Prod? then s.(prodTail := to, ops := s.ops[i := Idle])
             else s.(consTail := to, taken := s.taken + op.objs, ops := s.ops[i := Idle])
  }

  datatype Action =
    | DoBegin(side: Side, objs: seq<Value>, n: nat, single: bool)
    | DoLoadTail | DoMoveHead | DoCopy | DoUpdateTail

  ghost predicate Step(s: State, s': State, i: nat, a: Action) {
    match a
    case DoBegin(side, objs, n, single) => Begin(s, s', i, side, objs, n, single)
    case DoLoadTail => LoadTail(s, s', i)
    case DoMoveHead => MoveHead(s, s', i)
    case DoCopy => CopyOne(s, s', i)
    case DoUpdateTail => UpdateTail(s, s', i)
  }

  ghost predicate Next(s: State, s': State) {
    exists i, a :: Step(s, s', i, a)
  }

  /** A power-of-two size divides the word range, so masking a wrapped head selects
    the same cell as masking the unbounded one. */
  ghost predicate GoodSize(cap: nat) {
    0 < cap <= WORD / 2 && WORD % cap == 0
  }

  ghost predicate Init(s: State) {
    && GoodSize(s.cap) && |s.cells| == s.cap
    && s.prodHead == s.prodTail == s.consHead == s.consTail == 0
    && s.makers == [] && s.takers == [] && s.stream == [] && s.taken == []
    && forall i :: 0 <= i < |s.ops| ==> s.ops[i].Idle?
  }

  /** No head has moved `bound` positions or more since an operation loaded it. */
  ghost predicate MovedLess(s: State, bound: nat) {
    forall i :: 0 <= i < |s.ops| && (s.ops[i].Head? || s.ops[i].Room?) ==>
      HeadOf(s, s.ops[i].side) < s.ops[i].seen + bound
  }

  /** No head has gone once around the 32-bit range. */
  ghost predicate NotLapped(s: State) {
    MovedLess(s, WORD)
  }

  /** An operation in single mode has its side to itself. */
  ghost predicate SinglesAlone(s: State) {
    forall i, j :: 0 <= i < |s.ops| && 0 <= j < |s.ops| && i != j && !s.ops[i].Idle? && !s.ops[j].Idle? ==>
      !s.ops[i].single || s.ops[i].side != s.ops[j].side
  }

  /** Any execution at all. */
  ghost predicate IsRun(run: seq<State>) {
    && |run| > 0 && Init(run[0])
    && forall n :: 0 <= n < |run| - 1 ==> Next(run[n], run[n + 1])
  }

  /** An execution whose callers keep to the chosen modes and whose operations are not
    overtaken by a full round of the counters. */
  ghost predicate Orderly(run: seq<State>) {
    forall n :: 0 <= n < |run| ==> NotLapped(run[n]) && SinglesAlone(run[n])
  }
}
