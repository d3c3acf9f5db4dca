/** The lock-free free list of `IdAllocator`, one step per atomic access. */
module IdProtocol {
  import opened Sequences

  /** Where an id is: with a caller, in the free list, or held by operation `op`. */
  datatype Place = Live | Free | Transit(op: nat)

  datatype Op =
    | Loaded(v: nat, g: nat)               // allocate: head read, next cell not yet
    | Read(v: nat, g: nat, n: nat)         // allocate: about to swap the head to `n`
    | AtTail                               // allocate: the list was empty
    | Taken(v: nat, g: nat)                // allocate: about to mark the id active
    | Done(v: nat, g: nat)                 // allocate: has returned v@g
    | FreeLoaded(v: nat, h: nat, g: nat)   // deallocate: head read, cell not yet stored
    | FreeStored(v: nat, h: nat, g: nat)   // deallocate: about to swap the head to `v`
    | Freed(v: nat)

  /** `max` is the largest value of the id type: ids and versions are taken modulo
    `max + 1`. `next` and `version` count without wrapping. `list` and `place` are what
    the cells stand for. */
  datatype State = State(
    max: nat,
    next: nat,
    head: nat,
    version: nat,
    cells: seq<nat>,
    ops: seq<Op>,
    list: seq<nat>,
    place: seq<Place>)

  /** Compare-and-swap sees only the low part of a version. */
  predicate SameWord(s: State, v: nat, g: nat) {
    s.head == v && s.version % (s.max + 1) == g % (s.max + 1)
  }

  function OnHead(s: State): Op {
    if s.head == s.max then AtTail else Loaded(s.head, s.version)
  }

  // ---------------------------------------------------------------- steps

  ghost predicate BeginAlloc(s: State, s': State) {
    s' == s.(ops := s.ops + [OnHead(s)])
  }

  ghost predicate ReadNext(s: State, s': State, i: nat) {
    && i < |s.ops| && s.ops[i].Loaded? && s.ops[i].v < |s.cells|
    && var op := s.ops[i];
    && s' == s.(ops := s.ops[i := Read(op.v, op.g, s.cells[op.v])])
  }

  ghost predicate Pop(s: State, s': State, i: nat) {
    && i < |s.ops| && s.ops[i].Read? && SameWord(s, s.ops[i].v, s.ops[i].g) && s.ops[i].v < |s.place|
    && var op := s.ops[i];
    && s' == s.(head := op.n, list := if s.list == [] then [] else s.list[1..],
                place := s.place[op.v := Transit(i)], ops := s.ops[i := Taken(op.v, op.g)])
  }

  /** The weak compare-and-swap fails, possibly spuriously, and reloads the head. */
  ghost predicate PopFails(s: State, s': State, i: nat) {
    && i < |s.ops| && s.ops[i].Read?
    && s' == s.(ops := s.ops[i := OnHead(s)])
  }

  /** The list was empty: draw a new id, whose cell holds anything. */
  ghost predicate FetchAdd(s: State, s': State, i: nat, garbage: nat) {
    && i < |s.ops| && s.ops[i].AtTail?
    && s' == s.(next := s.next + 1, cells := s.cells + [garbage], place := s.place + [Transit(i)],
                ops := s.ops[i := Taken(s.next % (s.max + 1), 0)])
  }

  ghost predicate StoreActive(s: State, s': State, i: nat) {
    && i < |s.ops| && s.ops[i].Taken? && s.max > 0
    && var op := s.ops[i];
    && op.v < |s.cells| && op.v < |s.place|
    && s' == s.(cells := s.cells[op.v := s.max - 1], place := s.place[op.v := Live],
                ops := s.ops[i := Done(op.v, op.g)])
  }

  /** deallocate: the caller hands back an id that is live. */
  ghost predicate BeginFree(s: State, s': State, v: nat) {
    && v < |s.place| && s.place[v] == Live
    && s' == s.(place := s.place[v := Transit(|s.ops|)],
                ops := s.ops + [FreeLoaded(v, s.head, s.version)])
  }

  ghost predicate StoreNext(s: State, s': State, i: nat) {
    && i < |s.ops| && s.ops[i].FreeLoaded? && s.ops[i].v < |s.cells|
    && var op := s.ops[i];
    && s' == s.(cells := s.cells[op.v := op.h], ops := s.ops[i := FreeStored(op.v, op.h, op.g)])
  }

  ghost predicate Push(s: State, s': State, i: nat) {
    && i < |s.ops| && s.ops[i].FreeStored? && SameWord(s, s.ops[i].h, s.ops[i].g)
    && s.ops[i].v < |s.place|
    && var op := s.ops[i];
    && s' == s.(head := op.v, version := s.version + 1, list := [op.v] + s.list,
                place := s.place[op.v := Free], ops := s.ops[i := Freed(op.v)])
  }

  ghost predicate PushFails(s: State, s': State, i: nat) {
    && i < |s.ops| && s.ops[i].FreeStored?
    && s' == s.(ops := s.ops[i := FreeLoaded(s.ops[i].v, s.head, s.version)])
  }

  datatype Action =
    | DoBeginAlloc | DoReadNext | DoPop | DoPopFails | DoFetchAdd(garbage: nat) | DoStoreActive
    | DoBeginFree(v: nat) | DoStoreNext | DoPush | DoPushFails

  ghost predicate Step(s: State, s': State, i: nat, a: Action) {
    match a
    case DoBeginAlloc => BeginAlloc(s, s')
    case DoReadNext => ReadNext(s, s', i)
    case DoPop => Pop(s, s', i)
    case DoPopFails => PopFails(s, s', i)
    case DoFetchAdd(garbage) => FetchAdd(s, s', i, garbage)
    case DoStoreActive => StoreActive(s, s', i)
    case DoBeginFree(v) => BeginFree(s, s', v)
    case DoStoreNext => StoreNext(s, s', i)
    case DoPush => Push(s, s', i)
    case DoPushFails => PushFails(s, s', i)
  }

  ghost predicate Init(s: State) {
    && s.next == 0 && s.head == s.max && s.version == 0 && s.max > 0
    && s.cells == [] && s.ops == [] && s.list == [] && s.place == []
  }

  /** The version an operation is about to compare. */
  predicate Pending(op: Op) {
    op.Loaded? || op.Read? || op.FreeLoaded? || op.FreeStored?
  }

  /** No operation in progress has been overtaken by `bound` deallocations. */
  ghost predicate OvertakenLess(s: State, bound: nat) {
    forall i :: 0 <= i < |s.ops| && Pending(s.ops[i]) ==> s.version < s.ops[i].g + bound
  }

  /** No operation in progress has been overtaken by a full round of versions. */
  ghost predicate NotLapped(s: State) {
    OvertakenLess(s, s.max + 1)
  }

  /** Ids stay below the tail mark. */
  ghost predicate Roomy(s: State) {
    s.next <= s.max
  }

  ghost predicate Next(s: State, s': State) {
    exists i, a :: Step(s, s', i, a)
  }

  ghost predicate IsRun(run: seq<State>) {
    && |run| > 0 && Init(run[0])
    && (forall n :: 0 <= n < |run| - 1 ==> Next(run[n], run[n + 1]))
  }

  ghost predicate Orderly(run: seq<State>) {
    forall n :: 0 <= n < |run| ==> NotLapped(run[n]) && Roomy(run[n])
  }

  // ------------------------------------------------------------- invariant

  /** First id of the rest of the list, or the tail mark. */
  function First(max: nat, list: seq<nat>): nat {
    if list == [] then max else list[0]
  }

  /** The cells link the list: following them from the head visits it once and ends. */
  ghost predicate Linked(max: nat, cells: seq<nat>, list: seq<nat>) {
    forall k :: 0 <= k < |list| ==> list[k] < |cells| && cells[list[k]] == First(max, list[k + 1..])
  }

  /** Free ids are exactly those of the list. */
  ghost predicate FreeIsListed(place: seq<Place>, list: seq<nat>) {
    && (forall k :: 0 <= k < |list| ==> list[k] < |place| && place[list[k]] == Free)
    && (forall v :: 0 <= v < |place| && place[v] == Free ==> v in list)
  }

  predicate HoldsId(op: Op) {
    op.Taken? || op.FreeLoaded? || op.FreeStored?
  }

  /** An id in transit is held by the operation it names. */
  ghost predicate HeldBy(place: seq<Place>, ops: seq<Op>, v: nat)
    requires v < |place|
  {
    place[v].Transit? ==>
      place[v].op < |ops| && HoldsId(ops[place[v].op]) && ops[place[v].op].v == v
  }

  ghost predicate Snapshot(s: State, v: nat, g: nat) {
    v < s.next && g <= s.version && (g == s.version ==> First(s.max, s.list) == v || v !in s.list)
  }

  ghost predicate OpOk(s: State, i: nat)
    requires i < |s.ops|
  {
    var op := s.ops[i];
    match op
    case Loaded(v, g) => Snapshot(s, v, g)
    case Read(v, g, n) =>
      && Snapshot(s, v, g)
      && (g == s.version && First(s.max, s.list) == v ==> s.list != [] && n == First(s.max, s.list[1..]))
    case AtTail => true
    case Taken(v, g) => v < |s.place| && s.place[v] == Transit(i)
    case Done(v, g) => true
    case FreeLoaded(v, h, g) => v < |s.place| && s.place[v] == Transit(i) && g <= s.version
    case FreeStored(v, h, g) =>
      v < |s.place| && s.place[v] == Transit(i) && g <= s.version && v < |s.cells| && s.cells[v] == h
    case Freed(v) => true
  }

  predicate Issued(op: Op) { op.Taken? || op.Done? }

  /** A version handed out with an id is not ahead, and is old once the id is free. */
  ghost predicate IssueOk(s: State, op: Op) {
    Issued(op) ==>
      op.v < |s.place| && op.g <= s.version && (s.place[op.v] == Free ==> op.g < s.version)
  }

  /** No two allocations were given the same id and version. */
  ghost predicate IssuesDistinct(ops: seq<Op>) {
    forall i, j :: 0 <= i < j < |ops| && Issued(ops[i]) && Issued(ops[j]) ==>
      ops[i].v != ops[j].v || ops[i].g != ops[j].g
  }

  /** Live ids carry the active flag. */
  ghost predicate LiveMarked(s: State) {
    forall v :: 0 <= v < |s.place| && v < |s.cells| && s.place[v] == Live ==> s.cells[v] == s.max - 1
  }

  ghost predicate Shape(s: State) {
    && s.max > 0 && |s.cells| == s.next && |s.place| == s.next && s.next <= s.max
    && s.head == First(s.max, s.list) && Distinct(s.list)
  }

  ghost predicate Inv(s: State) {
    && Shape(s) && Linked(s.max, s.cells, s.list) && FreeIsListed(s.place, s.list)
    && (forall v :: 0 <= v < |s.place| ==> HeldBy(s.place, s.ops, v))
    && (forall i :: 0 <= i < |s.ops| ==> OpOk(s, i) && IssueOk(s, s.ops[i]))
    && IssuesDistinct(s.ops) && LiveMarked(s)
  }
}
