/** Invariant and safety of the ring protocol. */
module RingTheorems {
  import opened Tickets
  import opened RingProtocol

  ghost predicate Shape(s: State) {
    && GoodSize(s.cap) && |s.cells| == s.cap
    && s.consTail <= s.consHead <= s.prodTail <= s.prodHead <= s.consTail + s.cap
    && |s.makers| == s.prodHead == |s.stream| && |s.takers| == s.consHead
    && |s.taken| == s.consTail && s.taken == s.stream[..s.consTail]
  }

  /** Position `t` is reserved by `op` and not yet published. */
  predicate Reserves(op: Op, side: Side, t: nat) {
    (op.Copy? || op.Publish?) && op.side == side && op.lo <= t < op.lo + op.n
  }

  predicate Drawn(owners: seq<nat>, t: nat, i: nat) {
    t < |owners| && owners[t] == i
  }

  /** The ring holds position `t` of the stream. */
  ghost predicate Stored(cap: nat, cells: seq<Value>, stream: seq<Value>, t: nat)
    requires |cells| == cap > 0
  {
    t < |stream| && cells[t % cap] == stream[t]
  }

  /** Positions whose copy has been done by `op`. */
  function CopiedTo(op: Op): nat
    requires op.Copy? || op.Publish?
  {
    if op.Copy? then op.at else op.lo + op.n
  }

  ghost predicate HolderOk(s: State, i: nat, op: Op)
    requires Shape(s) && (op.Copy? || op.Publish?)
  {
    && 0 < op.n && TailOf(s, op.side) <= op.lo && op.lo + op.n <= HeadOf(s, op.side)
    && op.lo <= CopiedTo(op) <= op.lo + op.n && (op.Copy? ==> op.at < op.lo + op.n)
    && (forall t: nat :: op.lo <= t < op.lo + op.n ==> Drawn(OwnersOf(s, op.side), t, i))
    && (if op.side.Prod? then
          && op.objs == s.stream[op.lo..op.lo + op.n]
          && forall t: nat :: op.lo <= t < CopiedTo(op) ==> Stored(s.cap, s.cells, s.stream, t)
        else op.objs == s.stream[op.lo..CopiedTo(op)])
  }

  /** The loaded head is not ahead, and current if the side is the operation's own. */
  ghost predicate LoadOk(s: State, side: Side, objs: seq<Value>, n: nat, seen: nat, single: bool) {
    && seen <= HeadOf(s, side) && (single ==> seen == HeadOf(s, side))
    && (if side.Prod? then n == |objs| else objs == [])
  }

  ghost predicate OpOk(s: State, i: nat, op: Op)
    requires Shape(s)
  {
    match op
    case Idle => true
    case Head(side, objs, n, seen, single) => LoadOk(s, side, objs, n, seen, single)
    case Room(side, objs, n, seen, single) =>
      && LoadOk(s, side, objs, n, seen, single) && 0 < n
      && (seen == HeadOf(s, side) ==>
            if side.Prod? then seen + n <= s.consTail + s.cap else seen + n <= s.prodTail)
    case Copy(_, _, _, _, _, _) => HolderOk(s, i, op)
    case Publish(_, _, _, _, _) => HolderOk(s, i, op)
  }

  /** Every reserved position has its reserver still at work. */
  ghost predicate Reserved(s: State, side: Side, t: nat)
    requires Shape(s)
  {
    TailOf(s, side) <= t < HeadOf(s, side) ==>
      OwnersOf(s, side)[t] < |s.ops| && Reserves(s.ops[OwnersOf(s, side)[t]], side, t)
  }

  ghost predicate Inv(s: State) {
    && Shape(s)
    && (forall i :: 0 <= i < |s.ops| ==> OpOk(s, i, s.ops[i]))
    && (forall side, t: nat :: Reserved(s, side, t))
    && (forall t: nat :: s.consTail <= t < s.prodTail ==> Stored(s.cap, s.cells, s.stream, t))
  }

  lemma InitInv(s: State)
    requires Init(s)
    ensures Inv(s)
  {
  }

  // ------------------------------------------------------------ arithmetic

  lemma CongruentNear(a: nat, b: nat)
    requires a <= b < a + WORD && a % WORD == b % WORD
    ensures a == b
  {
  }

  /** The room computed from wrapped words is the real room. */
  lemma RoomExact(s: State, side: Side, seen: nat)
    requires Shape(s) && seen == HeadOf(s, side)
    ensures RoomSeen(s, side, seen) == if side.Prod? then s.consTail + s.cap - seen else s.prodTail - seen
  {
    var a := if side.Prod? then s.consTail else s.prodTail;
    var c := if side.Prod? then s.cap else 0;
    var d := c + a - seen;
    assert 0 <= d < WORD;
    var k := (a / WORD) - (seen / WORD);
    assert c + a % WORD - seen % WORD == d - k * WORD;
    ResidueShift(d, k);
  }

  lemma ResidueShift(d: int, k: int)
    requires 0 <= d < WORD
    ensures (d - k * WORD) % WORD == d
  {
  }

  /** Masking the wrapped head selects the cell of the unbounded position. */
  lemma CellExact(cap: nat, lo: nat, k: nat)
    requires GoodSize(cap)
    ensures Cell(cap, lo % WORD + k) == (lo + k) % cap
  {
    var m := WORD / cap;
    assert WORD == m * cap by { DivMod(cap, WORD); }
    var w := lo / WORD;
    assert lo + k == w * WORD + (lo % WORD + k);
    var x := lo % WORD + k;
    DivMod(cap, x);
    assert w * WORD == (w * m) * cap;
    assert lo + k == (w * m + x / cap) * cap + x % cap by {
      assert (w * m + x / cap) * cap == (w * m) * cap + (x / cap) * cap;
    }
    DivModUnique(cap, lo + k, w * m + x / cap, x % cap);
  }

  // ----------------------------------------------------------------- steps

  /** Counters and logs only grow from `s` to `s'`. */
  ghost predicate Grows(s: State, s': State) {
    && Shape(s) && Shape(s') && s'.cap == s.cap && s.stream <= s'.stream
    && s.makers <= s'.makers && s.takers <= s'.takers
    && s.prodTail <= s'.prodTail && s.consTail <= s'.consTail
  }

  /** An operation stays well-formed if its reservation is not overtaken by the tail
    and, for a producer, its copies stay in place. */
  lemma OpTransfer(s: State, s': State, j: nat, op: Op)
    requires Grows(s, s') && OpOk(s, j, op)
    requires op.Copy? || op.Publish? ==> TailOf(s', op.side) <= op.lo
    requires (op.Head? || op.Room?) && op.single ==> HeadOf(s', op.side) == HeadOf(s, op.side)
    requires (op.Copy? || op.Publish?) && op.side.Prod? ==>
               forall t: nat :: op.lo <= t < CopiedTo(op) ==> Stored(s'.cap, s'.cells, s'.stream, t)
    ensures OpOk(s', j, op)
  {
    if op.Copy? || op.Publish? {
      HolderTransfer(s, s', j, op);
    }
  }

  lemma HolderTransfer(s: State, s': State, j: nat, op: Op)
    requires Grows(s, s') && (op.Copy? || op.Publish?) && HolderOk(s, j, op)
    requires TailOf(s', op.side) <= op.lo
    requires op.side.Prod? ==>
               forall t: nat :: op.lo <= t < CopiedTo(op) ==> Stored(s'.cap, s'.cells, s'.stream, t)
    ensures HolderOk(s', j, op)
  {
    assert OwnersOf(s, op.side) <= OwnersOf(s', op.side);
    assert s'.stream[op.lo..CopiedTo(op)] == s.stream[op.lo..CopiedTo(op)];
    assert s'.stream[op.lo..op.lo + op.n] == s.stream[op.lo..op.lo + op.n];
    forall t: nat | op.lo <= t < op.lo + op.n
      ensures Drawn(OwnersOf(s', op.side), t, j)
    {
      assert Drawn(OwnersOf(s, op.side), t, j);
    }
  }

  /** Steps that move one operation without a reservation before or after. */
  lemma LocalKeeps(s: State, s': State, i: nat, op': Op)
    requires Inv(s) && i < |s.ops| && s' == s.(ops := s.ops[i := op'])
    requires !s.ops[i].Copy? && !s.ops[i].Publish? && !op'.Copy? && !op'.Publish?
    requires OpOk(s, i, op')
    ensures Inv(s')
  {
    forall j | 0 <= j < |s'.ops|
      ensures OpOk(s', j, s'.ops[j])
    {
      OpTransfer(s, s', j, s'.ops[j]);
    }
    forall side, t: nat
      ensures Reserved(s', side, t)
    {
      assert Reserved(s, side, t);
    }
  }

  lemma LoadTailKeeps(s: State, s': State, i: nat)
    requires Inv(s) && LoadTail(s, s', i)
    ensures Inv(s')
  {
    var op := s.ops[i];
    assert OpOk(s, i, op);
    if op.seen == HeadOf(s, op.side) {
      RoomExact(s, op.side, op.seen);
    }
    LocalKeeps(s, s', i, s'.ops[i]);
  }

  /** The head does move: the operation is alone, or the words are equal. */
  predicate Moves(s: State, i: nat) {
    && i < |s.ops| && s.ops[i].Room?
    && (s.ops[i].single || HeadOf(s, s.ops[i].side) % WORD == s.ops[i].seen % WORD)
  }

  /** A head that moves is the one that was loaded. */
  lemma HeadReached(s: State, i: nat)
    requires Inv(s) && NotLapped(s) && Moves(s, i)
    ensures s.ops[i].seen == HeadOf(s, s.ops[i].side)
  {
    var op := s.ops[i];
    assert OpOk(s, i, op);
    if !op.single {
      CongruentNear(op.seen, HeadOf(s, op.side));
    }
  }

  /** Reserving appends to the logs, and the room that was checked is still there. */
  lemma MoveShape(s: State, s': State, i: nat)
    requires Inv(s) && NotLapped(s) && MoveHead(s, s', i) && Moves(s, i)
    ensures Shape(s') && OpOk(s', i, s'.ops[i])
    ensures forall side, t: nat, j: nat :: Drawn(OwnersOf(s, side), t, j) ==> Drawn(OwnersOf(s', side), t, j)
    ensures Grows(s, s')
  {
    var op := s.ops[i];
    assert OpOk(s, i, op);
    HeadReached(s, i);
    assert s.makers[..s.prodHead] == s.makers && s.takers[..s.consHead] == s.takers;
    assert s.stream[..s.prodHead] == s.stream;
  }

  lemma MoveOthers(s: State, s': State, i: nat, j: nat)
    requires Inv(s) && NotLapped(s) && SinglesAlone(s) && MoveHead(s, s', i) && Moves(s, i)
    requires j < |s.ops| && j != i
    ensures Shape(s') && OpOk(s', j, s.ops[j])
  {
    MoveShape(s, s', i);
    assert OpOk(s, i, s.ops[i]) && OpOk(s, j, s.ops[j]);
    forall t: nat | Stored(s.cap, s.cells, s.stream, t)
      ensures Stored(s'.cap, s'.cells, s'.stream, t)
    {
    }
    OpTransfer(s, s', j, s.ops[j]);
  }

  lemma MoveReserved(s: State, s': State, i: nat, side: Side, t: nat)
    requires Inv(s) && NotLapped(s) && MoveHead(s, s', i) && Moves(s, i)
    ensures Shape(s') && Reserved(s', side, t)
  {
    MoveShape(s, s', i);
    HeadReached(s, i);
    assert Reserved(s, side, t) && OpOk(s, i, s.ops[i]);
    var h := HeadOf(s, s.ops[i].side);
    if side == s.ops[i].side && h <= t < h + s.ops[i].n {
      assert OwnersOf(s', side)[t] == i;
    }
  }

  lemma MoveKeeps(s: State, s': State, i: nat)
    requires Inv(s) && NotLapped(s) && SinglesAlone(s) && MoveHead(s, s', i)
    ensures Inv(s')
  {
    assert OpOk(s, i, s.ops[i]);
    if Moves(s, i) {
      MoveShape(s, s', i);
      forall j | 0 <= j < |s'.ops|
        ensures OpOk(s', j, s'.ops[j])
      {
        if j != i {
          MoveOthers(s, s', i, j);
        }
      }
      forall side, t: nat
        ensures Reserved(s', side, t)
      {
        MoveReserved(s, s', i, side, t);
      }
      forall t: nat | s'.consTail <= t < s'.prodTail
        ensures Stored(s'.cap, s'.cells, s'.stream, t)
      {
        assert Stored(s.cap, s.cells, s.stream, t);
      }
    } else {
      LocalKeeps(s, s', i, s'.ops[i]);
    }
  }

  /** Copying in overwrites no position that is stored or being stored. */
  lemma CopyInKeepsStored(s: State, s': State, i: nat, t: nat)
    requires Inv(s) && CopyOne(s, s', i) && s.ops[i].side.Prod?
    requires s.consTail <= t < s.prodHead && t != s.ops[i].at && Stored(s.cap, s.cells, s.stream, t)
    ensures |s'.cells| == s'.cap && Stored(s'.cap, s'.cells, s'.stream, t)
  {
    var op := s.ops[i];
    assert OpOk(s, i, op);
    CellExact(s.cap, op.lo, op.at - op.lo);
    if t < op.at {
      SlotsApart(s.cap, t, op.at);
    } else {
      SlotsApart(s.cap, op.at, t);
    }
  }

  /** The positions copied in so far, including the new one, are stored. */
  lemma CopiedStored(s: State, s': State, i: nat, j: nat, t: nat)
    requires Inv(s) && CopyOne(s, s', i) && s.ops[i].side.Prod? && j < |s.ops|
    requires (s.ops[j].Copy? || s.ops[j].Publish?) && s.ops[j].side.Prod?
    requires s.ops[j].lo <= t < CopiedTo(s.ops[j]) || (j == i && t == s.ops[i].at)
    ensures |s'.cells| == s'.cap > 0 && Stored(s'.cap, s'.cells, s'.stream, t)
  {
    var op := s.ops[i];
    assert OpOk(s, i, op) && OpOk(s, j, s.ops[j]);
    CellExact(s.cap, op.lo, op.at - op.lo);
    if t == op.at && j == i {
      assert op.objs[op.at - op.lo] == s.stream[op.at];
    } else {
      assert Drawn(OwnersOf(s, Prod), t, j) && Drawn(OwnersOf(s, Prod), op.at, i);
      CopyInKeepsStored(s, s', i, t);
    }
  }

  lemma CopyInSelf(s: State, s': State, i: nat)
    requires Inv(s) && CopyOne(s, s', i) && s.ops[i].side.Prod?
    ensures Shape(s') && OpOk(s', i, s'.ops[i])
  {
    var op := s.ops[i];
    assert OpOk(s, i, op);
    forall t: nat | op.lo <= t < CopiedTo(s'.ops[i])
      ensures Stored(s'.cap, s'.cells, s'.stream, t)
    {
      CopiedStored(s, s', i, i, t);
    }
    OpTransfer(s, s', i, op);
  }

  lemma CopyInOps(s: State, s': State, i: nat, j: nat)
    requires Inv(s) && CopyOne(s, s', i) && s.ops[i].side.Prod? && j < |s.ops|
    ensures Shape(s') && OpOk(s', j, s'.ops[j])
  {
    CopyInSelf(s, s', i);
    if j != i {
      var oj := s.ops[j];
      assert OpOk(s, j, oj);
      if (oj.Copy? || oj.Publish?) && oj.side.Prod? {
        forall t: nat | oj.lo <= t < CopiedTo(oj)
          ensures Stored(s'.cap, s'.cells, s'.stream, t)
        {
          CopiedStored(s, s', i, j, t);
        }
      }
      OpTransfer(s, s', j, oj);
    }
  }

  lemma NextSlice(stream: seq<Value>, lo: nat, at: nat)
    requires lo <= at < |stream|
    ensures stream[lo..at + 1] == stream[lo..at] + [stream[at]]
  {
  }

  /** The cell a consumer is about to read holds the next object of the stream. */
  lemma NextCell(s: State, i: nat)
    requires Inv(s) && i < |s.ops| && s.ops[i].Copy? && s.ops[i].side.Cons?
    ensures s.ops[i].lo <= s.ops[i].at < |s.stream| && s.ops[i].objs == s.stream[s.ops[i].lo..s.ops[i].at]
    ensures var q := Cell(s.cap, s.ops[i].lo % WORD + (s.ops[i].at - s.ops[i].lo));
            q < |s.cells| && s.cells[q] == s.stream[s.ops[i].at]
  {
    var op := s.ops[i];
    assert OpOk(s, i, op);
    CellExact(s.cap, op.lo, op.at - op.lo);
    assert Stored(s.cap, s.cells, s.stream, op.at);
  }

  /** A consumer reads the next object of the stream. */
  lemma ReadsNext(s: State, s': State, i: nat)
    requires Inv(s) && CopyOne(s, s', i) && s.ops[i].side.Cons?
    ensures s.ops[i].at < |s.stream|
    ensures s'.ops[i].objs == s.stream[s.ops[i].lo..s.ops[i].at + 1]
  {
    NextCell(s, i);
    NextSlice(s.stream, s.ops[i].lo, s.ops[i].at);
  }

  lemma CopyOutOps(s: State, s': State, i: nat, j: nat)
    requires Inv(s) && CopyOne(s, s', i) && s.ops[i].side.Cons? && j < |s.ops|
    ensures Shape(s') && OpOk(s', j, s'.ops[j])
  {
    assert OpOk(s, i, s.ops[i]) && OpOk(s, j, s.ops[j]);
    OpTransfer(s, s', j, s.ops[j]);
    if j == i {
      ReadsNext(s, s', i);
      assert HolderOk(s', i, s.ops[i]);
    }
  }

  lemma CopyKeeps(s: State, s': State, i: nat)
    requires Inv(s) && CopyOne(s, s', i)
    ensures Inv(s')
  {
    var op := s.ops[i];
    assert OpOk(s, i, op);
    forall j | 0 <= j < |s'.ops|
      ensures Shape(s') && OpOk(s', j, s'.ops[j])
    {
      if op.side.Prod? { CopyInOps(s, s', i, j); } else { CopyOutOps(s, s', i, j); }
    }
    assert Shape(s');
    forall side, t: nat
      ensures Reserved(s', side, t)
    {
      assert Reserved(s, side, t);
    }
    forall t: nat | s'.consTail <= t < s'.prodTail
      ensures Stored(s'.cap, s'.cells, s'.stream, t)
    {
      assert Stored(s.cap, s.cells, s.stream, t);
      if op.side.Prod? {
        CopyInKeepsStored(s, s', i, t);
      }
    }
  }

  /** The tail moves only when every earlier reservation is published: the word says so,
    or there is no other operation that could have made one. */
  lemma TailReached(s: State, s': State, i: nat)
    requires Inv(s) && SinglesAlone(s) && UpdateTail(s, s', i)
    ensures TailOf(s, s.ops[i].side) == s.ops[i].lo
  {
    var op := s.ops[i];
    assert OpOk(s, i, op);
    if op.single {
      var tail := TailOf(s, op.side);
      assert Reserved(s, op.side, tail);
    } else {
      CongruentNear(TailOf(s, op.side), op.lo);
    }
  }

  lemma UpdateShape(s: State, s': State, i: nat)
    requires Inv(s) && SinglesAlone(s) && UpdateTail(s, s', i)
    ensures Shape(s')
  {
    var op := s.ops[i];
    assert OpOk(s, i, op);
    TailReached(s, s', i);
    if op.side.Cons? {
      assert s.stream[..op.lo + op.n] == s.stream[..op.lo] + s.stream[op.lo..op.lo + op.n];
    }
  }

  lemma UpdateOthers(s: State, s': State, i: nat, j: nat)
    requires Inv(s) && SinglesAlone(s) && UpdateTail(s, s', i) && j < |s.ops| && j != i
    ensures Shape(s') && OpOk(s', j, s.ops[j])
  {
    UpdateShape(s, s', i);
    TailReached(s, s', i);
    var op, oj := s.ops[i], s.ops[j];
    assert OpOk(s, i, op) && OpOk(s, j, oj);
    if (oj.Copy? || oj.Publish?) && oj.side == op.side {
      assert Drawn(OwnersOf(s, op.side), oj.lo, j);
      assert oj.lo < op.lo + op.n ==> Drawn(OwnersOf(s, op.side), oj.lo, i);
    }
    OpTransfer(s, s', j, oj);
  }

  lemma UpdateReserved(s: State, s': State, i: nat, side: Side, t: nat)
    requires Inv(s) && SinglesAlone(s) && UpdateTail(s, s', i)
    ensures Shape(s') && Reserved(s', side, t)
  {
    UpdateShape(s, s', i);
    TailReached(s, s', i);
    assert Reserved(s, side, t) && OpOk(s, i, s.ops[i]);
  }

  lemma UpdateKeeps(s: State, s': State, i: nat)
    requires Inv(s) && SinglesAlone(s) && UpdateTail(s, s', i)
    ensures Inv(s')
  {
    UpdateShape(s, s', i);
    TailReached(s, s', i);
    assert OpOk(s, i, s.ops[i]);
    forall j | 0 <= j < |s'.ops|
      ensures OpOk(s', j, s'.ops[j])
    {
      if j != i {
        UpdateOthers(s, s', i, j);
      }
    }
    forall side, t: nat
      ensures Reserved(s', side, t)
    {
      UpdateReserved(s, s', i, side, t);
    }
  }

  lemma StepKeeps(s: State, s': State, i: nat, a: Action)
    requires Inv(s) && NotLapped(s) && SinglesAlone(s) && Step(s, s', i, a)
    ensures Inv(s')
  {
    match a
    case DoBegin(side, objs, n, single) => LocalKeeps(s, s', i, s'.ops[i]);
    case DoLoadTail => LoadTailKeeps(s, s', i);
    case DoMoveHead => MoveKeeps(s, s', i);
    case DoCopy => CopyKeeps(s, s', i);
    case DoUpdateTail => UpdateKeeps(s, s', i);
  }

  lemma {:induction false} RunKeeps(run: seq<State>, n: nat)
    requires IsRun(run) && Orderly(run) && n < |run|
    ensures Inv(run[n])
  {
    if n == 0 {
      InitInv(run[0]);
    } else {
      RunKeeps(run, n - 1);
      assert Next(run[n - 1], run[n - 1 + 1]);
      var i, a :| Step(run[n - 1], run[n], i, a);
      StepKeeps(run[n - 1], run[n], i, a);
    }
  }

  /** Safety of every orderly execution, in any mix of modes: counters in order, at most `cap` positions between
    them, published dequeues a prefix of the enqueued stream, and no cell open to a
    producer and to another operation. */
  lemma RingSafety(run: seq<State>, n: nat)
    requires IsRun(run) && Orderly(run) && n < |run|
    ensures var s := run[n];
            && s.consTail <= s.consHead <= s.prodTail <= s.prodHead <= s.consTail + s.cap
            && s.taken <= s.stream && |s.taken| == s.consTail && |s.stream| == s.prodHead
            && s.cap > 0
            && forall i, j, t: nat, u: nat | 0 <= i < |s.ops| && 0 <= j < |s.ops| && (i != j || t != u) ::
                 Reserves(s.ops[i], Prod, t) && (Reserves(s.ops[j], Prod, u) || Reserves(s.ops[j], Cons, u))
                 ==> t % s.cap != u % s.cap
  {
    RunKeeps(run, n);
    var s := run[n];
    forall i, j, t: nat, u: nat | 0 <= i < |s.ops| && 0 <= j < |s.ops| && (i != j || t != u)
        && Reserves(s.ops[i], Prod, t) && (Reserves(s.ops[j], Prod, u) || Reserves(s.ops[j], Cons, u))
      ensures t % s.cap != u % s.cap
    {
      assert OpOk(s, i, s.ops[i]) && OpOk(s, j, s.ops[j]);
      assert Drawn(OwnersOf(s, Prod), t, i);
      assert s.ops[j].side.Prod? ==> Drawn(OwnersOf(s, Prod), u, j);
      if t < u { SlotsApart(s.cap, t, u); } else { SlotsApart(s.cap, u, t); }
    }
  }

  /** What a consumer has read is the stretch of the stream it reserved. */
  lemma ConsumerReadsStream(run: seq<State>, n: nat, i: nat)
    requires IsRun(run) && Orderly(run) && n < |run| && i < |run[n].ops|
    requires run[n].ops[i].Publish? && run[n].ops[i].side.Cons?
    ensures var s := run[n]; var op := s.ops[i];
            op.lo + op.n <= |s.stream| && op.objs == s.stream[op.lo..op.lo + op.n]
  {
    RunKeeps(run, n);
    assert OpOk(run[n], i, run[n].ops[i]);
  }
}
