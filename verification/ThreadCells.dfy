/** `CompactEnumerableThreadLocal`: one cell per thread and instance, many instances
  sharing the lines of one vector per group. */
module ThreadCells {

  /** Lines are created in blocks. */
  const BLOCK: nat := 128
  /** Thread ids are 16-bit; the two largest values are marks. */
  const THREADS: nat := 0x1_0000
  const MAX_THREADS: nat := THREADS - 2

  /** A group of instances: its lines by thread, each with one cell per instance. */
  type Group<Cell> = seq<seq<Cell>>

  predicate GroupOk<Cell>(g: Group<Cell>, perLine: nat) {
    |g| % BLOCK == 0 && |g| <= THREADS && forall t :: 0 <= t < |g| ==> |g[t]| == perLine
  }

  /** A cell not created yet counts as blank. */
  function CellAt<Cell>(groups: seq<Group<Cell>>, blank: Cell, k: nat, t: nat, off: nat): Cell {
    if k < |groups| && t < |groups[k]| && off < |groups[k][t]| then groups[k][t][off] else blank
  }

  /** Cell of instance `id` for thread `t`. */
  function Local<Cell>(groups: seq<Group<Cell>>, perLine: nat, blank: Cell, id: nat, t: nat): Cell
    requires perLine > 0
  {
    CellAt(groups, blank, id / perLine, t, id % perLine)
  }

  /** All cells of an instance, by thread. */
  function Column<Cell>(groups: seq<Group<Cell>>, perLine: nat, blank: Cell, id: nat): (c: seq<Cell>)
    requires perLine > 0
    ensures |c| == THREADS && forall t :: 0 <= t < THREADS ==> c[t] == Local(groups, perLine, blank, id, t)
  {
    seq(THREADS, t requires 0 <= t < THREADS => Local(groups, perLine, blank, id, t))
  }

  /** Different instances never share a cell. */
  lemma CellsDistinct(perLine: nat, a: nat, b: nat)
    requires perLine > 0 && a / perLine == b / perLine && a % perLine == b % perLine
    ensures a == b
  {
  }

  /** The smallest block-aligned size above `t`. */
  function LinesFor(t: nat): (n: nat)
    requires t < THREADS
    ensures n % BLOCK == 0 && t < n <= THREADS && n <= t + BLOCK
  {
    (t / BLOCK + 1) * BLOCK
  }

  ghost predicate GroupsOk<Cell>(groups: seq<Group<Cell>>, perLine: nat) {
    forall k :: 0 <= k < |groups| ==> GroupOk(groups[k], perLine)
  }

  /** Lines exist only up to the block of the last thread id. */
  ghost predicate SizesOk<Cell>(groups: seq<Group<Cell>>, end: nat) {
    forall k :: 0 <= k < |groups| ==> |groups[k]| < end + BLOCK
  }

  /** Threads that do not exist have left nothing. */
  ghost predicate BlankFrom<Cell>(groups: seq<Group<Cell>>, perLine: nat, blank: Cell, end: nat)
    requires perLine > 0
  {
    forall id: nat, t: nat :: t >= end ==> Local(groups, perLine, blank, id, t) == blank
  }

  /** Group `k` exists. */
  function WithGroup<Cell>(groups: seq<Group<Cell>>, k: nat): (r: seq<Group<Cell>>)
    ensures k < |r|
  {
    if k < |groups| then groups else groups + seq(k + 1 - |groups|, _ => [])
  }

  /** Group `k` has a line for thread `t`. */
  function WithLine<Cell>(groups: seq<Group<Cell>>, perLine: nat, blank: Cell, k: nat, t: nat): (r: seq<Group<Cell>>)
    requires k < |groups| && t < THREADS
    ensures |r| == |groups| && t < |r[k]|
  {
    if t < |groups[k]| then groups
    else groups[k := groups[k] + seq(LinesFor(t) - |groups[k]|, _ => seq(perLine, _ => blank))]
  }

  function WithCell<Cell>(groups: seq<Group<Cell>>, k: nat, t: nat, off: nat, c: Cell): seq<Group<Cell>>
    requires k < |groups| && t < |groups[k]| && off < |groups[k][t]|
  {
    groups[k := groups[k][t := groups[k][t][off := c]]]
  }

  ghost predicate FullGroup<Cell>(groups: seq<Group<Cell>>, k: nat) {
    k < |groups| && |groups[k]| == THREADS
  }

  /** A group becomes full exactly when a thread of the last block gets a line. */
  lemma LineSizes<Cell>(groups: seq<Group<Cell>>, perLine: nat, blank: Cell, k: nat, t: nat, end: nat)
    requires GroupsOk(groups, perLine) && SizesOk(groups, end) && t < MAX_THREADS && end <= MAX_THREADS
    ensures var groups' := WithLine(WithGroup(groups, k), perLine, blank, k, t);
      && SizesOk(groups', if t < end then end else t + 1)
      && forall j: nat :: FullGroup(groups', j) <==> FullGroup(groups, j) || (j == k && t >= THREADS - BLOCK)
  {
    if k < |groups| {
      assert GroupOk(groups[k], perLine);
    }
  }

  ghost predicate SameSizes<Cell>(a: seq<Group<Cell>>, b: seq<Group<Cell>>) {
    |a| == |b| && forall k :: 0 <= k < |a| ==> |a[k]| == |b[k]|
  }

  /** What a store does to whole columns. */
  lemma ColumnStored<Cell>(a: seq<Group<Cell>>, b: seq<Group<Cell>>, perLine: nat, blank: Cell,
                           id: nat, t: nat, c: Cell)
    requires perLine > 0 && GroupsOk(a, perLine) && GroupsOk(b, perLine) && t < THREADS
    requires forall j: nat, u: nat :: Local(b, perLine, blank, j, u) ==
               if j == id && u == t then c else Local(a, perLine, blank, j, u)
    ensures Column(b, perLine, blank, id) == Column(a, perLine, blank, id)[t := c]
    ensures forall j: nat :: j != id ==> Column(b, perLine, blank, j) == Column(a, perLine, blank, j)
  {
  }

  lemma GroupAdded<Cell>(groups: seq<Group<Cell>>, perLine: nat, blank: Cell, k: nat)
    requires perLine > 0 && GroupsOk(groups, perLine)
    ensures GroupsOk(WithGroup(groups, k), perLine)
    ensures forall id: nat, t: nat ::
              Local(WithGroup(groups, k), perLine, blank, id, t) == Local(groups, perLine, blank, id, t)
  {
  }

  /** Creating lines changes no cell. */
  lemma LineAdded<Cell>(groups: seq<Group<Cell>>, perLine: nat, blank: Cell, k: nat, t: nat)
    requires perLine > 0 && GroupsOk(groups, perLine) && k < |groups| && t < THREADS
    ensures GroupsOk(WithLine(groups, perLine, blank, k, t), perLine)
    ensures forall id: nat, u: nat ::
              Local(WithLine(groups, perLine, blank, k, t), perLine, blank, id, u)
              == Local(groups, perLine, blank, id, u)
  {
  }

  /** Storing changes exactly one cell of one instance. */
  lemma CellStored<Cell>(groups: seq<Group<Cell>>, perLine: nat, blank: Cell, id: nat, t: nat, c: Cell)
    requires perLine > 0 && GroupsOk(groups, perLine)
    requires id / perLine < |groups| && t < |groups[id / perLine]| && |groups[id / perLine][t]| == perLine
    ensures var groups' := WithCell(groups, id / perLine, t, id % perLine, c);
      && GroupsOk(groups', perLine) && SameSizes(groups, groups')
      && forall j: nat, u: nat :: Local(groups', perLine, blank, j, u) ==
           if j == id && u == t then c else Local(groups, perLine, blank, j, u)
  {
    var groups' := WithCell(groups, id / perLine, t, id % perLine, c);
    StoredGroups(groups, perLine, blank, id / perLine, t, id % perLine, c);
    forall j: nat, u: nat
      ensures Local(groups', perLine, blank, j, u) ==
              if j == id && u == t then c else Local(groups, perLine, blank, j, u)
    {
      OneCellStored(groups, groups', perLine, blank, id, t, c, j, u);
    }
  }

  lemma StoredGroups<Cell>(groups: seq<Group<Cell>>, perLine: nat, blank: Cell, k: nat, t: nat, off: nat, c: Cell)
    requires GroupsOk(groups, perLine) && k < |groups| && t < |groups[k]| && off < |groups[k][t]| == perLine
    ensures GroupsOk(WithCell(groups, k, t, off, c), perLine) && SameSizes(groups, WithCell(groups, k, t, off, c))
    ensures forall j: nat, u: nat, o: nat ::
              CellAt(WithCell(groups, k, t, off, c), blank, j, u, o) ==
              if j == k && u == t && o == off then c else CellAt(groups, blank, j, u, o)
  {
    var groups' := WithCell(groups, k, t, off, c);
    forall j | 0 <= j < |groups'|
      ensures GroupOk(groups'[j], perLine)
    {
      assert GroupOk(groups[j], perLine);
    }
  }

  lemma OneCellStored<Cell>(groups: seq<Group<Cell>>, groups': seq<Group<Cell>>, perLine: nat, blank: Cell,
                            id: nat, t: nat, c: Cell, j: nat, u: nat)
    requires perLine > 0
    requires forall k: nat, v: nat, off: nat ::
               CellAt(groups', blank, k, v, off) ==
               if k == id / perLine && v == t && off == id % perLine then c else CellAt(groups, blank, k, v, off)
    ensures Local(groups', perLine, blank, j, u) ==
            if j == id && u == t then c else Local(groups, perLine, blank, j, u)
  {
    if j / perLine == id / perLine && j % perLine == id % perLine {
      CellsDistinct(perLine, j, id);
    }
  }

  class ThreadCells<Cell(==)> {
    const perLine: nat
    const blank: Cell
    var groups: seq<Group<Cell>>
    var end: nat                     // ThreadId::end()

    ghost predicate Valid()
      reads this
    {
      && perLine > 1 && end <= MAX_THREADS
      && GroupsOk(groups, perLine) && SizesOk(groups, end) && BlankFrom(groups, perLine, blank, end)
    }

    ghost function Cells(id: nat): (c: seq<Cell>)
      reads this
      requires Valid()
      ensures |c| == THREADS
    {
      Column(groups, perLine, blank, id)
    }

    /** The group of `id` has a line for every 16-bit number: its size no longer fits. */
    ghost predicate Full(id: nat)
      reads this
      requires perLine > 0
    {
      FullGroup(groups, id / perLine)
    }

    /** With at most 65408 thread ids no group is ever full. */
    lemma NeverFull(id: nat)
      requires Valid() && end <= THREADS - BLOCK
      ensures !Full(id)
    {
    }

    constructor (perLine: nat, blank: Cell)
      requires perLine > 1
      ensures Valid() && this.perLine == perLine && this.blank == blank
      ensures forall id: nat :: Cells(id) == seq(THREADS, _ => blank)
      ensures groups == [] && end == 0
    {
      this.perLine, this.blank, groups, end := perLine, blank, [], 0;
    }

    /** local() of thread `t`: the cell, created if need be. */
    method Touch(id: nat, t: nat) returns (c: Cell)
      requires Valid() && t < MAX_THREADS
      modifies this
      ensures Valid() && c == Cells(id)[t] && end == if t < old(end) then old(end) else t + 1
      ensures forall j: nat :: Cells(j) == old(Cells(j))
      ensures id / perLine < |groups| && t < |groups[id / perLine]|
      ensures forall j: nat :: Full(j) <==> old(Full(j)) || (j / perLine == id / perLine && t >= THREADS - BLOCK)
    {
      var k := id / perLine;
      ghost var before := groups;
      LineSizes(groups, perLine, blank, k, t, end);
      GroupAdded(groups, perLine, blank, k);
      groups := WithGroup(groups, k);
      LineAdded(groups, perLine, blank, k, t);
      groups := WithLine(groups, perLine, blank, k, t);
      SameCells(before, groups, perLine, blank);
      if t >= end {
        end := t + 1;
      }
      c := Local(groups, perLine, blank, id, t);
    }

    /** local() followed by a store of the thread itself. */
    method Update(id: nat, t: nat, c: Cell)
      requires Valid() && t < MAX_THREADS
      modifies this
      ensures Valid() && Cells(id) == old(Cells(id))[t := c]
      ensures forall j: nat :: (j != id ==> Cells(j) == old(Cells(j))) && (old(Full(j)) ==> Full(j))
      ensures t >= THREADS - BLOCK ==> Full(id)
    {
      var _ := Touch(id, t);
      Store(id, t, c);
    }

    /** A store to the cell of thread `t`. */
    method Store(id: nat, t: nat, c: Cell)
      requires Valid() && t < end && id / perLine < |groups| && t < |groups[id / perLine]|
      modifies this`groups
      ensures Valid() && Cells(id) == old(Cells(id))[t := c]
      ensures forall j: nat :: j != id ==> Cells(j) == old(Cells(j))
      ensures SameSizes(old(groups), groups) && forall j: nat :: Full(j) <==> old(Full(j))
    {
      ghost var before := groups;
      assert GroupOk(groups[id / perLine], perLine);
      CellStored(groups, perLine, blank, id, t, c);
      groups := WithCell(groups, id / perLine, t, id % perLine, c);
      ColumnStored(before, groups, perLine, blank, id, t, c);
    }

    method Read(id: nat, t: nat) returns (c: Cell)
      requires Valid() && t < THREADS
      ensures c == Cells(id)[t]
    {
      c := Local(groups, perLine, blank, id, t);
    }

    /** The range of for_each: thread ids below `end` and below the size of the group's
      vector cut to 16 bits. */
    method Range(id: nat) returns (n: nat)
      requires Valid()
      ensures Full(id) ==> n == 0
      ensures !Full(id) ==> n <= end && forall t :: n <= t < THREADS ==> Cells(id)[t] == blank
      ensures n > 0 ==> id / perLine < |groups| && n <= |groups[id / perLine]|
    {
      var k := id / perLine;
      var size := if k < |groups| then |groups[k]| else 0;
      var cut := size % THREADS;
      n := if end <= cut then end else cut;
    }

    /** The destructor's sweep, and `reset` of an adder: blanks every cell in range. */
    method ClearAll(id: nat)
      requires Valid()
      modifies this`groups
      ensures Valid() && (Full(id) ==> Cells(id) == old(Cells(id)))
      ensures !Full(id) ==> Cells(id) == seq(THREADS, _ => blank)
      ensures forall j: nat :: (j != id ==> Cells(j) == old(Cells(j))) && (Full(j) <==> old(Full(j)))
    {
      var n := Range(id);
      for t := 0 to n
        invariant Valid() && SameSizes(old(groups), groups)
        invariant forall u :: 0 <= u < THREADS ==> Cells(id)[u] == if u < t then blank else old(Cells(id)[u])
        invariant forall j: nat :: j != id ==> Cells(j) == old(Cells(j))
      {
        Store(id, t, blank);
      }
    }
  }

  lemma SameCells<Cell>(a: seq<Group<Cell>>, b: seq<Group<Cell>>, perLine: nat, blank: Cell)
    requires perLine > 0 && GroupsOk(a, perLine) && GroupsOk(b, perLine)
    requires forall id: nat, t: nat :: Local(a, perLine, blank, id, t) == Local(b, perLine, blank, id, t)
    ensures forall id: nat :: Column(a, perLine, blank, id) == Column(b, perLine, blank, id)
  {
  }
}
