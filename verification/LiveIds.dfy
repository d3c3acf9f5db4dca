/** `IdAllocator::for_each`: live ids as maximal runs, over a vector kept in blocks. */
module LiveIds {

  /** Elements per block of the allocator's vector. */
  const BLOCK: nat := 128

  /** Ids lo, ..., hi - 1. */
  datatype Span = Span(lo: nat, hi: nat)

  ghost predicate Blocked(blocks: seq<seq<nat>>) {
    forall k :: 0 <= k < |blocks| ==> |blocks[k]| == BLOCK
  }

  /** Element `v` of a vector stored in blocks. */
  function At(blocks: seq<seq<nat>>, v: nat): nat
    requires Blocked(blocks) && v < BLOCK * |blocks|
  {
    blocks[v / BLOCK][v % BLOCK]
  }

  /** The elements 0, ..., n - 1 in order. */
  function Flat(blocks: seq<seq<nat>>, n: nat): (r: seq<nat>)
    requires Blocked(blocks) && n <= BLOCK * |blocks|
    ensures |r| == n && forall v :: 0 <= v < n ==> r[v] == At(blocks, v)
  {
    seq(n, v requires 0 <= v < n => At(blocks, v))
  }

  /** Nonempty, all active, and not extensible on either side. */
  ghost predicate Maximal(cells: seq<nat>, active: nat, r: Span) {
    && r.lo < r.hi <= |cells|
    && (forall v :: r.lo <= v < r.hi ==> cells[v] == active)
    && (r.lo > 0 ==> cells[r.lo - 1] != active)
    && (r.hi < |cells| ==> cells[r.hi] != active)
  }

  ghost predicate Covered(spans: seq<Span>, v: nat) {
    exists k :: 0 <= k < |spans| && spans[k].lo <= v < spans[k].hi
  }

  /** The maximal runs of active cells, ascending and apart, and no other id. */
  ghost predicate RunsOf(cells: seq<nat>, active: nat, spans: seq<Span>) {
    && (forall k :: 0 <= k < |spans| ==> Maximal(cells, active, spans[k]))
    && (forall j, k :: 0 <= j < k < |spans| ==> spans[j].hi < spans[k].lo)
    && (forall v :: 0 <= v < |cells| && cells[v] == active ==> Covered(spans, v))
  }

  /** There is only one such list of runs. */
  lemma {:induction false} RunsUnique(cells: seq<nat>, active: nat, a: seq<Span>, b: seq<Span>, k: nat)
    requires RunsOf(cells, active, a) && RunsOf(cells, active, b) && k <= |a| && k <= |b|
    requires forall j :: 0 <= j < k ==> a[j] == b[j]
    ensures a == b
    decreases |a| - k
  {
    if k < |a| && k < |b| {
      SameRun(cells, active, a, b, k);
      RunsUnique(cells, active, a, b, k + 1);
    } else if k < |a| {
      NoMore(cells, active, a, b, k);
    } else if k < |b| {
      NoMore(cells, active, b, a, k);
    }
  }

  lemma NoMore(cells: seq<nat>, active: nat, a: seq<Span>, b: seq<Span>, k: nat)
    requires RunsOf(cells, active, a) && RunsOf(cells, active, b) && k < |a|
    requires forall j :: 0 <= j < k && j < |b| ==> a[j] == b[j]
    ensures k < |b|
  {
    assert Maximal(cells, active, a[k]);
    var v := a[k].lo;
    assert Covered(b, v);
    var j :| 0 <= j < |b| && b[j].lo <= v < b[j].hi;
    assert j >= k;
  }

  lemma SameRun(cells: seq<nat>, active: nat, a: seq<Span>, b: seq<Span>, k: nat)
    requires RunsOf(cells, active, a) && RunsOf(cells, active, b) && k < |a| && k < |b|
    requires forall j :: 0 <= j < k ==> a[j] == b[j]
    ensures a[k] == b[k]
  {
    StartsNoLater(cells, active, a, b, k);
    StartsNoLater(cells, active, b, a, k);
    assert Maximal(cells, active, a[k]) && Maximal(cells, active, b[k]);
    assert a[k].hi == b[k].hi;
  }

  lemma StartsNoLater(cells: seq<nat>, active: nat, a: seq<Span>, b: seq<Span>, k: nat)
    requires RunsOf(cells, active, a) && RunsOf(cells, active, b) && k < |a| && k < |b|
    requires forall j :: 0 <= j < k ==> a[j] == b[j]
    ensures a[k].lo <= b[k].lo
  {
    var v := b[k].lo;
    assert Maximal(cells, active, b[k]);
    assert Covered(a, v);
    var j :| 0 <= j < |a| && a[j].lo <= v < a[j].hi;
    assert j >= k;
    if j > k {
      assert a[k].hi < a[j].lo;
      assert Maximal(cells, active, a[k]);
    }
  }

  // ------------------------------------------------------------- scanning

  /** What is known after the first `upto` cells; `start` is the open run or `tail`. */
  ghost predicate Scanned(cells: seq<nat>, active: nat, tail: nat, upto: nat, start: nat, spans: seq<Span>) {
    && upto <= |cells| && (start != tail ==> start < upto)
    && (forall k :: 0 <= k < |spans| ==>
          Maximal(cells, active, spans[k]) && spans[k].hi < if start == tail then upto else start)
    && (forall j, k :: 0 <= j < k < |spans| ==> spans[j].hi < spans[k].lo)
    && (if start == tail then
          && (upto > 0 ==> cells[upto - 1] != active)
          && (forall v :: 0 <= v < upto && cells[v] == active ==> Covered(spans, v))
        else
          && (start > 0 ==> cells[start - 1] != active)
          && (forall v :: start <= v < upto ==> cells[v] == active)
          && (forall v :: 0 <= v < start && cells[v] == active ==> Covered(spans, v)))
  }

  /** The cursors of the enumeration. */
  datatype Cursor = Cursor(value: nat, start: nat, spans: seq<Span>)

  /** Cells up to `value` continue what the last one was. */
  lemma SkipTo(cells: seq<nat>, active: nat, tail: nat, c: Cursor, value: nat)
    requires Scanned(cells, active, tail, c.value, c.start, c.spans) && c.value <= value <= |cells|
    requires forall v :: c.value <= v < value ==> (cells[v] == active) == (c.start != tail)
    ensures Scanned(cells, active, tail, value, c.start, c.spans)
  {
  }

  lemma OpenRun(cells: seq<nat>, active: nat, tail: nat, value: nat, spans: seq<Span>)
    requires Scanned(cells, active, tail, value, tail, spans) && value < |cells| <= tail && cells[value] == active
    ensures Scanned(cells, active, tail, value + 1, value, spans)
  {
  }

  lemma CloseRun(cells: seq<nat>, active: nat, tail: nat, start: nat, stop: nat, spans: seq<Span>)
    requires Scanned(cells, active, tail, stop, start, spans) && start != tail
    requires stop < |cells| && cells[stop] != active
    ensures Scanned(cells, active, tail, stop + 1, tail, spans + [Span(start, stop)])
  {
    var spans' := spans + [Span(start, stop)];
    forall v | 0 <= v < stop + 1 && cells[v] == active
      ensures Covered(spans', v)
    {
      if v < start {
        assert Covered(spans, v);
        var k :| 0 <= k < |spans| && spans[k].lo <= v < spans[k].hi;
        assert spans'[k].lo <= v;
      } else {
        assert spans'[|spans|].lo <= v;
      }
    }
  }

  /** std::find_if over one block: the first cell in [from, to) that is, or is not,
    active, or `to`. */
  method Find(block: seq<nat>, from: nat, to: nat, active: nat, wanted: bool) returns (stop: nat)
    requires from <= to <= |block|
    ensures from <= stop <= to
    ensures forall k :: from <= k < stop ==> (block[k] == active) != wanted
    ensures stop < to ==> (block[stop] == active) == wanted
  {
    stop := from;
    while stop < to && (block[stop] == active) != wanted
      invariant from <= stop <= to
      invariant forall k :: from <= k < stop ==> (block[k] == active) != wanted
    {
      stop := stop + 1;
    }
  }

  /** The callback on the elements 0 to `to` of the block that starts at `base`. */
  method ScanBlock(block: seq<nat>, ghost base: nat, to: nat, active: nat, tail: nat,
                   ghost cells: seq<nat>, c: Cursor) returns (c': Cursor)
    requires to <= |block| && base + to <= |cells| <= tail
    requires forall v :: base <= v < base + to ==> cells[v] == block[v - base]
    requires c.value == base && Scanned(cells, active, tail, c.value, c.start, c.spans)
    ensures c'.value == base + to && Scanned(cells, active, tail, c'.value, c'.start, c'.spans)
  {
    var iter := 0;
    c' := c;
    while iter < to
      invariant iter <= to && c'.value == base + iter
      invariant Scanned(cells, active, tail, c'.value, c'.start, c'.spans)
    {
      var stop := Find(block, iter, to, active, c'.start == tail);
      var value := stop - iter + c'.value;
      SkipTo(cells, active, tail, c', value);
      if c'.start != tail {
        if stop < to {
          CloseRun(cells, active, tail, c'.start, value, c'.spans);
          c' := Cursor(value + 1, tail, c'.spans + [Span(c'.start, value)]);
          iter := stop + 1;
        } else {
          c' := c'.(value := value);
          iter := stop;
        }
      } else {
        if stop < to {
          OpenRun(cells, active, tail, value, c'.spans);
          c' := Cursor(value + 1, value, c'.spans);
          iter := stop + 1;
        } else {
          c' := c'.(value := value);
          iter := stop;
        }
      }
    }
  }

  lemma BlockCells(blocks: seq<seq<nat>>, b: nat, to: nat, cells: seq<nat>)
    requires Blocked(blocks) && b < |blocks| && to <= BLOCK && b * BLOCK + to <= |cells| <= BLOCK * |blocks|
    requires cells == Flat(blocks, |cells|)
    ensures forall v :: b * BLOCK <= v < b * BLOCK + to ==> cells[v] == blocks[b][v - b * BLOCK]
  {
  }

  /** for_each reports exactly the maximal runs of active ids below `n`, whatever
    block boundaries they cross. */
  method ForEach(blocks: seq<seq<nat>>, n: nat, active: nat, tail: nat) returns (spans: seq<Span>)
    requires Blocked(blocks) && n <= BLOCK * |blocks| && n <= tail
    ensures RunsOf(Flat(blocks, n), active, spans)
  {
    ghost var cells := Flat(blocks, n);
    var c := Cursor(0, tail, []);
    var block, last := 0, n / BLOCK;
    while block != last
      invariant 0 <= block <= last && c.value == block * BLOCK
      invariant Scanned(cells, active, tail, c.value, c.start, c.spans)
    {
      BlockCells(blocks, block, BLOCK, cells);
      c := ScanBlock(blocks[block], block * BLOCK, BLOCK, active, tail, cells, c);
      block := block + 1;
    }
    if n % BLOCK != 0 {
      BlockCells(blocks, block, n % BLOCK, cells);
      c := ScanBlock(blocks[block], block * BLOCK, n % BLOCK, active, tail, cells, c);
    }
    spans := c.spans;
    if c.value > c.start {
      spans := spans + [Span(c.start, c.value)];
      CloseLast(cells, active, tail, c);
    }
  }

  lemma CloseLast(cells: seq<nat>, active: nat, tail: nat, c: Cursor)
    requires Scanned(cells, active, tail, c.value, c.start, c.spans)
    requires c.value == |cells| <= tail && c.value > c.start
    ensures RunsOf(cells, active, c.spans + [Span(c.start, c.value)])
  {
    var spans' := c.spans + [Span(c.start, c.value)];
    forall v | 0 <= v < |cells| && cells[v] == active
      ensures Covered(spans', v)
    {
      if v < c.start {
        assert Covered(c.spans, v);
        var k :| 0 <= k < |c.spans| && c.spans[k].lo <= v < c.spans[k].hi;
        assert spans'[k].lo <= v;
      } else {
        assert spans'[|c.spans|].lo <= v;
      }
    }
  }
}
