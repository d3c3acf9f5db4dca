/** The sharded counters: `ConcurrentAdder`, `ConcurrentSummer`, `ConcurrentMaxer`. */
module Counters {
  import opened ThreadCells

  /** Instance numbers, recycled through a free list. */
  class Instances {
    var next: nat
    var free: seq<nat>
    ghost var live: set<nat>

    ghost predicate Valid()
      reads this
    {
      && (forall a, b :: 0 <= a < b < |free| ==> free[a] != free[b])
      && (forall a :: 0 <= a < |free| ==> free[a] < next && free[a] !in live)
      && (forall id :: id in live ==> id < next)
    }

    constructor ()
      ensures Valid() && live == {}
    {
      next, free, live := 0, [], {};
    }

    method New() returns (id: nat)
      requires Valid()
      modifies this
      ensures Valid() && id !in old(live) && live == old(live) + {id}
    {
      if free != [] {
        id, free := free[0], free[1..];
      } else {
        id, next := next, next + 1;
      }
      live := live + {id};
    }

    method Delete(id: nat)
      requires Valid() && id in live
      modifies this
      ensures Valid() && live == old(live) - {id}
    {
      free, live := [id] + free, live - {id};
    }
  }

  ghost predicate AllBlank<Cell>(c: seq<Cell>, blank: Cell) {
    forall t :: 0 <= t < |c| ==> c[t] == blank
  }

  // ---------------------------------------------------------------- adder

  function Sum(c: seq<int>): int {
    if c == [] then 0 else Sum(c[..|c| - 1]) + c[|c| - 1]
  }

  lemma {:induction false} SumUpdate(c: seq<int>, t: nat, v: int)
    requires t < |c|
    ensures Sum(c[t := v]) == Sum(c) - c[t] + v
  {
    var n := |c| - 1;
    if t < n {
      SumUpdate(c[..n], t, v);
      assert c[t := v][..n] == c[..n][t := v];
    } else {
      assert c[t := v][..n] == c[..n];
    }
  }

  lemma {:induction false} SumZeroTail(c: seq<int>, n: nat)
    requires n <= |c| && forall t :: n <= t < |c| ==> c[t] == 0
    ensures Sum(c) == Sum(c[..n])
    decreases |c|
  {
    if n < |c| {
      var m := |c| - 1;
      SumZeroTail(c[..m], n);
      assert c[..m][..n] == c[..n];
    } else {
      assert c[..n] == c;
    }
  }

  lemma SumOfBlank(c: seq<int>)
    requires AllBlank(c, 0)
    ensures Sum(c) == 0
  {
    SumZeroTail(c, 0);
  }

  /** All adders of a process; `total` is what a plain counter would show. */
  class Adders {
    const cells: ThreadCells<int>
    const ids: Instances
    ghost var total: map<nat, int>

    ghost predicate Valid()
      reads this, cells, ids
    {
      && cells.Valid() && ids.Valid() && cells.blank == 0 && total.Keys == ids.live
      && (forall id: nat :: id in total && !cells.Full(id) ==> Sum(cells.Cells(id)) == total[id])
      && (forall id: nat :: id !in total && !cells.Full(id) ==> AllBlank(cells.Cells(id), 0))
    }

    constructor (perLine: nat)
      requires perLine > 1
      ensures Valid() && total == map[] && fresh(cells) && fresh(ids)
    {
      total := map[];
      cells := new ThreadCells(perLine, 0);
      ids := new Instances();
    }

    /** A new adder shows 0, also when its number and its cells were used before. */
    method New() returns (id: nat)
      requires Valid()
      modifies this, ids
      ensures Valid() && id !in old(total) && total == old(total)[id := 0]
    {
      id := ids.New();
      if !cells.Full(id) {
        SumOfBlank(cells.Cells(id));
      }
      total := total[id := 0];
    }

    /** operator<< on thread `t`. */
    method Add(id: nat, t: nat, v: int)
      requires Valid() && id in total && t < MAX_THREADS
      modifies this, cells
      ensures Valid() && total == old(total)[id := old(total)[id] + v]
      ensures t >= THREADS - BLOCK ==> cells.Full(id)
    {
      var local := cells.Read(id, t);
      SumUpdate(cells.Cells(id), t, local + v);
      cells.Update(id, t, local + v);
      total := total[id := total[id] + v];
    }

    /** value: exact unless a thread id of the last block has touched the group, in
      which case the 16-bit range is empty and the result is 0. */
    method Value(id: nat) returns (r: int)
      requires Valid() && id in total
      ensures r == if cells.Full(id) then 0 else total[id]
      ensures cells.end <= THREADS - BLOCK ==> r == total[id]
    {
      if cells.end <= THREADS - BLOCK {
        cells.NeverFull(id);
      }
      var n := cells.Range(id);
      r := 0;
      ghost var c := cells.Cells(id);
      for t := 0 to n
        invariant r == Sum(c[..t])
      {
        assert c[..t + 1][..t] == c[..t];
        var cell := cells.Read(id, t);
        r := r + cell;
      }
      if !cells.Full(id) {
        SumZeroTail(c, n);
      }
    }

    method Reset(id: nat)
      requires Valid() && id in total
      modifies this, cells
      ensures Valid() && total == old(total)[id := 0]
    {
      cells.ClearAll(id);
      if !cells.Full(id) {
        SumOfBlank(cells.Cells(id));
      }
      total := total[id := 0];
    }

    /** The destructor. */
    method Delete(id: nat)
      requires Valid() && id in total
      modifies this, cells, ids
      ensures Valid() && total == old(total) - {id}
    {
      cells.ClearAll(id);
      ids.Delete(id);
      total := total - {id};
    }
  }

  /** One update by thread 65408 and an adder shows 0 instead of 1. */
  method LateThreadLosesCount() returns (shown: int, ghost added: int)
    ensures shown == 0 && added == 1
  {
    var adders := new Adders(2);
    var id := adders.New();
    adders.Add(id, THREADS - BLOCK, 1);
    added := adders.total[id];
    shown := adders.Value(id);
  }

  // --------------------------------------------------------------- summer

  datatype Summary = Summary(sum: int, num: int)

  function Plus(a: Summary, b: Summary): Summary { Summary(a.sum + b.sum, a.num + b.num) }

  const ZERO := Summary(0, 0)

  /** The two fields of every cell. */
  function SumsOf(c: seq<Summary>): (r: seq<int>)
    ensures |r| == |c| && forall t :: 0 <= t < |c| ==> r[t] == c[t].sum
  {
    seq(|c|, t requires 0 <= t < |c| => c[t].sum)
  }

  function NumsOf(c: seq<Summary>): (r: seq<int>)
    ensures |r| == |c| && forall t :: 0 <= t < |c| ==> r[t] == c[t].num
  {
    seq(|c|, t requires 0 <= t < |c| => c[t].num)
  }

  /** The cells add up to these two plain integers. */
  ghost predicate AddUp(c: seq<Summary>, sum: int, num: int) {
    Sum(SumsOf(c)) == sum && Sum(NumsOf(c)) == num
  }

  lemma TotalUpdate(c: seq<Summary>, t: nat, v: Summary, sum: int, num: int)
    requires t < |c| && AddUp(c, sum, num)
    ensures AddUp(c[t := Plus(c[t], v)], sum + v.sum, num + v.num)
  {
    var c' := c[t := Plus(c[t], v)];
    SumUpdate(SumsOf(c), t, c[t].sum + v.sum);
    SumUpdate(NumsOf(c), t, c[t].num + v.num);
    assert SumsOf(c') == SumsOf(c)[t := c[t].sum + v.sum];
    assert NumsOf(c') == NumsOf(c)[t := c[t].num + v.num];
  }

  lemma TotalZeroTail(c: seq<Summary>, n: nat, sum: int, num: int)
    requires n <= |c| && forall t :: n <= t < |c| ==> c[t] == ZERO
    requires AddUp(c[..n], sum, num)
    ensures AddUp(c, sum, num)
  {
    SumZeroTail(SumsOf(c), n);
    SumZeroTail(NumsOf(c), n);
    assert SumsOf(c)[..n] == SumsOf(c[..n]) && NumsOf(c)[..n] == NumsOf(c[..n]);
  }

  lemma TotalOfBlank(c: seq<Summary>)
    requires AllBlank(c, ZERO)
    ensures AddUp(c, 0, 0)
  {
    SumOfBlank(SumsOf(c));
    SumOfBlank(NumsOf(c));
  }

  /** One cell more in a sweep. */
  lemma SweepStep(c: seq<Summary>, t: nat, r: Summary)
    requires t < |c| && AddUp(c[..t], r.sum, r.num)
    ensures AddUp(c[..t + 1], r.sum + c[t].sum, r.num + c[t].num)
  {
    var d := c[..t + 1];
    assert SumsOf(d)[..t] == SumsOf(c[..t]) && NumsOf(d)[..t] == NumsOf(c[..t]);
  }

  /** All summers of a process; `total` is what two plain counters would show: the sum and
    the count. */
  class Summers {
    const cells: ThreadCells<Summary>
    const ids: Instances
    ghost var total: map<nat, (int, int)>

    ghost predicate Valid()
      reads this, cells, ids
    {
      && cells.Valid() && ids.Valid() && cells.blank == ZERO && total.Keys == ids.live
      && (forall id: nat :: id in total && !cells.Full(id) ==> AddUp(cells.Cells(id), total[id].0, total[id].1))
      && (forall id: nat :: id !in total && !cells.Full(id) ==> AllBlank(cells.Cells(id), ZERO))
    }

    constructor (perLine: nat)
      requires perLine > 1
      ensures Valid() && total == map[] && fresh(cells) && fresh(ids)
    {
      total := map[];
      cells := new ThreadCells(perLine, ZERO);
      ids := new Instances();
    }

    method New() returns (id: nat)
      requires Valid()
      modifies this, ids
      ensures Valid() && id !in old(total) && total == old(total)[id := (0, 0)]
    {
      id := ids.New();
      assert !cells.Full(id) ==> AllBlank(cells.Cells(id), ZERO);
      assert !cells.Full(id) ==> AddUp(cells.Cells(id), 0, 0) by {
        if !cells.Full(id) {
          TotalOfBlank(cells.Cells(id));
        }
      }
      total := total[id := (0, 0)];
    }

    /** operator<< of a summary on thread `t`. */
    method Add(id: nat, t: nat, v: Summary)
      requires Valid() && id in total && t < MAX_THREADS
      modifies this, cells
      ensures Valid() && total == old(total)[id := (old(total)[id].0 + v.sum, old(total)[id].1 + v.num)]
    {
      ghost var sum, num := total[id].0 + v.sum, total[id].1 + v.num;
      BumpCell(id, t, v, total[id].0, total[id].1);
      total := total[id := (sum, num)];
    }

    /** The thread's own cell takes the update. */
    method BumpCell(id: nat, t: nat, v: Summary, ghost sum: int, ghost num: int)
      requires cells.Valid() && t < MAX_THREADS && (!cells.Full(id) ==> AddUp(cells.Cells(id), sum, num))
      modifies cells
      ensures cells.Valid() && (!cells.Full(id) ==> AddUp(cells.Cells(id), sum + v.sum, num + v.num))
      ensures forall j: nat ::
        (j != id ==> cells.Cells(j) == old(cells.Cells(j))) && (old(cells.Full(j)) ==> cells.Full(j))
    {
      var local := cells.Read(id, t);
      if !cells.Full(id) {
        TotalUpdate(cells.Cells(id), t, v, sum, num);
      }
      cells.Update(id, t, Plus(local, v));
    }

    /** operator<< of a value counts it once. */
    method AddValue(id: nat, t: nat, value: int)
      requires Valid() && id in total && t < MAX_THREADS
      modifies this, cells
      ensures Valid() && total == old(total)[id := (old(total)[id].0 + value, old(total)[id].1 + 1)]
    {
      Add(id, t, Summary(value, 1));
    }

    method Value(id: nat) returns (r: Summary)
      requires Valid() && id in total
      ensures if cells.Full(id) then r.sum == 0 && r.num == 0 else r.sum == total[id].0 && r.num == total[id].1
      ensures cells.end <= THREADS - BLOCK ==> r.sum == total[id].0 && r.num == total[id].1
    {
      if cells.end <= THREADS - BLOCK {
        cells.NeverFull(id);
      }
      var n := cells.Range(id);
      r := ZERO;
      ghost var c := cells.Cells(id);
      for t := 0 to n
        invariant AddUp(c[..t], r.sum, r.num)
      {
        SweepStep(c, t, r);
        var cell := cells.Read(id, t);
        r := Plus(r, cell);
      }
      if !cells.Full(id) {
        TotalZeroTail(c, n, r.sum, r.num);
      }
    }

    method Delete(id: nat)
      requires Valid() && id in total
      modifies this, cells, ids
      ensures Valid() && total == old(total) - {id}
    {
      cells.ClearAll(id);
      ids.Delete(id);
      total := total - {id};
    }
  }

  // ---------------------------------------------------------------- maxer

  /** SIZE_MAX: the version of a slot never used. */
  const UNUSED: nat := 0xFFFF_FFFF_FFFF_FFFF
  /** The smallest ssize_t. */
  const LEAST: int := -0x8000_0000_0000_0000

  datatype Slot = Slot(version: nat, value: int)

  /** A plain maximum counter: nothing recorded yet, or the largest value. */
  datatype Peak = Nothing | Largest(value: int) {
    function With(v: int): (r: Peak)
      ensures r.Largest? && v <= r.value && (Largest? ==> value <= r.value)
      ensures r.value == v || (Largest? && r.value == value)
    {
      if Nothing? || v > value then Largest(v) else this
    }
  }

  ghost predicate HeldBySome(c: seq<Slot>, version: nat, v: int) {
    exists t :: 0 <= t < |c| && c[t].version == version && c[t].value == v
  }

  /** The slots of period `version` together hold `peak`. */
  ghost predicate Records(c: seq<Slot>, version: nat, peak: Peak) {
    && (forall t :: 0 <= t < |c| ==> c[t].version == UNUSED || c[t].version <= version)
    && (forall t :: 0 <= t < |c| && c[t].version == version ==> peak.Largest? && c[t].value <= peak.value)
    && (peak.Largest? ==> HeldBySome(c, version, peak.value))
  }

  function Record(slot: Slot, version: nat, v: int): Slot {
    if slot.version != version then Slot(version, v)
    else if v > slot.value then Slot(version, v)
    else slot
  }

  lemma RecordKeeps(c: seq<Slot>, version: nat, peak: Peak, t: nat, v: int)
    requires Records(c, version, peak) && t < |c| && version < UNUSED
    ensures Records(c[t := Record(c[t], version, v)], version, peak.With(v))
  {
    var c' := c[t := Record(c[t], version, v)];
    if peak.With(v) == peak {
      var k :| 0 <= k < |c| && c[k].version == version && c[k].value == peak.value;
      assert c'[k].version == version && c'[k].value == peak.value;
    } else {
      assert c'[t].version == version && c'[t].value == v;
    }
  }

  /** What a sweep over the first `n` slots finds is the peak. */
  lemma PeakOfSlots(c: seq<Slot>, version: nat, peak: Peak, n: nat, found: bool, max: int)
    requires Records(c, version, peak) && n <= |c| && version < UNUSED
    requires forall u :: 0 <= u < n && c[u].version == version ==> c[u].value <= max
    requires forall u :: n <= u < |c| ==> c[u].version == UNUSED
    requires if found then max > LEAST && HeldBySome(c, version, max) else max == LEAST
    ensures found <==> peak.Largest? && peak.value > LEAST
    ensures found ==> max == peak.value
  {
    if peak.Largest? {
      var t :| 0 <= t < |c| && c[t].version == version && c[t].value == peak.value;
      assert t < n;
    }
  }

  /** The largest value above LEAST among the slots of a period. */
  method SweepSlots(cells: ThreadCells<Slot>, id: nat, n: nat, version: nat) returns (found: bool, max: int)
    requires cells.Valid() && n <= THREADS
    ensures forall u :: 0 <= u < n && cells.Cells(id)[u].version == version ==> cells.Cells(id)[u].value <= max
    ensures if found then max > LEAST && HeldBySome(cells.Cells(id), version, max) else max == LEAST
    ensures n == 0 ==> !found
  {
    ghost var c := cells.Cells(id);
    found, max := false, LEAST;
    for t := 0 to n
      invariant if found then max > LEAST && HeldBySome(c, version, max) else max == LEAST
      invariant forall u :: 0 <= u < t && c[u].version == version ==> c[u].value <= max
      invariant t == 0 ==> !found
    {
      var slot := cells.Read(id, t);
      assert slot == c[t];
      if slot.version == version && slot.value > max {
        found, max := true, slot.value;
      }
    }
  }

  class Maxers {
    const cells: ThreadCells<Slot>
    const ids: Instances
    var versions: map<nat, nat>
    ghost var peak: map<nat, Peak>      // of the values recorded since the last reset

    ghost predicate Valid()
      reads this, cells, ids
    {
      && cells.Valid() && ids.Valid() && cells.blank == Slot(UNUSED, 0)
      && peak.Keys == ids.live && versions.Keys == ids.live
      && (forall id: nat :: id in peak ==> versions[id] < UNUSED)
      && (forall id: nat :: id in peak && !cells.Full(id) ==> Records(cells.Cells(id), versions[id], peak[id]))
      && (forall id: nat :: id !in peak && !cells.Full(id) ==> AllBlank(cells.Cells(id), cells.blank))
    }

    constructor (perLine: nat)
      requires perLine > 1
      ensures Valid() && peak == map[] && fresh(cells) && fresh(ids)
    {
      versions, peak := map[], map[];
      cells := new ThreadCells(perLine, Slot(UNUSED, 0));
      ids := new Instances();
    }

    method New() returns (id: nat)
      requires Valid()
      modifies this, ids
      ensures Valid() && id !in old(peak) && peak == old(peak)[id := Nothing]
    {
      id := ids.New();
      versions := versions[id := 0];
      peak := peak[id := Nothing];
    }

    /** operator<< on thread `t`. */
    method Put(id: nat, t: nat, v: int)
      requires Valid() && id in peak && t < MAX_THREADS
      modifies this`peak, cells
      ensures Valid() && peak == old(peak)[id := old(peak)[id].With(v)]
    {
      var local := cells.Read(id, t);
      if !cells.Full(id) {
        RecordKeeps(cells.Cells(id), versions[id], peak[id], t, v);
      }
      cells.Update(id, t, Record(local, versions[id], v));
      peak := peak[id := peak[id].With(v)];
    }

    /** value: the maximum since the last reset, if anything above the least value was
      recorded. */
    method Value(id: nat) returns (found: bool, max: int)
      requires Valid() && id in peak
      ensures found <==> !cells.Full(id) && peak[id].Largest? && peak[id].value > LEAST
      ensures cells.end <= THREADS - BLOCK ==> (found <==> peak[id].Largest? && peak[id].value > LEAST)
      ensures found ==> max == peak[id].value
    {
      if cells.end <= THREADS - BLOCK {
        cells.NeverFull(id);
      }
      var n := cells.Range(id);
      found, max := SweepSlots(cells, id, n, versions[id]);
      if !cells.Full(id) {
        PeakOfSlots(cells.Cells(id), versions[id], peak[id], n, found, max);
      }
    }

    /** reset starts a new period; versions do not reach the mark of an unused slot. */
    method Reset(id: nat)
      requires Valid() && id in peak && versions[id] + 1 < UNUSED
      modifies this
      ensures Valid() && peak == old(peak)[id := Nothing]
    {
      versions := versions[id := versions[id] + 1];
      peak := peak[id := Nothing];
    }

    method Delete(id: nat)
      requires Valid() && id in peak
      modifies this, cells, ids
      ensures Valid() && peak == old(peak) - {id}
    {
      cells.ClearAll(id);
      ids.Delete(id);
      versions := versions - {id};
      peak := peak - {id};
    }
  }
}
