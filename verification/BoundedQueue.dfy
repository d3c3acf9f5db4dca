/** `ConcurrentBoundedQueue` used by one thread at a time. */
module BoundedQueue {
  import opened Sequences
  import opened Tickets

  /** Pushes below `tail` and pops below `head` are published: each slot shows the turn
    of the one ticket in [head, head + cap) that maps to it. */
  ghost predicate Frontier(cap: nat, turns: seq<nat>, head: nat, tail: nat) {
    && |turns| == cap > 0 && head <= tail <= head + cap
    && forall t: nat {:trigger Slot(cap, t)} :: head <= t < head + cap ==>
         turns[Slot(cap, t)] == Turn(cap, if t < tail then Pop else Push, t)
  }

  /** Publishing the push with the next ticket. */
  lemma PushPublished(cap: nat, turns: seq<nat>, head: nat, tail: nat)
    requires Frontier(cap, turns, head, tail) && tail < head + cap
    ensures turns[Slot(cap, tail)] == Turn(cap, Push, tail)
    ensures Frontier(cap, turns[Slot(cap, tail) := turns[Slot(cap, tail)] + 1], head, tail + 1)
  {
    var turns' := turns[Slot(cap, tail) := turns[Slot(cap, tail)] + 1];
    forall t: nat | head <= t < head + cap
      ensures turns'[Slot(cap, t)] == Turn(cap, if t < tail + 1 then Pop else Push, t)
    {
      if t < tail {
        SlotsApart(cap, t, tail);
      } else if t > tail {
        SlotsApart(cap, tail, t);
      }
    }
  }

  /** Publishing the pop with the next ticket. */
  lemma PopPublished(cap: nat, turns: seq<nat>, head: nat, tail: nat)
    requires Frontier(cap, turns, head, tail) && head < tail
    ensures turns[Slot(cap, head)] == Turn(cap, Pop, head)
    ensures Frontier(cap, turns[Slot(cap, head) := turns[Slot(cap, head)] + 1], head + 1, tail)
  {
    var turns' := turns[Slot(cap, head) := turns[Slot(cap, head)] + 1];
    NextRound(cap, head);
    forall t: nat | head + 1 <= t < head + 1 + cap
      ensures turns'[Slot(cap, t)] == Turn(cap, if t < tail then Pop else Push, t)
    {
      if t < head + cap {
        SlotsApart(cap, head, t);
      } else {
        assert t == head + cap;
      }
    }
  }

  predicate SameVersion(turn: nat, expected: nat) {
    turn % VERSIONS == expected % VERSIONS
  }

  /** The 16-bit test tells a push ticket exactly whether its slot is free. */
  lemma PushTest(cap: nat, turns: seq<nat>, head: nat, tail: nat, t: nat)
    requires Frontier(cap, turns, head, tail) && tail <= t < tail + cap
    ensures SameVersion(turns[Slot(cap, t)], Turn(cap, Push, t)) <==> t < head + cap
  {
    if t >= head + cap {
      NextRound(cap, t - cap);
      assert turns[Slot(cap, t - cap)] == Turn(cap, Pop, t - cap);
    }
  }

  /** The 16-bit test tells a pop ticket exactly whether its slot is filled. */
  lemma PopTest(cap: nat, turns: seq<nat>, head: nat, tail: nat, t: nat)
    requires Frontier(cap, turns, head, tail) && head <= t < head + cap
    ensures SameVersion(turns[Slot(cap, t)], Turn(cap, Pop, t)) <==> t < tail
  {
    NextRound(cap, t);
    assert turns[Slot(cap, t)] == Turn(cap, if t < tail then Pop else Push, t);
  }

  // ------------------------------------------------------------- contents

  /** Values waiting in the queue, oldest first. */
  function Contents(cap: nat, values: seq<int>, head: nat, tail: nat): (r: seq<int>)
    requires |values| == cap > 0 && head <= tail
    ensures |r| == tail - head
  {
    seq(tail - head, i requires 0 <= i < tail - head => values[Slot(cap, head + i)])
  }

  /** Values for tickets [tail, tail + |items|) go to the slots of one round. */
  ghost predicate Written(cap: nat, before: seq<int>, after: seq<int>, lo: nat, items: seq<int>) {
    && |before| == |after| == cap > 0
    && (forall t: nat {:trigger Slot(cap, t)} :: lo <= t < lo + |items| ==> after[Slot(cap, t)] == items[t - lo])
    && (forall t: nat {:trigger Slot(cap, t)} :: lo + |items| <= t < lo + cap ==>
          after[Slot(cap, t)] == before[Slot(cap, t)])
  }

  lemma WrittenContents(cap: nat, before: seq<int>, after: seq<int>, head: nat, tail: nat, items: seq<int>)
    requires Written(cap, before, after, tail, items) && head <= tail && tail + |items| <= head + cap
    ensures Contents(cap, after, head, tail + |items|) == Contents(cap, before, head, tail) + items
  {
    var c := Contents(cap, after, head, tail + |items|);
    forall i | 0 <= i < |c|
      ensures c[i] == (Contents(cap, before, head, tail) + items)[i]
    {
      var t := head + i;
      if t < tail {
        NextRound(cap, t);
        assert Slot(cap, t + cap) == Slot(cap, t);
      }
    }
  }

  lemma DropContents(cap: nat, values: seq<int>, head: nat, tail: nat, n: nat)
    requires |values| == cap > 0 && head + n <= tail
    ensures Contents(cap, values, head, tail)[n..] == Contents(cap, values, head + n, tail)
  {
  }

  /** Batches [index, index + num) of at most one round, cut at the round end. */
  function FirstRun(cap: nat, index: nat, num: nat): (n: nat)
    requires cap > 0
    ensures n <= num && index + n <= RoundEnd(cap, index)
    ensures num <= cap ==> index + num <= RoundEnd(cap, index + n) && (n < num ==> index + n == RoundEnd(cap, index))
  {
    RoundEndAhead(cap, index);
    if index + num <= RoundEnd(cap, index) then
      RoundEndAhead(cap, index + num);
      num
    else RoundEnd(cap, index) - index
  }

  /** Where the second run of a batch of any size, which starts at slot 0, leaves the slot
    array. */
  lemma SecondRunFits(cap: nat, index: nat, num: nat)
    requires 0 < cap && index + num > RoundEnd(cap, index)
    ensures Slot(cap, RoundEnd(cap, index)) == 0
    ensures index + num - RoundEnd(cap, index) <= cap <==> Slot(cap, index) + num <= 2 * cap
  {
    DivMod(cap, index);
    var e := index / cap + 1;
    assert e * cap == (index / cap) * cap + cap;
    DivModUnique(cap, e * cap, e, 0);
  }

  class Queue {
    const cap: nat
    const values: array<int>
    const versions: array<nat>
    var nextPush: nat
    var nextPop: nat
    ghost var turns: seq<nat>
    ghost var head: nat      // pops below are published
    ghost var tail: nat      // pushes below are published

    ghost predicate Valid()
      reads this, values, versions
    {
      && cap > 0 && values.Length == cap && versions.Length == cap && (versions as object) != values
      && Frontier(cap, turns, head, tail) && head <= nextPop && tail <= nextPush
      && forall x :: 0 <= x < cap ==> versions[x] == turns[x] % VERSIONS
    }

    /** No operation is under way. */
    ghost predicate AtRest()
      reads this, values, versions
    {
      Valid() && nextPush == tail && nextPop == head
    }

    ghost function Items(): (r: seq<int>)
      reads this, values, versions
      requires Valid()
      ensures |r| == tail - head
    {
      Contents(cap, values[..], head, tail)
    }

    constructor (capacity: nat)
      requires capacity > 0
      ensures AtRest() && cap == capacity && Items() == [] && fresh(values) && fresh(versions)
    {
      cap := capacity;
      values := new int[capacity](_ => 0);
      versions := new nat[capacity](_ => 0);
      nextPush, nextPop, head, tail := 0, 0, 0, 0;
      turns := seq(capacity, _ => 0);
      new;
      forall t: nat | 0 <= t < cap
        ensures turns[Slot(cap, t)] == Turn(cap, Push, t)
      {
        DivModUnique(cap, t, 0, t);
      }
    }

    // ------------------------------------------------------ parts of a run

    /** The callback of a push run. */
    method WriteRun(index: nat, items: seq<int>)
      requires Valid() && index + |items| <= RoundEnd(cap, index)
      modifies values
      ensures Valid() && Written(cap, old(values[..]), values[..], index, items)
    {
      var slot := index % cap;
      SlotsOfRun(cap, index, |items|);
      for i := 0 to |items|
        invariant forall j :: 0 <= j < i ==> values[slot + j] == items[j]
        invariant forall x :: 0 <= x < cap && !(slot <= x < slot + i) ==> values[x] == old(values[x])
      {
        values[slot + i] := items[i];
      }
      RunWritten(cap, old(values[..]), values[..], index, items);
    }

    method ReadRun(index: nat, num: nat) returns (items: seq<int>)
      requires Valid() && index + num <= RoundEnd(cap, index)
      ensures |items| == num && forall i :: 0 <= i < num ==> items[i] == values[Slot(cap, index + i)]
    {
      var slot := index % cap;
      SlotsOfRun(cap, index, num);
      items := [];
      for i := 0 to num
        invariant |items| == i && forall j :: 0 <= j < i ==> items[j] == values[Slot(cap, index + j)]
      {
        SameRound(cap, index, index + i);
        items := items + [values[slot + i]];
      }
    }

    /** set_version for the next push ticket. */
    method PublishPush(slot: nat, expected: nat)
      requires Valid() && tail < head + cap && tail < nextPush
      requires slot == Slot(cap, tail) && expected == Turn(cap, Push, tail) % VERSIONS
      modifies this`turns, this`tail, versions
      ensures Valid() && tail == old(tail) + 1
    {
      PushPublished(cap, turns, head, tail);
      NextVersion(turns[slot]);
      turns := turns[slot := turns[slot] + 1];
      versions[slot] := (expected + 1) % VERSIONS;
      tail := tail + 1;
    }

    /** set_version for the next pop ticket. */
    method PublishPop(slot: nat, expected: nat)
      requires Valid() && head < tail && head < nextPop
      requires slot == Slot(cap, head) && expected == Turn(cap, Pop, head) % VERSIONS
      modifies this`turns, this`head, versions
      ensures Valid() && head == old(head) + 1
    {
      PopPublished(cap, turns, head, tail);
      NextVersion(turns[slot]);
      turns := turns[slot := turns[slot] + 1];
      versions[slot] := (expected + 1) % VERSIONS;
      head := head + 1;
    }

    /** set_version over a push run. */
    method PublishPushes(index: nat, num: nat)
      requires Valid() && index == tail && index + num <= RoundEnd(cap, index)
      requires index + num <= head + cap && index + num <= nextPush
      modifies this`turns, this`tail, versions
      ensures Valid() && tail == index + num
    {
      var slot, expected := index % cap, Turn(cap, Push, index) % VERSIONS;
      SlotsOfRun(cap, index, num);
      for i := 0 to num
        invariant Valid() && tail == index + i
      {
        SameRound(cap, index, index + i);
        PublishPush(slot + i, expected);
      }
    }

    /** set_version over a pop run. */
    method PublishPops(index: nat, num: nat)
      requires Valid() && index == head && index + num <= RoundEnd(cap, index)
      requires index + num <= tail && index + num <= nextPop
      modifies this`turns, this`head, versions
      ensures Valid() && head == index + num
    {
      var slot, expected := index % cap, Turn(cap, Pop, index) % VERSIONS;
      SlotsOfRun(cap, index, num);
      for i := 0 to num
        invariant Valid() && head == index + i
      {
        SameRound(cap, index, index + i);
        PublishPop(slot + i, expected);
      }
    }

    /** How many slots of a push run are free, as the versions tell. */
    method FreeSlots(index: nat, num: nat) returns (n: nat)
      requires Valid() && index == tail && index + num <= RoundEnd(cap, index)
      ensures n == Min(num, head + cap - tail)
    {
      var slot, expected := index % cap, Turn(cap, Push, index) % VERSIONS;
      SlotsOfRun(cap, index, num);
      n := 0;
      while n < num
        invariant n <= num && n <= head + cap - tail
      {
        SameRound(cap, index, index + n);
        PushTest(cap, turns, head, tail, index + n);
        if versions[slot + n] != expected {
          return;
        }
        n := n + 1;
      }
    }

    /** How many slots of a pop run are filled, as the versions tell. */
    method FilledSlots(index: nat, num: nat) returns (n: nat)
      requires Valid() && index == head && index + num <= RoundEnd(cap, index)
      ensures n == Min(num, tail - head)
    {
      var slot, expected := index % cap, Turn(cap, Pop, index) % VERSIONS;
      SlotsOfRun(cap, index, num);
      n := 0;
      while n < num
        invariant n <= num && n <= tail - head
      {
        SameRound(cap, index, index + n);
        PopTest(cap, turns, head, tail, index + n);
        if versions[slot + n] != expected {
          return;
        }
        n := n + 1;
      }
    }

    // ----------------------------------------------------------- operations

    /** deal_n_continuously for a push whose slots are all free. */
    method PushRun(index: nat, items: seq<int>)
      requires Valid() && index == tail && index + |items| <= RoundEnd(cap, index)
      requires index + |items| <= head + cap && index + |items| <= nextPush
      modifies this`turns, this`tail, values, versions
      ensures Valid() && tail == index + |items| && Items() == old(Items()) + items
    {
      WriteRun(index, items);
      WrittenContents(cap, old(values[..]), values[..], head, tail, items);
      PublishPushes(index, |items|);
    }

    /** deal_n_continuously for a pop whose slots are all filled. */
    method PopRun(index: nat, num: nat) returns (items: seq<int>)
      requires Valid() && index == head && index + num <= RoundEnd(cap, index)
      requires index + num <= tail && index + num <= nextPop
      modifies this`turns, this`head, versions
      ensures Valid() && head == index + num && |items| == num
      ensures old(Items()) == items + Items()
    {
      items := ReadRun(index, num);
      DropContents(cap, values[..], head, tail, num);
      assert items == Items()[..num];
      PublishPops(index, num);
    }

    /** push_n: as many single pushes in order.  The source waits while the queue is
      full, which without other threads would be forever. */
    method PushN(items: seq<int>)
      requires AtRest() && |Items()| + |items| <= cap
      modifies this, values, versions
      ensures AtRest() && Items() == old(Items()) + items && head == old(head)
    {
      var index := nextPush;
      nextPush := index + |items|;
      var n := FirstRun(cap, index, |items|);
      PushRun(index, items[..n]);
      if n < |items| {
        PushRun(index + n, items[n..]);
      }
      assert items == items[..n] + items[n..];
    }

    /** pop_n: the oldest `num` values in order. */
    method PopN(num: nat) returns (items: seq<int>)
      requires AtRest() && num <= |Items()|
      modifies this, versions
      ensures AtRest() && |items| == num && old(Items()) == items + Items() && tail == old(tail)
    {
      var index := nextPop;
      nextPop := index + num;
      var n := FirstRun(cap, index, num);
      items := PopRun(index, n);
      if n < num {
        ghost var left := Items();
        var more := PopRun(index + n, num - n);
        TakenTwice(old(Items()), items, left, more, Items());
        items := items + more;
      }
    }

    /** try_deal_n_continuously for a push: as many values as there are free slots. */
    method TryPushRun(index: nat, items: seq<int>) returns (n: nat)
      requires Valid() && index == tail == nextPush && index + |items| <= RoundEnd(cap, index)
      modifies this`turns, this`tail, this`nextPush, values, versions
      ensures Valid() && tail == nextPush == index + n && n == Min(|items|, old(head) + cap - index)
      ensures Items() == old(Items()) + items[..n]
    {
      n := FreeSlots(index, |items|);
      nextPush := index + n;
      PushRun(index, items[..n]);
    }

    method TryPopRun(index: nat, num: nat) returns (items: seq<int>)
      requires Valid() && index == head == nextPop && index + num <= RoundEnd(cap, index)
      modifies this`turns, this`head, this`nextPop, versions
      ensures Valid() && head == nextPop == index + |items| && |items| == Min(num, tail - index)
      ensures old(Items()) == items + Items()
    {
      var n := FilledSlots(index, num);
      nextPop := index + n;
      items := PopRun(index, n);
    }

    /** try_push_n: the longest prefix that fits. */
    method TryPushN(items: seq<int>) returns (n: nat)
      requires AtRest() && |items| <= cap
      modifies this, values, versions
      ensures AtRest() && n == Min(|items|, cap - |old(Items())|) && Items() == old(Items()) + items[..n]
      ensures head == old(head)
    {
      var index := nextPush;
      var first := FirstRun(cap, index, |items|);
      n := TryPushRun(index, items[..first]);
      assert items[..first][..n] == items[..n];
      if first < |items| && n == first {
        ghost var mid := Items();
        var more := TryPushRun(index + n, items[first..]);
        AddedTwice(old(Items()), items, first, more, mid, Items());
        n := n + more;
      }
    }

    /** try_pop_n: the oldest values, as many as there are up to `num`. */
    method TryPopN(num: nat) returns (items: seq<int>)
      requires AtRest() && num <= cap
      modifies this, versions
      ensures AtRest() && |items| == Min(num, |old(Items())|) && old(Items()) == items + Items()
      ensures tail == old(tail)
    {
      var index := nextPop;
      var first := FirstRun(cap, index, num);
      items := TryPopRun(index, first);
      if first < num && |items| == first {
        ghost var left := Items();
        var more := TryPopRun(index + first, num - first);
        TakenTwice(old(Items()), items, left, more, Items());
        items := items + more;
      }
    }
  }

  /** Two additions in a row are one. */
  lemma AddedTwice(c: seq<int>, items: seq<int>, first: nat, more: nat, mid: seq<int>, all: seq<int>)
    requires first + more <= |items| && mid == c + items[..first] && all == mid + items[first..][..more]
    ensures all == c + items[..first + more]
  {
    assert items[..first + more] == items[..first] + items[first..][..more];
  }

  /** Two removals in a row are one. */
  lemma TakenTwice(c: seq<int>, a: seq<int>, mid: seq<int>, b: seq<int>, rest: seq<int>)
    requires c == a + mid && mid == b + rest
    ensures c == (a + b) + rest
  {
  }

  /** A run inside one round stays inside the slot array. */
  lemma SlotsOfRun(cap: nat, index: nat, num: nat)
    requires cap > 0 && index + num <= RoundEnd(cap, index)
    ensures Slot(cap, index) + num <= cap
  {
  }

  lemma RunWritten(cap: nat, before: seq<int>, after: seq<int>, lo: nat, items: seq<int>)
    requires |before| == |after| == cap > 0 && lo + |items| <= RoundEnd(cap, lo)
    requires Slot(cap, lo) + |items| <= cap
    requires forall j :: 0 <= j < |items| ==> after[Slot(cap, lo) + j] == items[j]
    requires forall x :: 0 <= x < cap && !(Slot(cap, lo) <= x < Slot(cap, lo) + |items|) ==> after[x] == before[x]
    ensures Written(cap, before, after, lo, items)
  {
    forall t: nat | lo <= t < lo + |items|
      ensures after[Slot(cap, t)] == items[t - lo]
    {
      SameRound(cap, lo, t);
    }
    forall t: nat | lo + |items| <= t < lo + cap
      ensures after[Slot(cap, t)] == before[Slot(cap, t)]
    {
      var x := Slot(cap, t);
      if Slot(cap, lo) <= x < Slot(cap, lo) + |items| {
        var u := lo + (x - Slot(cap, lo));
        SameRound(cap, lo, u);
        SlotsApart(cap, u, t);
      }
    }
  }
}
