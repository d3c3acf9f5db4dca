/** Compensated batches of pages: a bounded queue over an upstream page allocator. */
module PageCache {
  import opened Sequences
  import opened Tickets
  import opened BoundedQueue

  /** `got` is what was newly taken from upstream. */
  ghost predicate Fetched(before: set<int>, after: set<int>, got: seq<int>) {
    && Distinct(got) && (forall k :: 0 <= k < |got| ==> got[k] !in before)
    && (forall p :: p in after <==> p in before || p in got)
  }

  /** `gone` is what was given back to upstream. */
  ghost predicate Released(before: set<int>, after: set<int>, gone: seq<int>) {
    && Distinct(gone) && (forall k :: 0 <= k < |gone| ==> gone[k] in before)
    && (forall p :: p in after <==> p in before && p !in gone)
  }

  /** The upstream allocator: pages handed out, and a log of pages returned. */
  class PagePool {
    var out: set<int>
    var freed: seq<int>
    var top: int

    ghost predicate Valid()
      reads this
    {
      forall p :: p in out ==> p < top
    }

    constructor ()
      ensures Valid() && out == {} && freed == []
    {
      out, freed, top := {}, [], 0;
    }

    method Allocate() returns (p: int)
      requires Valid()
      modifies this
      ensures Valid() && p !in old(out) && out == old(out) + {p} && freed == old(freed)
    {
      p := top;
      out, top := out + {p}, top + 1;
    }

    method Free(p: int)
      requires Valid() && p in out
      modifies this
      ensures Valid() && out == old(out) - {p} && freed == old(freed) + [p]
    {
      out, freed := out - {p}, freed + [p];
    }
  }

  lemma FetchMore(before: set<int>, mid: set<int>, got: seq<int>, p: int)
    requires Fetched(before, mid, got) && p !in mid
    ensures Fetched(before, mid + {p}, got + [p])
  {
    var all := got + [p];
    assert all[|got|] == p;
    forall k | 0 <= k < |got|
      ensures all[k] == got[k] && got[k] != p
    {
      assert got[k] in got;
    }
    assert forall x :: x in all <==> x in got || x == p;
  }

  lemma FetchTwice(before: set<int>, mid: set<int>, after: set<int>, a: seq<int>, b: seq<int>)
    requires Fetched(before, mid, a) && Fetched(mid, after, b)
    ensures Fetched(before, after, a + b)
  {
    var all := a + b;
    forall k | 0 <= k < |a|
      ensures all[k] == a[k] && a[k] in mid && a[k] !in before
    {
      assert a[k] in a;
    }
    forall k | |a| <= k < |all|
      ensures all[k] == b[k - |a|] && all[k] !in mid && all[k] !in before
    {
      assert b[k - |a|] !in mid;
    }
    assert forall x :: x in all <==> x in a || x in b;
  }

  /** Two batches in a row are one. */
  lemma ServedTwice(c: seq<int>, g1: seq<int>, i1: seq<int>, mid: seq<int>, g2: seq<int>, i2: seq<int>, rest: seq<int>)
    requires c + g1 == i1 + mid && mid + g2 == i2 + rest
    ensures c + (g1 + g2) == (i1 + i2) + rest
  {
    assert c + (g1 + g2) == (c + g1) + g2 == (i1 + mid) + g2 == i1 + (mid + g2) == i1 + (i2 + rest);
  }

  // ------------------------------------------------------ compensated pops

  /** try_push_n of one page obtained from upstream. */
  method FetchOne(q: Queue, pool: PagePool) returns (ghost page: int)
    requires q.Valid() && pool.Valid() && q.nextPush == q.tail && q.tail < q.head + q.cap
    modifies q`turns, q`tail, q`nextPush, q.values, q.versions, pool
    ensures q.Valid() && pool.Valid() && q.nextPush == q.tail == old(q.tail) + 1
    ensures q.Items() == old(q.Items()) + [page]
    ensures page !in old(pool.out) && pool.out == old(pool.out) + {page} && pool.freed == old(pool.freed)
  {
    var index := q.nextPush;
    RoundEndAhead(q.cap, index);
    var n := q.FreeSlots(index, 1);
    assert n == 1;
    var p := pool.Allocate();
    page := p;
    q.nextPush := index + n;
    q.PushRun(index, [p]);
  }

  /** Wait for one slot of a compensated pop run: while it is not filled, fetch a page. */
  method FetchUntilFilled(q: Queue, pool: PagePool, index: nat, num: nat, t: nat) returns (ghost got: seq<int>)
    requires q.Valid() && pool.Valid() && q.head == index && q.nextPush == q.tail
    requires index <= t < index + num <= RoundEnd(q.cap, index) && t <= q.tail
    modifies q`turns, q`tail, q`nextPush, q.values, q.versions, pool
    ensures q.Valid() && pool.Valid() && q.nextPush == q.tail && pool.freed == old(pool.freed)
    ensures q.Items() == old(q.Items()) + got && Fetched(old(pool.out), pool.out, got)
    ensures |got| == if t < old(q.tail) then 0 else 1
  {
    got := [];
    RoundEndAhead(q.cap, index);
    SlotsOfRun(q.cap, index, num);
    SameRound(q.cap, index, t);
    var slot, expected := index % q.cap + (t - index), Turn(q.cap, Pop, index) % VERSIONS;
    PopTest(q.cap, q.turns, q.head, q.tail, t);
    while q.versions[slot] != expected
      invariant q.Valid() && pool.Valid() && q.nextPush == q.tail && pool.freed == old(pool.freed)
      invariant q.tail == old(q.tail) + |got| && (got == [] || q.tail == t + 1)
      invariant q.Items() == old(q.Items()) + got && Fetched(old(pool.out), pool.out, got)
      invariant q.versions[slot] == expected <==> t < q.tail
      decreases index + num - q.tail
    {
      assert q.nextPush <= index + num;
      ghost var mid := pool.out;
      ghost var page := FetchOne(q, pool);
      FetchMore(old(pool.out), mid, got, page);
      got := got + [page];
      PopTest(q.cap, q.turns, q.head, q.tail, t);
    }
  }

  /** The waiting loop over a compensated pop run. */
  method FetchRun(q: Queue, pool: PagePool, index: nat, num: nat) returns (ghost got: seq<int>, misses: nat)
    requires q.Valid() && pool.Valid() && q.head == index && q.nextPush == q.tail
    requires index + num <= RoundEnd(q.cap, index)
    modifies q`turns, q`tail, q`nextPush, q.values, q.versions, pool
    ensures q.Valid() && pool.Valid() && q.nextPush == q.tail && pool.freed == old(pool.freed)
    ensures q.Items() == old(q.Items()) + got && Fetched(old(pool.out), pool.out, got)
    ensures misses == |got| == (if num <= |old(q.Items())| then 0 else num - |old(q.Items())|)
  {
    got, misses := [], 0;
    for i := 0 to num
      invariant q.Valid() && pool.Valid() && q.nextPush == q.tail && pool.freed == old(pool.freed)
      invariant q.Items() == old(q.Items()) + got && Fetched(old(pool.out), pool.out, got)
      invariant misses == |got| == (if i <= |old(q.Items())| then 0 else i - |old(q.Items())|)
    {
      ghost var mid := pool.out;
      var before := q.nextPush;
      ghost var more := FetchUntilFilled(q, pool, index, num, index + i);
      FetchTwice(old(pool.out), mid, pool.out, got, more);
      got := got + more;
      misses := misses + (q.nextPush - before);
    }
  }

  /** deal_n_continuously for a compensated pop. */
  method PopRunOrFetch(q: Queue, pool: PagePool, index: nat, num: nat)
    returns (items: seq<int>, ghost got: seq<int>, misses: nat)
    requires q.Valid() && pool.Valid() && q.head == index && q.nextPush == q.tail
    requires index + num <= RoundEnd(q.cap, index) && index + num <= q.nextPop
    modifies q`turns, q`tail, q`nextPush, q`head, q.values, q.versions, pool
    ensures q.Valid() && pool.Valid() && q.nextPush == q.tail && q.head == index + num && |items| == num
    ensures old(q.Items()) + got == items + q.Items() && Fetched(old(pool.out), pool.out, got)
    ensures pool.freed == old(pool.freed)
    ensures misses == |got| == (if num <= |old(q.Items())| then 0 else num - |old(q.Items())|)
  {
    got, misses := FetchRun(q, pool, index, num);
    items := q.PopRun(index, num);
  }

  /** pop_n with a reverse callback: the oldest pages, then pages from upstream. */
  method PopOrFetch(q: Queue, pool: PagePool, num: nat) returns (items: seq<int>, ghost got: seq<int>, misses: nat)
    requires q.AtRest() && pool.Valid() && num <= q.cap
    modifies q, q.values, q.versions, pool
    ensures q.AtRest() && pool.Valid() && |items| == num && pool.freed == old(pool.freed)
    ensures old(q.Items()) + got == items + q.Items() && Fetched(old(pool.out), pool.out, got)
    ensures misses == |got| == (if num <= |old(q.Items())| then 0 else num - |old(q.Items())|)
  {
    var index := q.nextPop;
    q.nextPop := index + num;
    var n := FirstRun(q.cap, index, num);
    items, got, misses := PopRunOrFetch(q, pool, index, n);
    if n < num {
      ghost var mid, left := pool.out, q.Items();
      var more, m;
      ghost var also;
      more, also, m := PopRunOrFetch(q, pool, index + n, num - n);
      FetchTwice(old(pool.out), mid, pool.out, got, also);
      ServedTwice(old(q.Items()), got, items, left, also, more, q.Items());
      items, got, misses := items + more, got + also, misses + m;
    }
  }

  // ---------------------------------------------------- compensated pushes

  /** Distinct pages that upstream has handed out. */
  ghost predicate Owned(out: set<int>, s: seq<int>) {
    Distinct(s) && forall k :: 0 <= k < |s| ==> s[k] in out
  }

  /** What remains is still owned after the front was released. */
  lemma OwnedRest(out: set<int>, after: set<int>, gone: seq<int>, rest: seq<int>)
    requires Owned(out, gone + rest) && Released(out, after, gone)
    ensures Owned(after, rest)
  {
    var all := gone + rest;
    forall k | 0 <= k < |rest|
      ensures rest[k] in after
    {
      assert all[|gone| + k] == rest[k];
      forall j | 0 <= j < |gone|
        ensures gone[j] != rest[k]
      {
        assert all[j] != all[|gone| + k];
      }
    }
    forall a, b | 0 <= a < b < |rest|
      ensures rest[a] != rest[b]
    {
      assert all[|gone| + a] != all[|gone| + b];
    }
  }

  lemma OwnedPart(out: set<int>, a: seq<int>, b: seq<int>)
    requires Owned(out, a + b)
    ensures Owned(out, a)
  {
    var all := a + b;
    assert forall k :: 0 <= k < |a| ==> all[k] == a[k];
  }

  lemma ReleaseMore(before: set<int>, mid: set<int>, gone: seq<int>, p: int)
    requires Released(before, mid, gone) && p in mid
    ensures Released(before, mid - {p}, gone + [p])
  {
    var all := gone + [p];
    assert all[|gone|] == p;
    forall k | 0 <= k < |gone|
      ensures all[k] == gone[k] && gone[k] != p
    {
      assert gone[k] in gone;
    }
    assert forall x :: x in all <==> x in gone || x == p;
  }

  lemma EvictStep(before: set<int>, mid: set<int>, gone: seq<int>, page: int, items: seq<int>, rest: seq<int>)
    requires Released(before, mid, gone) && Owned(mid, items) && items == [page] + rest
    ensures Released(before, mid - {page}, gone + [page]) && Owned(mid - {page}, rest)
    ensures gone + items == (gone + [page]) + rest
  {
    assert items[0] == page;
    ReleaseMore(before, mid, gone, page);
    assert Released(mid, mid - {page}, [page]);
    OwnedRest(mid, mid - {page}, [page], rest);
  }

  /** After the first run of a batch, what the queue holds is owned. */
  lemma OwnedBetween(out: set<int>, mid: set<int>, c: seq<int>, first: seq<int>, second: seq<int>,
                     gone: seq<int>, left: seq<int>)
    requires Owned(out, c + (first + second)) && Released(out, mid, gone) && c + first == gone + left
    ensures Owned(mid, left)
  {
    assert c + (first + second) == (c + first) + second;
    OwnedPart(out, c + first, second);
    OwnedRest(out, mid, gone, left);
  }

  lemma ReleaseTwice(before: set<int>, mid: set<int>, after: set<int>, a: seq<int>, b: seq<int>)
    requires Released(before, mid, a) && Released(mid, after, b)
    ensures Released(before, after, a + b)
  {
    var all := a + b;
    forall k | 0 <= k < |a|
      ensures all[k] == a[k] && a[k] in before && a[k] !in mid
    {
      assert a[k] in a;
    }
    forall k | |a| <= k < |all|
      ensures all[k] == b[k - |a|] && all[k] in mid && all[k] in before
    {
      assert b[k - |a|] in mid;
    }
    assert forall x :: x in all <==> x in a || x in b;
  }

  lemma BatchTwice(before: set<int>, mid: set<int>, after: set<int>, c: seq<int>, first: seq<int>, second: seq<int>,
                   gone: seq<int>, left: seq<int>, more: seq<int>, rest: seq<int>)
    requires Released(before, mid, gone) && Released(mid, after, more)
    requires c + first == gone + left && left + second == more + rest
    ensures Released(before, after, gone + more) && c + (first + second) == (gone + more) + rest
  {
    ReleaseTwice(before, mid, after, gone, more);
    ServedTwice(c, first, gone, left, second, more, rest);
  }

  lemma EvictedTwice(before: set<int>, mid: set<int>, after: set<int>, c: seq<int>, gone: seq<int>, items: seq<int>,
                     more: seq<int>, rest: seq<int>)
    requires Released(before, mid, gone) && Released(mid, after, more) && c == gone + items && items == more + rest
    ensures Released(before, after, gone + more) && c == (gone + more) + rest
  {
    ReleaseTwice(before, mid, after, gone, more);
    TakenTwice(c, gone, items, more, rest);
  }

  /** try_pop_n of one page, which goes back to upstream. */
  method EvictOne(q: Queue, pool: PagePool) returns (ghost page: int)
    requires q.Valid() && pool.Valid() && q.nextPop == q.head < q.tail && Owned(pool.out, q.Items())
    modifies q`turns, q`head, q`nextPop, q.versions, pool
    ensures q.Valid() && pool.Valid() && q.nextPop == q.head == old(q.head) + 1
    ensures old(q.Items()) == [page] + q.Items() && page in old(pool.out)
    ensures pool.out == old(pool.out) - {page} && pool.freed == old(pool.freed) + [page]
  {
    var index := q.nextPop;
    RoundEndAhead(q.cap, index);
    var n := q.FilledSlots(index, 1);
    assert n == 1;
    q.nextPop := index + n;
    var items := q.PopRun(index, n);
    page := items[0];
    assert items == [page] && old(q.Items())[0] == page;
    pool.Free(items[0]);
  }

  /** Wait for one slot of a compensated push run: while it is taken, evict a page. */
  method EvictUntilFree(q: Queue, pool: PagePool, index: nat, num: nat, t: nat) returns (ghost gone: seq<int>)
    requires q.Valid() && pool.Valid() && q.tail == index && q.nextPop == q.head && Owned(pool.out, q.Items())
    requires index <= t < index + num <= RoundEnd(q.cap, index) && t <= q.head + q.cap && t < index + q.cap
    modifies q`turns, q`head, q`nextPop, q.versions, pool
    ensures q.Valid() && pool.Valid() && q.nextPop == q.head && pool.freed == old(pool.freed) + gone
    ensures old(q.Items()) == gone + q.Items() && Released(old(pool.out), pool.out, gone)
    ensures |gone| == if t < old(q.head) + q.cap then 0 else 1
  {
    gone := [];
    SlotsOfRun(q.cap, index, num);
    SameRound(q.cap, index, t);
    var slot, expected := index % q.cap + (t - index), Turn(q.cap, Push, index) % VERSIONS;
    PushTest(q.cap, q.turns, q.head, q.tail, t);
    while q.versions[slot] != expected
      invariant q.Valid() && pool.Valid() && q.nextPop == q.head && pool.freed == old(pool.freed) + gone
      invariant q.head == old(q.head) + |gone| && (gone == [] || q.head + q.cap == t + 1)
      invariant old(q.Items()) == gone + q.Items() && Released(old(pool.out), pool.out, gone)
      invariant Owned(pool.out, q.Items())
      invariant q.versions[slot] == expected <==> t < q.head + q.cap
      decreases index - q.head
    {
      assert q.nextPop + q.cap <= index + num;
      ghost var mid, items := pool.out, q.Items();
      ghost var page := EvictOne(q, pool);
      EvictStep(old(pool.out), mid, gone, page, items, q.Items());
      gone := gone + [page];
      PushTest(q.cap, q.turns, q.head, q.tail, t);
    }
  }

  /** The waiting loop over a compensated push run. */
  method EvictRun(q: Queue, pool: PagePool, index: nat, num: nat) returns (ghost gone: seq<int>)
    requires q.Valid() && pool.Valid() && q.tail == index && q.nextPop == q.head && Owned(pool.out, q.Items())
    requires num <= q.cap && index + num <= RoundEnd(q.cap, index)
    modifies q`turns, q`head, q`nextPop, q.versions, pool
    ensures q.Valid() && pool.Valid() && q.nextPop == q.head && pool.freed == old(pool.freed) + gone
    ensures old(q.Items()) == gone + q.Items() && Released(old(pool.out), pool.out, gone)
    ensures |gone| == if |old(q.Items())| + num <= q.cap then 0 else |old(q.Items())| + num - q.cap
  {
    gone := [];
    for i := 0 to num
      invariant q.Valid() && pool.Valid() && q.nextPop == q.head && pool.freed == old(pool.freed) + gone
      invariant old(q.Items()) == gone + q.Items() && Released(old(pool.out), pool.out, gone)
      invariant |gone| == if |old(q.Items())| + i <= q.cap then 0 else |old(q.Items())| + i - q.cap
    {
      ghost var mid, items := pool.out, q.Items();
      OwnedRest(old(pool.out), pool.out, gone, q.Items());
      ghost var more := EvictUntilFree(q, pool, index, num, index + i);
      EvictedTwice(old(pool.out), mid, pool.out, old(q.Items()), gone, items, more, q.Items());
      gone := gone + more;
    }
  }

  /** deal_n_continuously for a compensated push. */
  method PushRunOrEvict(q: Queue, pool: PagePool, index: nat, items: seq<int>) returns (ghost gone: seq<int>)
    requires q.Valid() && pool.Valid() && q.tail == index && q.nextPop == q.head && Owned(pool.out, q.Items())
    requires |items| <= q.cap && index + |items| <= RoundEnd(q.cap, index) && index + |items| <= q.nextPush
    modifies q`turns, q`head, q`tail, q`nextPop, q.values, q.versions, pool
    ensures q.Valid() && pool.Valid() && q.nextPop == q.head && q.tail == index + |items|
    ensures pool.freed == old(pool.freed) + gone && Released(old(pool.out), pool.out, gone)
    ensures old(q.Items()) + items == gone + q.Items() && |gone| <= |old(q.Items())|
    ensures |gone| == if |old(q.Items())| + |items| <= q.cap then 0 else |old(q.Items())| + |items| - q.cap
  {
    gone := EvictRun(q, pool, index, |items|);
    q.PushRun(index, items);
  }

  /** push_n with a reverse callback: room is made by giving the oldest pages back. */
  method PushOrEvict(q: Queue, pool: PagePool, items: seq<int>) returns (ghost gone: seq<int>)
    requires q.AtRest() && pool.Valid() && |items| <= q.cap && Owned(pool.out, q.Items() + items)
    modifies q, q.values, q.versions, pool
    ensures q.AtRest() && pool.Valid()
    ensures pool.freed == old(pool.freed) + gone && Released(old(pool.out), pool.out, gone)
    ensures old(q.Items()) + items == gone + q.Items()
    ensures |gone| == if |old(q.Items())| + |items| <= q.cap then 0 else |old(q.Items())| + |items| - q.cap
  {
    var index := q.nextPush;
    q.nextPush := index + |items|;
    var n := FirstRun(q.cap, index, |items|);
    ghost var first, second := items[..n], items[n..];
    assert items == first + second;
    OwnedPart(pool.out, q.Items(), items);
    gone := PushRunOrEvict(q, pool, index, items[..n]);
    if n < |items| {
      ghost var mid, left := pool.out, q.Items();
      OwnedBetween(old(pool.out), mid, old(q.Items()), first, second, gone, left);
      ghost var more := PushRunOrEvict(q, pool, index + n, items[n..]);
      BatchTwice(old(pool.out), mid, pool.out, old(q.Items()), first, second, gone, left, more, q.Items());
      gone := gone + more;
    }
  }
}
