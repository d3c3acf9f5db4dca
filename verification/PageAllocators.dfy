/** `CachedPageAllocator` and `BatchPageAllocator`. */
module PageAllocators {
  import opened Sequences
  import opened BoundedQueue
  import opened PageCache
  import C = ThreadCells

  /** Every page upstream has handed out is cached or with a client, never both. */
  ghost predicate Conserved(out: set<int>, cache: seq<int>, client: set<int>) {
    && Owned(out, cache) && client <= out
    && (forall k :: 0 <= k < |cache| ==> cache[k] !in client)
    && (forall p :: p in out ==> p in client || p in cache)
  }

  function Excess(a: nat, b: nat): nat { if a <= b then 0 else a - b }

  /** Taking `n` cached pages and `got` new ones keeps every page in one place. */
  lemma AllocateConserves(out: set<int>, after: set<int>, cache: seq<int>, client: set<int>, n: nat, got: seq<int>)
    requires Conserved(out, cache, client) && Fetched(out, after, got) && n <= |cache|
    ensures Conserved(after, cache[n..], client + (set p | p in cache[..n] + got))
    ensures Distinct(cache[..n] + got)
  {
    var taken := cache[..n] + got;
    var client' := client + (set p | p in taken);
    forall k | 0 <= k < |cache| - n
      ensures cache[n..][k] !in client' && cache[n..][k] in after
    {
      assert cache[n..][k] == cache[n + k] && cache[n + k] in out;
      assert forall j :: 0 <= j < n ==> cache[j] != cache[n + k];
    }
    forall p | p in after
      ensures p in client' || p in cache[n..]
    {
      if p in cache && p !in cache[..n] {
        var k :| 0 <= k < |cache| && cache[k] == p;
        assert k >= n && cache[n..][k - n] == p;
      } else if p in cache || p in got {
        assert p in taken;
      }
    }
    forall p | p in client'
      ensures p in after
    {
      if p in taken {
        var k :| 0 <= k < |taken| && taken[k] == p;
        assert k < n ==> taken[k] == cache[k];
      }
    }
  }

  /** Pages that clients hold and no one caches can join the cache. */
  lemma OwnedJoin(out: set<int>, cache: seq<int>, client: set<int>, pages: seq<int>)
    requires Conserved(out, cache, client) && Distinct(pages)
    requires forall k :: 0 <= k < |pages| ==> pages[k] in client
    ensures Owned(out, cache + pages)
  {
  }

  /** Giving pages back: the first `k` enter the cache, its oldest make room, and
    whatever left the cache or never entered it is returned. */
  lemma DeallocateConserves(out: set<int>, after: set<int>, cache: seq<int>, cache': seq<int>,
                            client: set<int>, pages: seq<int>, gone: seq<int>, rest: seq<int>)
    requires Conserved(out, cache, client) && Distinct(pages)
    requires forall k :: 0 <= k < |pages| ==> pages[k] in client
    requires cache + pages == gone + cache' + rest && Released(out, after, gone + rest)
    ensures Conserved(after, cache', client - (set p | p in pages))
  {
    var all := cache + pages;
    OwnedJoin(out, cache, client, pages);
    var client' := client - (set p | p in pages);
    assert forall k :: 0 <= k < |cache'| ==> cache'[k] == all[|gone| + k];
    assert forall k :: 0 <= k < |gone| ==> gone[k] == all[k];
    assert forall k :: 0 <= k < |rest| ==> rest[k] == all[|gone| + |cache'| + k];
    forall k | 0 <= k < |cache'|
      ensures cache'[k] in after && cache'[k] !in client'
    {
      assert cache'[k] !in gone && cache'[k] !in rest;
      assert all[|gone| + k] in cache || all[|gone| + k] in pages;
    }
    forall p | p in after
      ensures p in client' || p in cache'
    {
      if p !in client' {
        assert p in all;
        var k :| 0 <= k < |all| && all[k] == p;
        assert p !in gone + rest;
        assert (gone + cache' + rest)[k] == p;
      }
    }
    forall p | p in client'
      ensures p in after
    {
      assert p !in cache && p !in pages;
      assert p !in all;
    }
  }

  /** The first `k` pages of a client can be cached. */
  lemma OwnedFirst(out: set<int>, c: seq<int>, client: set<int>, pages: seq<int>, k: nat)
    requires Conserved(out, c, client) && Distinct(pages) && k <= |pages|
    requires forall j :: 0 <= j < |pages| ==> pages[j] in client
    ensures Owned(out, c + pages[..k])
  {
    OwnedJoin(out, c, client, pages);
    assert c + pages == (c + pages[..k]) + pages[k..];
    OwnedPart(out, c + pages[..k], pages[k..]);
  }

  /** After room was made, the pages beyond `k` can still be given back. */
  lemma OwnedBeyond(out: set<int>, mid: set<int>, c: seq<int>, client: set<int>, pages: seq<int>, k: nat,
                    gone: seq<int>, left: seq<int>)
    requires Conserved(out, c, client) && Distinct(pages) && k <= |pages| && Released(out, mid, gone)
    requires forall j :: 0 <= j < |pages| ==> pages[j] in client
    requires c + pages[..k] == gone + left
    ensures Owned(mid, pages[k..])
  {
    OwnedJoin(out, c, client, pages);
    assert c + pages == (c + pages[..k]) + pages[k..] == gone + (left + pages[k..]);
    OwnedRest(out, mid, gone, left + pages[k..]);
    OwnedTail(mid, left, pages[k..]);
  }

  lemma GivenConserves(out: set<int>, mid: set<int>, after: set<int>, c: seq<int>, client: set<int>,
                       pages: seq<int>, k: nat, gone: seq<int>, left: seq<int>)
    requires Conserved(out, c, client) && Distinct(pages) && k <= |pages|
    requires forall j :: 0 <= j < |pages| ==> pages[j] in client
    requires c + pages[..k] == gone + left && Released(out, mid, gone) && Released(mid, after, pages[k..])
    ensures Released(out, after, gone + pages[k..]) && Conserved(after, left, client - (set p | p in pages))
  {
    ReleaseTwice(out, mid, after, gone, pages[k..]);
    assert c + pages == (c + pages[..k]) + pages[k..];
    DeallocateConserves(out, after, c, left, client, pages, gone, pages[k..]);
  }

  class CachedPageAllocator {
    const cache: Queue
    const up: PagePool
    var hitSum: int
    var hitNum: nat
    ghost var client: set<int>

    ghost predicate Valid()
      reads this, cache, cache.values, cache.versions, up
    {
      cache.AtRest() && up.Valid() && Conserved(up.out, cache.Items(), client)
    }

    constructor (capacity: nat, up: PagePool)
      requires capacity > 0 && up.Valid() && up.out == {}
      ensures Valid() && cache.cap == capacity && cache.Items() == [] && this.up == up && client == {}
      ensures hitSum == 0 && hitNum == 0 && fresh(cache) && fresh(cache.values) && fresh(cache.versions)
    {
      this.up, client, hitSum, hitNum := up, {}, 0, 0;
      cache := new Queue(capacity);
    }

    /** allocate: the oldest cached pages first, then new ones. */
    method Allocate(num: nat) returns (pages: seq<int>)
      requires Valid()
      modifies this, cache, cache.values, cache.versions, up
      ensures Valid() && |pages| == num && Distinct(pages) && up.freed == old(up.freed)
      ensures var c := old(cache.Items()); var hits := Min(|c|, Min(num, cache.cap));
        && pages[..hits] == c[..hits] && cache.Items() == c[hits..]
        && Fetched(old(up.out), up.out, pages[hits..])
        && hitSum == old(hitSum) + hits && hitNum == old(hitNum) + num
      ensures client == old(client) + set p | p in pages
    {
      var k := Min(num, cache.cap);
      ghost var c := cache.Items();
      var misses;
      ghost var got;
      pages, got, misses := PopOrFetch(cache, up, k);
      var hit := k - misses;
      ghost var mid := up.out;
      PopSplits(c, got, pages, cache.Items(), hit);
      var more := FetchMany(up, num - k);
      FetchTwice(old(up.out), mid, up.out, got, more);
      assert pages + more == c[..hit] + (got + more);
      pages := pages + more;
      AllocateConserves(old(up.out), up.out, c, client, hit, got + more);
      client := client + set p | p in pages;
      hitSum, hitNum := hitSum + hit, hitNum + num;
    }

    /** deallocate: pages enter the cache, its oldest pages make room, and pages beyond
      the cache capacity go straight back. */
    method Deallocate(pages: seq<int>)
      requires Valid() && Distinct(pages) && forall k :: 0 <= k < |pages| ==> pages[k] in client
      modifies this, cache, cache.values, cache.versions, up
      ensures Valid() && hitSum == old(hitSum) && hitNum == old(hitNum)
      ensures var c := old(cache.Items()); var k := Min(|pages|, cache.cap); var e := Excess(|c| + k, cache.cap);
        && cache.Items() == (c + pages[..k])[e..]
        && up.freed == old(up.freed) + c[..e] + pages[k..]
        && Released(old(up.out), up.out, c[..e] + pages[k..])
      ensures client == old(client) - set p | p in pages
    {
      var k := Min(|pages|, cache.cap);
      ghost var c := cache.Items();
      OwnedFirst(up.out, c, client, pages, k);
      ghost var gone := PushOrEvict(cache, up, pages[..k]);
      ghost var mid, left := up.out, cache.Items();
      PushSplits(c, pages[..k], gone, left, cache.cap);
      OwnedBeyond(old(up.out), mid, c, client, pages, k, gone, left);
      FreeMany(up, pages[k..]);
      GivenConserves(old(up.out), mid, up.out, c, client, pages, k, gone, left);
      client := client - set p | p in pages;
    }

    /** The destructor gives every cached page back. */
    method Destroy()
      requires Valid()
      modifies this, cache, cache.versions, up
      ensures Valid() && cache.Items() == [] && client == old(client) && up.out == client
      ensures up.freed == old(up.freed) + old(cache.Items())
    {
      ghost var c := cache.Items();
      var pages := cache.TryPopN(cache.cap);
      assert pages == c && cache.Items() == [];
      FreeMany(up, pages);
      assert [] + c == c + [] + [];
      assert forall p :: p in up.out <==> p in client;
    }
  }

  method FreeMany(up: PagePool, pages: seq<int>)
    requires up.Valid() && Owned(up.out, pages)
    modifies up
    ensures up.Valid() && up.freed == old(up.freed) + pages && Released(old(up.out), up.out, pages)
  {
    assert pages[..|pages|] == pages;
    for i := 0 to |pages|
      invariant up.Valid() && up.freed == old(up.freed) + pages[..i]
      invariant Released(old(up.out), up.out, pages[..i])
    {
      assert pages[i] !in pages[..i];
      ReleaseMore(old(up.out), up.out, pages[..i], pages[i]);
      up.Free(pages[i]);
      assert pages[..i + 1] == pages[..i] + [pages[i]];
    }
  }

  lemma OwnedTail(out: set<int>, a: seq<int>, b: seq<int>)
    requires Owned(out, a + b)
    ensures Owned(out, b)
  {
    var all := a + b;
    assert forall k :: 0 <= k < |b| ==> all[|a| + k] == b[k];
  }

  /** Making room evicts the oldest. */
  lemma PushSplits(c: seq<int>, items: seq<int>, gone: seq<int>, left: seq<int>, cap: nat)
    requires c + items == gone + left && |gone| == Excess(|c| + |items|, cap) && |items| <= cap
    ensures |gone| <= |c| && gone == c[..|gone|] && left == (c + items)[|gone|..]
  {
    var all := c + items;
    assert gone == all[..|gone|] && left == all[|gone|..];
  }

  /** A batch served from `c` and then from `got` takes the oldest first. */
  lemma PopSplits(c: seq<int>, got: seq<int>, items: seq<int>, rest: seq<int>, hit: nat)
    requires c + got == items + rest && |got| == Excess(|items|, |c|) && hit == |items| - |got|
    ensures hit <= |c| && items == c[..hit] + got && rest == c[hit..]
  {
    var all := c + got;
    assert items == all[..|items|] && rest == all[|items|..];
  }

  // --------------------------------------------------------------- batches

  /** A thread's buffer; pages from `next` on are not handed out yet. */
  datatype Slot = Slot(buffer: seq<int>, next: nat) {
    ghost predicate Valid() { next <= |buffer| }
    function Rest(): seq<int> { if next <= |buffer| then buffer[next..] else [] }
  }

  ghost predicate Avoids(s: seq<int>, client: set<int>) {
    forall k :: 0 <= k < |s| ==> s[k] !in client
  }

  ghost predicate Disjoint(s: seq<int>, t: seq<int>) {
    forall k, l :: 0 <= k < |s| && 0 <= l < |t| ==> s[k] != t[l]
  }

  ghost predicate InSome(slots: seq<Slot>, p: int) {
    exists i :: 0 <= i < |slots| && p in slots[i].Rest()
  }

  ghost predicate SlotOk(out: set<int>, slot: Slot, client: set<int>) {
    slot.Valid() && Owned(out, slot.Rest()) && Avoids(slot.Rest(), client)
  }

  /** No page is in two buffers. */
  ghost predicate Separate(slots: seq<Slot>) {
    forall i, j :: 0 <= i < |slots| && 0 <= j < |slots| && i != j ==> Disjoint(slots[i].Rest(), slots[j].Rest())
  }

  ghost predicate Complete(out: set<int>, slots: seq<Slot>, client: set<int>) {
    client <= out && forall p :: p in out && p !in client ==> InSome(slots, p)
  }

  /** Every page upstream has handed out is with a client or in one thread's buffer. */
  ghost predicate Spread(out: set<int>, slots: seq<Slot>, client: set<int>) {
    && (forall i :: 0 <= i < |slots| ==> SlotOk(out, slots[i], client))
    && Separate(slots) && Complete(out, slots, client)
  }

  /** All of `all` belongs to thread i; `page` leaves it for a client. */
  lemma TakeFront(out: set<int>, client: set<int>, all: seq<int>, page: int, rest: seq<int>)
    requires Owned(out, all) && Avoids(all, client) && all == [page] + rest
    ensures Owned(out, rest) && Avoids(rest, client + {page}) && page in out && page !in client && page !in rest
  {
    assert all[0] == page;
    assert forall k :: 0 <= k < |rest| ==> rest[k] == all[k + 1];
  }

  lemma TakeApart(all: seq<int>, page: int, rest: seq<int>, other: seq<int>)
    requires Disjoint(all, other) && all == [page] + rest
    ensures Disjoint(rest, other) && Avoids(other, {page})
  {
    assert all[0] == page;
    assert forall k :: 0 <= k < |rest| ==> rest[k] == all[k + 1];
  }

  /** A slot whose pages are some of the old ones, or new, stays separate. */
  lemma ReplaceSeparate(slots: seq<Slot>, i: nat, slot: Slot)
    requires Separate(slots) && i < |slots|
    requires forall j :: 0 <= j < |slots| && j != i ==> Disjoint(slot.Rest(), slots[j].Rest())
    ensures Separate(slots[i := slot])
  {
  }

  lemma ReplaceComplete(out: set<int>, after: set<int>, slots: seq<Slot>, client: set<int>, client': set<int>,
                        i: nat, slot: Slot)
    requires Complete(out, slots, client) && i < |slots| && client' <= after
    requires forall p :: p in after && p !in client' ==>
               p in slot.Rest() || (p in out && p !in client && p !in slots[i].Rest())
    ensures Complete(after, slots[i := slot], client')
  {
    var slots' := slots[i := slot];
    forall p | p in after && p !in client'
      ensures InSome(slots', p)
    {
      if p in slot.Rest() {
        assert p in slots'[i].Rest();
      } else {
        assert InSome(slots, p);
        var j :| 0 <= j < |slots| && p in slots[j].Rest();
        assert p in slots'[j].Rest();
      }
    }
  }

  /** A thread takes the first page of its buffer. */
  lemma TakeSpreads(out: set<int>, slots: seq<Slot>, client: set<int>, i: nat, page: int, slot: Slot)
    requires Spread(out, slots, client) && i < |slots| && slot.Valid() && slots[i].Rest() == [page] + slot.Rest()
    ensures Spread(out, slots[i := slot], client + {page}) && page !in client
  {
    assert SlotOk(out, slots[i], client);
    TakeFront(out, client, slots[i].Rest(), page, slot.Rest());
    forall j | 0 <= j < |slots| && j != i
      ensures SlotOk(out, slots[j], client + {page}) && Disjoint(slot.Rest(), slots[j].Rest())
    {
      assert SlotOk(out, slots[j], client) && Disjoint(slots[i].Rest(), slots[j].Rest());
      TakeApart(slots[i].Rest(), page, slot.Rest(), slots[j].Rest());
    }
    ReplaceSeparate(slots, i, slot);
    ReplaceComplete(out, out, slots, client, client + {page}, i, slot);
  }

  lemma NextSpreads(out: set<int>, slots: seq<Slot>, client: set<int>, i: nat, local: Slot, used: Slot)
    requires Spread(out, slots, client) && i < |slots| && local == slots[i]
    requires local.next < |local.buffer| && used == Slot(local.buffer, local.next + 1)
    ensures var page := local.buffer[local.next];
      Spread(out, slots[i := used], client + {page}) && page !in client && local.Rest() == [page] + used.Rest()
  {
    var page := local.buffer[local.next];
    assert local.Rest() == [page] + used.Rest();
    TakeSpreads(out, slots, client, i, page, used);
  }

  /** An empty buffer is refilled from upstream. */
  lemma RefillSpreads(out: set<int>, after: set<int>, slots: seq<Slot>, client: set<int>, i: nat, slot: Slot)
    requires Spread(out, slots, client) && i < |slots| && slots[i].Rest() == []
    requires slot.Valid() && Fetched(out, after, slot.Rest())
    ensures Spread(after, slots[i := slot], client)
  {
    var got := slot.Rest();
    assert forall k :: 0 <= k < |got| ==> got[k] in got;
    forall p | p in out
      ensures p in after
    {
    }
    forall j | 0 <= j < |slots| && j != i
      ensures SlotOk(after, slots[j], client) && Disjoint(got, slots[j].Rest())
    {
      assert SlotOk(out, slots[j], client);
    }
    ReplaceSeparate(slots, i, slot);
    ReplaceComplete(out, after, slots, client, client, i, slot);
  }

  /** What thread `i` has left; a slot not created yet is empty. */
  function RestOf(slots: seq<Slot>, i: nat): seq<int> {
    if i < |slots| then slots[i].Rest() else []
  }

  /** Slots come in blocks, up to the block of the last thread id, and only existing
    threads have pages. */
  ghost predicate Lined(slots: seq<Slot>, end: nat) {
    && |slots| % C.BLOCK == 0 && |slots| <= C.THREADS && |slots| < end + C.BLOCK && end <= C.MAX_THREADS
    && forall j :: end <= j < |slots| ==> slots[j].Rest() == []
  }

  /** Empty slots join. */
  lemma GrowSpreads(out: set<int>, slots: seq<Slot>, more: seq<Slot>, client: set<int>)
    requires Spread(out, slots, client) && forall j :: 0 <= j < |more| ==> more[j].Valid() && more[j].Rest() == []
    ensures Spread(out, slots + more, client)
  {
    var all := slots + more;
    forall i | 0 <= i < |all|
      ensures SlotOk(out, all[i], client)
    {
      assert i < |slots| ==> SlotOk(out, slots[i], client);
      assert i >= |slots| ==> all[i] == more[i - |slots|];
    }
    forall i, j | 0 <= i < |all| && 0 <= j < |all| && i != j
      ensures Disjoint(all[i].Rest(), all[j].Rest())
    {
      assert i < |slots| && j < |slots| ==> Disjoint(slots[i].Rest(), slots[j].Rest());
      assert i >= |slots| ==> all[i] == more[i - |slots|];
      assert j >= |slots| ==> all[j] == more[j - |slots|];
    }
    forall p | p in out && p !in client
      ensures InSome(all, p)
    {
      assert InSome(slots, p);
      var i :| 0 <= i < |slots| && p in slots[i].Rest();
      assert p in all[i].Rest();
    }
  }

  class BatchPageAllocator {
    const batch: nat
    const up: PagePool
    var slots: seq<Slot>       // by thread id
    var end: nat               // ThreadId::end()
    ghost var client: set<int>

    ghost predicate Valid()
      reads this, up
    {
      batch > 0 && up.Valid() && Lined(slots, end) && Spread(up.out, slots, client)
    }

    constructor (batch: nat, up: PagePool)
      requires batch > 0 && up.Valid() && up.out == {}
      ensures Valid() && client == {} && slots == [] && this.up == up && this.batch == batch
    {
      this.batch, this.up, client, slots, end := batch, up, {}, [], 0;
    }

    /** local() of thread `i`: its slot, created with its whole block if need be. */
    method Touch(i: nat)
      requires Valid() && i < C.MAX_THREADS
      modifies this`slots, this`end
      ensures Valid() && i < |slots| && i < end
      ensures |slots| == if i < |old(slots)| then |old(slots)| else C.LinesFor(i)
      ensures forall j: nat :: RestOf(slots, j) == RestOf(old(slots), j)
    {
      if i >= |slots| {
        var more := seq(C.LinesFor(i) - |slots|, _ => Slot(seq(batch, _ => 0), batch));
        GrowSpreads(up.out, slots, more, client);
        slots := slots + more;
      }
      if i >= end {
        end := i + 1;
      }
    }

    method Refill(i: nat)
      requires Valid() && i < |slots| && i < end && slots[i].Rest() == []
      modifies this`slots, up
      ensures Valid() && up.freed == old(up.freed) && |slots| == |old(slots)|
      ensures |slots[i].Rest()| == batch && Fetched(old(up.out), up.out, slots[i].Rest())
      ensures forall j :: 0 <= j < |slots| && j != i ==> slots[j] == old(slots[j])
    {
      var pages := FetchMany(up, batch);
      assert Slot(pages, 0).Rest() == pages;
      RefillSpreads(old(up.out), up.out, slots, client, i, Slot(pages, 0));
      slots := slots[i := Slot(pages, 0)];
    }

    method TakeNext(i: nat) returns (page: int)
      requires Valid() && i < |slots| && i < end && slots[i].Rest() != []
      modifies this`slots, this`client
      ensures Valid() && page !in old(client) && client == old(client) + {page}
      ensures |slots| == |old(slots)| && forall j :: 0 <= j < |slots| && j != i ==> slots[j] == old(slots[j])
      ensures [page] + slots[i].Rest() == old(slots[i].Rest())
    {
      var before := slots;
      var local := before[i];
      page := local.buffer[local.next];
      var used := Slot(local.buffer, local.next + 1);
      NextSpreads(up.out, before, client, i, local, used);
      slots := before[i := used];
      client := client + {page};
    }

    /** allocate on thread `i`: the next page of its buffer, refilled when used up. */
    method Allocate(i: nat) returns (page: int)
      requires Valid() && i < C.MAX_THREADS
      modifies this, up
      ensures Valid() && page !in old(client) && client == old(client) + {page} && up.freed == old(up.freed)
      ensures |slots| == if i < |old(slots)| then |old(slots)| else C.LinesFor(i)
      ensures forall j: nat :: j != i ==> RestOf(slots, j) == RestOf(old(slots), j)
      ensures if RestOf(old(slots), i) == [] then
                |RestOf(slots, i)| == batch - 1 && Fetched(old(up.out), up.out, [page] + RestOf(slots, i))
              else up.out == old(up.out) && [page] + RestOf(slots, i) == RestOf(old(slots), i)
    {
      Touch(i);
      if slots[i].next >= |slots[i].buffer| {
        Refill(i);
      }
      page := TakeNext(i);
    }

    /** allocate of several pages, one by one. */
    method AllocateMany(i: nat, num: nat) returns (pages: seq<int>)
      requires Valid() && i < C.MAX_THREADS
      modifies this, up
      ensures Valid() && |pages| == num && Distinct(pages) && up.freed == old(up.freed)
      ensures forall k :: 0 <= k < num ==> pages[k] !in old(client)
      ensures client == old(client) + set p | p in pages
    {
      pages := [];
      for k := 0 to num
        invariant Valid() && up.freed == old(up.freed)
        invariant |pages| == k && Distinct(pages) && forall j :: 0 <= j < k ==> pages[j] !in old(client)
        invariant client == old(client) + set p | p in pages
      {
        TakenMore(old(client), client, pages);
        var page := Allocate(i);
        pages := pages + [page];
      }
    }

    /** deallocate passes pages on. */
    method Deallocate(pages: seq<int>)
      requires Valid() && Distinct(pages) && forall k :: 0 <= k < |pages| ==> pages[k] in client
      modifies this`client, up
      ensures Valid() && client == old(client) - (set p | p in pages) && up.freed == old(up.freed) + pages
      ensures Released(old(up.out), up.out, pages)
    {
      FreeMany(up, pages);
      GiveSpreads(old(up.out), up.out, slots, client, pages);
      client := client - set p | p in pages;
    }

    /** The destructor sweeps the thread ids below `end` and below the number of slots
      cut to 16 bits.  It gives every buffered page back if and only if no thread of the
      last block has a slot, or nothing was buffered; otherwise it gives back none. */
    method Destroy()
      requires Valid()
      modifies this`slots, up
      ensures Valid() && client == old(client)
      ensures up.out == client <==> |old(slots)| < C.THREADS || forall j: nat :: RestOf(old(slots), j) == []
      ensures |old(slots)| == C.THREADS ==> up.out == old(up.out) && up.freed == old(up.freed)
    {
      ghost var full := |slots| == C.THREADS;
      if full {
        SpareExactly(up.out, slots, client);
      }
      var cut := |slots| % C.THREADS;
      var n := if end <= cut then end else cut;
      for i := 0 to n
        invariant Valid() && |slots| == |old(slots)| && client == old(client)
        invariant forall j :: 0 <= j < i ==> slots[j].Rest() == []
        invariant i == 0 ==> slots == old(slots) && up.out == old(up.out) && up.freed == old(up.freed)
      {
        DrainSlot(i);
      }
      if !full {
        SpareExactly(up.out, slots, client);
      }
    }

    /** The callback of the sweep on one slot. */
    method DrainSlot(i: nat)
      requires Valid() && i < |slots|
      modifies this`slots, up
      ensures Valid() && |slots| == |old(slots)| && slots[i].Rest() == []
      ensures forall j :: 0 <= j < |slots| && j != i ==> slots[j] == old(slots[j])
    {
      var local := slots[i];
      assert SlotOk(up.out, local, client);
      FreeMany(up, if local.next < |local.buffer| then local.buffer[local.next..] else []);
      var empty := Slot(local.buffer, |local.buffer|);
      DropSpreads(old(up.out), up.out, slots, client, i, empty);
      slots := slots[i := empty];
    }
  }

  /** A page that no client holds joins those taken so far. */
  lemma TakenMore(before: set<int>, client: set<int>, pages: seq<int>)
    requires client == before + (set p | p in pages) && Distinct(pages)
    ensures forall page :: page !in client ==>
              page !in before && Distinct(pages + [page]) && client + {page} == before + (set p | p in pages + [page])
  {
    forall page | page !in client
      ensures page !in before && Distinct(pages + [page])
      ensures client + {page} == before + (set p | p in pages + [page])
    {
      assert forall j :: 0 <= j < |pages| ==> pages[j] in pages;
    }
  }

  /** One allocation by thread 65408: the destructor then keeps the rest of the batch. */
  method LateThreadLeaks() returns (page: int, out: set<int>)
    ensures page in out && out != {page}
  {
    var up := new PagePool();
    var pages := new BatchPageAllocator(2, up);
    page := pages.Allocate(C.THREADS - C.BLOCK);
    assert |RestOf(pages.slots, C.THREADS - C.BLOCK)| == 1;
    pages.Destroy();
    out := up.out;
  }

  /** Clients hold everything exactly when nothing is buffered. */
  lemma SpareExactly(out: set<int>, slots: seq<Slot>, client: set<int>)
    requires Spread(out, slots, client)
    ensures out == client <==> forall j: nat :: RestOf(slots, j) == []
  {
    if forall j: nat :: RestOf(slots, j) == [] {
      assert forall i :: 0 <= i < |slots| ==> slots[i].Rest() == RestOf(slots, i);
      NothingSpare(out, slots, client);
    } else {
      var j: nat :| RestOf(slots, j) != [];
      assert SlotOk(out, slots[j], client);
      assert slots[j].Rest()[0] in out && slots[j].Rest()[0] !in client;
    }
  }

  lemma NothingSpare(out: set<int>, slots: seq<Slot>, client: set<int>)
    requires Spread(out, slots, client) && forall i :: 0 <= i < |slots| ==> slots[i].Rest() == []
    ensures out == client
  {
    forall p | p in out
      ensures p in client
    {
      assert !InSome(slots, p);
    }
  }

  method FetchMany(up: PagePool, num: nat) returns (pages: seq<int>)
    requires up.Valid()
    modifies up
    ensures up.Valid() && |pages| == num && up.freed == old(up.freed) && Fetched(old(up.out), up.out, pages)
  {
    pages := [];
    for i := 0 to num
      invariant up.Valid() && |pages| == i && up.freed == old(up.freed)
      invariant Fetched(old(up.out), up.out, pages)
    {
      ghost var mid := up.out;
      var p := up.Allocate();
      FetchMore(old(up.out), mid, pages, p);
      pages := pages + [p];
    }
  }

  lemma StillOwned(out: set<int>, after: set<int>, gone: seq<int>, rest: seq<int>)
    requires Owned(out, rest) && Released(out, after, gone) && Disjoint(gone, rest)
    ensures Owned(after, rest)
  {
  }

  lemma GiveSpreads(out: set<int>, after: set<int>, slots: seq<Slot>, client: set<int>, pages: seq<int>)
    requires Spread(out, slots, client) && Released(out, after, pages)
    requires forall k :: 0 <= k < |pages| ==> pages[k] in client
    ensures Spread(after, slots, client - (set p | p in pages))
  {
    var client' := client - (set p | p in pages);
    forall i | 0 <= i < |slots|
      ensures SlotOk(after, slots[i], client')
    {
      assert SlotOk(out, slots[i], client);
      StillOwned(out, after, pages, slots[i].Rest());
    }
    assert forall p :: p in after <==> p in out && p !in pages;
    assert Complete(after, slots, client');
  }

  lemma DropSpreads(out: set<int>, after: set<int>, slots: seq<Slot>, client: set<int>, i: nat, empty: Slot)
    requires Spread(out, slots, client) && i < |slots| && empty.Valid() && empty.Rest() == []
    requires Released(out, after, slots[i].Rest())
    ensures Spread(after, slots[i := empty], client)
  {
    var gone := slots[i].Rest();
    assert SlotOk(out, slots[i], client);
    forall j | 0 <= j < |slots| && j != i
      ensures SlotOk(after, slots[j], client) && Disjoint(empty.Rest(), slots[j].Rest())
    {
      assert SlotOk(out, slots[j], client) && Disjoint(gone, slots[j].Rest());
      StillOwned(out, after, gone, slots[j].Rest());
    }
    ReplaceSeparate(slots, i, empty);
    forall p | p in client
      ensures p in after
    {
      assert p in out && p !in gone;
    }
    ReplaceComplete(out, after, slots, client, client, i, empty);
  }
}
