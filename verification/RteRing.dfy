/** `RteRing` used by one thread at a time: wrapped counters, array storage, and the
  unrolled copies. */
module RteRings {
  import opened Tickets
  import opened Powers
  import opened RingProtocol
  import opened RingTheorems

  /** A position one lap or less past the end of the array. */
  function Wrap(size: nat, x: nat): nat
    requires x < 2 * size
  {
    if x < size then x else x - size
  }

  /** `n` consecutive cells from `start`, continuing at cell 0 after the last. */
  function Slice<T>(s: seq<T>, start: nat, n: nat): (r: seq<T>)
    requires start < |s| && n <= |s|
    ensures |r| == n
  {
    seq(n, i requires 0 <= i < n => s[Wrap(|s|, start + i)])
  }

  /** How far cell `j` lies behind cell `start`, going round. */
  function Behind(size: nat, start: nat, j: nat): (d: nat)
    requires start < size && j < size
    ensures d < size && Wrap(size, start + d) == j
  {
    if start <= j then j - start else j + size - start
  }

  /** `s` with `objs` laid over consecutive cells from `start`. */
  function Overlay<T>(s: seq<T>, start: nat, objs: seq<T>): (r: seq<T>)
    requires start < |s| && |objs| <= |s|
    ensures |r| == |s|
  {
    seq(|s|, j requires 0 <= j < |s| =>
      if Behind(|s|, start, j) < |objs| then objs[Behind(|s|, start, j)] else s[j])
  }

  /** Cell of the `i`-th object of a transfer at `head`. */
  function Target(size: nat, head: nat, i: nat): nat
    requires size > 0
  {
    (head + i) % size
  }

  lemma TargetIsWrap(size: nat, head: nat, i: nat)
    requires 0 < size && i <= size
    ensures head % size + i < 2 * size
    ensures Target(size, head, i) == Wrap(size, head % size + i)
  {
    DivMod(size, head);
    TargetOf(size, head, i, head / size, head % size);
  }

  lemma TargetOf(size: nat, head: nat, i: nat, q: nat, r: nat)
    requires 0 < size && i <= size && r < size && head == q * size + r
    ensures (head + i) % size == Wrap(size, r + i)
  {
    if r + i < size {
      DivModUnique(size, head + i, q, r + i);
    } else {
      assert (q + 1) * size == q * size + size;
      DivModUnique(size, head + i, q + 1, r + i - size);
    }
  }

  /** Object `i` lands in cell `(head + i) mod size` and the other cells keep theirs. */
  lemma OverlayIsModular<T>(s: seq<T>, head: nat, objs: seq<T>, j: nat)
    requires 0 < |s| && |objs| <= |s| && j < |s|
    ensures head % |s| < |s|
    ensures forall i: nat :: i < |objs| && Target(|s|, head, i) == j ==>
              Overlay(s, head % |s|, objs)[j] == objs[i]
    ensures (forall i: nat :: i < |objs| ==> Target(|s|, head, i) != j) ==>
              Overlay(s, head % |s|, objs)[j] == s[j]
  {
    var start := head % |s|;
    forall i: nat | i < |objs| && Target(|s|, head, i) == j
      ensures Overlay(s, start, objs)[j] == objs[i]
    {
      TargetIsWrap(|s|, head, i);
    }
    TargetIsWrap(|s|, head, Behind(|s|, start, j));
  }

  /** Reading back at the same head returns what was written. */
  lemma CopyRoundTrip<T>(s: seq<T>, head: nat, objs: seq<T>)
    requires 0 < |s| && |objs| <= |s|
    ensures head % |s| < |s|
    ensures Slice(Overlay(s, head % |s|, objs), head % |s|, |objs|) == objs
  {
    var start := head % |s|;
    forall i | 0 <= i < |objs|
      ensures Slice(Overlay(s, start, objs), start, |objs|)[i] == objs[i]
    {
      assert Behind(|s|, start, Wrap(|s|, start + i)) == i;
    }
  }

  /** Writing behind `count` stored objects appends to them. */
  lemma AppendStored<T>(s: seq<T>, start: nat, count: nat, objs: seq<T>)
    requires start < |s| && count + |objs| <= |s| && 0 < |objs|
    ensures Slice(Overlay(s, Wrap(|s|, start + count), objs), start, count + |objs|)
            == Slice(s, start, count) + objs
  {
    var p := Wrap(|s|, start + count);
    forall i | 0 <= i < count + |objs|
      ensures Slice(Overlay(s, p, objs), start, count + |objs|)[i] == (Slice(s, start, count) + objs)[i]
    {
      var j := Wrap(|s|, start + i);
      assert Behind(|s|, p, j) == if i < count then i + |s| - count else i - count;
    }
  }

  /** Skipping `n` cells leaves the rest of the stored objects. */
  lemma DropStored<T>(s: seq<T>, start: nat, count: nat, n: nat)
    requires start < |s| && n <= count <= |s|
    ensures Wrap(|s|, start + n) < |s|
    ensures Slice(s, Wrap(|s|, start + n), count - n) == Slice(s, start, count)[n..]
    ensures Slice(s, start, n) == Slice(s, start, count)[..n]
  {
    forall i | 0 <= i < count - n
      ensures Slice(s, Wrap(|s|, start + n), count - n)[i] == Slice(s, start, count)[n..][i]
    {
      assert Wrap(|s|, Wrap(|s|, start + n) + i) == Wrap(|s|, start + (n + i));
    }
  }

  /** The branch of EnqueueValues whose range ends before the array does: four objects
    per turn, then the remaining zero to three. */
  method CopyInUnrolled<T>(ring: array<T>, start: nat, objs: seq<T>)
    requires start + |objs| < ring.Length
    modifies ring
    ensures forall j :: 0 <= j < ring.Length ==>
              ring[j] == if start <= j < start + |objs| then objs[j - start] else old(ring[j])
  {
    var n := |objs|;
    var i, idx := 0, start;
    while i < n - n % 4
      invariant 0 <= i <= n - n % 4 && i % 4 == 0 && idx == start + i
      invariant forall j :: 0 <= j < ring.Length ==>
                  ring[j] == if start <= j < start + i then objs[j - start] else old(ring[j])
    {
      ring[idx] := objs[i];
      ring[idx + 1] := objs[i + 1];
      ring[idx + 2] := objs[i + 2];
      ring[idx + 3] := objs[i + 3];
      i, idx := i + 4, idx + 4;
    }
    var rest := n % 4;
    if rest == 3 {
      ring[idx] := objs[i];
      i, idx := i + 1, idx + 1;
    }
    if rest >= 2 {
      ring[idx] := objs[i];
      i, idx := i + 1, idx + 1;
    }
    if rest >= 1 {
      ring[idx] := objs[i];
      i, idx := i + 1, idx + 1;
    }
  }

  /** The branch that reaches the end of the array and continues at its front. */
  method CopyInWrapped<T>(ring: array<T>, start: nat, objs: seq<T>)
    requires start < ring.Length && ring.Length - start <= |objs| <= ring.Length
    modifies ring
    ensures forall j :: 0 <= j < ring.Length ==>
              ring[j] == if start <= j then objs[j - start]
                         else if j + ring.Length - start < |objs| then objs[j + ring.Length - start]
                         else old(ring[j])
  {
    var size, n := ring.Length, |objs|;
    var i, idx := 0, start;
    while idx < size
      invariant start <= idx <= size && i == idx - start
      invariant forall j :: 0 <= j < size ==>
                  ring[j] == if start <= j < idx then objs[j - start] else old(ring[j])
    {
      ring[idx] := objs[i];
      i, idx := i + 1, idx + 1;
    }
    idx := 0;
    while i < n
      invariant 0 <= idx <= start && i == size - start + idx <= n
      invariant forall j :: 0 <= j < size ==>
                  ring[j] == if start <= j then objs[j - start]
                             else if j < idx then objs[j + size - start] else old(ring[j])
    {
      ring[idx] := objs[i];
      i, idx := i + 1, idx + 1;
    }
  }

  /** EnqueueValues writes object `i` to cell `(head + i) mod size` and nothing else. */
  method EnqueueValues<T>(ring: array<T>, head: nat, objs: seq<T>)
    requires 0 < ring.Length && |objs| <= ring.Length
    modifies ring
    ensures ring[..] == Overlay(old(ring[..]), head % ring.Length, objs)
  {
    var idx := head % ring.Length;
    if idx + |objs| < ring.Length {
      CopyInUnrolled(ring, idx, objs);
    } else {
      CopyInWrapped(ring, idx, objs);
    }
  }

  method CopyOutUnrolled<T>(ring: array<T>, start: nat, table: array<T>, n: nat)
    requires start + n < ring.Length && n <= table.Length && ring != table
    modifies table
    ensures forall j :: 0 <= j < table.Length ==>
              table[j] == if j < n then ring[start + j] else old(table[j])
  {
    var i, idx := 0, start;
    while i < n - n % 4
      invariant 0 <= i <= n - n % 4 && i % 4 == 0 && idx == start + i
      invariant forall j :: 0 <= j < table.Length ==>
                  table[j] == if j < i then ring[start + j] else old(table[j])
    {
      table[i] := ring[idx];
      table[i + 1] := ring[idx + 1];
      table[i + 2] := ring[idx + 2];
      table[i + 3] := ring[idx + 3];
      i, idx := i + 4, idx + 4;
    }
    var rest := n % 4;
    if rest == 3 {
      table[i] := ring[idx];
      i, idx := i + 1, idx + 1;
    }
    if rest >= 2 {
      table[i] := ring[idx];
      i, idx := i + 1, idx + 1;
    }
    if rest >= 1 {
      table[i] := ring[idx];
      i, idx := i + 1, idx + 1;
    }
  }

  method CopyOutWrapped<T>(ring: array<T>, start: nat, table: array<T>, n: nat)
    requires start < ring.Length && ring.Length - start <= n <= ring.Length
    requires n <= table.Length && ring != table
    modifies table
    ensures forall j :: 0 <= j < table.Length ==>
              table[j] == if j < n then ring[Wrap(ring.Length, start + j)] else old(table[j])
  {
    var size := ring.Length;
    var i, idx := 0, start;
    while idx < size
      invariant start <= idx <= size && i == idx - start
      invariant forall j :: 0 <= j < table.Length ==>
                  table[j] == if j < i then ring[start + j] else old(table[j])
    {
      table[i] := ring[idx];
      i, idx := i + 1, idx + 1;
    }
    idx := 0;
    while i < n
      invariant 0 <= idx <= start && i == size - start + idx <= n
      invariant forall j :: 0 <= j < table.Length ==>
                  table[j] == if j < i then ring[Wrap(size, start + j)] else old(table[j])
    {
      table[i] := ring[idx];
      i, idx := i + 1, idx + 1;
    }
  }

  /** DequeueValues: the mirror image, into the front of `table`. */
  method DequeueValues<T>(ring: array<T>, head: nat, table: array<T>, n: nat)
    requires 0 < ring.Length && n <= ring.Length && n <= table.Length && ring != table
    modifies table
    ensures table[..n] == Slice(ring[..], head % ring.Length, n)
    ensures table[n..] == old(table[n..])
  {
    var idx := head % ring.Length;
    if idx + n < ring.Length {
      CopyOutUnrolled(ring, idx, table, n);
    } else {
      CopyOutWrapped(ring, idx, table, n);
    }
    assert forall j :: 0 <= j < n ==> table[..n][j] == ring[..][Wrap(ring.Length, idx + j)];
  }

  /** Moving a wrapped counter by `n` moves its cell by `n`. */
  lemma CounterCell(size: nat, counter: nat, n: nat)
    requires GoodSize(size) && n <= size
    ensures counter % size + n < 2 * size
    ensures ((counter + n) % WORD) % size == Wrap(size, counter % size + n)
  {
    CellExact(size, counter + n, 0);
    TargetIsWrap(size, counter, n);
  }

  /** Differences of wrapped counters. */
  lemma WordDistance(a: nat, n: nat)
    requires a < WORD && n < WORD
    ensures Minus((a + n) % WORD, a) == n
  {
  }

  class RteRing<T(0)> {
    var storage: array<T>
    var prodHead: nat
    var prodTail: nat
    var consHead: nat
    var consTail: nat

    /** Nothing is in progress: heads and tails agree. */
    ghost predicate Valid()
      reads this, storage
    {
      && GoodSize(storage.Length)
      && prodHead == prodTail < WORD && consHead == consTail < WORD
      && Minus(prodTail, consTail) <= storage.Length
    }

    ghost function Contents(): (r: seq<T>)
      requires Valid()
      reads this, storage
    {
      Slice(storage[..], consTail % storage.Length, Minus(prodTail, consTail))
    }

    /** Init for at most 2^31 objects. */
    constructor (num: nat)
      requires num <= WORD / 2
      ensures Valid() && Contents() == [] && storage.Length == BitCeil(num) && fresh(storage)
    {
      var size := BitCeil(num);
      BitCeilLeast(num, WORD / 2) by { assert IsPow2(WORD / 2) by { HalfWordIsPow2(); } }
      Pow2Divides(size, WORD) by { HalfWordIsPow2(); }
      storage := new T[size];
      prodHead, prodTail, consHead, consTail := 0, 0, 0, 0;
    }

    /** MoveProdHead without competitors. */
    method MoveProdHead(n: nat) returns (m: nat, oldHead: nat, newHead: nat, free: nat)
      requires Valid()
      modifies this`prodHead
      ensures free == storage.Length - |old(Contents())|
      ensures m == (if n <= free then n else 0) && oldHead == old(prodHead)
      ensures newHead == (oldHead + m) % WORD && prodHead == newHead && (m == 0 ==> prodHead == old(prodHead))
    {
      oldHead := prodHead;
      newHead := oldHead;
      free := Minus(storage.Length + consTail, oldHead);
      m := if n > free then 0 else n;
      if m == 0 {
        return;
      }
      newHead := (oldHead + m) % WORD;
      prodHead := newHead;
    }

    method MoveConsHead(n: nat) returns (m: nat, oldHead: nat, newHead: nat, entries: nat)
      requires Valid()
      modifies this`consHead
      ensures entries == |old(Contents())|
      ensures m == (if n <= entries then n else 0) && oldHead == old(consHead)
      ensures newHead == (oldHead + m) % WORD && consHead == newHead && (m == 0 ==> consHead == old(consHead))
    {
      oldHead := consHead;
      newHead := oldHead;
      entries := Minus(prodTail, oldHead);
      m := if n > entries then 0 else n;
      if m == 0 {
        return;
      }
      newHead := (oldHead + m) % WORD;
      consHead := newHead;
    }

    /** Copy into a reservation and publish it. */
    method FillReserved(objs: seq<T>, head: nat, next: nat)
      requires GoodSize(storage.Length) && consHead == consTail < WORD && prodTail == head < WORD
      requires Minus(prodTail, consTail) + |objs| <= storage.Length && 0 < |objs|
      requires prodHead == next == (head + |objs|) % WORD
      modifies this`prodTail, storage
      ensures Valid() && prodTail == next
      ensures Appended(old(storage[..]), consTail, head, storage[..], next, objs)
    {
      EnqueueAt(storage[..], consTail, head, next, objs);
      EnqueueValues(storage, head, objs);
      prodTail := next;
    }

    /** DoEnqueue is all or nothing and appends in order. */
    method DoEnqueue(objs: seq<T>) returns (done: nat, freeSpace: nat)
      requires Valid()
      modifies this, storage
      ensures Valid() && storage == old(storage)
      ensures done == if |objs| <= storage.Length - |old(Contents())| then |objs| else 0
      ensures Contents() == old(Contents()) + objs[..done]
      ensures freeSpace == storage.Length - |Contents()|
    {
      var m, head, next, free := MoveProdHead(|objs|);
      done := m;
      freeSpace := free - m;
      if m == 0 {
        assert Contents() == old(Contents()) && objs[..0] == [];
        return;
      }
      FillReserved(objs, head, next);
      assert objs[..done] == objs;
    }

    /** DoDequeue is all or nothing and removes the oldest objects. */
    method DoDequeue(table: array<T>, n: nat) returns (done: nat, available: nat)
      requires Valid() && n <= table.Length && table != storage
      modifies this, table
      ensures Valid() && storage == old(storage)
      ensures done == if n <= |old(Contents())| then n else 0
      ensures table[..done] == old(Contents())[..done] && table[done..] == old(table[done..])
      ensures Contents() == old(Contents())[done..]
      ensures available == |Contents()|
    {
      ghost var count := |Contents()|;
      WordBack(prodTail, consTail);
      var m, head, next, entries := MoveConsHead(n);
      done := m;
      if m != 0 {
        DequeueValues(storage, head, table, m);
        consTail := next;
        DequeueEffect(storage[..], head, count, m);
      }
      available := entries - m;
    }
  }

  lemma HalfWordIsPow2()
    ensures IsPow2(WORD / 2) && IsPow2(WORD)
  {
    Pow2Product(0x100, 0x100);
    Pow2Product(0x100, 0x80);
    Pow2Product(0x1_0000, 0x8000);
    Pow2Product(0x1_0000, 0x1_0000);
  }

  lemma WordBack(a: nat, b: nat)
    requires a < WORD && b < WORD
    ensures (b + Minus(a, b)) % WORD == a
  {
  }

  lemma WordSum(a: nat, b: nat, c: nat)
    ensures ((a + b) % WORD + c) % WORD == (a + (b + c)) % WORD
  {
  }

  /** The stored objects after an enqueue of `objs` behind `count` objects. */
  lemma EnqueueEffect<T>(was: seq<T>, consTail: nat, count: nat, objs: seq<T>)
    requires GoodSize(|was|) && consTail < WORD && count + |objs| <= |was| && 0 < |objs|
    ensures var prodTail := (consTail + count) % WORD;
            var next := (prodTail + |objs|) % WORD;
            && consTail % |was| < |was| && prodTail % |was| < |was|
            && Minus(next, consTail) == count + |objs|
            && Slice(Overlay(was, prodTail % |was|, objs), consTail % |was|, count + |objs|)
               == Slice(was, consTail % |was|, count) + objs
  {
    var start := consTail % |was|;
    assert start < |was|;
    CounterCell(|was|, consTail, count);
    WordSum(consTail, count, |objs|);
    WordDistance(consTail, count + |objs|);
    AppendStored(was, start, count, objs);
  }

  /** What lies between the counters in `after` is what lay there in `before`, and `objs`. */
  ghost predicate Appended<T>(before: seq<T>, consTail: nat, head: nat, after: seq<T>, next: nat, objs: seq<T>) {
    && GoodSize(|before|) && |after| == |before| && Minus(head, consTail) <= |before|
    && Minus(next, consTail) == Minus(head, consTail) + |objs| <= |before|
    && Slice(after, consTail % |before|, Minus(next, consTail))
       == Slice(before, consTail % |before|, Minus(head, consTail)) + objs
  }

  /** The same, from the counters the code holds. */
  lemma EnqueueAt<T>(was: seq<T>, consTail: nat, head: nat, next: nat, objs: seq<T>)
    requires GoodSize(|was|) && consTail < WORD && head < WORD && 0 < |objs|
    requires Minus(head, consTail) + |objs| <= |was| && next == (head + |objs|) % WORD
    ensures head % |was| < |was| && Appended(was, consTail, head, Overlay(was, head % |was|, objs), next, objs)
  {
    WordBack(head, consTail);
    EnqueueEffect(was, consTail, Minus(head, consTail), objs);
  }

  /** The stored objects after a dequeue of `n` of `count` objects. */
  lemma DequeueEffect<T>(s: seq<T>, consTail: nat, count: nat, n: nat)
    requires GoodSize(|s|) && consTail < WORD && n <= count <= |s|
    ensures var prodTail := (consTail + count) % WORD;
            var next := (consTail + n) % WORD;
            && consTail % |s| < |s| && next % |s| < |s|
            && Minus(prodTail, next) == count - n
            && Slice(s, next % |s|, count - n) == Slice(s, consTail % |s|, count)[n..]
            && Slice(s, consTail % |s|, n) == Slice(s, consTail % |s|, count)[..n]
  {
    var start := consTail % |s|;
    assert start < |s|;
    CounterCell(|s|, consTail, n);
    WordSum(consTail, n, count - n);
    WordDistance((consTail + n) % WORD, count - n);
    DropStored(s, start, count, n);
  }
}
