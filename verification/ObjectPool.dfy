/** `FlatObjectQueue`: a pool of objects whose free ids circulate through an RteRing. */
module ObjectPool {
  import opened Sequences
  import opened Tickets
  import opened RingProtocol
  import opened RteRings

  datatype Option<+T> = None | Some(value: T)

  /** Free ids (in queue order) and ids held by callers split 0..num. */
  ghost predicate Partition(num: nat, free: seq<int>, held: set<int>) {
    && Distinct(free)
    && (forall a :: 0 <= a < |free| ==> 0 <= free[a] < num && free[a] !in held)
    && (forall x :: x in held ==> 0 <= x < num)
    && (forall x :: 0 <= x < num && x !in held ==> x in free)
  }

  /** While some id is held, fewer than `num` are free. */
  lemma HeldLeavesRoom(num: nat, free: seq<int>, held: set<int>, id: int)
    requires Partition(num, free, held) && id in held
    ensures |free| < num
  {
    Pigeonhole(free + [id], num);
  }

  lemma FullPartition(num: nat, all: seq<int>)
    requires |all| == num && forall a :: 0 <= a < num ==> all[a] == a
    ensures Partition(num, all, {})
  {
    forall x | 0 <= x < num && x !in {}
      ensures x in all
    {
      assert all[x] == x;
    }
  }

  lemma TakePartition(num: nat, free: seq<int>, held: set<int>)
    requires Partition(num, free, held) && |free| > 0
    ensures Partition(num, free[1..], held + {free[0]})
  {
  }

  lemma ReturnPartition(num: nat, free: seq<int>, held: set<int>, id: int)
    requires Partition(num, free, held) && id in held
    ensures Partition(num, free + [id], held - {id})
  {
  }

  method ConstructAll<T>(objects: array<T>, blank: T)
    modifies objects
    ensures forall k :: 0 <= k < objects.Length ==> objects[k] == blank
  {
    var i := 0;
    while i < objects.Length
      invariant 0 <= i <= objects.Length
      invariant forall k :: 0 <= k < i ==> objects[k] == blank
    {
      objects[i] := blank;
      i := i + 1;
    }
  }

  method EnqueueAll(ring: RteRing<int>, num: nat)
    requires ring.Valid() && ring.Contents() == [] && num <= ring.storage.Length
    modifies ring, ring.storage
    ensures ring.Valid() && ring.storage == old(ring.storage)
    ensures ring.Contents() == seq(num, i => i)
  {
    var idx := 0;
    while idx < num
      invariant 0 <= idx <= num && ring.Valid() && ring.storage == old(ring.storage)
      invariant ring.Contents() == seq(idx, i => i)
    {
      var done, space := ring.DoEnqueue([idx]);
      idx := idx + 1;
    }
  }

  class FlatObjectQueue<T(0)> {
    const blank: T                  // a default-constructed object
    const capacity: nat
    const freeIds: RteRing<int>
    const storage: array<T>
    ghost var held: set<int>        // ids handed out and not returned

    ghost predicate Valid()
      reads this, freeIds, freeIds.storage, storage
    {
      && freeIds.Valid() && storage.Length == capacity <= freeIds.storage.Length
      && storage as object != freeIds.storage
      && Partition(capacity, freeIds.Contents(), held)
      && forall k :: 0 <= k < capacity && k !in held ==> storage[k] == blank
    }

    /** Initialize: construct every object, then enqueue every id. */
    constructor (num: nat, blank: T)
      requires num < WORD / 2
      ensures Valid() && held == {} && capacity == num && this.blank == blank
      ensures freeIds.Contents() == seq(num, i => i)
      ensures fresh(freeIds) && fresh(freeIds.storage) && fresh(storage)
    {
      var objects := new T[num];
      ConstructAll(objects, blank);
      var ring := new RteRing<int>(num);
      EnqueueAll(ring, num);
      FullPartition(num, ring.Contents());
      this.blank, capacity, freeIds, storage, held := blank, num, ring, objects, {};
    }

    /** Get hands out the oldest free id; it fails only when every object is out. */
    method Get() returns (r: Option<int>)
      requires Valid()
      modifies this`held, freeIds, freeIds.storage
      ensures Valid() && freeIds.storage == old(freeIds.storage)
      ensures r.None? <==> forall x :: 0 <= x < capacity ==> x in old(held)
      ensures r.None? ==> held == old(held) && freeIds.Contents() == old(freeIds.Contents())
      ensures r.Some? ==> 0 <= r.value < capacity && r.value !in old(held)
                          && held == old(held) + {r.value} && storage[r.value] == blank
      ensures r.Some? ==> old(freeIds.Contents()) == [r.value] + freeIds.Contents()
    {
      var table := new int[1];
      table[0] := -1;
      ghost var free := freeIds.Contents();
      assert |free| > 0 ==> free[0] !in held;
      var done, left := freeIds.DoDequeue(table, 1);
      if done == 0 {
        assert free == [];
        return None;
      }
      TakePartition(capacity, free, held);
      assert free[0] == table[..1][0];
      r := Some(table[0]);
      held := held + {table[0]};
    }

    /** Put destroys and reconstructs the object and returns its id.  It rejects foreign
      objects, and it never fails for lack of ring space. */
    method Put(idx: int) returns (code: int)
      requires Valid()
      requires 0 <= idx < capacity ==> idx in held
      modifies this`held, freeIds, freeIds.storage, storage
      ensures Valid() && freeIds.storage == old(freeIds.storage)
      ensures code == if 0 <= idx < capacity then 0 else -1
      ensures code == 0 ==> held == old(held) - {idx}
                            && freeIds.Contents() == old(freeIds.Contents()) + [idx]
      ensures code != 0 ==> held == old(held) && freeIds.Contents() == old(freeIds.Contents())
      ensures forall k :: 0 <= k < capacity && k != idx ==> storage[k] == old(storage[k])
    {
      if idx < 0 || idx >= capacity {
        return -1;
      }
      ghost var free := freeIds.Contents();
      HeldLeavesRoom(capacity, free, held, idx);
      ReturnPartition(capacity, free, held, idx);
      storage[idx] := blank;
      assert freeIds.Contents() == free;
      var done, space := freeIds.DoEnqueue([idx]);
      if done != 1 {
        return -1;
      }
      held := held - {idx};
      return 0;
    }
  }
}
