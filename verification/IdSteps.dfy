/** Every step of the id allocator keeps its invariant. */
module IdSteps {
  import opened Sequences
  import T = Tickets
  import opened IdProtocol

  /** While nothing has been lapped, equal words mean equal versions. */
  lemma WordExact(s: State, i: nat)
    requires Inv(s) && NotLapped(s) && i < |s.ops| && Pending(s.ops[i])
    requires s.version % (s.max + 1) == s.ops[i].g % (s.max + 1)
    ensures s.version == s.ops[i].g
  {
    assert OpOk(s, i);
    SameResidue(s.ops[i].g, s.version, s.max + 1);
  }

  lemma SameResidue(a: nat, b: nat, m: nat)
    requires m > 0 && a <= b < a + m && a % m == b % m
    ensures a == b
  {
    T.DivMod(m, a);
    T.DivMod(m, b);
    T.MulStep(a / m, b / m, m);
    T.MulStep(b / m, a / m, m);
  }

  /** Steps that touch no id, no cell and not the head. */
  ghost predicate OnlyOps(s: State, s': State) {
    s' == s.(ops := s'.ops)
  }

  lemma QuietStep(s: State, s': State, i: nat)
    requires Inv(s) && OnlyOps(s, s') && i <= |s.ops| && |s.ops| <= |s'.ops|
    requires |s'.ops| <= |s.ops| + 1 && i < |s'.ops| && (|s.ops| < |s'.ops| ==> i == |s.ops|)
    requires forall j :: 0 <= j < |s.ops| && j != i ==> s'.ops[j] == s.ops[j]
    requires OpOk(s', i) && !Issued(s'.ops[i])
    requires i < |s.ops| && HoldsId(s.ops[i]) ==> HoldsId(s'.ops[i]) && s'.ops[i].v == s.ops[i].v
    ensures Inv(s')
  {
    forall j | 0 <= j < |s'.ops|
      ensures OpOk(s', j) && IssueOk(s', s'.ops[j])
    {
      if j != i {
        assert OpOk(s, j) && IssueOk(s, s.ops[j]);
      }
    }
    forall v | 0 <= v < |s'.place|
      ensures HeldBy(s'.place, s'.ops, v)
    {
      assert HeldBy(s.place, s.ops, v);
    }
  }

  lemma HeadLoaded(s: State, s': State, i: nat)
    requires Inv(s) && OnlyOps(s, s') && i < |s'.ops| && s'.ops[i] == OnHead(s)
    ensures OpOk(s', i)
  {
  }

  lemma ReadNextKeeps(s: State, s': State, i: nat)
    requires Inv(s) && ReadNext(s, s', i)
    ensures Inv(s')
  {
    assert OpOk(s, i);
    var v := s.ops[i].v;
    if First(s.max, s.list) == v {
      assert s.list != [] && s.list[0] == v;
      assert s.cells[v] == First(s.max, s.list[1..]);
    }
    QuietStep(s, s', i);
  }

  /** The id at the head of the list is exactly the one the operation saw. */
  lemma PopExact(s: State, i: nat)
    requires Inv(s) && NotLapped(s) && i < |s.ops| && s.ops[i].Read?
    requires SameWord(s, s.ops[i].v, s.ops[i].g)
    ensures s.ops[i].g == s.version && s.list != [] && s.list[0] == s.ops[i].v
    ensures s.ops[i].n == First(s.max, s.list[1..])
  {
    WordExact(s, i);
    assert OpOk(s, i);
  }

  lemma ListTail(max: nat, cells: seq<nat>, list: seq<nat>)
    requires list != [] && Distinct(list) && Linked(max, cells, list)
    ensures Distinct(list[1..]) && Linked(max, cells, list[1..]) && list[0] !in list[1..]
    ensures forall v :: v in list[1..] ==> v in list
    ensures forall v :: v in list && v != list[0] ==> v in list[1..]
  {
  }

  lemma PopOps(s: State, s': State, i: nat)
    requires Inv(s) && NotLapped(s) && Pop(s, s', i)
    ensures forall j :: 0 <= j < |s'.ops| ==> OpOk(s', j) && IssueOk(s', s'.ops[j])
    ensures IssuesDistinct(s'.ops)
  {
    PopExact(s, i);
    ListTail(s.max, s.cells, s.list);
    var v := s.ops[i].v;
    assert s.place[v] == Free;
    forall j | 0 <= j < |s'.ops|
      ensures OpOk(s', j) && IssueOk(s', s'.ops[j])
    {
      assert OpOk(s, j) && IssueOk(s, s.ops[j]);
      if j != i && (s.ops[j].Loaded? || s.ops[j].Read?) && s.ops[j].g == s.version {
        OthersMissHead(s, s.ops[j].v);
      }
    }
    forall j | 0 <= j < |s'.ops| && j != i && Issued(s'.ops[j])
      ensures s'.ops[j].v != v || s'.ops[j].g != s.ops[i].g
    {
      assert IssueOk(s, s.ops[j]);
    }
  }

  /** After a pop, an id seen at the head earlier is not at the head again. */
  lemma OthersMissHead(s: State, v: nat)
    requires Inv(s) && s.list != [] && (First(s.max, s.list) == v || v !in s.list) && v < s.next
    ensures First(s.max, s.list[1..]) != v && v !in s.list[1..]
  {
  }

  lemma PopPlaces(place: seq<Place>, list: seq<nat>, i: nat)
    requires list != [] && Distinct(list) && FreeIsListed(place, list)
    ensures FreeIsListed(place[list[0] := Transit(i)], list[1..])
  {
  }

  lemma PopHeld(s: State, s': State, i: nat)
    requires Inv(s) && Pop(s, s', i)
    ensures forall u :: 0 <= u < |s'.place| ==> HeldBy(s'.place, s'.ops, u)
  {
    forall u | 0 <= u < |s'.place|
      ensures HeldBy(s'.place, s'.ops, u)
    {
      assert HeldBy(s.place, s.ops, u);
    }
  }

  lemma PopKeeps(s: State, s': State, i: nat)
    requires Inv(s) && NotLapped(s) && Pop(s, s', i)
    ensures Inv(s')
  {
    PopOps(s, s', i);
    PopExact(s, i);
    ListTail(s.max, s.cells, s.list);
    PopPlaces(s.place, s.list, i);
    PopHeld(s, s', i);
  }

  lemma FetchAddOps(s: State, s': State, i: nat, garbage: nat)
    requires Inv(s) && FetchAdd(s, s', i, garbage)
    ensures forall j :: 0 <= j < |s'.ops| ==> OpOk(s', j) && IssueOk(s', s'.ops[j])
    ensures IssuesDistinct(s'.ops)
  {
    SmallValue(s.next, s.max + 1);
    forall j | 0 <= j < |s'.ops|
      ensures OpOk(s', j) && IssueOk(s', s'.ops[j])
    {
      assert OpOk(s, j) && IssueOk(s, s.ops[j]);
    }
    forall j | 0 <= j < |s'.ops| && j != i && Issued(s'.ops[j])
      ensures s'.ops[j].v != s.next
    {
      assert IssueOk(s, s.ops[j]);
    }
  }

  lemma SmallValue(x: nat, m: nat)
    requires x < m
    ensures x % m == x
  {
  }

  lemma FetchAddKeeps(s: State, s': State, i: nat, garbage: nat)
    requires Inv(s) && FetchAdd(s, s', i, garbage) && Roomy(s')
    ensures Inv(s')
  {
    FetchAddOps(s, s', i, garbage);
    SmallValue(s.next, s.max + 1);
    forall u | 0 <= u < |s'.place|
      ensures HeldBy(s'.place, s'.ops, u)
    {
      if u < s.next {
        assert HeldBy(s.place, s.ops, u);
      }
    }
  }

  /** Only its holder writes the cell of an id in transit. */
  lemma CellStored(s: State, s': State, v: nat, x: nat)
    requires Inv(s) && v < |s.cells| && s.place[v].Transit? && s'.cells == s.cells[v := x]
    ensures Linked(s.max, s'.cells, s.list)
  {
  }

  lemma StoreActiveKeeps(s: State, s': State, i: nat)
    requires Inv(s) && StoreActive(s, s', i)
    ensures Inv(s')
  {
    var v := s.ops[i].v;
    assert OpOk(s, i);
    CellStored(s, s', v, s.max - 1);
    forall j | 0 <= j < |s'.ops|
      ensures OpOk(s', j) && IssueOk(s', s'.ops[j])
    {
      assert OpOk(s, j) && IssueOk(s, s.ops[j]);
    }
    forall u | 0 <= u < |s'.place|
      ensures HeldBy(s'.place, s'.ops, u)
    {
      assert HeldBy(s.place, s.ops, u);
    }
    SameIssues(s.ops, s'.ops, i);
  }

  lemma SameIssues(ops: seq<Op>, ops': seq<Op>, i: nat)
    requires IssuesDistinct(ops) && i < |ops| && ops[i].Taken? && ops' == ops[i := Done(ops[i].v, ops[i].g)]
    ensures IssuesDistinct(ops')
  {
  }

  lemma BeginFreePlaces(s: State, s': State, v: nat)
    requires Inv(s) && BeginFree(s, s', v)
    ensures FreeIsListed(s'.place, s'.list)
    ensures forall u :: 0 <= u < |s'.place| ==> HeldBy(s'.place, s'.ops, u)
  {
    forall u | 0 <= u < |s'.place|
      ensures HeldBy(s'.place, s'.ops, u)
    {
      assert HeldBy(s.place, s.ops, u);
    }
  }

  lemma BeginFreeKeeps(s: State, s': State, v: nat)
    requires Inv(s) && BeginFree(s, s', v)
    ensures Inv(s')
  {
    BeginFreePlaces(s, s', v);
    forall j | 0 <= j < |s'.ops|
      ensures OpOk(s', j) && IssueOk(s', s'.ops[j])
    {
      if j < |s.ops| {
        assert OpOk(s, j) && IssueOk(s, s.ops[j]);
      }
    }
  }

  lemma StoreNextKeeps(s: State, s': State, i: nat)
    requires Inv(s) && StoreNext(s, s', i)
    ensures Inv(s')
  {
    var v := s.ops[i].v;
    assert OpOk(s, i);
    CellStored(s, s', v, s.ops[i].h);
    forall j | 0 <= j < |s'.ops|
      ensures OpOk(s', j) && IssueOk(s', s'.ops[j])
    {
      assert OpOk(s, j) && IssueOk(s, s.ops[j]);
    }
    forall u | 0 <= u < |s'.place|
      ensures HeldBy(s'.place, s'.ops, u)
    {
      assert HeldBy(s.place, s.ops, u);
    }
  }

  lemma PushOps(s: State, s': State, i: nat)
    requires Inv(s) && Push(s, s', i)
    ensures forall j :: 0 <= j < |s'.ops| ==> OpOk(s', j) && IssueOk(s', s'.ops[j])
  {
  }

  lemma PushLinked(max: nat, cells: seq<nat>, list: seq<nat>, v: nat)
    requires Distinct(list) && Linked(max, cells, list) && v !in list
    requires v < |cells| && cells[v] == First(max, list)
    ensures Distinct([v] + list) && Linked(max, cells, [v] + list)
  {
  }

  lemma PushPlaces(place: seq<Place>, list: seq<nat>, v: nat)
    requires FreeIsListed(place, list) && v < |place|
    ensures FreeIsListed(place[v := Free], [v] + list)
  {
  }

  lemma PushHeld(s: State, s': State, i: nat)
    requires Inv(s) && Push(s, s', i)
    ensures forall u :: 0 <= u < |s'.place| ==> HeldBy(s'.place, s'.ops, u)
  {
    assert OpOk(s, i);
    forall u | 0 <= u < |s'.place|
      ensures HeldBy(s'.place, s'.ops, u)
    {
      assert HeldBy(s.place, s.ops, u);
    }
  }

  lemma PushKeeps(s: State, s': State, i: nat)
    requires Inv(s) && Push(s, s', i)
    ensures Inv(s')
  {
    assert OpOk(s, i);
    var v := s.ops[i].v;
    assert v !in s.list;
    PushOps(s, s', i);
    PushLinked(s.max, s.cells, s.list, v);
    PushPlaces(s.place, s.list, v);
    PushHeld(s, s', i);
  }

  lemma RetryKeeps(s: State, s': State, i: nat)
    requires Inv(s) && (PopFails(s, s', i) || PushFails(s, s', i))
    ensures Inv(s')
  {
    assert OpOk(s, i);
    if s.ops[i].Read? {
      HeadLoaded(s, s', i);
    }
    QuietStep(s, s', i);
  }

  lemma StepKeeps(s: State, s': State, i: nat, a: Action)
    requires Inv(s) && NotLapped(s) && Step(s, s', i, a) && Roomy(s')
    ensures Inv(s')
  {
    match a {
      case DoBeginAlloc =>
        HeadLoaded(s, s', |s.ops|);
        QuietStep(s, s', |s.ops|);
      case DoReadNext => ReadNextKeeps(s, s', i);
      case DoPop => PopKeeps(s, s', i);
      case DoPopFails => RetryKeeps(s, s', i);
      case DoFetchAdd(garbage) => FetchAddKeeps(s, s', i, garbage);
      case DoStoreActive => StoreActiveKeeps(s, s', i);
      case DoBeginFree(v) => BeginFreeKeeps(s, s', v);
      case DoStoreNext => StoreNextKeeps(s, s', i);
      case DoPush => PushKeeps(s, s', i);
      case DoPushFails => RetryKeeps(s, s', i);
    }
  }
}
