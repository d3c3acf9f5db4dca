/** Racing growth of `ConcurrentVector`: block tables replaced by compare-and-swap. */
module VectorGrowth {
  import opened Sequences

  /** A created block belongs to one growing call, to the vector, or is deleted. */
  datatype Fate = Private(op: nat) | Published | Deleted

  /** A call that needs `want` blocks. `seen` and `now` number published tables, `base`
    is the size of table `seen`, `tries` counts lost races. */
  datatype Op =
    | Loaded(want: nat, seen: nat, tries: nat)
    | Building(want: nat, seen: nat, base: nat, table: seq<nat>, tries: nat)
    | Undoing(want: nat, seen: nat, now: nat, base: nat, table: seq<nat>, at: nat, tries: nat)
    | Retiring(want: nat, idx: nat)
    | Returned(want: nat, idx: nat)

  /** `tables` holds every table published so far, the current one last; `author[k]` is
    the call that published table k, and `retired` lists the tables handed to the
    retire list. */
  datatype State = State(
    tables: seq<seq<nat>>,
    author: seq<nat>,
    retired: seq<nat>,
    fate: seq<Fate>,
    ops: seq<Op>)

  function Last(s: State): int { |s.tables| - 1 }

  // ---------------------------------------------------------------- steps

  /** Load the current table; enough blocks are returned at once. */
  ghost predicate Begin(s: State, s': State, want: nat) {
    && |s.tables| > 0
    && var k := |s.tables| - 1;
    && s' == s.(ops := s.ops + [if |s.tables[k]| >= want then Returned(want, k) else Loaded(want, k, 0)])
  }

  ghost predicate CopyTable(s: State, s': State, i: nat) {
    && i < |s.ops| && s.ops[i].Loaded? && s.ops[i].seen < |s.tables|
    && var op := s.ops[i];
    && var t := s.tables[op.seen];
    && s' == s.(ops := s.ops[i := Building(op.want, op.seen, |t|, t, op.tries)])
  }

  ghost predicate CreateBlock(s: State, s': State, i: nat) {
    && i < |s.ops| && s.ops[i].Building? && |s.ops[i].table| < s.ops[i].want
    && var op := s.ops[i];
    && s' == s.(fate := s.fate + [Private(i)], ops := s.ops[i :=
         Building(op.want, op.seen, op.base, op.table + [|s.fate|], op.tries)])
  }

  /** The blocks [from, |table|) of a table get a new fate. */
  function Mark(fate: seq<Fate>, table: seq<nat>, from: nat, f: Fate): seq<Fate> {
    seq(|fate|, b requires 0 <= b < |fate| => if from <= |table| && b in table[from..] then f else fate[b])
  }

  ghost predicate Publish(s: State, s': State, i: nat) {
    && i < |s.ops| && s.ops[i].Building? && |s.ops[i].table| == s.ops[i].want
    && var op := s.ops[i];
    && op.seen == Last(s)
    && s' == s.(tables := s.tables + [op.table], author := s.author + [i],
                fate := Mark(s.fate, op.table, op.base, Published),
                ops := s.ops[i := Retiring(op.want, |s.tables|)])
  }

  ghost predicate Retire(s: State, s': State, i: nat) {
    && i < |s.ops| && s.ops[i].Retiring? && s.ops[i].idx > 0
    && var op := s.ops[i];
    && s' == s.(retired := s.retired + [op.idx - 1], ops := s.ops[i := Returned(op.want, op.idx)])
  }

  /** The swap fails and loads the table that won. */
  ghost predicate LoseRace(s: State, s': State, i: nat) {
    && i < |s.ops| && s.ops[i].Building? && |s.ops[i].table| == s.ops[i].want
    && var op := s.ops[i];
    && op.seen != Last(s) && |s.tables| > 0
    && s' == s.(ops := s.ops[i :=
         Undoing(op.want, op.seen, |s.tables| - 1, op.base, op.table, op.base, op.tries)])
  }

  ghost predicate DeleteBlock(s: State, s': State, i: nat) {
    && i < |s.ops| && s.ops[i].Undoing? && s.ops[i].at < s.ops[i].want && s.ops[i].at < |s.ops[i].table|
    && var op := s.ops[i];
    && op.table[op.at] < |s.fate|
    && s' == s.(fate := s.fate[op.table[op.at] := Deleted], ops := s.ops[i :=
         Undoing(op.want, op.seen, op.now, op.base, op.table, op.at + 1, op.tries)])
  }

  ghost predicate Retry(s: State, s': State, i: nat) {
    && i < |s.ops| && s.ops[i].Undoing? && s.ops[i].at == s.ops[i].want && s.ops[i].now < |s.tables|
    && var op := s.ops[i];
    && s' == s.(ops := s.ops[i :=
         if |s.tables[op.now]| >= op.want then Returned(op.want, op.now)
         else Loaded(op.want, op.now, op.tries + 1)])
  }

  datatype Action =
    | DoBegin(want: nat) | DoCopyTable | DoCreateBlock | DoPublish | DoRetire
    | DoLoseRace | DoDeleteBlock | DoRetry

  ghost predicate Step(s: State, s': State, i: nat, a: Action) {
    match a
    case DoBegin(want) => Begin(s, s', want)
    case DoCopyTable => CopyTable(s, s', i)
    case DoCreateBlock => CreateBlock(s, s', i)
    case DoPublish => Publish(s, s', i)
    case DoRetire => Retire(s, s', i)
    case DoLoseRace => LoseRace(s, s', i)
    case DoDeleteBlock => DeleteBlock(s, s', i)
    case DoRetry => Retry(s, s', i)
  }

  /** Only the empty table exists. */
  ghost predicate Init(s: State) {
    s == State([[]], [0], [], [], [])
  }

  ghost predicate Next(s: State, s': State) {
    exists i, a :: Step(s, s', i, a)
  }

  ghost predicate IsRun(run: seq<State>) {
    && |run| > 0 && Init(run[0])
    && forall n :: 0 <= n < |run| - 1 ==> Next(run[n], run[n + 1])
  }

  // ------------------------------------------------------------- invariant

  /** Each table extends all earlier ones, by at least one block a step. */
  ghost predicate Chain(tables: seq<seq<nat>>) {
    forall j, k :: 0 <= j < k < |tables| ==>
      |tables[j]| + (k - j) <= |tables[k]| && tables[j] <= tables[k]
  }

  /** Blocks of the current table are the published ones. */
  ghost predicate Current(fate: seq<Fate>, table: seq<nat>) {
    && Distinct(table)
    && (forall j :: 0 <= j < |table| ==> table[j] < |fate| && fate[table[j]] == Published)
    && (forall b :: 0 <= b < |fate| && fate[b] == Published ==> b in table)
  }

  /** The blocks [from, |table|) are this call's own, each once. */
  ghost predicate Owned(fate: seq<Fate>, table: seq<nat>, from: nat, i: nat) {
    && from <= |table| && Distinct(table[from..])
    && (forall j :: from <= j < |table| ==> table[j] < |fate| && fate[table[j]] == Private(i))
  }

  ghost predicate Saw(tables: seq<seq<nat>>, seen: nat, base: nat, want: nat, tries: nat) {
    seen < |tables| && base == |tables[seen]| && base < want && tries <= base
  }

  ghost predicate OpOk(s: State, i: nat)
    requires i < |s.ops|
  {
    var op := s.ops[i];
    match op
    case Loaded(want, seen, tries) => seen < |s.tables| && Saw(s.tables, seen, |s.tables[seen]|, want, tries)
    case Building(want, seen, base, table, tries) =>
      && Saw(s.tables, seen, base, want, tries) && |table| <= want
      && Owned(s.fate, table, base, i) && table[..base] == s.tables[seen]
    case Undoing(want, seen, now, base, table, at, tries) =>
      && Saw(s.tables, seen, base, want, tries) && |table| == want && base <= at
      && seen < now < |s.tables| && Owned(s.fate, table, at, i)
    case Retiring(want, idx) =>
      && 0 < idx < |s.tables| && |s.tables[idx]| >= want
      && idx < |s.author| && s.author[idx] == i && idx - 1 !in s.retired
    case Returned(want, idx) => idx < |s.tables| && |s.tables[idx]| >= want
  }

  /** A private block is in the table its call is building or undoing. */
  predicate Keeps(op: Op, b: nat) {
    || (op.Building? && op.base <= |op.table| && b in op.table[op.base..])
    || (op.Undoing? && op.at <= |op.table| && b in op.table[op.at..])
  }

  ghost predicate BlockOk(fate: seq<Fate>, ops: seq<Op>, b: nat)
    requires b < |fate|
  {
    fate[b].Private? ==> fate[b].op < |ops| && Keeps(ops[fate[b].op], b)
  }

  /** A superseded table is retired, or its successor's author still will. */
  ghost predicate RetireOk(s: State, k: nat) {
    0 < k < |s.author| ==>
      || k - 1 in s.retired
      || (s.author[k] < |s.ops| && s.ops[s.author[k]].Retiring? && s.ops[s.author[k]].idx == k)
  }

  ghost predicate RetiredOnce(tables: seq<seq<nat>>, retired: seq<nat>) {
    Distinct(retired) && forall j :: 0 <= j < |retired| ==> retired[j] + 1 < |tables|
  }

  ghost predicate Inv(s: State) {
    && |s.tables| > 0 && |s.author| == |s.tables| && Chain(s.tables)
    && Current(s.fate, s.tables[|s.tables| - 1])
    && (forall b :: 0 <= b < |s.fate| ==> BlockOk(s.fate, s.ops, b))
    && (forall i :: 0 <= i < |s.ops| ==> OpOk(s, i))
    && RetiredOnce(s.tables, s.retired)
    && (forall k :: 0 < k < |s.tables| ==> RetireOk(s, k))
  }

  // ----------------------------------------------------------------- proof

  /** Steps that only move one call forward, without blocks of its own. */
  lemma QuietStep(s: State, s': State, i: nat)
    requires Inv(s) && s' == s.(ops := s'.ops) && |s.ops| <= |s'.ops| <= |s.ops| + 1 && i < |s'.ops|
    requires |s.ops| < |s'.ops| ==> i == |s.ops|
    requires forall j :: 0 <= j < |s.ops| && j != i ==> s'.ops[j] == s.ops[j]
    requires OpOk(s', i)
    requires i < |s.ops| ==> !s.ops[i].Retiring? && forall b :: Keeps(s.ops[i], b) ==> Keeps(s'.ops[i], b)
    ensures Inv(s')
  {
    forall j | 0 <= j < |s'.ops|
      ensures OpOk(s', j)
    {
      if j != i {
        assert OpOk(s, j);
      }
    }
    forall b | 0 <= b < |s'.fate|
      ensures BlockOk(s'.fate, s'.ops, b)
    {
      assert BlockOk(s.fate, s.ops, b);
    }
    forall k | 0 < k < |s'.tables|
      ensures RetireOk(s', k)
    {
      assert RetireOk(s, k);
    }
  }

  lemma CopyTableKeeps(s: State, s': State, i: nat)
    requires Inv(s) && CopyTable(s, s', i)
    ensures Inv(s')
  {
    assert OpOk(s, i);
    var t := s.tables[s.ops[i].seen];
    assert t[..|t|] == t && t[|t|..] == [];
    QuietStep(s, s', i);
  }

  lemma LoseRaceKeeps(s: State, s': State, i: nat)
    requires Inv(s) && LoseRace(s, s', i)
    ensures Inv(s')
  {
    assert OpOk(s, i);
    QuietStep(s, s', i);
  }

  /** A lost race was lost to a larger table, so a retry starts further on. */
  lemma RetryKeeps(s: State, s': State, i: nat)
    requires Inv(s) && Retry(s, s', i)
    ensures Inv(s')
  {
    assert OpOk(s, i);
    QuietStep(s, s', i);
  }

  lemma BeginKeeps(s: State, s': State, want: nat)
    requires Inv(s) && Begin(s, s', want)
    ensures Inv(s')
  {
    QuietStep(s, s', |s.ops|);
  }

  /** Other calls' blocks are not touched by changes to blocks that are not theirs. */
  lemma OthersStay(s: State, s': State, j: nat)
    requires j < |s.ops| && j < |s'.ops| && s'.ops[j] == s.ops[j] && OpOk(s, j)
    requires s.tables <= s'.tables && s.author <= s'.author && s'.retired == s.retired
    requires |s.fate| <= |s'.fate|
    requires forall b :: 0 <= b < |s.fate| && s.fate[b] == Private(j) ==> s'.fate[b] == Private(j)
    ensures OpOk(s', j)
  {
  }

  lemma OwnedGrows(fate: seq<Fate>, table: seq<nat>, base: nat, i: nat)
    requires Owned(fate, table, base, i)
    ensures var fate', table' := fate + [Private(i)], table + [|fate|];
            && Owned(fate', table', base, i) && table'[..base] == table[..base]
            && |fate| in table'[base..] && (forall b :: b in table[base..] ==> b in table'[base..])
  {
    var fate', table' := fate + [Private(i)], table + [|fate|];
    var tail, tail' := table[base..], table'[base..];
    assert tail' == tail + [|fate|];
    forall j | 0 <= j < |tail|
      ensures tail[j] < |fate|
    {
      assert tail[j] == table[base + j];
    }
    assert tail'[|tail|] == |fate|;
  }

  /** A step on private blocks of call `i` leaves the other calls and the retirements
    alone. */
  lemma BlockStep(s: State, s': State, i: nat)
    requires Inv(s) && i < |s.ops| == |s'.ops| && !s.ops[i].Retiring? && |s.fate| <= |s'.fate|
    requires s' == s.(fate := s'.fate, ops := s.ops[i := s'.ops[i]])
    requires forall b, j: nat :: 0 <= b < |s.fate| && j != i && s.fate[b] == Private(j) ==> s'.fate[b] == Private(j)
    requires OpOk(s', i)
    ensures forall j :: 0 <= j < |s'.ops| ==> OpOk(s', j)
    ensures forall k :: 0 < k < |s'.tables| ==> RetireOk(s', k)
  {
    forall j | 0 <= j < |s'.ops|
      ensures OpOk(s', j)
    {
      if j != i {
        assert OpOk(s, j);
        OthersStay(s, s', j);
      }
    }
    forall k | 0 < k < |s'.tables|
      ensures RetireOk(s', k)
    {
      assert RetireOk(s, k);
    }
  }

  lemma CreateBlockKeeps(s: State, s': State, i: nat)
    requires Inv(s) && CreateBlock(s, s', i)
    ensures Inv(s')
  {
    var op := s.ops[i];
    assert OpOk(s, i);
    OwnedGrows(s.fate, op.table, op.base, i);
    BlockStep(s, s', i);
    forall b | 0 <= b < |s'.fate|
      ensures BlockOk(s'.fate, s'.ops, b)
    {
      if b < |s.fate| {
        assert BlockOk(s.fate, s.ops, b);
      }
    }
  }

  lemma OwnedShrinks(fate: seq<Fate>, table: seq<nat>, at: nat, i: nat)
    requires Owned(fate, table, at, i) && at < |table|
    ensures Owned(fate[table[at] := Deleted], table, at + 1, i)
    ensures forall b :: b in table[at..] && b != table[at] ==> b in table[at + 1..]
  {
  }

  lemma DeleteBlockKeeps(s: State, s': State, i: nat)
    requires Inv(s) && DeleteBlock(s, s', i)
    ensures Inv(s')
  {
    var op := s.ops[i];
    assert OpOk(s, i);
    OwnedShrinks(s.fate, op.table, op.at, i);
    BlockStep(s, s', i);
    DeletedOnly(s, s', i);
  }

  lemma DeletedOnly(s: State, s': State, i: nat)
    requires Inv(s) && DeleteBlock(s, s', i) && s.ops[i].at < |s.ops[i].table|
    requires s.fate[s.ops[i].table[s.ops[i].at]] == Private(i)
    requires forall b :: b in s.ops[i].table[s.ops[i].at..] && b != s.ops[i].table[s.ops[i].at] ==>
               b in s.ops[i].table[s.ops[i].at + 1..]
    ensures Current(s'.fate, s'.tables[|s'.tables| - 1])
    ensures forall b :: 0 <= b < |s'.fate| ==> BlockOk(s'.fate, s'.ops, b)
  {
    forall b | 0 <= b < |s'.fate|
      ensures BlockOk(s'.fate, s'.ops, b)
    {
      assert BlockOk(s.fate, s.ops, b);
    }
  }

  lemma RetireOps(s: State, s': State, i: nat)
    requires Inv(s) && Retire(s, s', i)
    ensures forall j :: 0 <= j < |s'.ops| ==> OpOk(s', j)
    ensures forall b :: 0 <= b < |s'.fate| ==> BlockOk(s'.fate, s'.ops, b)
  {
    assert OpOk(s, i);
    forall j | 0 <= j < |s'.ops|
      ensures OpOk(s', j)
    {
      assert OpOk(s, j);
    }
    forall b | 0 <= b < |s'.fate|
      ensures BlockOk(s'.fate, s'.ops, b)
    {
      assert BlockOk(s.fate, s.ops, b);
    }
  }

  lemma RetireKeeps(s: State, s': State, i: nat)
    requires Inv(s) && Retire(s, s', i)
    ensures Inv(s')
  {
    RetireOps(s, s', i);
    assert OpOk(s, i);
    forall k | 0 < k < |s'.tables|
      ensures RetireOk(s', k)
    {
      assert RetireOk(s, k);
      if k == s.ops[i].idx {
        assert s'.retired[|s.retired|] == k - 1;
      }
    }
  }

  /** The published table: the previous one and the call's own blocks. */
  lemma MarkedCurrent(fate: seq<Fate>, prev: seq<nat>, own: seq<nat>, i: nat)
    requires Current(fate, prev) && Distinct(own)
    requires forall j :: 0 <= j < |own| ==> own[j] < |fate| && fate[own[j]] == Private(i)
    ensures Current(Mark(fate, prev + own, |prev|, Published), prev + own)
  {
  }

  lemma ChainExtended(tables: seq<seq<nat>>, t: seq<nat>)
    requires Chain(tables) && |tables| > 0
    requires tables[|tables| - 1] <= t && |tables[|tables| - 1]| < |t|
    ensures Chain(tables + [t])
  {
  }

  lemma PublishCurrent(s: State, s': State, i: nat)
    requires Inv(s) && Publish(s, s', i)
    ensures Chain(s'.tables) && Current(s'.fate, s.ops[i].table)
  {
    var op := s.ops[i];
    assert OpOk(s, i);
    var prev, own := s.tables[|s.tables| - 1], op.table[op.base..];
    assert op.table == prev + own;
    forall j | 0 <= j < |own|
      ensures own[j] < |s.fate| && s.fate[own[j]] == Private(i)
    {
      assert own[j] == op.table[op.base + j];
    }
    MarkedCurrent(s.fate, prev, own, i);
    ChainExtended(s.tables, op.table);
  }

  lemma PublishOps(s: State, s': State, i: nat)
    requires Inv(s) && Publish(s, s', i)
    ensures forall j :: 0 <= j < |s'.ops| ==> OpOk(s', j)
    ensures forall b :: 0 <= b < |s'.fate| ==> BlockOk(s'.fate, s'.ops, b)
  {
    var op := s.ops[i];
    assert OpOk(s, i);
    forall b | 0 <= b < |s.fate| && b in op.table[op.base..]
      ensures s.fate[b] == Private(i)
    {
      var j :| 0 <= j < |op.table[op.base..]| && op.table[op.base..][j] == b;
      assert op.table[op.base + j] == b;
    }
    forall j | 0 <= j < |s'.ops|
      ensures OpOk(s', j)
    {
      if j != i {
        assert OpOk(s, j);
        OthersStay(s, s', j);
      }
    }
    forall b | 0 <= b < |s'.fate|
      ensures BlockOk(s'.fate, s'.ops, b)
    {
      assert BlockOk(s.fate, s.ops, b);
    }
  }

  lemma PublishKeeps(s: State, s': State, i: nat)
    requires Inv(s) && Publish(s, s', i)
    ensures Inv(s')
  {
    PublishCurrent(s, s', i);
    PublishOps(s, s', i);
    assert s'.tables[|s'.tables| - 1] == s.ops[i].table;
    forall k | 0 < k < |s'.tables|
      ensures RetireOk(s', k)
    {
      if k < |s.tables| {
        assert RetireOk(s, k);
      }
    }
  }

  lemma StepKeeps(s: State, s': State, i: nat, a: Action)
    requires Inv(s) && Step(s, s', i, a)
    ensures Inv(s')
  {
    match a {
      case DoBegin(want) => BeginKeeps(s, s', want);
      case DoCopyTable => CopyTableKeeps(s, s', i);
      case DoCreateBlock => CreateBlockKeeps(s, s', i);
      case DoPublish => PublishKeeps(s, s', i);
      case DoRetire => RetireKeeps(s, s', i);
      case DoLoseRace => LoseRaceKeeps(s, s', i);
      case DoDeleteBlock => DeleteBlockKeeps(s, s', i);
      case DoRetry => RetryKeeps(s, s', i);
    }
  }

  // -------------------------------------------------------------- theorems

  lemma {:induction false} RunKeeps(run: seq<State>, n: nat)
    requires IsRun(run) && n < |run|
    ensures Inv(run[n])
  {
    if n > 0 {
      RunKeeps(run, n - 1);
      assert Next(run[n - 1], run[n - 1 + 1]);
      var i, a :| Step(run[n - 1], run[n], i, a);
      StepKeeps(run[n - 1], run[n], i, a);
    }
  }

  /** What one step leaves as it is: published tables, and the fate of every block that
    is published or deleted. */
  ghost predicate Later(s: State, s': State) {
    && s.tables <= s'.tables && |s.fate| <= |s'.fate|
    && (forall b :: 0 <= b < |s.fate| && !s.fate[b].Private? ==> s'.fate[b] == s.fate[b])
  }

  lemma StepLater(s: State, s': State, i: nat, a: Action)
    requires Inv(s) && Step(s, s', i, a)
    ensures Later(s, s')
  {
    if a.DoPublish? {
      assert OpOk(s, i);
      var op := s.ops[i];
      forall b | 0 <= b < |s.fate| && b in op.table[op.base..]
        ensures s.fate[b].Private?
      {
        var j :| 0 <= j < |op.table[op.base..]| && op.table[op.base..][j] == b;
        assert op.table[op.base + j] == b;
      }
    } else if a.DoDeleteBlock? {
      assert OpOk(s, i);
    }
  }

  lemma LaterTrans(a: State, b: State, c: State)
    requires Later(a, b) && Later(b, c)
    ensures Later(a, c)
  {
  }

  lemma RunStep(run: seq<State>, n: nat)
    requires IsRun(run) && n + 1 < |run|
    ensures Later(run[n], run[n + 1])
  {
    RunKeeps(run, n);
    assert Next(run[n], run[n + 1]);
    var i, a :| Step(run[n], run[n + 1], i, a);
    StepLater(run[n], run[n + 1], i, a);
  }

  lemma {:induction false} LaterAlong(run: seq<State>, m: nat, n: nat)
    requires m <= n < |run| && forall k :: 0 <= k < |run| - 1 ==> Later(run[k], run[k + 1])
    ensures Later(run[m], run[n])
    decreases n
  {
    if m < n {
      LaterAlong(run, m, n - 1);
      assert Later(run[n - 1], run[n - 1 + 1]);
      LaterTrans(run[m], run[n - 1], run[n]);
    }
  }

  /** Over any stretch of an execution a published block stays published, a deleted one
    deleted, and every table stays what it was. */
  lemma RunLater(run: seq<State>, m: nat, n: nat)
    requires IsRun(run) && m <= n < |run|
    ensures Later(run[m], run[n])
  {
    forall k | 0 <= k < |run| - 1
      ensures Later(run[k], run[k + 1])
    {
      RunStep(run, k);
    }
    LaterAlong(run, m, n);
  }

  /** The address of element block `b`, once seen in any table, is the same in every
    table published then or later. */
  lemma StableAddress(run: seq<State>, m: nat, n: nat, k: nat, l: nat, b: nat)
    requires IsRun(run) && m <= n < |run|
    requires k < |run[m].tables| && k <= l < |run[n].tables| && b < |run[m].tables[k]|
    ensures b < |run[n].tables[l]| && run[n].tables[l][b] == run[m].tables[k][b]
  {
    RunLater(run, m, n);
    RunKeeps(run, n);
    assert run[n].tables[k] == run[m].tables[k];
  }

  /** Every call that has returned holds a table large enough for its request. */
  lemma ReturnsEnough(run: seq<State>, n: nat, i: nat)
    requires IsRun(run) && n < |run| && i < |run[n].ops| && run[n].ops[i].Returned?
    ensures run[n].ops[i].idx < |run[n].tables| && run[n].ops[i].want <= |run[n].tables[run[n].ops[i].idx]|
  {
    RunKeeps(run, n);
    assert OpOk(run[n], i);
  }

  /** A call loses fewer races than the blocks it asks for. */
  lemma RetriesBounded(run: seq<State>, n: nat, i: nat)
    requires IsRun(run) && n < |run| && i < |run[n].ops|
    ensures run[n].ops[i].Loaded? || run[n].ops[i].Building? || run[n].ops[i].Undoing? ==>
              run[n].ops[i].tries < run[n].ops[i].want
  {
    RunKeeps(run, n);
    assert OpOk(run[n], i);
  }

  /** When all calls have returned, every created block is in the current table or
    deleted, and every earlier table is retired exactly once. */
  lemma NothingLost(run: seq<State>, n: nat)
    requires IsRun(run) && n < |run|
    requires forall i :: 0 <= i < |run[n].ops| ==> run[n].ops[i].Returned?
    ensures |run[n].tables| > 0
    ensures forall b :: 0 <= b < |run[n].fate| ==>
              if b in run[n].tables[|run[n].tables| - 1] then run[n].fate[b] == Published
              else run[n].fate[b] == Deleted
    ensures Distinct(run[n].retired)
    ensures forall k :: 0 <= k < |run[n].tables| - 1 <==> k in run[n].retired
  {
    RunKeeps(run, n);
    var s := run[n];
    forall b | 0 <= b < |s.fate|
      ensures if b in s.tables[|s.tables| - 1] then s.fate[b] == Published else s.fate[b] == Deleted
    {
      assert BlockOk(s.fate, s.ops, b);
    }
    forall k | 0 <= k < |s.tables| - 1
      ensures k in s.retired
    {
      assert RetireOk(s, k + 1);
    }
  }
}
