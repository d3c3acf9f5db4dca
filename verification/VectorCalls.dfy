/** What one whole growing call does in an execution. */
module VectorCalls {
  import opened VectorGrowth

  /** Call `i` begins between `s` and `s'`. */
  ghost predicate Begins(s: State, s': State, i: nat) {
    |s.ops| == i && |s'.ops| == i + 1
  }

  /** The newest table that a call knows of. */
  function Knows(op: Op): nat {
    match op
    case Loaded(_, seen, _) => seen
    case Building(_, seen, _, _, _) => seen
    case Undoing(_, _, now, _, _, _, _) => now
    case Retiring(_, idx) => idx
    case Returned(_, idx) => idx
  }

  /** A call keeps its request, learns of newer tables only, and does not come back. */
  ghost predicate Moves(s: State, s': State, i: nat)
    requires i < |s.ops| && i < |s'.ops|
  {
    var op, op' := s.ops[i], s'.ops[i];
    op'.want == op.want && Knows(op) <= Knows(op') && (op.Returned? ==> op' == op)
  }

  ghost predicate MovesAt(run: seq<State>, i: nat, k: nat) {
    k + 1 < |run| && i < |run[k].ops| && i < |run[k + 1].ops| && Moves(run[k], run[k + 1], i)
  }

  lemma StepMoves(s: State, s': State, i: nat)
    requires Next(s, s') && i < |s.ops| && OpOk(s, i)
    ensures i < |s'.ops| && Moves(s, s', i)
  {
    var j, a :| Step(s, s', j, a);
  }

  /** A beginning call looks at the current table. */
  ghost predicate Begun(s: State, s': State, i: nat) {
    && i < |s'.ops| && |s.tables| > 0
    && var last := |s.tables| - 1;
    && Knows(s'.ops[i]) == last
    && (s'.ops[i].Returned? <==> |s.tables[last]| >= s'.ops[i].want)
    && s'.tables == s.tables && s'.fate == s.fate
  }

  lemma BeginStep(s: State, s': State, i: nat)
    requires Next(s, s') && Begins(s, s', i)
    ensures Begun(s, s', i)
  {
    var j, a :| Step(s, s', j, a);
  }

  ghost predicate Course(run: seq<State>, b: nat, i: nat) {
    && b + 1 < |run| && Begun(run[b], run[b + 1], i)
    && forall k :: b < k < |run| - 1 ==> MovesAt(run, i, k)
  }

  lemma {:induction false} OpsGrow(run: seq<State>, b: nat, k: nat)
    requires IsRun(run) && b <= k < |run|
    ensures |run[b].ops| <= |run[k].ops|
  {
    if b < k {
      OpsGrow(run, b, k - 1);
      assert Next(run[k - 1], run[k - 1 + 1]);
      var j, a :| Step(run[k - 1], run[k], j, a);
    }
  }

  lemma CallCourse(run: seq<State>, b: nat, i: nat)
    requires IsRun(run) && b + 1 < |run| && Begins(run[b], run[b + 1], i)
    ensures Course(run, b, i)
  {
    assert Next(run[b], run[b + 1]);
    BeginStep(run[b], run[b + 1], i);
    forall k | b < k < |run| - 1
      ensures MovesAt(run, i, k)
    {
      OpsGrow(run, b + 1, k);
      RunKeeps(run, k);
      assert Next(run[k], run[k + 1]) && OpOk(run[k], i);
      StepMoves(run[k], run[k + 1], i);
    }
  }

  lemma {:induction false} Along(run: seq<State>, b: nat, i: nat, n: nat)
    requires Course(run, b, i) && b < n < |run|
    ensures i < |run[n].ops| && run[n].ops[i].want == run[b + 1].ops[i].want
    ensures Knows(run[b + 1].ops[i]) <= Knows(run[n].ops[i])
    ensures run[b + 1].ops[i].Returned? ==> run[n].ops[i] == run[b + 1].ops[i]
  {
    if n > b + 1 {
      Along(run, b, i, n - 1);
      assert MovesAt(run, i, n - 1);
    }
  }

  lemma BeginsWith(s: State, s': State, j: nat, want: nat)
    requires Step(s, s', j, DoBegin(want))
    ensures Next(s, s') && Begins(s, s', |s.ops|) && s'.ops[|s.ops|].want == want
  {
  }

  /** A call for `want` blocks that began at `b` returns a table of at least that size, and
    not older than the table that was current when it began; that one itself if it was
    large enough. */
  lemma CallReturns(run: seq<State>, b: nat, j: nat, want: nat, n: nat)
    requires IsRun(run) && b < n < |run| && Step(run[b], run[b + 1], j, DoBegin(want))
    requires |run[b].ops| < |run[n].ops| && run[n].ops[|run[b].ops|].Returned?
    ensures |run[b].tables| > 0
    ensures var op, last := run[n].ops[|run[b].ops|], |run[b].tables| - 1;
      && last <= op.idx < |run[n].tables| && |run[n].tables[op.idx]| >= want
      && (|run[b].tables[last]| >= want ==> op.idx == last)
  {
    var i := |run[b].ops|;
    BeginsWith(run[b], run[b + 1], j, want);
    CallCourse(run, b, i);
    Along(run, b, i, n);
    RunKeeps(run, n);
    assert OpOk(run[n], i);
  }

  ghost predicate GrowsBy(s: State, s': State, want: nat) {
    && |s.tables| > 0 && |s'.tables| == |s.tables| + 1 && s.tables <= s'.tables
    && var t, t' := s.tables[|s.tables| - 1], s'.tables[|s'.tables| - 1];
    && t <= t' && |t| < |t'| == want
  }

  lemma OnlyPublishGrows(s: State, s': State, j: nat, a: Action)
    requires Step(s, s', j, a) && s'.tables != s.tables
    ensures a.DoPublish? && j < |s.ops|
  {
  }

  lemma PublishGrows(s: State, s': State, j: nat)
    requires j < |s.ops| && OpOk(s, j) && Publish(s, s', j)
    ensures GrowsBy(s, s', s.ops[j].want)
  {
  }

  /** A table is published only by a call that needs more blocks than the current table has,
    and it has exactly as many as that call needs. */
  lemma GrowsExactly(run: seq<State>, n: nat) returns (i: nat)
    requires IsRun(run) && n + 1 < |run| && run[n + 1].tables != run[n].tables
    ensures i < |run[n].ops| && GrowsBy(run[n], run[n + 1], run[n].ops[i].want)
  {
    RunKeeps(run, n);
    assert Next(run[n], run[n + 1]);
    var j, a :| Step(run[n], run[n + 1], j, a);
    OnlyPublishGrows(run[n], run[n + 1], j, a);
    assert OpOk(run[n], j);
    PublishGrows(run[n], run[n + 1], j);
    i := j;
  }
}
