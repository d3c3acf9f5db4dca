/** What one whole call of `allocate` or `deallocate` does in an execution. */
module IdCalls {
  import opened IdProtocol
  import opened IdSteps
  import opened IdTheorems

  /** Call `i` begins between `s` and `s'`. */
  ghost predicate Begins(s: State, s': State, i: nat) {
    |s.ops| == i && |s'.ops| == i + 1
  }

  /** How a step that moves call `i` may move it. */
  ghost predicate Moves(s: State, s': State, i: nat)
    requires i < |s.ops| && i < |s'.ops|
  {
    var op' := s'.ops[i];
    match s.ops[i]
    case Loaded(v, g) => op'.Read? && op'.v == v && op'.g == g
    case Read(v, g, _) =>
      || op' == OnHead(s)
      || (&& op' == Taken(v, g) && SameWord(s, v, g)
          && (s.list != [] ==> s'.list == s.list[1..] && s'.next == s.next))
    case AtTail =>
      op' == Taken(s.next % (s.max + 1), 0) && s'.next == s.next + 1 && s'.list == s.list
    case Taken(v, g) => op' == Done(v, g)
    case FreeLoaded(v, h, g) => op' == FreeStored(v, h, g)
    case FreeStored(v, _, _) =>
      || (op'.FreeLoaded? && op'.v == v)
      || (op' == Freed(v) && s'.list == [v] + s.list && s'.version == s.version + 1)
    case Done(_, _) => false
    case Freed(_) => false
  }

  ghost predicate MovesAt(run: seq<State>, i: nat, k: nat) {
    && k + 1 < |run| && i < |run[k].ops| && i < |run[k + 1].ops|
    && (run[k + 1].ops[i] == run[k].ops[i] || Moves(run[k], run[k + 1], i))
  }

  lemma StepMoves(s: State, s': State, i: nat)
    requires Next(s, s') && i < |s.ops|
    ensures i < |s'.ops| && (s'.ops[i] == s.ops[i] || Moves(s, s', i))
  {
    var j, a :| Step(s, s', j, a);
  }

  lemma BeginStep(s: State, s': State, i: nat)
    requires Next(s, s') && Begins(s, s', i)
    ensures s'.ops[i] == OnHead(s) || s'.ops[i].FreeLoaded?
  {
    var j, a :| Step(s, s', j, a);
  }

  ghost predicate Course(run: seq<State>, b: nat, i: nat) {
    && b + 1 < |run| && i < |run[b + 1].ops|
    && (run[b + 1].ops[i] == OnHead(run[b]) || run[b + 1].ops[i].FreeLoaded?)
    && forall k :: b < k < |run| - 1 ==> MovesAt(run, i, k)
  }

  lemma {:induction false} OpsGrow(run: seq<State>, b: nat, k: nat)
    requires IsRun(run) && b <= k < |run|
    ensures |run[b].ops| <= |run[k].ops|
  {
    if b < k {
      OpsGrow(run, b, k - 1);
      assert Next(run[k - 1], run[k - 1 + 1]);
      var j, a :| Step(run[k - 1], run[k], j, a);
    }
  }

  lemma CallCourse(run: seq<State>, b: nat, i: nat)
    requires IsRun(run) && b + 1 < |run| && Begins(run[b], run[b + 1], i)
    ensures Course(run, b, i)
  {
    assert Next(run[b], run[b + 1]);
    BeginStep(run[b], run[b + 1], i);
    forall k | b < k < |run| - 1
      ensures MovesAt(run, i, k)
    {
      OpsGrow(run, b + 1, k);
      assert Next(run[k], run[k + 1]);
      StepMoves(run[k], run[k + 1], i);
    }
  }

  /** A call at the tail has seen the tail mark in the head. */
  lemma {:induction false} SawTail(run: seq<State>, b: nat, i: nat, n: nat) returns (m: nat)
    requires Course(run, b, i) && b < n < |run| && i < |run[n].ops| && run[n].ops[i].AtTail?
    ensures b <= m < n && run[m].head == run[m].max
  {
    if n == b + 1 {
      m := b;
    } else {
      assert MovesAt(run, i, n - 1);
      if run[n - 1].ops[i].AtTail? {
        m := SawTail(run, b, i, n - 1);
      } else {
        m := n - 1;
      }
    }
  }

  lemma TailIsEmpty(s: State)
    requires Inv(s) && s.head == s.max
    ensures s.list == []
  {
  }

  /** Where the result of an allocation was taken. */
  lemma {:induction false} TookAt(run: seq<State>, b: nat, i: nat, n: nat) returns (k: nat)
    requires Course(run, b, i) && b < n < |run| && i < |run[n].ops| && Issued(run[n].ops[i])
    ensures b < k < n && i < |run[k].ops| && i < |run[k + 1].ops| && Moves(run[k], run[k + 1], i)
    ensures run[k].ops[i].Read? || run[k].ops[i].AtTail?
    ensures run[k + 1].ops[i] == Taken(run[n].ops[i].v, run[n].ops[i].g)
  {
    assert MovesAt(run, i, n - 1);
    if Issued(run[n - 1].ops[i]) {
      k := TookAt(run, b, i, n - 1);
    } else {
      k := n - 1;
    }
  }

  /** `v` with version `g` leaves the front of the free list. */
  ghost predicate Recycles(s: State, s': State, v: nat, g: nat) {
    s.list == [v] + s'.list && g == s.version && s'.next == s.next
  }

  /** `v` is the first id never handed out before; `g` is 0. */
  ghost predicate Draws(s: State, s': State, v: nat, g: nat) {
    v == s.next && s'.next == v + 1 && g == 0 && s'.list == s.list
  }

  lemma TakenFromList(s: State, s': State, i: nat, v: nat, g: nat)
    requires Inv(s) && NotLapped(s) && i < |s.ops| && i < |s'.ops| && Moves(s, s', i)
    requires s.ops[i].Read? && s'.ops[i] == Taken(v, g)
    ensures Recycles(s, s', v, g)
  {
    PopExact(s, i);
    assert s.list == [s.list[0]] + s.list[1..];
  }

  lemma TakenFromEnd(s: State, s': State, i: nat, v: nat, g: nat)
    requires Inv(s) && Roomy(s') && i < |s.ops| && i < |s'.ops| && Moves(s, s', i)
    requires s.ops[i].AtTail? && s'.ops[i] == Taken(v, g) && s'.max == s.max
    ensures Draws(s, s', v, g)
  {
    SmallValue(s.next, s.max + 1);
  }

  lemma MaxStays(s: State, s': State)
    requires Next(s, s')
    ensures s'.max == s.max
  {
    var j, a :| Step(s, s', j, a);
  }

  /** Call `i` of allocate began at `b` and has returned `v` with version `g`: at one
    instant `k` of the call it took `v` from the front of the free list, with the version of
    that instant, or it drew a new id, and then the list was empty at an instant `m`
    of the call. */
  lemma AllocateReturns(run: seq<State>, b: nat, i: nat, n: nat) returns (k: nat, m: nat)
    requires IsRun(run) && Orderly(run) && b + 1 < |run| && Begins(run[b], run[b + 1], i)
    requires b < n < |run| && i < |run[n].ops| && run[n].ops[i].Done?
    ensures b < k < n && b <= m <= k
    ensures var op := run[n].ops[i];
      || Recycles(run[k], run[k + 1], op.v, op.g)
      || (Draws(run[k], run[k + 1], op.v, op.g) && run[m].list == [])
  {
    CallCourse(run, b, i);
    k := TookAt(run, b, i, n);
    m := k;
    var op := run[n].ops[i];
    RunKeeps(run, k);
    assert NotLapped(run[k]) && Roomy(run[k + 1]);
    if run[k].ops[i].Read? {
      TakenFromList(run[k], run[k + 1], i, op.v, op.g);
    } else {
      assert Next(run[k], run[k + 1]);
      MaxStays(run[k], run[k + 1]);
      TakenFromEnd(run[k], run[k + 1], i, op.v, op.g);
      m := SawTail(run, b, i, k);
      RunKeeps(run, m);
      TailIsEmpty(run[m]);
    }
  }

  lemma WhoDraws(s: State, s': State) returns (i: nat)
    requires Next(s, s') && s'.next != s.next
    ensures i < |s.ops| && i < |s'.ops| && s.ops[i].AtTail? && s'.ops[i].Taken?
  {
    var j, a :| Step(s, s', j, a);
    i := j;
  }

  lemma {:induction false} BeganAt(run: seq<State>, n: nat, i: nat) returns (b: nat)
    requires IsRun(run) && n < |run| && i < |run[n].ops|
    ensures b < n && Begins(run[b], run[b + 1], i)
  {
    assert Next(run[n - 1], run[n - 1 + 1]);
    var j, a :| Step(run[n - 1], run[n], j, a);
    if i < |run[n - 1].ops| {
      b := BeganAt(run, n - 1, i);
    } else {
      b := n - 1;
    }
  }

  /** `end()` grows only for a call during which the free list was empty at some instant. */
  lemma NewIdWhenEmpty(run: seq<State>, n: nat) returns (i: nat, b: nat, m: nat)
    requires IsRun(run) && Orderly(run) && n + 1 < |run| && run[n + 1].next != run[n].next
    ensures i < |run[n].ops| && i < |run[n + 1].ops| && run[n].ops[i] != run[n + 1].ops[i]
    ensures b <= m < n && Begins(run[b], run[b + 1], i) && run[m].list == []
  {
    assert Next(run[n], run[n + 1]);
    i := WhoDraws(run[n], run[n + 1]);
    b := BeganAt(run, n, i);
    CallCourse(run, b, i);
    m := SawTail(run, b, i, n);
    RunKeeps(run, m);
    TailIsEmpty(run[m]);
  }

  lemma {:induction false} FreedAt(run: seq<State>, b: nat, i: nat, n: nat) returns (k: nat)
    requires Course(run, b, i) && b < n < |run| && i < |run[n].ops| && run[n].ops[i].Freed?
    ensures b < k < n && run[b + 1].ops[i].FreeLoaded? && run[b + 1].ops[i].v == run[n].ops[i].v
    ensures run[k + 1].list == [run[n].ops[i].v] + run[k].list && run[k + 1].version == run[k].version + 1
  {
    assert MovesAt(run, i, n - 1);
    if run[n - 1].ops[i].Freed? {
      k := FreedAt(run, b, i, n - 1);
    } else {
      k := n - 1;
      HandedBack(run, b, i, k);
    }
  }

  predicate Returning(op: Op) { op.FreeLoaded? || op.FreeStored? }

  lemma {:induction false} HandedBack(run: seq<State>, b: nat, i: nat, n: nat)
    requires Course(run, b, i) && b < n < |run| && i < |run[n].ops| && Returning(run[n].ops[i])
    ensures run[b + 1].ops[i].FreeLoaded? && run[b + 1].ops[i].v == run[n].ops[i].v
  {
    if n > b + 1 {
      assert MovesAt(run, i, n - 1);
      HandedBack(run, b, i, n - 1);
    }
  }

  lemma FreeBegins(s: State, s': State, j: nat, v: nat)
    requires Step(s, s', j, DoBeginFree(v))
    ensures Next(s, s') && Begins(s, s', |s.ops|) && s'.ops[|s.ops|].FreeLoaded? && s'.ops[|s.ops|].v == v
  {
  }

  /** A deallocation of `v` that began at `b` and has ended: at one instant of the call `v`
    went to the front of the free list, and the version grew by one. */
  lemma DeallocateReturns(run: seq<State>, b: nat, j: nat, v: nat, n: nat) returns (k: nat)
    requires IsRun(run) && b < n < |run| && Step(run[b], run[b + 1], j, DoBeginFree(v))
    requires |run[b].ops| < |run[n].ops| && run[n].ops[|run[b].ops|].Freed?
    ensures b < k < n && run[k + 1].list == [v] + run[k].list && run[k + 1].version == run[k].version + 1
  {
    var i := |run[b].ops|;
    FreeBegins(run[b], run[b + 1], j, v);
    CallCourse(run, b, i);
    k := FreedAt(run, b, i, n);
  }
}
