/** What one whole call of `gc` or `retire` does in an execution, from its load of the
  head to its last access. */
module RetireCalls {
  import opened RetireList

  ghost predicate SameHead(s: State, s': State) {
    s.list == s'.list && s.stamp == s'.stamp
  }

  /** Call `i` begins between `s` and `s'`. */
  ghost predicate Begins(s: State, s': State, i: nat) {
    |s.ops| == i && |s'.ops| == i + 1
  }

  // ----------------------------------------------------------------- steps

  /** Call `i` links its object over `rest`, with the stamp of reading `t`. */
  ghost predicate LinksOver(s: State, s': State, i: nat, rest: seq<Entry>, t: nat) {
    && s'.list == [Entry(i, s.now)] + rest && s'.linked == s.linked + [Entry(i, s.now)]
    && s'.stamp == Stamp(t) && s'.top == t
  }

  ghost predicate HeadIs(s: State, list: seq<Entry>, stamp: nat) {
    s.list == list && s.stamp == stamp
  }

  /** How a step that moves call `i` may move it, and what it does to the list. */
  ghost predicate Moves(s: State, s': State, i: nat)
    requires i < |s.ops| && i < |s'.ops|
  {
    var op' := s'.ops[i];
    match s.ops[i]
    case Loaded(list, stamp) =>
      && stamp < STAMPS
      && op' == (if Expired(stamp, Stamp(s.now)) then Taking(list, stamp, s.now) else Pushing(list, stamp, s.now))
    case Taking(list, stamp, t) =>
      if HeadIs(s, list, stamp) then op' == Linked && LinksOver(s, s', i, [], t) && s'.freed == s.freed + s.list
      else op' == Pushing(s.list, s.stamp, t)
    case Pushing(_, _, t) =>
      || (op'.Pushing? && op'.t == t)
      || (op' == Linked && LinksOver(s, s', i, s.list, t) && s'.freed == s.freed)
    case GcLoaded(list, stamp) =>
      && stamp < STAMPS && s'.freed == s.freed && s'.list == s.list
      && op' == if Expired(stamp, Stamp(s.now)) then GcTaking(list, stamp, s.now) else GcDone
    case GcTaking(list, stamp, _) =>
      && op' == GcDone
      && if HeadIs(s, list, stamp) then s'.freed == s.freed + s.list && s'.list == []
         else s'.freed == s.freed && s'.list == s.list
    case Linked => false
    case GcDone => false
  }

  ghost predicate MovesAt(run: seq<State>, i: nat, k: nat) {
    && k + 1 < |run| && i < |run[k].ops| && i < |run[k + 1].ops|
    && (run[k + 1].ops[i] == run[k].ops[i] || Moves(run[k], run[k + 1], i))
  }

  lemma StepMoves(s: State, s': State, i: nat)
    requires Next(s, s') && i < |s.ops|
    ensures i < |s'.ops| && (s'.ops[i] == s.ops[i] || Moves(s, s', i))
  {
    var j, a :| Step(s, s', j, a);
  }

  lemma BeginStep(s: State, s': State, i: nat)
    requires Next(s, s') && Begins(s, s', i)
    ensures s'.ops[i] == Loaded(s.list, s.stamp) || s'.ops[i] == GcLoaded(s.list, s.stamp)
  {
    var j, a :| Step(s, s', j, a);
  }

  /** Call `i` begins at `b` with the head of that instant, and then moves as above. */
  ghost predicate Course(run: seq<State>, b: nat, i: nat) {
    && b + 1 < |run| && i < |run[b + 1].ops|
    && (|| run[b + 1].ops[i] == Loaded(run[b].list, run[b].stamp)
        || run[b + 1].ops[i] == GcLoaded(run[b].list, run[b].stamp))
    && forall k :: b < k < |run| - 1 ==> MovesAt(run, i, k)
  }

  lemma {:induction false} OpsGrow(run: seq<State>, b: nat, k: nat)
    requires IsRun(run) && b <= k < |run|
    ensures |run[b].ops| <= |run[k].ops|
  {
    if b < k {
      OpsGrow(run, b, k - 1);
      assert Next(run[k - 1], run[k - 1 + 1]);
      var j, a :| Step(run[k - 1], run[k], j, a);
    }
  }

  lemma CallCourse(run: seq<State>, b: nat, i: nat)
    requires IsRun(run) && b + 1 < |run| && Begins(run[b], run[b + 1], i)
    ensures Course(run, b, i)
  {
    assert Next(run[b], run[b + 1]);
    BeginStep(run[b], run[b + 1], i);
    forall k | b < k < |run| - 1
      ensures MovesAt(run, i, k)
    {
      OpsGrow(run, b + 1, k);
      assert Next(run[k], run[k + 1]);
      StepMoves(run[k], run[k + 1], i);
    }
  }

  /** Before it reads the clock a call still has the head of its beginning. */
  lemma {:induction false} Waits(run: seq<State>, b: nat, i: nat, n: nat)
    requires Course(run, b, i) && b < n < |run| && i < |run[n].ops|
    requires run[n].ops[i].Loaded? || run[n].ops[i].GcLoaded?
    ensures run[n].ops[i] == run[b + 1].ops[i]
  {
    if n > b + 1 {
      assert MovesAt(run, i, n - 1);
      Waits(run, b, i, n - 1);
    }
  }

  /** What holds whatever the delays. */
  lemma Anyway(run: seq<State>, n: nat) returns (lag: nat)
    requires IsRun(run) && n < |run|
    ensures Inv(run[n], lag)
  {
    lag := run[|run| - 1].now;
    forall m | 0 <= m < |run|
      ensures Prompt(run[m], lag)
    {
      ClockGrows(run, m);
    }
    RunKeeps(run, lag, n);
  }

  // -------------------------------------------------------------------- gc

  /** The call reads the clock between `n` and `n + 1`. */
  ghost predicate Reads(run: seq<State>, i: nat, n: nat) {
    && n + 1 < |run| && i < |run[n].ops| && i < |run[n + 1].ops|
    && (run[n].ops[i].Loaded? || run[n].ops[i].GcLoaded?) && run[n + 1].ops[i] != run[n].ops[i]
  }

  /** The call ends between `m` and `m + 1`. */
  ghost predicate Ends(run: seq<State>, i: nat, m: nat) {
    && m + 1 < |run| && i < |run[m].ops| && i < |run[m + 1].ops|
    && run[m + 1].ops[i] != run[m].ops[i] && (run[m + 1].ops[i] == Linked || run[m + 1].ops[i] == GcDone)
  }

  lemma Decides(run: seq<State>, b: nat, i: nat, n: nat)
    requires Course(run, b, i) && b < n && Reads(run, i, n)
    ensures run[n].ops[i] == run[b + 1].ops[i] && Moves(run[n], run[n + 1], i)
  {
    Waits(run, b, i, n);
    assert MovesAt(run, i, n);
  }

  lemma {:induction false} GcTakes(run: seq<State>, b: nat, i: nat, n: nat, k: nat)
    requires Course(run, b, i) && b < n < k < |run| && Reads(run, i, n) && run[n].ops[i].GcLoaded?
    ensures i < |run[k].ops|
    ensures run[k].ops[i] == GcTaking(run[b].list, run[b].stamp, run[n].now) || run[k].ops[i] == GcDone
  {
    if k == n + 1 {
      Decides(run, b, i, n);
    } else {
      GcTakes(run, b, i, n, k - 1);
      assert MovesAt(run, i, k - 1);
    }
  }

  /** A gc call that takes a list holds the head of its beginning. */
  lemma GcEnds(run: seq<State>, b: nat, i: nat, n: nat, m: nat)
    requires Course(run, b, i) && b < n <= m && Reads(run, i, n) && Ends(run, i, m) && run[n].ops[i].GcLoaded?
    ensures Moves(run[m], run[m + 1], i)
    ensures if m == n then run[m].ops[i] == GcLoaded(run[b].list, run[b].stamp)
            else run[m].ops[i] == GcTaking(run[b].list, run[b].stamp, run[n].now)
  {
    assert MovesAt(run, i, m);
    if m == n {
      Decides(run, b, i, n);
    } else {
      GcTakes(run, b, i, n, m);
    }
  }

  /** The effect of the last step of a gc call that has read the clock at `t`; `same` says
    whether the head is still the one it read first. */
  ghost predicate GcEffect(s: State, s': State, same: bool, t: nat) {
    if same && Due(s.top, t) then s'.freed == s.freed + s.list && s'.list == []
    else s'.freed == s.freed && s'.list == s.list
  }

  lemma GcEffectHolds(s: State, s': State, i: nat, lag: nat, list: seq<Entry>, stamp: nat, t: nat)
    requires Inv(s, lag) && i < |s.ops| && i < |s'.ops| && Moves(s, s', i) && s'.ops[i] == GcDone
    requires s.ops[i] == GcTaking(list, stamp, t) || (s.ops[i] == GcLoaded(list, stamp) && t == s.now)
    ensures GcEffect(s, s', HeadIs(s, list, stamp), t)
  {
    assert OpOk(s, i);
    if s.list != [] {
      ExpiredExactly(s.top, t);
    }
  }

  /** A whole call of gc: it begins at `b`, reads the clock at `n` and ends at `m`. It frees
    the whole list if the head is still the one of its beginning and the reading is due;
    otherwise it changes neither the list nor what is freed. */
  lemma GcFreesExactly(run: seq<State>, b: nat, i: nat, n: nat, m: nat)
    requires IsRun(run) && b < n <= m && m + 1 < |run| && Begins(run[b], run[b + 1], i)
    requires Reads(run, i, n) && run[n].ops[i].GcLoaded? && Ends(run, i, m)
    ensures var s, s' := run[m], run[m + 1];
      if SameHead(s, run[b]) && Due(s.top, run[n].now) then s'.freed == s.freed + s.list && s'.list == []
      else s'.freed == s.freed && s'.list == s.list
  {
    var lag := Anyway(run, m);
    CallCourse(run, b, i);
    GcEnds(run, b, i, n, m);
    GcEffectHolds(run[m], run[m + 1], i, lag, run[b].list, run[b].stamp, run[n].now);
  }

  // ---------------------------------------------------------------- retire

  /** Between its reading and its last access a retire call keeps the reading. */
  lemma {:induction false} RetireKeeps(run: seq<State>, b: nat, i: nat, n: nat, k: nat)
    requires Course(run, b, i) && b < n < k < |run| && Reads(run, i, n) && run[n].ops[i].Loaded?
    ensures i < |run[k].ops|
    ensures var op := run[k].ops[i];
      || op == Taking(run[b].list, run[b].stamp, run[n].now)
      || (op.Pushing? && op.t == run[n].now) || op.Linked?
  {
    if k == n + 1 {
      Decides(run, b, i, n);
    } else {
      RetireKeeps(run, b, i, n, k - 1);
      assert MovesAt(run, i, k - 1);
    }
  }

  /** The head did not change from `b` to `m`. */
  ghost predicate Undisturbed(run: seq<State>, b: nat, m: nat)
    requires b <= m < |run|
  {
    forall k :: b <= k <= m ==> SameHead(run[k], run[b])
  }

  /** As long as the head stays, a call that may take the list still tries to. */
  lemma {:induction false} RetireTakes(run: seq<State>, b: nat, i: nat, n: nat, k: nat)
    requires Course(run, b, i) && b < n < k < |run| && Reads(run, i, n) && run[n].ops[i].Loaded?
    requires Undisturbed(run, b, k)
    requires run[b].stamp < STAMPS && Expired(run[b].stamp, Stamp(run[n].now))
    ensures i < |run[k].ops|
    ensures run[k].ops[i] == Taking(run[b].list, run[b].stamp, run[n].now) || run[k].ops[i] == Linked
  {
    if k == n + 1 {
      Decides(run, b, i, n);
    } else {
      RetireTakes(run, b, i, n, k - 1);
      assert MovesAt(run, i, k - 1);
      assert SameHead(run[k - 1], run[b]);
    }
  }

  lemma TakingIsDue(s: State, i: nat, lag: nat)
    requires Inv(s, lag) && i < |s.ops| && s.ops[i].Taking? && s.list != []
    requires HeadIs(s, s.ops[i].list, s.ops[i].stamp)
    ensures Due(s.top, s.ops[i].t)
  {
    assert OpOk(s, i);
    ExpiredExactly(s.top, s.ops[i].t);
  }

  /** A whole call of retire: it begins at `b`, reads the clock at `n` and at `m` links its
    object with the stamp of that reading. It keeps the list it links over, or it frees
    that whole list, and this only if the head is the one it read and the reading is due. */
  lemma RetireFreesOnlyDue(run: seq<State>, b: nat, i: nat, n: nat, m: nat)
    requires IsRun(run) && b < n < m && m + 1 < |run| && Begins(run[b], run[b + 1], i)
    requires Reads(run, i, n) && run[n].ops[i].Loaded? && Ends(run, i, m)
    ensures var s, s' := run[m], run[m + 1];
      || (LinksOver(s, s', i, s.list, run[n].now) && s'.freed == s.freed)
      || (&& LinksOver(s, s', i, [], run[n].now) && s'.freed == s.freed + s.list
          && SameHead(s, run[b]) && (s.list != [] ==> Due(s.top, run[n].now)))
  {
    var lag := Anyway(run, m);
    CallCourse(run, b, i);
    RetireKeeps(run, b, i, n, m);
    assert MovesAt(run, i, m);
    var s := run[m];
    if s.ops[i].Taking? && HeadIs(s, s.ops[i].list, s.ops[i].stamp) && s.list != [] {
      TakingIsDue(s, i, lag);
    }
  }

  /** If nobody else changed the head during the call, it does free a list that is due. */
  lemma RetireFreesDue(run: seq<State>, b: nat, i: nat, n: nat, m: nat)
    requires IsRun(run) && b < n < m && m + 1 < |run| && Begins(run[b], run[b + 1], i)
    requires Reads(run, i, n) && run[n].ops[i].Loaded? && Ends(run, i, m)
    requires Undisturbed(run, b, m) && run[m].list != [] && Due(run[m].top, run[n].now)
    ensures var s, s' := run[m], run[m + 1];
      LinksOver(s, s', i, [], run[n].now) && s'.freed == s.freed + s.list
  {
    var lag := Anyway(run, m);
    ExpiredExactly(run[m].top, run[n].now);
    CallCourse(run, b, i);
    assert SameHead(run[m], run[b]);
    RetireTakes(run, b, i, n, m);
    assert MovesAt(run, i, m);
  }
}
