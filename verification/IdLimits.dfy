/** How many deallocations the versions of the id allocator bear. */
module IdLimits {
  import T = Tickets
  import opened IdProtocol
  import opened IdSteps
  import opened IdTheorems

  ghost predicate Bounded(run: seq<State>, bound: nat) {
    forall n :: 0 <= n < |run| ==> OvertakenLess(run[n], bound) && Roomy(run[n])
  }

  lemma Extend(run: seq<State>, s': State, i: nat, a: Action, bound: nat)
    requires IsRun(run) && Bounded(run, bound) && Step(run[|run| - 1], s', i, a)
    requires OvertakenLess(s', bound) && Roomy(s')
    ensures IsRun(run + [s']) && Bounded(run + [s'], bound)
  {
    var run' := run + [s'];
    forall n | 0 <= n < |run'| - 1
      ensures Next(run'[n], run'[n + 1])
    {
      if n < |run| - 1 {
        assert Next(run[n], run[n + 1]);
      } else {
        assert Step(run'[n], run'[n + 1], i, a);
      }
    }
  }

  // ------------------------------------- whole calls without interruption

  ghost predicate Sized(s: State) {
    s.max > 0 && |s.cells| == |s.place| == s.next <= s.max
  }

  /** allocate on an empty list. */
  function AfterFresh(s: State): State
    requires s.max > 0
  {
    s.(next := s.next + 1, cells := s.cells + [s.max - 1], place := s.place + [Live], ops := s.ops + [Done(s.next, 0)])
  }

  /** deallocate(v). */
  function AfterFree(s: State, v: nat): State
    requires v < |s.cells| && v < |s.place|
  {
    s.(cells := s.cells[v := s.head], head := v, version := s.version + 1, list := [v] + s.list,
       place := s.place[v := Free], ops := s.ops + [Freed(v)])
  }

  /** allocate from the list. */
  function AfterTake(s: State): State
    requires s.max > 0 && s.head < |s.cells| && s.head < |s.place| && s.list != []
  {
    s.(head := s.cells[s.head], cells := s.cells[s.head := s.max - 1], list := s.list[1..],
       place := s.place[s.head := Live], ops := s.ops + [Done(s.head, s.version)])
  }

  lemma FreshSteps(s: State, s1: State, s2: State)
    requires Sized(s) && s.head == s.max && s1 == s.(ops := s.ops + [AtTail])
    requires s2 == s.(next := s.next + 1, cells := s.cells + [0], place := s.place + [Transit(|s.ops|)],
                      ops := s.ops + [Taken(s.next, 0)])
    ensures Step(s, s1, 0, DoBeginAlloc) && Step(s1, s2, |s.ops|, DoFetchAdd(0))
    ensures Step(s2, AfterFresh(s), |s.ops|, DoStoreActive)
  {
    SmallValue(s.next, s.max + 1);
    assert s2.ops == s1.ops[|s.ops| := Taken(s.next, 0)];
    var s3 := AfterFresh(s);
    assert s3.ops == s2.ops[|s.ops| := Done(s.next, 0)];
    assert s3.cells == s2.cells[s.next := s.max - 1] && s3.place == s2.place[s.next := Live];
  }

  lemma RunFresh(run: seq<State>, bound: nat) returns (run': seq<State>)
    requires IsRun(run) && Bounded(run, bound)
    requires var s := run[|run| - 1]; Sized(s) && s.head == s.max && s.next < s.max
    ensures run[|run| - 1].max > 0 && IsRun(run') && Bounded(run', bound) && run'[0] == run[0]
    ensures run'[|run'| - 1] == AfterFresh(run[|run| - 1])
  {
    var s := run[|run| - 1];
    var s1 := s.(ops := s.ops + [AtTail]);
    var s2 := s.(next := s.next + 1, cells := s.cells + [0], place := s.place + [Transit(|s.ops|)],
                 ops := s.ops + [Taken(s.next, 0)]);
    FreshSteps(s, s1, s2);
    Extend(run, s1, 0, DoBeginAlloc, bound);
    var run1 := run + [s1];
    Extend(run1, s2, |s.ops|, DoFetchAdd(0), bound);
    var run2 := run1 + [s2];
    Extend(run2, AfterFresh(s), |s.ops|, DoStoreActive, bound);
    run' := run2 + [AfterFresh(s)];
  }

  lemma FreeSteps(s: State, v: nat, s1: State, s2: State)
    requires Sized(s) && v < s.next && s.place[v] == Live
    requires s1 == s.(place := s.place[v := Transit(|s.ops|)], ops := s.ops + [FreeLoaded(v, s.head, s.version)])
    requires s2 == s1.(cells := s.cells[v := s.head], ops := s.ops + [FreeStored(v, s.head, s.version)])
    ensures Step(s, s1, 0, DoBeginFree(v)) && Step(s1, s2, |s.ops|, DoStoreNext)
    ensures Step(s2, AfterFree(s, v), |s.ops|, DoPush)
  {
    assert s2.ops == s1.ops[|s.ops| := FreeStored(v, s.head, s.version)];
    var s3 := AfterFree(s, v);
    assert s3.ops == s2.ops[|s.ops| := Freed(v)] && s3.place == s2.place[v := Free];
  }

  lemma RunFree(run: seq<State>, v: nat, bound: nat) returns (run': seq<State>)
    requires IsRun(run) && Bounded(run, bound) && bound > 0
    requires var s := run[|run| - 1]; Sized(s) && v < s.next && s.place[v] == Live
    requires OvertakenLess(run[|run| - 1].(version := run[|run| - 1].version + 1), bound)
    ensures v < |run[|run| - 1].cells| == |run[|run| - 1].place|
    ensures IsRun(run') && Bounded(run', bound) && run'[0] == run[0]
    ensures run'[|run'| - 1] == AfterFree(run[|run| - 1], v)
  {
    var s := run[|run| - 1];
    var s1 := s.(place := s.place[v := Transit(|s.ops|)], ops := s.ops + [FreeLoaded(v, s.head, s.version)]);
    var s2 := s1.(cells := s.cells[v := s.head], ops := s.ops + [FreeStored(v, s.head, s.version)]);
    FreeSteps(s, v, s1, s2);
    assert Bounded(run, bound) ==> OvertakenLess(s, bound) && Roomy(s);
    Extend(run, s1, 0, DoBeginFree(v), bound);
    var run1 := run + [s1];
    Extend(run1, s2, |s.ops|, DoStoreNext, bound);
    var run2 := run1 + [s2];
    Extend(run2, AfterFree(s, v), |s.ops|, DoPush, bound);
    run' := run2 + [AfterFree(s, v)];
  }

  lemma TakeSteps(s: State, s1: State, s2: State, s3: State)
    requires Sized(s) && s.list != [] && s.head < s.next
    requires s1 == s.(ops := s.ops + [Loaded(s.head, s.version)])
    requires s2 == s.(ops := s.ops + [Read(s.head, s.version, s.cells[s.head])])
    requires s3 == s.(head := s.cells[s.head], list := s.list[1..], place := s.place[s.head := Transit(|s.ops|)],
                      ops := s.ops + [Taken(s.head, s.version)])
    ensures Step(s, s1, 0, DoBeginAlloc) && Step(s1, s2, |s.ops|, DoReadNext)
    ensures Step(s2, s3, |s.ops|, DoPop) && Step(s3, AfterTake(s), |s.ops|, DoStoreActive)
  {
    assert s2.ops == s1.ops[|s.ops| := s2.ops[|s.ops|]];
    assert s3.ops == s2.ops[|s.ops| := s3.ops[|s.ops|]];
    var s4 := AfterTake(s);
    assert s4.ops == s3.ops[|s.ops| := Done(s.head, s.version)] && s4.place == s3.place[s.head := Live];
  }

  lemma RunTake(run: seq<State>, bound: nat) returns (run': seq<State>)
    requires IsRun(run) && Bounded(run, bound) && bound > 0
    requires var s := run[|run| - 1]; Sized(s) && s.list != [] && s.head < s.next
    ensures var s := run[|run| - 1]; s.max > 0 && s.head < |s.cells| == |s.place|
    ensures IsRun(run') && Bounded(run', bound) && run'[0] == run[0]
    ensures run'[|run'| - 1] == AfterTake(run[|run| - 1])
  {
    var s := run[|run| - 1];
    var s1 := s.(ops := s.ops + [Loaded(s.head, s.version)]);
    var s2 := s.(ops := s.ops + [Read(s.head, s.version, s.cells[s.head])]);
    var s3 := s.(head := s.cells[s.head], list := s.list[1..], place := s.place[s.head := Transit(|s.ops|)],
                 ops := s.ops + [Taken(s.head, s.version)]);
    TakeSteps(s, s1, s2, s3);
    assert Bounded(run, bound) ==> OvertakenLess(s, bound) && Roomy(s);
    Extend(run, s1, 0, DoBeginAlloc, bound);
    var run1 := run + [s1];
    Extend(run1, s2, |s.ops|, DoReadNext, bound);
    var run2 := run1 + [s2];
    Extend(run2, s3, |s.ops|, DoPop, bound);
    var run3 := run2 + [s3];
    Extend(run3, AfterTake(s), |s.ops|, DoStoreActive, bound);
    run' := run3 + [AfterTake(s)];
  }

  // ------------------------------------------------------------ wrap-around

  /** One id, live, after `k` deallocations. */
  ghost predicate Cycled(s: State, max: nat, k: nat) {
    && max > 0 && s == State(max, 1, max, k, [max - 1], s.ops, [], [Live])
    && |s.ops| > 0 && s.ops[0] == Done(0, 0) && s.ops[|s.ops| - 1] == Done(0, k)
    && (forall i :: 0 <= i < |s.ops| ==> !Pending(s.ops[i]))
  }

  lemma {:induction false} CycleRun(max: nat, k: nat) returns (run: seq<State>)
    requires max >= 2
    ensures IsRun(run) && Bounded(run, max + 1) && run[0].max == max && Cycled(run[|run| - 1], max, k)
    ensures |run[|run| - 1].ops| == 2 * k + 1
  {
    if k == 0 {
      run := [State(max, 0, max, 0, [], [], [], [])];
      run := RunFresh(run, max + 1);
    } else {
      run := CycleRun(max, k - 1);
      run := RunFree(run, 0, max + 1);
      run := RunTake(run, max + 1);
    }
  }

  /** One deallocation more than `max`, and an execution returns the same id twice with
    the same version, although nothing was lapped. */
  lemma WrapRepeats(max: nat) returns (run: seq<State>)
    requires max >= 2
    ensures IsRun(run) && Bounded(run, max + 1) && run[0].max == max && run[|run| - 1].version == max + 1
    ensures !WordsDistinct(run[|run| - 1])
  {
    run := CycleRun(max, max + 1);
    var s := run[|run| - 1];
    T.DivModUnique(max + 1, max + 1, 1, 0);
    SmallValue(0, max + 1);
    assert s.ops[0] == Done(0, 0) && s.ops[|s.ops| - 1] == Done(0, max + 1);
  }

  lemma {:induction false} MaxFixed(run: seq<State>, n: nat)
    requires IsRun(run) && n < |run|
    ensures run[n].max == run[0].max
  {
    if n > 0 {
      MaxFixed(run, n - 1);
      assert Next(run[n - 1], run[n - 1 + 1]);
      var i, a :| Step(run[n - 1], run[n], i, a);
    }
  }

  lemma BoundedOrderly(run: seq<State>, bound: nat)
    requires IsRun(run) && Bounded(run, bound) && bound <= run[0].max + 1
    ensures Orderly(run)
  {
    forall n | 0 <= n < |run|
      ensures NotLapped(run[n])
    {
      MaxFixed(run, n);
    }
  }

  /** An execution with nothing lapped and at most `n` deallocations. */
  ghost predicate Deallocates(run: seq<State>, max: nat, n: nat) {
    IsRun(run) && run[0].max == max && Bounded(run, max + 1) && run[|run| - 1].version <= n
  }

  /** Results stay distinct, as callers see them, in all executions with at most
    `deallocations` deallocations and nothing lapped exactly when those are at most
    `max`. */
  lemma DistinctExactlyBelowWrap(max: nat, deallocations: nat)
    requires max >= 2
    ensures (forall run: seq<State> :: Deallocates(run, max, deallocations) ==> WordsDistinct(run[|run| - 1]))
            <==> deallocations <= max
  {
    if deallocations <= max {
      forall run: seq<State> | Deallocates(run, max, deallocations)
        ensures WordsDistinct(run[|run| - 1])
      {
        BoundedOrderly(run, max + 1);
        MaxFixed(run, |run| - 1);
        VersionsUnwrapped(run, |run| - 1);
      }
    } else {
      var run := WrapRepeats(max);
      assert Deallocates(run, max, deallocations);
    }
  }

  // --------------------------------------------------------------- a lap

  /** Operation 4 has read that id 0 is followed by id 1, at version 2; since then both
    ids have been taken, and id 0 deallocated and taken over and over. */
  ghost predicate Paused(s: State, max: nat, version: nat) {
    && max > 0 && s == State(max, 2, max, version, [max - 1, max - 1], s.ops, [], [Live, Live])
    && |s.ops| > 4 && s.ops[4] == Read(0, 2, 1)
    && (forall i :: 0 <= i < |s.ops| && i != 4 ==> !Pending(s.ops[i]))
  }

  /** Ids 0 and 1 are in the list, in this order. */
  lemma TwoFree(max: nat, bound: nat) returns (run: seq<State>)
    requires max >= 3 && bound > 2
    ensures IsRun(run) && Bounded(run, bound) && run[0].max == max
    ensures run[|run| - 1] == State(max, 2, 0, 2, [1, max],
              [Done(0, 0), Done(1, 0), Freed(1), Freed(0)], [0, 1], [Free, Free])
  {
    run := [State(max, 0, max, 0, [], [], [], [])];
    run := RunFresh(run, bound);
    run := RunFresh(run, bound);
    assert run[|run| - 1] == State(max, 2, max, 0, [max - 1, max - 1], [Done(0, 0), Done(1, 0)], [], [Live, Live]);
    run := RunFree(run, 1, bound);
    assert run[|run| - 1] ==
      State(max, 2, 1, 1, [max - 1, max], [Done(0, 0), Done(1, 0), Freed(1)], [1], [Live, Free]);
    run := RunFree(run, 0, bound);
  }

  /** Operation 4 loads the head and reads its successor. */
  lemma ReadAndPause(max: nat, bound: nat) returns (run: seq<State>)
    requires max >= 3 && bound > 2
    ensures IsRun(run) && Bounded(run, bound) && run[0].max == max
    ensures run[|run| - 1] == State(max, 2, 0, 2, [1, max],
              [Done(0, 0), Done(1, 0), Freed(1), Freed(0), Read(0, 2, 1)], [0, 1], [Free, Free])
  {
    run := TwoFree(max, bound);
    var s := run[|run| - 1];
    var s1 := s.(ops := s.ops + [Loaded(0, 2)]);
    var s2 := s.(ops := s.ops + [Read(0, 2, 1)]);
    assert Step(s, s1, 0, DoBeginAlloc);
    Extend(run, s1, 0, DoBeginAlloc, bound);
    run := run + [s1];
    assert s2.ops == s1.ops[4 := Read(0, 2, 1)];
    assert Step(s1, s2, 4, DoReadNext);
    Extend(run, s2, 4, DoReadNext, bound);
    run := run + [s2];
  }

  lemma {:induction false} PausedRun(max: nat, k: nat, bound: nat) returns (run: seq<State>)
    requires max >= 3 && bound > k
    requires bound > 2
    ensures IsRun(run) && Bounded(run, bound) && run[0].max == max && Paused(run[|run| - 1], max, k + 2)
  {
    if k == 0 {
      run := ReadAndPause(max, bound);
      run := RunTake(run, bound);
      run := RunTake(run, bound);
    } else {
      run := PausedRun(max, k - 1, bound);
      run := RunFree(run, 0, bound);
      run := RunTake(run, bound);
    }
  }

  ghost predicate LiveHead(s: State) {
    s.head < |s.place| && s.place[s.head] == Live
  }

  /** Overtaken by exactly `max + 1` deallocations, the paused operation passes its
    comparison and puts an id at the head of the list that a caller holds. */
  lemma LapHandsOutLive(max: nat) returns (run: seq<State>)
    requires max >= 3
    ensures IsRun(run) && Bounded(run, max + 2) && run[0].max == max && LiveHead(run[|run| - 1])
  {
    run := PausedRun(max, max, max + 2);
    run := RunFree(run, 0, max + 2);
    var s := run[|run| - 1];
    var s' := s.(head := 1, list := [], place := [Transit(4), Live], ops := s.ops[4 := Taken(0, 2)]);
    T.DivModUnique(max + 1, max + 3, 1, 2);
    SmallValue(2, max + 1);
    assert Pop(s, s', 4);
    assert Step(s, s', 4, DoPop);
    Extend(run, s', 4, DoPop, max + 2);
    run := run + [s'];
  }

  /** The head is never a live id in executions whose operations are overtaken by fewer
    than `bound` deallocations, exactly when `bound` is at most `max + 1`. */
  lemma FreeHeadExactlyBelowLap(max: nat, bound: nat)
    requires max >= 3
    ensures (forall run: seq<State> :: IsRun(run) && run[0].max == max && Bounded(run, bound) ==>
               !LiveHead(run[|run| - 1]))
            <==> bound <= max + 1
  {
    if bound <= max + 1 {
      forall run: seq<State> | IsRun(run) && run[0].max == max && Bounded(run, bound)
        ensures !LiveHead(run[|run| - 1])
      {
        BoundedOrderly(run, bound);
        RunKeeps(run, |run| - 1);
      }
    } else {
      var run := LapHandsOutLive(max);
      assert Bounded(run, bound);
    }
  }

  // ----------------------------------------------------------- the flag id

  /** `k` live ids. */
  lemma {:induction false} FreshRun(max: nat, k: nat) returns (run: seq<State>)
    requires max >= 2 && k <= max
    ensures IsRun(run) && Bounded(run, max + 1) && run[0].max == max
    ensures var s := run[|run| - 1];
      && s == State(max, k, max, 0, seq(k, _ => max - 1), s.ops, [], seq(k, _ => Live))
      && (forall i :: 0 <= i < |s.ops| ==> s.ops[i].Done?)
  {
    if k == 0 {
      run := [State(max, 0, max, 0, [], [], [], [])];
    } else {
      run := FreshRun(max, k - 1);
      var s := run[|run| - 1];
      run := RunFresh(run, max + 1);
      assert run[|run| - 1].cells == seq(k, _ => max - 1) && run[|run| - 1].place == seq(k, _ => Live);
    }
  }

  /** Once the flag value is itself an id, a free id in front of it looks live. */
  lemma FlagIdMisleads(max: nat) returns (run: seq<State>)
    requires max >= 2
    ensures Quiesces(run, max, max) && !FlagsLive(run[|run| - 1])
  {
    run := FreshRun(max, max);
    run := RunFree(run, max - 1, max + 1);
    run := RunFree(run, 0, max + 1);
    var s := run[|run| - 1];
    assert s.cells[0] == max - 1 && s.place[0] == Free;
  }

  /** An orderly execution with at most `n` ids that ends with no operation in progress. */
  ghost predicate Quiesces(run: seq<State>, max: nat, n: nat) {
    && IsRun(run) && run[0].max == max && Bounded(run, max + 1)
    && Quiet(run[|run| - 1]) && run[|run| - 1].next <= n
  }

  /** The flag marks exactly the live ids whenever no operation is in progress, exactly
    when there are fewer than `max` ids. */
  lemma FlagExactlyBelowItself(max: nat, ids: nat)
    requires max >= 2
    ensures (forall run: seq<State> :: Quiesces(run, max, ids) ==> FlagsLive(run[|run| - 1])) <==> ids < max
  {
    if ids < max {
      forall run: seq<State> | Quiesces(run, max, ids)
        ensures FlagsLive(run[|run| - 1])
      {
        BoundedOrderly(run, max + 1);
        MaxFixed(run, |run| - 1);
        ActiveIsLive(run, |run| - 1);
      }
    } else {
      var run := FlagIdMisleads(max);
      assert Quiesces(run, max, ids);
    }
  }
}
