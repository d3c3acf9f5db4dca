/** What every execution of the id allocator guarantees. */
module IdTheorems {
  import opened Sequences
  import T = Tickets
  import L = LiveIds
  import opened IdProtocol
  import opened IdSteps

  lemma {:induction false} RunKeeps(run: seq<State>, n: nat)
    requires IsRun(run) && Orderly(run) && n < |run|
    ensures Inv(run[n])
  {
    if n > 0 {
      RunKeeps(run, n - 1);
      assert Next(run[n - 1], run[n - 1 + 1]);
      var i, a :| Step(run[n - 1], run[n], i, a);
      assert NotLapped(run[n - 1]) && Roomy(run[n]);
      StepKeeps(run[n - 1], run[n], i, a);
    } else {
      assert Roomy(run[0]);
    }
  }

  /** The ids met by following the cells from `v`, for at most `fuel` steps. */
  function Follow(cells: seq<nat>, v: nat, fuel: nat): seq<nat>
    decreases fuel
  {
    if v >= |cells| || fuel == 0 then [] else [v] + Follow(cells, cells[v], fuel - 1)
  }

  lemma {:induction false} FollowList(max: nat, cells: seq<nat>, list: seq<nat>, fuel: nat)
    requires Linked(max, cells, list) && Distinct(list) && |cells| <= max && |list| <= fuel
    ensures Follow(cells, First(max, list), fuel) == list
    decreases |list|
  {
    if list != [] {
      ListTail(max, cells, list);
      assert cells[list[0]] == First(max, list[0 + 1..]);
      FollowList(max, cells, list[1..], fuel - 1);
    }
  }

  lemma ListFits(s: State)
    requires Inv(s)
    ensures |s.list| <= s.next
  {
    var values: seq<int> := seq(|s.list|, k requires 0 <= k < |s.list| => s.list[k]);
    T.Pigeonhole(values, s.next);
  }

  /** Exactly one of: free, with a caller, or in the hands of one operation. */
  ghost predicate OneHolder(s: State, v: nat) {
    && v < |s.place|
    && (v in s.list <==> s.place[v] == Free)
    && (forall i :: 0 <= i < |s.ops| && HoldsId(s.ops[i]) && s.ops[i].v == v ==> s.place[v] == Transit(i))
    && (s.place[v].Transit? ==> HeldBy(s.place, s.ops, v))
  }

  ghost predicate ResultsDistinct(s: State) {
    forall i, j :: 0 <= i < j < |s.ops| && s.ops[i].Done? && s.ops[j].Done? ==>
      s.ops[i].v != s.ops[j].v || s.ops[i].g != s.ops[j].g
  }

  /** Safety of every execution in which ids and versions stay in range: the free list
    is acyclic (however long one follows the cells from the head, one meets its ids once
    and is then at the end), every id below `end()` is in exactly one place, and no id is
    returned twice with the same version. */
  lemma IdSafety(run: seq<State>, n: nat)
    requires IsRun(run) && Orderly(run) && n < |run|
    ensures var s := run[n];
            Distinct(s.list) && forall fuel: nat :: fuel >= s.next ==> Follow(s.cells, s.head, fuel) == s.list
    ensures forall v :: 0 <= v < run[n].next ==> OneHolder(run[n], v)
    ensures ResultsDistinct(run[n])
  {
    RunKeeps(run, n);
    var s := run[n];
    ListFits(s);
    forall fuel: nat | fuel >= s.next
      ensures Follow(s.cells, s.head, fuel) == s.list
    {
      FollowList(s.max, s.cells, s.list, fuel);
    }
    forall v | 0 <= v < s.next
      ensures OneHolder(s, v)
    {
      assert HeldBy(s.place, s.ops, v);
      forall i | 0 <= i < |s.ops| && HoldsId(s.ops[i]) && s.ops[i].v == v
        ensures s.place[v] == Transit(i)
      {
        assert OpOk(s, i);
      }
    }
  }

  /** As callers see them, with versions cut to the width of the id type, results are
    distinct while fewer than `max + 1` deallocations have completed. */
  ghost predicate WordsDistinct(s: State) {
    forall i, j :: 0 <= i < j < |s.ops| && s.ops[i].Done? && s.ops[j].Done? ==>
      s.ops[i].v != s.ops[j].v || s.ops[i].g % (s.max + 1) != s.ops[j].g % (s.max + 1)
  }

  lemma VersionsUnwrapped(run: seq<State>, n: nat)
    requires IsRun(run) && Orderly(run) && n < |run| && run[n].version <= run[n].max
    ensures WordsDistinct(run[n])
  {
    RunKeeps(run, n);
    var s := run[n];
    forall i, j | 0 <= i < j < |s.ops| && s.ops[i].Done? && s.ops[j].Done?
      ensures s.ops[i].v != s.ops[j].v || s.ops[i].g % (s.max + 1) != s.ops[j].g % (s.max + 1)
    {
      assert IssueOk(s, s.ops[i]) && IssueOk(s, s.ops[j]);
      SmallValue(s.ops[i].g, s.max + 1);
      SmallValue(s.ops[j].g, s.max + 1);
    }
  }

  /** The active flag marks exactly the live ids. */
  ghost predicate FlagsLive(s: State) {
    |s.cells| == |s.place| && forall v :: 0 <= v < |s.place| ==> (s.cells[v] == s.max - 1 <==> s.place[v] == Live)
  }

  /** No operation holds an id. */
  ghost predicate Quiet(s: State) {
    forall i :: 0 <= i < |s.ops| ==> !HoldsId(s.ops[i])
  }

  /** So it is with no operation in progress, while the flag itself is not an id. */
  lemma ActiveIsLive(run: seq<State>, n: nat)
    requires IsRun(run) && Orderly(run) && n < |run| && Quiet(run[n]) && run[n].next < run[n].max
    ensures FlagsLive(run[n]) && |run[n].cells| == run[n].next
  {
    RunKeeps(run, n);
    var s := run[n];
    forall v | 0 <= v < |s.place|
      ensures s.cells[v] == s.max - 1 <==> s.place[v] == Live
    {
      assert HeldBy(s.place, s.ops, v);
      if s.place[v] == Free {
        assert v in s.list;
        var k :| 0 <= k < |s.list| && s.list[k] == v;
        assert s.cells[v] == First(s.max, s.list[k + 1..]);
        if k + 1 < |s.list| {
          assert s.list[k + 1] < s.next;
        }
      }
    }
  }

  /** With no operation in progress the runs of active cells hold exactly the live ids. */
  lemma ReportedIsLive(run: seq<State>, n: nat, spans: seq<L.Span>, v: nat)
    requires IsRun(run) && Orderly(run) && n < |run| && Quiet(run[n]) && v < run[n].next < run[n].max
    requires L.RunsOf(run[n].cells, run[n].max - 1, spans)
    ensures v < |run[n].place| && (L.Covered(spans, v) <==> run[n].place[v] == Live)
  {
    ActiveIsLive(run, n);
    if L.Covered(spans, v) {
      var k :| 0 <= k < |spans| && spans[k].lo <= v < spans[k].hi;
      assert L.Maximal(run[n].cells, run[n].max - 1, spans[k]);
    }
  }
}
