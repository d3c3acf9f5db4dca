/** When `contains` can be trusted, and when results are aligned. */
module ArenaLimits {
  import opened Tickets
  import opened Powers
  import opened ArenaLayout
  import opened ArenaState
  import opened Arena
  import opened ArenaTheorems

  /** `contains` is true of held memory only. */
  ghost predicate Truthful(s: State) {
    forall ptr: nat :: Owns(s, ptr) ==> InHeld(s.held, ptr)
  }

  /** The bump offset has not left the current page. */
  predicate InPage(s: State) {
    s.pageLists != [] ==> s.lastAllocated <= s.pageSize
  }

  /** No request asks for more than `bound`. */
  ghost predicate AlignedWithin(calls: seq<Call>, bound: nat) {
    forall i :: 0 <= i < |calls| && calls[i].Get? ==> calls[i].alignment <= bound
  }

  /** Below twice a power of two there is no larger power of two. */
  lemma {:induction false} NoPow2Between(a: nat, p: nat)
    requires IsPow2(a) && IsPow2(p) && a < 2 * p
    ensures a <= p
  {
    if a > 1 && p > 1 {
      NoPow2Between(a / 2, p / 2);
    }
  }

  lemma AlignInPage(s: State, alignment: nat)
    requires PageSizeOk(s.pageSize) && InPage(s) && IsPow2(alignment) && alignment <= s.pageSize
    ensures InPage(Align(s, alignment))
  {
    if s.pageLists != [] {
      Pow2Divides(alignment, s.pageSize);
      AlignUpLeast(s.lastAllocated, alignment, s.pageSize);
    }
  }

  lemma ChoiceInPage(s: State, s': State, r: Region, extra: nat, bytes: nat, alignment: nat, use: Use)
    requires PageSizeOk(s.pageSize) && InPage(s) && IsPow2(alignment) && alignment <= s.pageSize
    requires Choice(s, s', r, extra, bytes, alignment, use)
    ensures InPage(s') && s'.pageSize == s.pageSize
  {
    AlignInPage(s, alignment);
    if bytes + PAGE_LIST_BYTES <= s.pageSize {
      AlignedRoom(s.pageSize, bytes);
    }
  }

  lemma StepInPage(s: State, c: Call, s': State)
    requires PageSizeOk(s.pageSize) && InPage(s) && Step(s, c, s')
    requires c.Get? ==> c.alignment <= s.pageSize
    ensures InPage(s') && s'.pageSize == s.pageSize
  {
    if c.Get? {
      ChoiceInPage(s, s', c.r, c.extra, c.bytes, c.alignment, User);
    } else if s.taskLists == [] || |s.taskLists[0].tasks| >= LIST_CAPACITY {
      assert IsPow2(LIST_ALIGN);
      ChoiceInPage(s, c.mid, c.r, c.extra, TASK_LIST_BYTES, LIST_ALIGN, Bookkeeping);
    }
  }

  lemma {:induction false} RunInPage(states: seq<State>, calls: seq<Call>, n: nat)
    requires Run(states, calls) && n <= |calls| && AlignedWithin(calls, states[0].pageSize)
    ensures InPage(states[n]) && states[n].pageSize == states[0].pageSize
  {
    if n > 0 {
      RunInPage(states, calls, n - 1);
      assert CallAt(states, calls, n - 1);
      StepInPage(states[n - 1], calls[n - 1], states[n]);
    }
  }

  /** Without over-aligned requests `contains` is truthful. */
  lemma ContainsTruthful(states: seq<State>, calls: seq<Call>)
    requires Run(states, calls) && AlignedWithin(calls, states[0].pageSize)
    ensures Truthful(states[|calls|])
  {
    RunKeeps(states, calls);
    RunInPage(states, calls, |calls|);
    var s := states[|calls|];
    forall ptr: nat | Owns(s, ptr)
      ensures InHeld(s.held, ptr)
    {
      OwnsOutside(s, ptr);
    }
  }

  // ------------------------------------------------- an over-aligned request

  // The states of runs over pages of p bytes: first a page's worth at p, with its list in
  // an additional page at 2p.
  function Full0(p: nat): State { State(p, map[], map[], [], 0, NO_PAGE, 0, 0, [], [], []) }
  function Full1(p: nat): State { ListInExtraPage(Full0(p), p, 2 * p, p, User) }

  lemma FullStart(p: nat)
    requires PageSizeOk(p)
    ensures Step(Full0(p), Get(p, 1, Region(p, 0, p, User), 2 * p), Full1(p))
  {
    assert IsPow2(1);
    DivModUnique(p, p, 1, 0);
    DivModUnique(p, 2 * p, 2, 0);
    DivModUnique(1, NO_PAGE, NO_PAGE, 0);
    assert Align(Full0(p), 1) == Full0(p);
    assert ExtraIfNeeded(Full0(p), p, 2 * p, p);
  }

  lemma Doubled2(p: nat)
    requires PageSizeOk(p)
    ensures IsPow2(2 * p) && AlignUp(PAGE_LIST_BYTES, 2 * p) == 2 * p
  {
    DivModUnique(2 * p, 2 * p, 1, 0);
    AlignUpLeast(PAGE_LIST_BYTES, 2 * p, 2 * p);
    NoMultipleBelow(AlignUp(PAGE_LIST_BYTES, 2 * p), 2 * p);
  }

  /** The offset moves to 2p in a page of p bytes, and the request goes to a block at 8p. */
  function Full2(p: nat): State
    requires p > 0
  {
    InBlock(Full1(p).(lastAllocated := 2 * p), 8 * p, p, 2 * p, User)
  }

  lemma FullEnd(p: nat)
    requires PageSizeOk(p)
    ensures Step(Full1(p), Get(p, 2 * p, Region(8 * p, 0, p, User), 0), Full2(p))
  {
    Doubled2(p);
    DivModUnique(2 * p, 8 * p, 4, 0);
    assert Align(Full1(p), 2 * p) == Full1(p).(lastAllocated := 2 * p);
  }

  lemma FullHeld(p: nat)
    requires PageSizeOk(p)
    ensures BlocksApart(Full2(p).held) && !InHeld(Full2(p).held, 3 * p) && Owns(Full2(p), 3 * p)
  {
    var s := Full2(p);
    assert s.lastPage == 2 * p && s.lastAllocated == 2 * p && s.pageLists != [];
    assert s.held.Keys == {p, 2 * p, 8 * p} && s.held[p] == p && s.held[2 * p] == p;
    assert 2 * p in s.held && Reach(s, 2 * p) == 2 * p;
  }

  /** After two positive requests, the second aligned to twice the page size, `contains`
    is true of a byte that nobody holds. */
  lemma OverAlignedDeceives(p: nat) returns (states: seq<State>, calls: seq<Call>)
    requires PageSizeOk(p)
    ensures Run(states, calls) && states[0].pageSize == p && AlignedWithin(calls, 2 * p)
    ensures forall i :: 0 <= i < |calls| ==> calls[i].Get? && calls[i].bytes > 0
    ensures BlocksApart(states[|calls|].held) && !Truthful(states[|calls|])
  {
    var c0 := Get(p, 1, Region(p, 0, p, User), 2 * p);
    var c1 := Get(p, 2 * p, Region(8 * p, 0, p, User), 0);
    FullStart(p);
    FullEnd(p);
    FullHeld(p);
    assert Run([Full0(p)], []);
    Append([Full0(p)], [], c0, Full1(p));
    Append([Full0(p)] + [Full1(p)], [] + [c0], c1, Full2(p));
    states, calls := [Full0(p)] + [Full1(p)] + [Full2(p)], [] + [c0] + [c1];
  }

  ghost predicate RunWithin(states: seq<State>, calls: seq<Call>, pageSize: nat, bound: nat) {
    Run(states, calls) && states[0].pageSize == pageSize && AlignedWithin(calls, bound)
  }

  lemma WithinPage(states: seq<State>, calls: seq<Call>, pageSize: nat, bound: nat)
    requires RunWithin(states, calls, pageSize, bound) && bound < 2 * pageSize
    ensures AlignedWithin(calls, pageSize)
  {
    forall i | 0 <= i < |calls| && calls[i].Get?
      ensures calls[i].alignment <= pageSize
    {
      assert CallAt(states, calls, i);
      NoPow2Between(calls[i].alignment, pageSize);
    }
  }

  /** For every page size: `contains` is truthful after all runs whose requests ask for
    alignments up to `bound` if and only if `bound` is below twice the page size, that is,
    if it admits no alignment above the page size. */
  lemma TruthfulExactlyInPage(pageSize: nat, bound: nat)
    requires PageSizeOk(pageSize)
    ensures (forall states: seq<State>, calls: seq<Call> ::
               RunWithin(states, calls, pageSize, bound) ==> Truthful(states[|calls|]))
            <==> bound < 2 * pageSize
  {
    if bound < 2 * pageSize {
      forall states: seq<State>, calls: seq<Call> | RunWithin(states, calls, pageSize, bound)
        ensures Truthful(states[|calls|])
      {
        WithinPage(states, calls, pageSize, bound);
        ContainsTruthful(states, calls);
      }
    } else {
      var states, calls := OverAlignedDeceives(pageSize);
      assert RunWithin(states, calls, pageSize, bound);
    }
  }

  // --------------------------------------------------- zero-byte requests

  /** A zero-byte request aligned to 2p moves the offset to 2p and gets a block at 8p; the
    next zero-byte request gets a page at 13p and leaves it empty. */
  function Bare2(p: nat): State
    requires p > 0
  {
    InBlock(Full1(p).(lastAllocated := 2 * p), 8 * p, 0, 2 * p, User)
  }

  function Bare3(p: nat): State
    requires p > 0
  {
    InListedPage(Bare2(p), 13 * p, 0, User)
  }

  /** An empty current page that is not aligned to twice the page size. */
  ghost predicate EmptyOddPage(s: State, p: nat) {
    s.pageSize == p && s.pageLists != [] && s.lastPage == 13 * p && s.lastAllocated == 0
  }

  lemma BareMiddle(p: nat)
    requires PageSizeOk(p)
    ensures Step(Full1(p), Get(0, 2 * p, Region(8 * p, 0, 0, User), 0), Bare2(p))
  {
    Doubled2(p);
    DivModUnique(2 * p, 8 * p, 4, 0);
    assert Align(Full1(p), 2 * p) == Full1(p).(lastAllocated := 2 * p);
  }

  lemma BareEnd(p: nat)
    requires PageSizeOk(p)
    ensures Step(Bare2(p), Get(0, 1, Region(13 * p, 0, 0, User), 0), Bare3(p)) && EmptyOddPage(Bare3(p), p)
  {
    assert IsPow2(1);
    DivModUnique(p, 13 * p, 13, 0);
    DivModUnique(1, 2 * p, 2 * p, 0);
    var s := Bare2(p);
    assert s.lastAllocated == 2 * p && s.pageLists == [PageList(2 * p, 0, [2 * p, p])];
    assert s.held.Keys == {p, 2 * p, 8 * p};
    assert Align(s, 1) == s;
    assert ExtraIfNeeded(s, 13 * p, 0, 0);
  }

  lemma BareRun(p: nat) returns (states: seq<State>, calls: seq<Call>)
    requires PageSizeOk(p)
    ensures Run(states, calls) && states[0].pageSize == p && |calls| == 3 && AlignedWithin(calls, 2 * p)
    ensures EmptyOddPage(states[3], p)
  {
    var c0 := Get(p, 1, Region(p, 0, p, User), 2 * p);
    var c1 := Get(0, 2 * p, Region(8 * p, 0, 0, User), 0);
    var c2 := Get(0, 1, Region(13 * p, 0, 0, User), 0);
    FullStart(p);
    BareMiddle(p);
    BareEnd(p);
    assert Run([Full0(p)], []);
    Append([Full0(p)], [], c0, Full1(p));
    Append([Full0(p)] + [Full1(p)], [] + [c0], c1, Bare2(p));
    Append([Full0(p)] + [Full1(p)] + [Bare2(p)], [] + [c0] + [c1], c2, Bare3(p));
    states, calls := [Full0(p)] + [Full1(p)] + [Bare2(p)] + [Bare3(p)], [] + [c0] + [c1] + [c2];
  }

  ghost predicate ResultAligned(c: Call) {
    c.Get? ==> c.alignment > 0 && c.r.Start() % c.alignment == 0
  }

  lemma OddMultiple(p: nat)
    requires p > 0
    ensures (13 * p) % (2 * p) == p
  {
    DivModUnique(2 * p, 13 * p, 6, p);
  }

  /** An over-aligned request on an empty page gets the start of that page. */
  lemma EmptyPageStep(s: State, p: nat)
    requires PageSizeOk(p) && EmptyOddPage(s, p)
    ensures Step(s, Get(p, 2 * p, Region(13 * p, 0, p, User), 0), InCurrentPage(s, p, User))
  {
    Doubled2(p);
    AlignUpZero(2 * p);
    assert Align(s, 2 * p) == s;
  }

  lemma ZeroBytesMisalign(p: nat) returns (states: seq<State>, calls: seq<Call>)
    requires PageSizeOk(p)
    ensures Run(states, calls) && states[0].pageSize == p && AlignedWithin(calls, 2 * p)
    ensures |calls| == 4 && !ResultAligned(calls[3])
  {
    states, calls := BareRun(p);
    var c := Get(p, 2 * p, Region(13 * p, 0, p, User), 0);
    var s := InCurrentPage(states[3], p, User);
    EmptyPageStep(states[3], p);
    Append(states, calls, c, s);
    states, calls := states + [s], calls + [c];
    OddMultiple(p);
  }

  /** Every request asks for at least `least` bytes and an alignment of at most `bound`. */
  ghost predicate AskedWithin(states: seq<State>, calls: seq<Call>, pageSize: nat, least: nat, bound: nat) {
    && RunWithin(states, calls, pageSize, bound)
    && forall i :: 0 <= i < |calls| && calls[i].Get? ==> calls[i].bytes >= least
  }

  lemma ModestAligned(states: seq<State>, calls: seq<Call>, n: nat)
    requires Run(states, calls) && AlignedWithin(calls, states[0].pageSize) && n < |calls|
    ensures ResultAligned(calls[n])
  {
    RunPrefix(states, calls, n);
    RunKeeps(states[..n + 1], calls[..n]);
    RunInPage(states, calls, n);
    assert CallAt(states, calls, n);
    StepEffect(states[n], calls[n], states[n + 1]);
  }

  /** For every page size: all results are aligned as requested in all runs whose requests
    ask for at least `least` bytes and alignments up to `bound` if and only if zero-byte
    requests or over-aligned ones are ruled out. */
  lemma AlignedExactly(pageSize: nat, least: nat, bound: nat)
    requires PageSizeOk(pageSize)
    ensures (forall states: seq<State>, calls: seq<Call>, n: nat ::
               AskedWithin(states, calls, pageSize, least, bound) && n < |calls| ==> ResultAligned(calls[n]))
            <==> least > 0 || bound < 2 * pageSize
  {
    if least > 0 || bound < 2 * pageSize {
      forall states: seq<State>, calls: seq<Call>, n: nat
          | AskedWithin(states, calls, pageSize, least, bound) && n < |calls|
        ensures ResultAligned(calls[n])
      {
        if bound < 2 * pageSize {
          WithinPage(states, calls, pageSize, bound);
          ModestAligned(states, calls, n);
        } else if calls[n].Get? {
          RunAligned(states, calls, n);
        }
      }
    } else {
      var states, calls := ZeroBytesMisalign(pageSize);
      assert AskedWithin(states, calls, pageSize, least, bound);
    }
  }
}
