/** Whole runs of the arena: any sequence of allocations and registrations. */
module ArenaTheorems {
  import opened Powers
  import opened ArenaLayout
  import opened ArenaState
  import opened Arena

  /** `states[i + 1]` is the state after `calls[i]`. */
  ghost predicate CallAt(states: seq<State>, calls: seq<Call>, i: nat) {
    i < |calls| && i + 1 < |states| && Step(states[i], calls[i], states[i + 1])
  }

  ghost predicate Run(states: seq<State>, calls: seq<Call>) {
    && |states| == |calls| + 1 && Initial(states[0]) && PageSizeOk(states[0].pageSize)
    && forall i :: 0 <= i < |calls| ==> CallAt(states, calls, i)
  }

  lemma RunPrefix(states: seq<State>, calls: seq<Call>, n: nat)
    requires Run(states, calls) && n <= |calls|
    ensures Run(states[..n + 1], calls[..n])
  {
    var states', calls' := states[..n + 1], calls[..n];
    forall i | 0 <= i < n
      ensures CallAt(states', calls', i)
    {
      assert CallAt(states, calls, i);
    }
  }

  /** The bytes handed to callers, in order. */
  function UserRegions(calls: seq<Call>): (r: seq<Region>) {
    if calls == [] then []
    else
      var c := calls[|calls| - 1];
      UserRegions(calls[..|calls| - 1]) + if c.Get? then [c.r] else []
  }

  /** Registered tasks, last registered first. */
  function TasksReversed(calls: seq<Call>): seq<Task> {
    if calls == [] then []
    else
      var c := calls[|calls| - 1];
      (if c.Register? then [c.task] else []) + TasksReversed(calls[..|calls| - 1])
  }

  function Users(regions: seq<Region>): seq<Region> {
    if regions == [] then []
    else
      var r := regions[|regions| - 1];
      Users(regions[..|regions| - 1]) + if r.use == User then [r] else []
  }

  /** No page is current whose bump offset is 0. */
  predicate NonEmpty(s: State) {
    s.pageLists != [] ==> s.lastAllocated > 0
  }

  lemma ChoiceNonEmpty(s: State, s': State, r: Region, extra: nat, bytes: nat, alignment: nat, use: Use)
    requires alignment > 0 && Choice(s, s', r, extra, bytes, alignment, use) && NonEmpty(s) && bytes > 0
    ensures NonEmpty(s')
  {
  }

  lemma {:induction false} UsersOfBookkeeping(regions: seq<Region>, regions': seq<Region>)
    requires OnlyBookkeeping(regions, regions')
    ensures Users(regions') == Users(regions)
    decreases |regions'|
  {
    if |regions'| > |regions| {
      var shorter := regions'[..|regions'| - 1];
      assert OnlyBookkeeping(regions, shorter);
      UsersOfBookkeeping(regions, shorter);
    } else {
      assert regions' == regions;
    }
  }

  lemma UsersOfPlaced(regions: seq<Region>, regions': seq<Region>, r: Region)
    requires Placed(regions, regions', r)
    ensures Users(regions') == Users(regions) + if r.use == User then [r] else []
  {
    UsersOfBookkeeping(regions, regions'[..|regions'| - 1]);
  }

  /** What one call does to the layout and to the waiting tasks. */
  lemma StepEffect(s: State, c: Call, s': State)
    requires Ok(s) && Step(s, c, s')
    ensures Ok(s') && Users(s'.regions) == Users(s.regions) + (if c.Get? then [c.r] else [])
    ensures AllTasks(s'.taskLists) == (if c.Register? then [c.task] else []) + AllTasks(s.taskLists)
    ensures c.Get? ==> Serves(s, s', c.r, c.bytes, c.alignment, User)
    ensures s'.pageSize == s.pageSize
  {
    if c.Get? {
      ChoiceServes(s, s', c.r, c.extra, c.bytes, c.alignment, User);
      UsersOfPlaced(s.regions, s'.regions, c.r);
    } else {
      RegisterEffect(s, c, s');
    }
  }

  lemma RegisterEffect(s: State, c: Call, s': State)
    requires Ok(s) && c.Register? && Step(s, c, s')
    ensures Ok(s') && Users(s'.regions) == Users(s.regions) && s'.pageSize == s.pageSize
    ensures AllTasks(s'.taskLists) == [c.task] + AllTasks(s.taskLists)
  {
    if s.taskLists != [] && |s.taskLists[0].tasks| < LIST_CAPACITY {
      PushTaskOk(s, c.task);
    } else {
      assert IsPow2(LIST_ALIGN);
      ChoiceServes(s, c.mid, c.r, c.extra, TASK_LIST_BYTES, LIST_ALIGN, Bookkeeping);
      TaskListStarted(s, c.mid, c.r, c.task);
      UsersOfBookkeeping(s.regions, c.mid.regions);
    }
  }

  /** In every run the state is well formed, its user regions are what the callers were
    given, and the waiting tasks are those registered, newest first. */
  lemma {:induction false} RunKeeps(states: seq<State>, calls: seq<Call>)
    requires Run(states, calls)
    ensures Ok(states[|calls|]) && Users(states[|calls|].regions) == UserRegions(calls)
    ensures AllTasks(states[|calls|].taskLists) == TasksReversed(calls)
    decreases |calls|
  {
    if calls == [] {
      InitialOk(states[0]);
    } else {
      var n := |calls| - 1;
      RunPrefix(states, calls, n);
      RunKeeps(states[..n + 1], calls[..n]);
      assert CallAt(states, calls, n);
      StepEffect(states[n], calls[n], states[n + 1]);
    }
  }

  // ---------------------------------------------------------- disjointness

  lemma {:induction false} UsersAreRegions(regions: seq<Region>, k: nat) returns (at: nat)
    requires k < |Users(regions)|
    ensures at < |regions| && regions[at] == Users(regions)[k]
    decreases |regions|
  {
    var n := |regions| - 1;
    if k < |Users(regions[..n])| {
      at := UsersAreRegions(regions[..n], k);
    } else {
      at := n;
    }
  }

  lemma {:induction false} UsersApart(blocks: map<nat, nat>, regions: seq<Region>, i: nat, j: nat)
    requires RegionsOk(blocks, regions) && i < j < |Users(regions)|
    ensures Apart(Users(regions)[i], Users(regions)[j])
    decreases |regions|
  {
    var n := |regions| - 1;
    assert RegionsOk(blocks, regions[..n]);
    if j < |Users(regions[..n])| {
      UsersApart(blocks, regions[..n], i, j);
    } else {
      var at := UsersAreRegions(regions[..n], i);
      assert Apart(regions[at], regions[n]);
    }
  }

  /** All bytes handed out in a run: inside one held block each, and no byte twice. */
  lemma RunDisjoint(states: seq<State>, calls: seq<Call>, i: nat, j: nat)
    requires Run(states, calls) && BlocksApart(states[|calls|].held)
    requires i < j < |UserRegions(calls)|
    ensures var held := states[|calls|].held; var a, b := UserRegions(calls)[i], UserRegions(calls)[j];
            Fits(held, a) && Fits(held, b) && (a.End() <= b.Start() || b.End() <= a.Start())
  {
    RunKeeps(states, calls);
    var s := states[|calls|];
    UsersApart(s.held, s.regions, i, j);
    var x := UsersAreRegions(s.regions, i);
    var y := UsersAreRegions(s.regions, j);
    assert Fits(s.held, s.regions[x]) && Fits(s.held, s.regions[y]);
  }

  /** No byte handed out belongs to a page list, an oversize list or a task list. */
  lemma RunSparesLists(states: seq<State>, calls: seq<Call>, i: nat, list: Region)
    requires Run(states, calls) && BlocksApart(states[|calls|].held) && i < |UserRegions(calls)|
    requires var s := states[|calls|];
             || (exists k :: 0 <= k < |s.pageLists| && list == PageListRegion(s.pageLists[k]))
             || (exists k :: 0 <= k < |s.blockLists| && list == BlockListRegion(s.blockLists[k]))
             || (exists k :: 0 <= k < |s.taskLists| && list == TaskListRegion(s.taskLists[k]))
    ensures var a := UserRegions(calls)[i]; a.End() <= list.Start() || list.End() <= a.Start()
  {
    RunKeeps(states, calls);
    var s := states[|calls|];
    assert list in s.regions;
    var y :| 0 <= y < |s.regions| && s.regions[y] == list;
    var x := UsersAreRegions(s.regions, i);
    UsersAreUsers(s.regions, i);
    assert x != y;
    if x < y {
      RegionsDisjoint(s.held, s.regions, x, y);
    } else {
      RegionsDisjoint(s.held, s.regions, y, x);
    }
  }

  lemma {:induction false} UsersAreUsers(regions: seq<Region>, k: nat)
    requires k < |Users(regions)|
    ensures Users(regions)[k].use == User
    decreases |regions|
  {
    var n := |regions| - 1;
    if k < |Users(regions[..n])| {
      UsersAreUsers(regions[..n], k);
    }
  }

  // -------------------------------------------------------------- alignment

  lemma {:induction false} RunNonEmpty(states: seq<State>, calls: seq<Call>, n: nat)
    requires Run(states, calls) && n <= |calls|
    requires forall i :: 0 <= i < |calls| && calls[i].Get? ==> calls[i].bytes > 0
    ensures NonEmpty(states[n])
  {
    if n > 0 {
      RunNonEmpty(states, calls, n - 1);
      var s, c, s' := states[n - 1], calls[n - 1], states[n];
      assert CallAt(states, calls, n - 1);
      match c {
        case Get(bytes, alignment, r, extra) => ChoiceNonEmpty(s, s', r, extra, bytes, alignment, User);
        case Register(task, r, extra, mid) =>
          if s.taskLists != [] && |s.taskLists[0].tasks| < LIST_CAPACITY {
          } else {
            ChoiceNonEmpty(s, mid, r, extra, TASK_LIST_BYTES, LIST_ALIGN, Bookkeeping);
          }
      }
    }
  }

  /** With positive sizes only, every result of a run is aligned as requested. */
  lemma RunAligned(states: seq<State>, calls: seq<Call>, n: nat)
    requires Run(states, calls) && n < |calls| && calls[n].Get?
    requires forall i :: 0 <= i < |calls| && calls[i].Get? ==> calls[i].bytes > 0
    ensures calls[n].alignment > 0 && calls[n].r.Start() % calls[n].alignment == 0
  {
    RunPrefix(states, calls, n);
    RunKeeps(states[..n + 1], calls[..n]);
    RunNonEmpty(states, calls, n);
    assert CallAt(states, calls, n);
    StepEffect(states[n], calls[n], states[n + 1]);
  }

  predicate AlignedList(r: Region) { r.Start() % LIST_ALIGN == 0 }

  lemma PageListAligned(s: State, k: nat)
    requires Ok(s) && k < |s.pageLists|
    ensures AlignedList(PageListRegion(s.pageLists[k]))
  {
    var l := s.pageLists[k];
    assert PageListOk(s.pageSize, s.pageLists, k);
    TailPages(s.pageLists, k, l.host);
    PageIsHeld(s, l.host);
    assert IsPow2(LIST_ALIGN);
    PageAligned(s.pageSize, l.host, LIST_ALIGN);
    AddMultiple(l.host, l.off, LIST_ALIGN);
  }

  lemma {:induction false} TailPages(lists: seq<PageList>, k: nat, page: nat)
    requires k <= |lists| && page in AllPages(lists[k..])
    ensures page in AllPages(lists)
    decreases k
  {
    if k == 0 {
      assert lists[0..] == lists;
    } else {
      assert lists[k - 1..][1..] == lists[k..];
      TailPages(lists, k - 1, page);
    }
  }

  /** The list behind an oversize block is aligned. */
  lemma RoomAligned(addr: nat, bytes: nat, alignment: nat)
    requires IsPow2(alignment) && addr % Wide(alignment) == 0
    ensures (addr + AlignUp(bytes, Wide(alignment))) % LIST_ALIGN == 0
  {
    var wide := Wide(alignment);
    var room := AlignUp(bytes, wide);
    assert IsPow2(LIST_ALIGN);
    Pow2Divides(LIST_ALIGN, wide);
    MultipleTrans(addr, wide, LIST_ALIGN);
    MultipleTrans(room, wide, LIST_ALIGN);
    AddMultiple(addr, room, LIST_ALIGN);
  }

  ghost predicate BlockListsAligned(lists: seq<BlockList>) {
    forall k :: 0 <= k < |lists| ==> AlignedList(BlockListRegion(lists[k]))
  }

  ghost predicate TaskListsAligned(lists: seq<TaskList>) {
    forall k :: 0 <= k < |lists| ==> AlignedList(TaskListRegion(lists[k]))
  }

  lemma ChoiceBlocksAligned(s: State, s': State, r: Region, extra: nat, bytes: nat, alignment: nat, use: Use)
    requires IsPow2(alignment) && Choice(s, s', r, extra, bytes, alignment, use) && BlockListsAligned(s.blockLists)
    ensures BlockListsAligned(s'.blockLists)
  {
    if !ListHasRoom(s) && s'.blockLists != s.blockLists {
      RoomAligned(r.block, bytes, alignment);
      var l := s'.blockLists[0];
      assert AlignedList(BlockListRegion(l));
      assert s'.blockLists == [l] + s.blockLists;
    }
  }

  lemma StepAligned(s: State, c: Call, s': State)
    requires Ok(s) && Step(s, c, s') && BlockListsAligned(s.blockLists) && TaskListsAligned(s.taskLists)
    ensures BlockListsAligned(s'.blockLists) && TaskListsAligned(s'.taskLists)
  {
    if c.Get? {
      ChoiceBlocksAligned(s, s', c.r, c.extra, c.bytes, c.alignment, User);
      ChoiceUses(s, s', c.r, c.extra, c.bytes, c.alignment, User);
    } else if s.taskLists == [] || |s.taskLists[0].tasks| >= LIST_CAPACITY {
      assert IsPow2(LIST_ALIGN);
      ChoiceBlocksAligned(s, c.mid, c.r, c.extra, TASK_LIST_BYTES, LIST_ALIGN, Bookkeeping);
      TaskRegionAligned(s, c.mid, c.r, c.extra);
      FrontAligned(s.taskLists, c.r, c.task);
    } else {
      assert TaskListRegion(s'.taskLists[0]) == TaskListRegion(s.taskLists[0]);
    }
  }

  lemma TaskRegionAligned(s: State, mid: State, r: Region, extra: nat)
    requires Ok(s) && Choice(s, mid, r, extra, TASK_LIST_BYTES, LIST_ALIGN, Bookkeeping)
    ensures AlignedList(r) && mid.taskLists == s.taskLists
  {
    assert IsPow2(LIST_ALIGN);
    ChoiceServes(s, mid, r, extra, TASK_LIST_BYTES, LIST_ALIGN, Bookkeeping);
    assert !Underaligned(s, TASK_LIST_BYTES, LIST_ALIGN);
  }

  lemma FrontAligned(lists: seq<TaskList>, r: Region, task: Task)
    requires TaskListsAligned(lists) && AlignedList(r)
    ensures TaskListsAligned([TaskList(r.block, r.off, [task])] + lists)
  {
  }

  lemma {:induction false} RunTailsAligned(states: seq<State>, calls: seq<Call>, n: nat)
    requires Run(states, calls) && n <= |calls|
    ensures BlockListsAligned(states[n].blockLists) && TaskListsAligned(states[n].taskLists)
  {
    if n > 0 {
      RunTailsAligned(states, calls, n - 1);
      RunOkAt(states, calls, n - 1);
      assert CallAt(states, calls, n - 1);
      StepAligned(states[n - 1], calls[n - 1], states[n]);
    }
  }

  ghost predicate ListsAligned(s: State) {
    && (forall k :: 0 <= k < |s.pageLists| ==> AlignedList(PageListRegion(s.pageLists[k])))
    && BlockListsAligned(s.blockLists) && TaskListsAligned(s.taskLists)
  }

  lemma PageListsAligned(s: State)
    requires Ok(s)
    ensures forall k :: 0 <= k < |s.pageLists| ==> AlignedList(PageListRegion(s.pageLists[k]))
  {
    forall k | 0 <= k < |s.pageLists|
      ensures AlignedList(PageListRegion(s.pageLists[k]))
    {
      PageListAligned(s, k);
    }
  }

  /** Every stored list is aligned, whatever was asked for. */
  lemma RunListsAligned(states: seq<State>, calls: seq<Call>)
    requires Run(states, calls)
    ensures ListsAligned(states[|calls|])
  {
    RunTailsAligned(states, calls, |calls|);
    RunOkAt(states, calls, |calls|);
    PageListsAligned(states[|calls|]);
  }

  // ------------------------------------------------------------------ space

  /** The bytes one call asks for. */
  function Asked(c: Call): nat { if c.Get? then c.bytes else 0 }

  function AskedBytes(calls: seq<Call>): nat {
    if calls == [] then 0 else AskedBytes(calls[..|calls| - 1]) + Asked(calls[|calls| - 1])
  }

  lemma ChoiceUses(s: State, s': State, r: Region, extra: nat, bytes: nat, alignment: nat, use: Use)
    requires alignment > 0 && Choice(s, s', r, extra, bytes, alignment, use)
    ensures s'.used == s.used + bytes && s'.taskLists == s.taskLists
  {
  }

  ghost predicate Uses(s: State, s': State, asked: nat) {
    s'.used - TASK_LIST_BYTES * |s'.taskLists| == s.used - TASK_LIST_BYTES * |s.taskLists| + asked
  }

  lemma StepSpace(s: State, c: Call, s': State)
    requires Ok(s) && Accounts(s) && Step(s, c, s')
    ensures Accounts(s') && Uses(s, s', Asked(c))
  {
    if c.Get? {
      ChoiceAccounts(s, s', c.r, c.extra, c.bytes, c.alignment, User);
      ChoiceUses(s, s', c.r, c.extra, c.bytes, c.alignment, User);
    } else {
      RegisterSpace(s, c, s');
    }
  }

  lemma RegisterSpace(s: State, c: Call, s': State)
    requires Ok(s) && Accounts(s) && c.Register? && Step(s, c, s')
    ensures Accounts(s') && Uses(s, s', 0)
  {
    if s.taskLists == [] || |s.taskLists[0].tasks| >= LIST_CAPACITY {
      ChoiceAccounts(s, c.mid, c.r, c.extra, TASK_LIST_BYTES, LIST_ALIGN, Bookkeeping);
      ChoiceUses(s, c.mid, c.r, c.extra, TASK_LIST_BYTES, LIST_ALIGN, Bookkeeping);
    }
  }

  lemma RunOkAt(states: seq<State>, calls: seq<Call>, n: nat)
    requires Run(states, calls) && n <= |calls|
    ensures Ok(states[n])
  {
    RunPrefix(states, calls, n);
    RunKeeps(states[..n + 1], calls[..n]);
  }

  ghost predicate Asks(s: State, asked: int) {
    s.used == asked + TASK_LIST_BYTES * |s.taskLists|
  }

  lemma {:induction false} RunAccounts(states: seq<State>, calls: seq<Call>)
    requires Run(states, calls)
    ensures Accounts(states[|calls|]) && Asks(states[|calls|], AskedBytes(calls))
    decreases |calls|
  {
    if calls == [] {
      InitialOk(states[0]);
    } else {
      var n := |calls| - 1;
      RunPrefix(states, calls, n);
      RunAccounts(states[..n + 1], calls[..n]);
      RunOkAt(states, calls, n);
      assert CallAt(states, calls, n);
      StepSpace(states[n], calls[n], states[n + 1]);
    }
  }

  // Only the newest list of a kind has room, so the number of entries tells whether it does.

  lemma {:induction false} PageCount(pageSize: nat, lists: seq<PageList>)
    requires PageListsOk(pageSize, lists) && lists != []
    ensures |AllPages(lists)| == |lists[0].pages| + LIST_CAPACITY * (|lists| - 1)
  {
    DropPageList(pageSize, lists);
    if |lists| > 1 {
      PageCount(pageSize, lists[1..]);
    }
  }

  lemma {:induction false} BlockCount(lists: seq<BlockList>)
    requires BlockListsOk(lists) && lists != []
    ensures |AllBlocks(lists)| == |lists[0].blocks| + LIST_CAPACITY * (|lists| - 1)
  {
    DropBlockList(lists);
    if |lists| > 1 {
      assert BlockListOk(lists, 1);
      BlockCount(lists[1..]);
    }
  }

  lemma {:induction false} TaskCount(held: map<nat, nat>, lists: seq<TaskList>)
    requires TaskListsOk(held, lists) && lists != []
    ensures |AllTasks(lists)| == |lists[0].tasks| + LIST_CAPACITY * (|lists| - 1)
  {
    if |lists| > 1 {
      TaskListsTail(held, lists);
      assert TaskListOk(held, lists[1], false);
      TaskCount(held, lists[1..]);
    }
  }

  lemma RoomByCount(k: nat, first: nat, rest: nat)
    requires k == first + LIST_CAPACITY * rest && 1 <= first <= LIST_CAPACITY
    ensures k % LIST_CAPACITY != 0 <==> first < LIST_CAPACITY
  {
  }

  lemma PageListRoom(s: State)
    requires Ok(s)
    ensures (s.pageLists != [] && |s.pageLists[0].pages| < LIST_CAPACITY) <==>
            |AllPages(s.pageLists)| % LIST_CAPACITY != 0
  {
    if s.pageLists != [] {
      PageCount(s.pageSize, s.pageLists);
      assert PageListOk(s.pageSize, s.pageLists, 0);
      RoomByCount(|AllPages(s.pageLists)|, |s.pageLists[0].pages|, |s.pageLists| - 1);
    }
  }

  lemma BlockListRoom(s: State)
    requires Ok(s)
    ensures ListHasRoom(s) <==> |AllBlocks(s.blockLists)| % LIST_CAPACITY != 0
  {
    if s.blockLists != [] {
      BlockCount(s.blockLists);
      assert BlockListOk(s.blockLists, 0);
      RoomByCount(|AllBlocks(s.blockLists)|, |s.blockLists[0].blocks|, |s.blockLists| - 1);
    }
  }

  lemma CeilDiv(k: nat, first: nat, rest: nat)
    requires k == first + LIST_CAPACITY * rest && 1 <= first <= LIST_CAPACITY
    ensures (k + 14) / 15 == rest + 1
  {
  }

  lemma TaskListsNeeded(s: State)
    requires Ok(s)
    ensures |s.taskLists| == (|AllTasks(s.taskLists)| + 14) / 15
  {
    if s.taskLists != [] {
      TaskCount(s.held, s.taskLists);
      assert TaskListOk(s.held, s.taskLists[0], true);
      CeilDiv(|AllTasks(s.taskLists)|, |s.taskLists[0].tasks|, |s.taskLists| - 1);
    }
  }

  /** What a request obtains: nothing while the current page has room; otherwise a page,
    and a second one if it needs a new list (every 15 pages) that fits neither behind the
    old page's allocations nor behind its own; or a block, with room for a list every 15. */
  function Growth(s: State, bytes: nat, alignment: nat): nat
    requires alignment > 0
  {
    var off := AlignUp(s.lastAllocated, alignment);
    if off + bytes <= s.pageSize then 0
    else if bytes <= s.pageSize && alignment <= s.pageSize then
      if && |AllPages(s.pageLists)| % LIST_CAPACITY == 0
         && AlignUp(off, LIST_ALIGN) + PAGE_LIST_BYTES > s.pageSize && bytes + PAGE_LIST_BYTES > s.pageSize
      then 2 * s.pageSize else s.pageSize
    else if |AllBlocks(s.blockLists)| % LIST_CAPACITY != 0 then bytes
    else AlignUp(bytes, Wide(alignment)) + BLOCK_LIST_BYTES
  }

  lemma PagesObtained(a: State, page: nat, extra: nat, bytes: nat, use: Use)
    ensures InNewPage(a, page, extra, bytes, use).obtained ==
      a.obtained + if && (a.pageLists == [] || |a.pageLists[0].pages| >= LIST_CAPACITY)
                      && AlignUp(a.lastAllocated, LIST_ALIGN) + PAGE_LIST_BYTES > a.pageSize
                      && bytes + PAGE_LIST_BYTES > a.pageSize
                   then 2 * a.pageSize else a.pageSize
  {
  }

  lemma BlockObtained(a: State, addr: nat, bytes: nat, alignment: nat, use: Use)
    requires alignment > 0
    ensures InBlock(a, addr, bytes, alignment, use).obtained ==
      a.obtained + if ListHasRoom(a) then bytes else AlignUp(bytes, Wide(alignment)) + BLOCK_LIST_BYTES
  {
  }

  lemma ChoiceGrowth(s: State, s': State, r: Region, extra: nat, bytes: nat, alignment: nat, use: Use)
    requires Ok(s) && alignment > 0 && Choice(s, s', r, extra, bytes, alignment, use)
    ensures s'.obtained == s.obtained + Growth(s, bytes, alignment)
  {
    var a := Align(s, alignment);
    if a.lastAllocated + bytes <= s.pageSize {
    } else if bytes <= s.pageSize && alignment <= s.pageSize {
      PageListRoom(s);
      PagesObtained(a, r.block, extra, bytes, use);
    } else {
      BlockListRoom(s);
      BlockObtained(a, r.block, bytes, alignment, use);
    }
  }

  /** Space used is what was asked for plus a list for every 15 registered tasks, space
    allocated the total length of the pages and blocks held; the first never exceeds the
    second. */
  ghost predicate SpaceExact(s: State, asked: nat, tasks: nat) {
    && s.used == asked + TASK_LIST_BYTES * ((tasks + 14) / 15)
    && s.obtained == s.pageSize * |AllPages(s.pageLists)| + SumBytes(AllBlocks(s.blockLists))
    && s.used <= s.obtained
  }

  lemma StateSpace(s: State, asked: nat)
    requires Ok(s) && Accounts(s) && Asks(s, asked)
    ensures SpaceExact(s, asked, |AllTasks(s.taskLists)|)
  {
    PagesBytesIs(s.pageSize, AllPages(s.pageLists));
    TaskListsNeeded(s);
  }

  /** Both counters are exact after every run. */
  lemma RunSpace(states: seq<State>, calls: seq<Call>)
    requires Run(states, calls)
    ensures SpaceExact(states[|calls|], AskedBytes(calls), |TasksReversed(calls)|)
  {
    RunKeeps(states, calls);
    RunAccounts(states, calls);
    StateSpace(states[|calls|], AskedBytes(calls));
  }

  lemma Append(states: seq<State>, calls: seq<Call>, c: Call, s': State)
    requires Run(states, calls) && Step(states[|calls|], c, s')
    ensures Run(states + [s'], calls + [c])
  {
    forall i | 0 <= i < |calls| + 1
      ensures CallAt(states + [s'], calls + [c], i)
    {
      assert i < |calls| ==> CallAt(states, calls, i);
    }
  }
}
