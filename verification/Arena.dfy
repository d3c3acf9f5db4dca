/** `ExclusiveMonotonicBufferResource` over an upstream that hands out memory. */
module Arena {
  import opened Powers
  import opened ArenaLayout
  import opened ArenaState

  /** The page allocator and the upstream resource: memory they have handed out, and a
    log of what was run and returned. */
  class Upstream {
    var held: map<nat, nat>        // address of a held block -> its length
    var aligns: map<nat, nat>      // address of a block -> the alignment it was asked for with
    var log: seq<Event>
    var top: nat

    ghost predicate Valid()
      reads this
    {
      BlocksApart(held) && forall a :: a in held ==> 0 < a && a + held[a] < top
    }

    constructor ()
      ensures Valid() && held == map[] && log == []
    {
      held, aligns, log, top := map[], map[], [], 1;
    }

    /** Any aligned address that overlaps nothing held. */
    method Allocate(bytes: nat, alignment: nat) returns (a: nat)
      requires Valid() && alignment > 0
      modifies this
      ensures Valid() && log == old(log)
      ensures 0 < a && a % alignment == 0 && a !in old(held) && held == old(held)[a := bytes]
      ensures aligns == old(aligns)[a := alignment]
    {
      a := AlignUp(top + 1, alignment);
      held, aligns := held[a := bytes], aligns[a := alignment];
      top := a + bytes + 1;
    }

    method FreePage(page: nat)
      requires Valid() && page in held
      modifies this`held, this`log
      ensures Valid() && held == old(held) - {page} && log == old(log) + [PageFreed(page)]
    {
      held, log := held - {page}, log + [PageFreed(page)];
    }

    /** Upstream wants back the length and the alignment it was asked for. */
    method FreeBlock(b: Block)
      requires Valid() && b.addr in held && held[b.addr] == b.bytes
      requires b.addr in aligns && aligns[b.addr] == b.alignment
      modifies this`held, this`log
      ensures Valid() && held == old(held) - {b.addr} && log == old(log) + [BlockFreed(b)]
    {
      held, log := held - {b.addr}, log + [BlockFreed(b)];
    }

    method Run(task: Task)
      requires Valid()
      modifies this`log
      ensures Valid() && log == old(log) + [Destroyed(task)]
    {
      log := log + [Destroyed(task)];
    }

    /** Returns pages in order; they are the first of the held ones. */
    method FreePages(pageSize: nat, pages: seq<nat>, ghost rest: seq<nat>, ghost blocks: seq<Block>)
      requires Valid() && pageSize > 0 && Inventory(pageSize, held, pages + rest, blocks)
      modifies this`held, this`log
      ensures Valid() && Inventory(pageSize, held, rest, blocks)
      ensures log == old(log) + PageFrees(pages)
    {
      assert pages[0..] == pages;
      for i := 0 to |pages|
        invariant Valid() && Inventory(pageSize, held, pages[i..] + rest, blocks)
        invariant log == old(log) + PageFrees(pages[..i])
      {
        FreePageStep(pageSize, held, pages, rest, blocks, i);
        FreePage(pages[i]);
        assert PageFrees(pages[..i + 1]) == PageFrees(pages[..i]) + [PageFreed(pages[i])];
      }
      assert pages[|pages|..] + rest == rest && pages[..|pages|] == pages;
    }

    /** Returns the pages of a list that is readable when the call starts. */
    method FreePageList(pageSize: nat, l: PageList, ghost rest: seq<nat>, ghost blocks: seq<Block>)
      requires Valid() && pageSize > 0 && Inventory(pageSize, held, l.pages + rest, blocks)
      requires Fits(held, PageListRegion(l))
      modifies this`held, this`log
      ensures Valid() && Inventory(pageSize, held, rest, blocks)
      ensures log == old(log) + PageFrees(l.pages)
    {
      var pages := ReadPageList(l);
      FreePages(pageSize, pages, rest, blocks);
    }

    /** Returns the blocks of a list, reading each entry from the list itself, which
      lies in the last of them. */
    method FreeBlocks(pageSize: nat, l: BlockList, ghost rest: seq<Block>)
      requires Valid() && pageSize > 0 && Inventory(pageSize, held, [], l.blocks + rest)
      requires BlockListOk([l], 0) && AlignsOk(aligns, l.blocks)
      modifies this`held, this`log
      ensures Valid() && Inventory(pageSize, held, [], rest)
      ensures log == old(log) + BlockFrees(l.blocks)
    {
      ghost var blocks := l.blocks;
      assert blocks[0..] == blocks;
      for i := 0 to |l.blocks|
        invariant Valid() && Inventory(pageSize, held, [], blocks[i..] + rest)
        invariant log == old(log) + BlockFrees(blocks[..i])
      {
        FreeBlockStep(pageSize, held, l, rest, i);
        var b := ReadBlock(l, i);
        FreeBlock(b);
        assert BlockFrees(blocks[..i + 1]) == BlockFrees(blocks[..i]) + [BlockFreed(b)];
      }
      assert blocks[|blocks|..] + rest == rest && blocks[..|blocks|] == blocks;
    }

    /** Runs the tasks of a list, reading each from the list. */
    method RunList(l: TaskList)
      requires Valid() && Fits(held, TaskListRegion(l))
      modifies this`log
      ensures Valid() && log == old(log) + Runs(l.tasks)
    {
      for i := 0 to |l.tasks|
        invariant Valid() && log == old(log) + Runs(l.tasks[..i])
      {
        var t := ReadTask(l, i);
        Run(t);
        assert Runs(l.tasks[..i + 1]) == Runs(l.tasks[..i]) + [Destroyed(t)];
      }
      assert l.tasks[..|l.tasks|] == l.tasks;
    }

    /** Reads of the three lists are allowed only while their memory is held. */
    method ReadPageList(l: PageList) returns (pages: seq<nat>)
      requires Fits(held, PageListRegion(l))
      ensures pages == l.pages
    {
      pages := l.pages;
    }

    method ReadBlock(l: BlockList, i: nat) returns (b: Block)
      requires i < |l.blocks| && Fits(held, BlockListRegion(l))
      ensures b == l.blocks[i]
    {
      b := l.blocks[i];
    }

    method ReadTask(l: TaskList, i: nat) returns (t: Task)
      requires i < |l.tasks| && Fits(held, TaskListRegion(l))
      ensures t == l.tasks[i]
    {
      t := l.tasks[i];
    }
  }

  lemma FreePageStep(pageSize: nat, held: map<nat, nat>, pages: seq<nat>, rest: seq<nat>, blocks: seq<Block>, i: nat)
    requires pageSize > 0 && i < |pages| && Inventory(pageSize, held, pages[i..] + rest, blocks)
    ensures pages[i] in held && Inventory(pageSize, held - {pages[i]}, pages[i + 1..] + rest, blocks)
  {
    var left := pages[i..] + rest;
    assert left[0] == pages[i] && left[1..] == pages[i + 1..] + rest;
    RemovePage(pageSize, held, left, blocks);
  }

  /** The list is still readable while its last entry is not returned. */
  lemma BlockListReadable(pageSize: nat, held: map<nat, nat>, l: BlockList, left: seq<Block>, k: nat)
    requires pageSize > 0 && BlockListOk([l], 0) && k < |left| && left[k] == l.blocks[|l.blocks| - 1]
    requires Inventory(pageSize, held, [], left)
    ensures Fits(held, BlockListRegion(l)) && left[0].addr in held && held[left[0].addr] == left[0].bytes
  {
  }

  lemma FreeBlockStep(pageSize: nat, held: map<nat, nat>, l: BlockList, rest: seq<Block>, i: nat)
    requires pageSize > 0 && i < |l.blocks| && BlockListOk([l], 0)
    requires Inventory(pageSize, held, [], l.blocks[i..] + rest)
    ensures Fits(held, BlockListRegion(l)) && l.blocks[i].addr in held && held[l.blocks[i].addr] == l.blocks[i].bytes
    ensures Inventory(pageSize, held - {l.blocks[i].addr}, [], l.blocks[i + 1..] + rest)
  {
    var left := l.blocks[i..] + rest;
    BlockListReadable(pageSize, held, l, left, |l.blocks| - 1 - i);
    assert left[0] == l.blocks[i] && left[1..] == l.blocks[i + 1..] + rest;
    RemoveOversize(pageSize, held, [], left);
  }

  // ------------------------------------------------------------------ log

  function Runs(tasks: seq<Task>): seq<Event> {
    seq(|tasks|, i requires 0 <= i < |tasks| => Destroyed(tasks[i]))
  }

  function PageFrees(pages: seq<nat>): seq<Event> {
    seq(|pages|, i requires 0 <= i < |pages| => PageFreed(pages[i]))
  }

  function BlockFrees(blocks: seq<Block>): seq<Event> {
    seq(|blocks|, i requires 0 <= i < |blocks| => BlockFreed(blocks[i]))
  }

  lemma PageFreesSplit(a: seq<nat>, b: seq<nat>)
    ensures PageFrees(a + b) == PageFrees(a) + PageFrees(b)
  {
  }

  lemma BlockFreesSplit(a: seq<Block>, b: seq<Block>)
    ensures BlockFrees(a + b) == BlockFrees(a) + BlockFrees(b)
  {
  }

  lemma RunsSplit(a: seq<Task>, b: seq<Task>)
    ensures Runs(a + b) == Runs(a) + Runs(b)
  {
  }

  /** What is logged and what is still to come make up `total`. */
  ghost predicate Logged(log: seq<Event>, todo: seq<Event>, total: seq<Event>) {
    log + todo == total
  }

  lemma LogStep(log: seq<Event>, done: seq<Event>, rest: seq<Event>, todo: seq<Event>, total: seq<Event>)
    requires Logged(log, todo, total) && todo == done + rest
    ensures Logged(log + done, rest, total)
  {
  }

  // ----------------------------------------------------------- allocation

  /** A zero-byte allocation can leave the bump offset at 0; an over-aligned request
    then fits at the page start, which is aligned to the page size only. */
  ghost predicate Underaligned(s: State, bytes: nat, alignment: nat) {
    s.pageLists != [] && s.lastAllocated == 0 && alignment > s.pageSize && bytes <= s.pageSize
  }

  /** `regions'` adds bookkeeping regions and then `r` to `regions`. */
  ghost predicate Placed(regions: seq<Region>, regions': seq<Region>, r: Region) {
    && |regions| < |regions'| && regions <= regions' && regions'[|regions'| - 1] == r
    && forall i :: |regions| <= i < |regions'| - 1 ==> regions'[i].use == Bookkeeping
  }

  ghost predicate Extends(held: map<nat, nat>, held': map<nat, nat>) {
    forall a :: a in held ==> a in held' && held'[a] == held[a]
  }

  /** What a request for `bytes` at `alignment` does: one new region, after bookkeeping
    only; memory is obtained exactly when the current page has no room. */
  ghost predicate Serves(s: State, s': State, r: Region, bytes: nat, alignment: nat, use: Use)
    requires alignment > 0
  {
    && r.len == bytes && r.use == use && Placed(s.regions, s'.regions, r)
    && s'.pageSize == s.pageSize && s'.used == s.used + bytes && s'.taskLists == s.taskLists
    && Extends(s.held, s'.held)
    && (s'.held == s.held <==> AlignUp(s.lastAllocated, alignment) + bytes <= s.pageSize)
    && (if Underaligned(s, bytes, alignment) then r.Start() == s.lastPage else r.Start() % alignment == 0)
  }

  lemma NoMultipleBelow(r: nat, a: nat)
    requires a > 0 && r % a == 0 && r > 0
    ensures r >= a
  {
  }

  lemma PageOffset(pageSize: nat, page: nat, offset: nat, alignment: nat)
    requires IsPow2(pageSize) && IsPow2(alignment) && page % pageSize == 0
    requires AlignUp(offset, alignment) <= pageSize
    ensures if offset == 0 && alignment > pageSize then AlignUp(offset, alignment) == 0
            else (page + AlignUp(offset, alignment)) % alignment == 0
  {
    var r := AlignUp(offset, alignment);
    if alignment <= pageSize {
      PageAligned(pageSize, page, alignment);
      AddMultiple(page, r, alignment);
    } else if offset == 0 {
      AlignUpZero(alignment);
    } else {
      NoMultipleBelow(r, alignment);
    }
  }

  lemma PageAligned(pageSize: nat, page: nat, alignment: nat)
    requires IsPow2(pageSize) && IsPow2(alignment) && page % pageSize == 0 && alignment <= pageSize
    ensures page % alignment == 0
  {
    Pow2Divides(alignment, pageSize);
    MultipleTrans(page, pageSize, alignment);
  }

  lemma NotUnderaligned(s: State, bytes: nat, alignment: nat)
    requires alignment > 0 && AlignUp(s.lastAllocated, alignment) + bytes > s.pageSize
    ensures !Underaligned(s, bytes, alignment)
  {
  }

  /** A new block serves a request that the current page has no room for. */
  lemma ServesFresh(s: State, s': State, r: Region, bytes: nat, alignment: nat, use: Use)
    requires r.len == bytes && r.use == use && Placed(s.regions, s'.regions, r)
    requires s'.pageSize == s.pageSize && s'.used == s.used + bytes && s'.taskLists == s.taskLists
    requires Extends(s.held, s'.held) && r.block in s'.held && r.block !in s.held
    requires alignment > 0 && r.Start() % alignment == 0
    requires AlignUp(s.lastAllocated, alignment) + bytes > s.pageSize
    ensures Serves(s, s', r, bytes, alignment, use)
  {
    NotUnderaligned(s, bytes, alignment);
  }

  // ----------------------------------------------------- placement choice

  /** do_allocate_with_page_in_new_page_array. */
  function InPageWithList(a: State, page: nat, extra: nat, bytes: nat, use: Use): State {
    if AlignUp(a.lastAllocated, LIST_ALIGN) + PAGE_LIST_BYTES <= a.pageSize then ListInOldPage(a, page, bytes, use)
    else if bytes + PAGE_LIST_BYTES <= a.pageSize then ListInNewPage(a, page, bytes, use)
    else ListInExtraPage(a, page, extra, bytes, use)
  }

  function InNewPage(a: State, page: nat, extra: nat, bytes: nat, use: Use): State {
    if a.pageLists != [] && |a.pageLists[0].pages| < LIST_CAPACITY then InListedPage(a, page, bytes, use)
    else InPageWithList(a, page, extra, bytes, use)
  }

  predicate ListHasRoom(a: State) {
    a.blockLists != [] && |a.blockLists[0].blocks| < LIST_CAPACITY
  }

  function Wide(alignment: nat): nat {
    if alignment < LIST_ALIGN then LIST_ALIGN else alignment
  }

  /** do_allocate_in_oversize_page. */
  function InBlock(a: State, addr: nat, bytes: nat, alignment: nat, use: Use): State
    requires alignment > 0
  {
    if ListHasRoom(a) then InListedBlock(a, Block(addr, bytes, alignment), use)
    else InBlockWithList(a, addr, bytes, AlignUp(bytes, Wide(alignment)), Wide(alignment), use)
  }

  /** `page` is new, and so is `extra` unless it is 0 (no additional page). */
  ghost predicate NewPages(a: State, page: nat, extra: nat) {
    && page !in a.held && page > 0 && a.pageSize > 0 && page % a.pageSize == 0
    && (extra > 0 ==> extra !in a.held && extra % a.pageSize == 0 && extra != page)
  }

  /** The additional page, where one is used, is new too. */
  ghost predicate ExtraIfNeeded(a: State, page: nat, extra: nat, bytes: nat) {
    NewPages(a, page, extra) && (extra == 0 ==>
      || (a.pageLists != [] && |a.pageLists[0].pages| < LIST_CAPACITY)
      || AlignUp(a.lastAllocated, LIST_ALIGN) + PAGE_LIST_BYTES <= a.pageSize
      || bytes + PAGE_LIST_BYTES <= a.pageSize)
  }

  lemma InNewPageOk(a: State, page: nat, extra: nat, bytes: nat, use: Use)
    requires Ok(a) && bytes <= a.pageSize && ExtraIfNeeded(a, page, extra, bytes)
    ensures Ok(InNewPage(a, page, extra, bytes, use))
  {
    if a.pageLists != [] && |a.pageLists[0].pages| < LIST_CAPACITY {
      InListedPageOk(a, page, bytes, use);
    } else {
      NewestFull(a);
      if AlignUp(a.lastAllocated, LIST_ALIGN) + PAGE_LIST_BYTES <= a.pageSize {
        ListInOldPageOk(a, page, bytes, use);
      } else if bytes + PAGE_LIST_BYTES <= a.pageSize {
        ListInNewPageOk(a, page, bytes, use);
      } else {
        ListInExtraPageOk(a, page, extra, bytes, use);
      }
    }
  }

  lemma ServesInNewPage(s: State, page: nat, extra: nat, bytes: nat, alignment: nat, use: Use)
    requires alignment > 0 && page !in s.held && page % alignment == 0
    requires extra > 0 ==> extra !in s.held
    requires ExtraIfNeeded(Align(s, alignment), page, extra, bytes)
    requires AlignUp(s.lastAllocated, alignment) + bytes > s.pageSize
    ensures Serves(s, InNewPage(Align(s, alignment), page, extra, bytes, use),
                   Region(page, 0, bytes, use), bytes, alignment, use)
  {
    ServesFresh(s, InNewPage(Align(s, alignment), page, extra, bytes, use),
                Region(page, 0, bytes, use), bytes, alignment, use);
  }

  lemma NewestFull(s: State)
    requires Ok(s) && (s.pageLists == [] || |s.pageLists[0].pages| >= LIST_CAPACITY)
    ensures NeedsList(s)
  {
    if s.pageLists != [] {
      assert PageListOk(s.pageSize, s.pageLists, 0);
    }
  }

  lemma NewestBlocksFull(s: State)
    requires Ok(s) && !ListHasRoom(s)
    ensures s.blockLists != [] ==> |s.blockLists[0].blocks| == LIST_CAPACITY
  {
    if s.blockLists != [] {
      assert BlockListOk(s.blockLists, 0);
    }
  }

  lemma InBlockOk(a: State, addr: nat, bytes: nat, alignment: nat, use: Use)
    requires Ok(a) && alignment > 0 && addr !in a.held && addr > 0
    ensures Ok(InBlock(a, addr, bytes, alignment, use))
  {
    if ListHasRoom(a) {
      InListedBlockOk(a, Block(addr, bytes, alignment), use);
    } else {
      NewestBlocksFull(a);
      InBlockWithListOk(a, addr, bytes, AlignUp(bytes, Wide(alignment)), Wide(alignment), use);
    }
  }

  lemma ServesOversize(s: State, addr: nat, bytes: nat, alignment: nat, use: Use)
    requires IsPow2(alignment) && addr !in s.held
    requires addr % (if ListHasRoom(s) then alignment else Wide(alignment)) == 0
    requires AlignUp(s.lastAllocated, alignment) + bytes > s.pageSize
    ensures Serves(s, InBlock(Align(s, alignment), addr, bytes, alignment, use),
                   Region(addr, 0, bytes, use), bytes, alignment, use)
  {
    if !ListHasRoom(s) {
      WideAligned(addr, alignment);
    }
    ServesFresh(s, InBlock(Align(s, alignment), addr, bytes, alignment, use),
                Region(addr, 0, bytes, use), bytes, alignment, use);
  }

  lemma ServesInCurrentPage(s: State, bytes: nat, alignment: nat, use: Use)
    requires IsPow2(alignment) && AlignUp(s.lastAllocated, alignment) + bytes <= s.pageSize
    requires IsPow2(s.pageSize) && s.lastPage % s.pageSize == 0 && s.pageLists != []
    ensures Serves(s, InCurrentPage(Align(s, alignment), bytes, use),
                   Region(s.lastPage, AlignUp(s.lastAllocated, alignment), bytes, use), bytes, alignment, use)
  {
    PageOffset(s.pageSize, s.lastPage, s.lastAllocated, alignment);
  }

  /** The placement chosen for a request, with the fresh memory it was given. */
  ghost predicate Choice(s: State, s': State, r: Region, extra: nat, bytes: nat, alignment: nat, use: Use)
    requires alignment > 0
  {
    var a := Align(s, alignment);
    if a.lastAllocated + bytes <= s.pageSize then
      r == Region(s.lastPage, a.lastAllocated, bytes, use) && s' == InCurrentPage(a, bytes, use)
    else
      && r == Region(r.block, 0, bytes, use) && r.block > 0 && r.block !in s.held
      && if bytes <= s.pageSize && alignment <= s.pageSize then
           ExtraIfNeeded(a, r.block, extra, bytes) && s' == InNewPage(a, r.block, extra, bytes, use)
         else
           && r.block % (if ListHasRoom(s) then alignment else Wide(alignment)) == 0
           && s' == InBlock(a, r.block, bytes, alignment, use)
  }

  lemma ChoiceServes(s: State, s': State, r: Region, extra: nat, bytes: nat, alignment: nat, use: Use)
    requires Ok(s) && IsPow2(alignment) && Choice(s, s', r, extra, bytes, alignment, use)
    ensures Ok(s') && Serves(s, s', r, bytes, alignment, use)
  {
    var a := Align(s, alignment);
    AlignOk(s, alignment);
    if a.lastAllocated + bytes <= s.pageSize {
      InCurrentPageOk(a, bytes, use);
      LastPageListed(s);
      PageIsHeld(s, s.lastPage);
      ServesInCurrentPage(s, bytes, alignment, use);
    } else if bytes <= s.pageSize && alignment <= s.pageSize {
      InNewPageOk(a, r.block, extra, bytes, use);
      PageAligned(s.pageSize, r.block, alignment);
      ServesInNewPage(s, r.block, extra, bytes, alignment, use);
    } else {
      InBlockOk(a, r.block, bytes, alignment, use);
      ServesOversize(s, r.block, bytes, alignment, use);
    }
  }

  lemma InNewPageAccounts(a: State, page: nat, extra: nat, bytes: nat, use: Use)
    requires Ok(a) && Accounts(a) && bytes <= a.pageSize && ExtraIfNeeded(a, page, extra, bytes)
    ensures Accounts(InNewPage(a, page, extra, bytes, use))
  {
    if a.pageLists != [] && |a.pageLists[0].pages| < LIST_CAPACITY {
      InListedPageAccounts(a, page, bytes, use);
    } else if AlignUp(a.lastAllocated, LIST_ALIGN) + PAGE_LIST_BYTES <= a.pageSize {
      ListInOldPageAccounts(a, page, bytes, use);
    } else if bytes + PAGE_LIST_BYTES <= a.pageSize {
      ListInNewPageAccounts(a, page, bytes, use);
    } else {
      ListInExtraPageAccounts(a, page, extra, bytes, use);
    }
  }

  lemma InBlockAccounts(a: State, addr: nat, bytes: nat, alignment: nat, use: Use)
    requires Ok(a) && Accounts(a) && alignment > 0 && addr !in a.held
    ensures Accounts(InBlock(a, addr, bytes, alignment, use))
  {
    if ListHasRoom(a) {
      InListedBlockAccounts(a, Block(addr, bytes, alignment), use);
    } else {
      InBlockWithListAccounts(a, addr, bytes, AlignUp(bytes, Wide(alignment)), Wide(alignment), use);
    }
  }

  /** Every placement keeps the accounts of the memory obtained. */
  lemma ChoiceAccounts(s: State, s': State, r: Region, extra: nat, bytes: nat, alignment: nat, use: Use)
    requires Ok(s) && Accounts(s) && alignment > 0 && Choice(s, s', r, extra, bytes, alignment, use)
    ensures Accounts(s')
  {
    var a := Align(s, alignment);
    AlignOk(s, alignment);
    if a.lastAllocated + bytes <= s.pageSize {
    } else if bytes <= s.pageSize && alignment <= s.pageSize {
      InNewPageAccounts(a, r.block, extra, bytes, use);
    } else {
      InBlockAccounts(a, r.block, bytes, alignment, use);
    }
  }

  // ---------------------------------------------------------------- tasks

  /** Whatever was added to `regions` is bookkeeping. */
  ghost predicate OnlyBookkeeping(regions: seq<Region>, regions': seq<Region>) {
    regions <= regions' && forall i :: |regions| <= i < |regions'| ==> regions'[i].use == Bookkeeping
  }

  function PushTask(s: State, task: Task): State
    requires s.taskLists != []
  {
    s.(taskLists := s.taskLists[0 := s.taskLists[0].(tasks := [task] + s.taskLists[0].tasks)])
  }

  function StartTasks(s: State, r: Region, task: Task): State {
    s.(taskLists := [TaskList(r.block, r.off, [task])] + s.taskLists)
  }

  lemma PushTaskOk(s: State, task: Task)
    requires Ok(s) && s.taskLists != [] && |s.taskLists[0].tasks| < LIST_CAPACITY
    ensures Ok(PushTask(s, task))
    ensures AllTasks(PushTask(s, task).taskLists) == [task] + AllTasks(s.taskLists)
  {
    var lists' := PushTask(s, task).taskLists;
    assert lists'[1..] == s.taskLists[1..];
    forall k | 0 <= k < |lists'|
      ensures TaskListOk(s.held, lists'[k], k == 0) && TaskListRegion(lists'[k]) in s.regions
    {
      assert TaskListOk(s.held, s.taskLists[k], k == 0);
      assert TaskListRegion(lists'[k]) == TaskListRegion(s.taskLists[k]);
    }
  }

  lemma NewestTasksFull(s: State)
    requires Ok(s) && (s.taskLists == [] || |s.taskLists[0].tasks| >= LIST_CAPACITY)
    ensures s.taskLists != [] ==> |s.taskLists[0].tasks| == LIST_CAPACITY
  {
  }

  lemma StartTasksOk(s: State, r: Region, task: Task)
    requires Ok(s) && (s.taskLists != [] ==> |s.taskLists[0].tasks| == LIST_CAPACITY)
    requires r in s.regions && r.len == TASK_LIST_BYTES && r.use == Bookkeeping
    ensures Ok(StartTasks(s, r, task))
    ensures AllTasks(StartTasks(s, r, task).taskLists) == [task] + AllTasks(s.taskLists)
  {
    var lists' := StartTasks(s, r, task).taskLists;
    assert lists'[1..] == s.taskLists;
    assert Fits(s.held, r) && TaskListRegion(lists'[0]) == r;
    forall k | 0 <= k < |lists'|
      ensures TaskListOk(s.held, lists'[k], k == 0) && TaskListRegion(lists'[k]) in s.regions
    {
      if k > 0 {
        assert lists'[k] == s.taskLists[k - 1];
        assert TaskListOk(s.held, s.taskLists[k - 1], k == 1);
      }
    }
  }

  lemma TaskListStarted(s: State, s1: State, r: Region, task: Task)
    requires Ok(s) && Ok(s1) && (s.taskLists == [] || |s.taskLists[0].tasks| >= LIST_CAPACITY)
    requires Placed(s.regions, s1.regions, r) && s1.taskLists == s.taskLists
    requires r.len == TASK_LIST_BYTES && r.use == Bookkeeping
    ensures Ok(StartTasks(s1, r, task))
    ensures AllTasks(StartTasks(s1, r, task).taskLists) == [task] + AllTasks(s.taskLists)
    ensures OnlyBookkeeping(s.regions, s1.regions)
  {
    NewestTasksFull(s);
    StartTasksOk(s1, r, task);
  }

  lemma TaskListsTail(held: map<nat, nat>, lists: seq<TaskList>)
    requires TaskListsOk(held, lists) && lists != []
    ensures TaskListsOk(held, lists[1..]) && Fits(held, TaskListRegion(lists[0]))
  {
  }

  // ---------------------------------------------------------------- calls

  /** One call with the memory it was given: an allocation at `r`, or a registration that
    may first start a task list at `r`, which gives the state `mid`. */
  datatype Call =
    | Get(bytes: nat, alignment: nat, r: Region, extra: nat)
    | Register(task: Task, r: Region, extra: nat, mid: State)

  ghost predicate Step(s: State, c: Call, s': State) {
    match c
    case Get(bytes, alignment, r, extra) =>
      IsPow2(alignment) && Choice(s, s', r, extra, bytes, alignment, User)
    case Register(task, r, extra, mid) =>
      if s.taskLists != [] && |s.taskLists[0].tasks| < LIST_CAPACITY then s' == PushTask(s, task)
      else Choice(s, mid, r, extra, TASK_LIST_BYTES, LIST_ALIGN, Bookkeeping) && s' == StartTasks(mid, r, task)
  }

  class Arena {
    const pageSize: nat
    const up: Upstream
    var pageLists: seq<PageList>       // linked PageArrays, newest first
    var lastPage: nat
    var lastAllocated: nat
    var spaceUsed: nat
    var spaceAllocated: nat
    var blockLists: seq<BlockList>     // linked OversizePageArrays, newest first
    var taskLists: seq<TaskList>       // linked DestroyTaskArrays, newest first
    ghost var regions: seq<Region>     // every byte range in use, oldest first

    ghost function View(): State
      reads this, up
    {
      State(pageSize, up.held, up.aligns, pageLists, lastPage, lastAllocated, spaceUsed, spaceAllocated,
            blockLists, taskLists, regions)
    }

    ghost predicate Valid()
      reads this, up
    {
      up.Valid() && Ok(View()) && Accounts(View())
    }

    constructor (pageSize: nat, up: Upstream)
      requires PageSizeOk(pageSize)
      requires up.Valid() && up.held == map[]
      ensures Valid() && this.pageSize == pageSize && this.up == up && Initial(View())
    {
      this.pageSize, this.up := pageSize, up;
      pageLists, blockLists, taskLists, regions := [], [], [], [];
      lastPage, lastAllocated, spaceUsed, spaceAllocated := 0, NO_PAGE, 0, 0;
      new;
      InitialOk(View());
    }

    /** allocate: the result is a new region at the end of `regions`, disjoint from every
      earlier one and from every list, aligned unless the request is `Underaligned`. */
    method Allocate(bytes: nat, alignment: nat, use: Use) returns (p: nat, r: Region, ghost extra: nat)
      requires Valid() && IsPow2(alignment)
      modifies this, up
      ensures Valid() && up.log == old(up.log) && p == r.Start()
      ensures Serves(old(View()), View(), r, bytes, alignment, use)
      ensures Choice(old(View()), View(), r, extra, bytes, alignment, use)
      ensures use == User ==> Step(old(View()), Get(bytes, alignment, r, extra), View())
    {
      p, r, extra := Place(bytes, alignment, use);
      ChoiceServes(old(View()), View(), r, extra, bytes, alignment, use);
      ChoiceAccounts(old(View()), View(), r, extra, bytes, alignment, use);
    }

    /** do_align and do_allocate_already_aligned. */
    method Place(bytes: nat, alignment: nat, use: Use)
      returns (p: nat, r: Region, ghost extra: nat)
      requires up.Valid() && pageSize > 0 && alignment > 0
      modifies this, up
      ensures up.Valid() && up.log == old(up.log) && p == r.Start()
      ensures Choice(old(View()), View(), r, extra, bytes, alignment, use)
    {
      ghost var a := Align(View(), alignment);
      lastAllocated := AlignUp(lastAllocated, alignment);
      spaceUsed := spaceUsed + bytes;
      extra := 0;
      if lastAllocated + bytes <= pageSize {
        p := lastPage + lastAllocated;
        r := Region(lastPage, lastAllocated, bytes, use);
        regions := regions + [r];
        lastAllocated := lastAllocated + bytes;
      } else if bytes <= pageSize && alignment <= pageSize {
        p, extra := AllocateInNewPage(a, bytes, use);
        r := Region(p, 0, bytes, use);
      } else {
        p := AllocateOversize(a, bytes, alignment, use);
        r := Region(p, 0, bytes, use);
      }
    }

    /** `a` with the bytes of the request counted: where the slow paths start. */
    ghost predicate Pending(a: State, bytes: nat)
      reads this, up
    {
      up.Valid() && pageSize > 0 && View() == a.(used := a.used + bytes)
    }

    method AllocateInNewPage(ghost a: State, bytes: nat, ghost use: Use) returns (p: nat, ghost extra: nat)
      requires Pending(a, bytes)
      modifies this, up
      ensures up.Valid() && up.log == old(up.log) && ExtraIfNeeded(a, p, extra, bytes)
      ensures View() == InNewPage(a, p, extra, bytes, use)
    {
      p := up.Allocate(pageSize, pageSize);
      spaceAllocated := spaceAllocated + pageSize;
      extra := 0;
      if pageLists != [] && |pageLists[0].pages| < LIST_CAPACITY {
        pageLists := pageLists[0 := pageLists[0].(pages := [p] + pageLists[0].pages)];
        lastPage, lastAllocated := p, bytes;
        regions := regions + [Region(p, 0, bytes, use)];
      } else {
        extra := AllocateWithNewList(a, bytes, p, use);
      }
    }

    /** The new page needs a new list: behind the old page's last allocation, behind
      the new page's allocation, or in a page of its own. */
    method AllocateWithNewList(ghost a: State, bytes: nat, page: nat, ghost use: Use)
      returns (ghost extraPage: nat)
      requires up.Valid() && pageSize > 0 && NewPages(a, page, 0)
      requires View() == a.(used := a.used + bytes,
        held := a.held[page := pageSize], aligns := a.aligns[page := pageSize], obtained := a.obtained + pageSize)
      modifies this, up
      ensures up.Valid() && up.log == old(up.log) && ExtraIfNeeded(a, page, extraPage, bytes)
      ensures View() == InPageWithList(a, page, extraPage, bytes, use)
    {
      extraPage := 0;
      lastAllocated := AlignUp(lastAllocated, LIST_ALIGN);
      if lastAllocated + PAGE_LIST_BYTES <= pageSize {
        var l := PageList(lastPage, lastAllocated, [page]);
        pageLists := [l] + pageLists;
        lastPage, lastAllocated := page, bytes;
        regions := regions + [PageListRegion(l), Region(page, 0, bytes, use)];
      } else if bytes + PAGE_LIST_BYTES <= pageSize {
        var l := PageList(page, AlignUp(bytes, LIST_ALIGN), [page]);
        pageLists := [l] + pageLists;
        lastPage, lastAllocated := page, AlignUp(bytes, LIST_ALIGN) + PAGE_LIST_BYTES;
        regions := regions + [PageListRegion(l), Region(page, 0, bytes, use)];
      } else {
        extraPage := AddExtraPage(bytes, page, use);
      }
    }

    /** The list gets a page of its own. */
    method AddExtraPage(ghost bytes: nat, page: nat, ghost use: Use) returns (extra: nat)
      requires up.Valid() && pageSize > 0
      modifies this, up
      ensures up.Valid() && up.log == old(up.log)
      ensures extra > 0 && extra % pageSize == 0 && extra !in old(up.held)
      ensures var l := PageList(extra, 0, [extra, page]);
        View() == old(View()).(held := old(up.held)[extra := pageSize], aligns := old(up.aligns)[extra := pageSize],
          obtained := old(spaceAllocated) + pageSize, pageLists := [l] + old(pageLists),
          lastPage := extra, lastAllocated := PAGE_LIST_BYTES,
          regions := old(regions) + [PageListRegion(l), Region(page, 0, bytes, use)])
    {
      extra := up.Allocate(pageSize, pageSize);
      spaceAllocated := spaceAllocated + pageSize;
      var l := PageList(extra, 0, [extra, page]);
      pageLists := [l] + pageLists;
      lastPage, lastAllocated := extra, PAGE_LIST_BYTES;
      regions := regions + [PageListRegion(l), Region(page, 0, bytes, use)];
    }

    method AllocateOversize(ghost a: State, bytes: nat, alignment: nat, ghost use: Use) returns (p: nat)
      requires Pending(a, bytes) && alignment > 0
      modifies this, up
      ensures up.Valid() && up.log == old(up.log) && p > 0 && p !in a.held
      ensures p % (if ListHasRoom(a) then alignment else Wide(alignment)) == 0
      ensures View() == InBlock(a, p, bytes, alignment, use)
    {
      if blockLists != [] && |blockLists[0].blocks| < LIST_CAPACITY {
        p := up.Allocate(bytes, alignment);
        spaceAllocated := spaceAllocated + bytes;
        var b := Block(p, bytes, alignment);
        blockLists := blockLists[0 := blockLists[0].(blocks := [b] + blockLists[0].blocks)];
        regions := regions + [Region(p, 0, bytes, use)];
      } else {
        p := AllocateBlockWithList(a, bytes, AlignUp(bytes, Wide(alignment)), Wide(alignment), use);
      }
    }

    /** The part of do_allocate_in_oversize_page for a new list. */
    method AllocateBlockWithList(ghost a: State, ghost bytes: nat, room: nat, wide: nat, ghost use: Use)
      returns (p: nat)
      requires Pending(a, bytes) && wide > 0
      modifies this, up
      ensures up.Valid() && up.log == old(up.log) && p > 0 && p !in a.held && p % wide == 0
      ensures View() == InBlockWithList(a, p, bytes, room, wide, use)
    {
      p := up.Allocate(room + BLOCK_LIST_BYTES, wide);
      spaceAllocated := spaceAllocated + room + BLOCK_LIST_BYTES;
      var l := BlockList(p, room, [Block(p, room + BLOCK_LIST_BYTES, wide)]);
      blockLists := [l] + blockLists;
      regions := regions + [BlockListRegion(l), Region(p, 0, bytes, use)];
    }

    /** register_destructor: the newest task is first in line. */
    method RegisterDestructor(task: Task) returns (ghost call: Call)
      requires Valid()
      modifies this, up
      ensures Valid() && up.log == old(up.log)
      ensures call.Register? && call.task == task && Step(old(View()), call, View())
      ensures AllTasks(taskLists) == [task] + old(AllTasks(taskLists))
      ensures OnlyBookkeeping(old(regions), regions) && Extends(old(up.held), up.held)
    {
      if taskLists != [] && |taskLists[0].tasks| < LIST_CAPACITY {
        PushTaskOk(View(), task);
        call := Register(task, Region(0, 0, 0, Bookkeeping), 0, View());
        taskLists := taskLists[0 := taskLists[0].(tasks := [task] + taskLists[0].tasks)];
        assert View() == PushTask(old(View()), task);
      } else {
        call := StartTaskList(task);
      }
    }

    /** do_get_destroy_task_in_new_array. */
    method StartTaskList(task: Task) returns (ghost call: Call)
      requires Valid() && (taskLists == [] || |taskLists[0].tasks| >= LIST_CAPACITY)
      modifies this, up
      ensures Valid() && up.log == old(up.log)
      ensures call.Register? && call.task == task && Step(old(View()), call, View())
      ensures AllTasks(taskLists) == [task] + old(AllTasks(taskLists))
      ensures OnlyBookkeeping(old(regions), regions) && Extends(old(up.held), up.held)
    {
      ghost var r, extra, s;
      r, extra, s := AllocateTaskList(task);
      assert IsPow2(LIST_ALIGN);
      ChoiceServes(old(View()), s, r, extra, TASK_LIST_BYTES, LIST_ALIGN, Bookkeeping);
      TaskListStarted(old(View()), s, r, task);
      ChoiceAccounts(old(View()), s, r, extra, TASK_LIST_BYTES, LIST_ALIGN, Bookkeeping);
      call := Register(task, r, extra, s);
    }

    method AllocateTaskList(task: Task) returns (ghost r: Region, ghost extra: nat, ghost s: State)
      requires up.Valid() && pageSize > 0
      modifies this, up
      ensures up.Valid() && up.log == old(up.log) && View() == StartTasks(s, r, task)
      ensures Choice(old(View()), s, r, extra, TASK_LIST_BYTES, LIST_ALIGN, Bookkeeping)
    {
      var _, region, more := Place(TASK_LIST_BYTES, LIST_ALIGN, Bookkeeping);
      r, extra, s := region, more, View();
      taskLists := [TaskList(region.block, region.off, [task])] + taskLists;
    }

    /** destruct_all: every registered destructor runs once, newest first. */
    method DestructAll()
      requires up.Valid() && TaskListsOk(up.held, taskLists)
      modifies this`taskLists, up`log
      ensures up.Valid() && taskLists == []
      ensures up.log == old(up.log) + Runs(old(AllTasks(taskLists)))
    {
      ghost var total := up.log + Runs(AllTasks(taskLists));
      while taskLists != []
        invariant up.Valid() && TaskListsOk(up.held, taskLists)
        invariant Logged(up.log, Runs(AllTasks(taskLists)), total)
      {
        TaskListsTail(up.held, taskLists);
        RunsSplit(taskLists[0].tasks, AllTasks(taskLists[1..]));
        LogStep(up.log, Runs(taskLists[0].tasks), Runs(AllTasks(taskLists[1..])), Runs(AllTasks(taskLists)), total);
        up.RunList(taskLists[0]);
        taskLists := taskLists[1..];
      }
    }

    /** release: destructors first, then every page, then every oversize block, each
      once; what is left is the initial state. */
    method Release()
      requires Valid()
      modifies this, up
      ensures Valid() && Initial(View())
      ensures up.log == old(up.log) + Runs(old(AllTasks(taskLists)))
        + PageFrees(old(AllPages(pageLists))) + BlockFrees(old(AllBlocks(blockLists)))
    {
      ReleaseReady(View());
      DestructAll();
      ReleaseMemory();
      Reset();
    }

    method ReleaseMemory()
      requires up.Valid() && pageSize > 0 && PageListsOk(pageSize, pageLists) && BlockListsOk(blockLists)
      requires Inventory(pageSize, up.held, AllPages(pageLists), AllBlocks(blockLists))
      requires AlignsOk(up.aligns, AllBlocks(blockLists)) && (pageLists == [] ==> lastAllocated >= NO_PAGE)
      modifies this`pageLists, this`lastAllocated, this`blockLists, up`held, up`log
      ensures up.Valid() && pageLists == [] && blockLists == [] && lastAllocated >= NO_PAGE
      ensures Inventory(pageSize, up.held, [], [])
      ensures up.log == old(up.log) + PageFrees(old(AllPages(pageLists))) + BlockFrees(old(AllBlocks(blockLists)))
    {
      ReleasePages();
      ReleaseBlocks();
    }

    /** The last stores of release. */
    method Reset()
      requires up.Valid() && PageSizeOk(pageSize) && pageLists == [] && blockLists == [] && taskLists == []
      requires Inventory(pageSize, up.held, [], []) && lastAllocated >= NO_PAGE
      modifies this
      ensures Valid() && Initial(View()) && up.log == old(up.log)
    {
      lastPage, spaceUsed, spaceAllocated := 0, 0, 0;
      regions := [];
      NothingHeld(pageSize, up.held);
      InitialOk(View());
    }

    method ReleasePages()
      requires up.Valid() && pageSize > 0 && PageListsOk(pageSize, pageLists)
      requires Inventory(pageSize, up.held, AllPages(pageLists), AllBlocks(blockLists))
      modifies this`pageLists, this`lastAllocated, up`held, up`log
      ensures up.Valid() && pageLists == []
      ensures lastAllocated == NO_PAGE || (old(pageLists) == [] && lastAllocated == old(lastAllocated))
      ensures Inventory(pageSize, up.held, [], AllBlocks(blockLists))
      ensures up.log == old(up.log) + PageFrees(old(AllPages(pageLists)))
    {
      ghost var blocks := AllBlocks(blockLists);
      ghost var total := up.log + PageFrees(AllPages(pageLists));
      while pageLists != []
        invariant up.Valid() && PageListsOk(pageSize, pageLists)
        invariant Inventory(pageSize, up.held, AllPages(pageLists), blocks)
        invariant Logged(up.log, PageFrees(AllPages(pageLists)), total)
        invariant lastAllocated == NO_PAGE || (pageLists == old(pageLists) && lastAllocated == old(lastAllocated))
      {
        PageListReadable(pageSize, up.held, pageLists, blocks);
        PageFreesSplit(pageLists[0].pages, AllPages(pageLists[1..]));
        LogStep(up.log, PageFrees(pageLists[0].pages), PageFrees(AllPages(pageLists[1..])),
                PageFrees(AllPages(pageLists)), total);
        up.FreePageList(pageSize, pageLists[0], AllPages(pageLists[1..]), blocks);
        pageLists := pageLists[1..];
        lastAllocated := NO_PAGE;
      }
    }

    method ReleaseBlocks()
      requires up.Valid() && pageSize > 0 && BlockListsOk(blockLists)
      requires Inventory(pageSize, up.held, [], AllBlocks(blockLists)) && AlignsOk(up.aligns, AllBlocks(blockLists))
      modifies this`blockLists, up`held, up`log
      ensures up.Valid() && blockLists == [] && Inventory(pageSize, up.held, [], [])
      ensures up.log == old(up.log) + BlockFrees(old(AllBlocks(blockLists)))
    {
      ghost var total := up.log + BlockFrees(AllBlocks(blockLists));
      while blockLists != []
        invariant up.Valid() && BlockListsOk(blockLists)
        invariant Inventory(pageSize, up.held, [], AllBlocks(blockLists)) && AlignsOk(up.aligns, AllBlocks(blockLists))
        invariant Logged(up.log, BlockFrees(AllBlocks(blockLists)), total)
      {
        BlockListHead(blockLists);
        AlignsSplit(up.aligns, blockLists[0].blocks, AllBlocks(blockLists[1..]));
        BlockFreesSplit(blockLists[0].blocks, AllBlocks(blockLists[1..]));
        LogStep(up.log, BlockFrees(blockLists[0].blocks), BlockFrees(AllBlocks(blockLists[1..])),
                BlockFrees(AllBlocks(blockLists)), total);
        up.FreeBlocks(pageSize, blockLists[0], AllBlocks(blockLists[1..]));
        blockLists := blockLists[1..];
      }
    }

    /** contains: `ptr` lies in memory that the arena counts as its own. */
    method Contains(ptr: nat) returns (found: bool)
      requires Valid()
      ensures found <==> Owns(View(), ptr)
    {
      AllPagesListed(View());
      found := ScanPageLists(pageLists, lastAllocated, pageSize, ptr);
      if !found {
        found := ScanBlockLists(blockLists, ptr);
      }
      HitIsOwned(View(), ptr);
    }
  }

  // -------------------------------------------------------------- release

  /** What release relies on. */
  lemma ReleaseReady(s: State)
    requires Ok(s) && Accounts(s)
    ensures PageSizeOk(s.pageSize) && s.pageSize > 0
    ensures TaskListsOk(s.held, s.taskLists) && PageListsOk(s.pageSize, s.pageLists) && BlockListsOk(s.blockLists)
    ensures Inventory(s.pageSize, s.held, AllPages(s.pageLists), AllBlocks(s.blockLists))
    ensures AlignsOk(s.aligns, AllBlocks(s.blockLists))
    ensures s.pageLists == [] ==> s.lastAllocated >= NO_PAGE
  {
  }

  lemma NothingHeld(pageSize: nat, held: map<nat, nat>)
    requires pageSize > 0 && Inventory(pageSize, held, [], [])
    ensures held == map[]
  {
  }

  lemma HostHeld(pageSize: nat, held: map<nat, nat>, pages: seq<nat>, blocks: seq<Block>, page: nat)
    requires pageSize > 0 && Inventory(pageSize, held, pages, blocks) && page in pages
    ensures page in held && held[page] == pageSize
  {
  }

  /** A list names the page it lies in, or an older list does: it can be read before
    its own pages are returned. */
  lemma PageListReadable(pageSize: nat, held: map<nat, nat>, lists: seq<PageList>, blocks: seq<Block>)
    requires pageSize > 0 && PageListsOk(pageSize, lists) && lists != []
    requires Inventory(pageSize, held, AllPages(lists), blocks)
    ensures Fits(held, PageListRegion(lists[0])) && PageListsOk(pageSize, lists[1..])
    ensures AllPages(lists) == lists[0].pages + AllPages(lists[1..])
  {
    DropPageList(pageSize, lists);
    assert Fits(held, PageListRegion(lists[0])) by {
      assert PageListOk(pageSize, lists, 0) && lists[0..] == lists;
      HostHeld(pageSize, held, AllPages(lists), blocks, lists[0].host);
    }
  }

  lemma AlignsSplit(aligns: map<nat, nat>, a: seq<Block>, b: seq<Block>)
    requires AlignsOk(aligns, a + b)
    ensures AlignsOk(aligns, a) && AlignsOk(aligns, b)
  {
    var all := a + b;
    assert forall i :: 0 <= i < |a| ==> all[i] == a[i];
    assert forall i :: 0 <= i < |b| ==> all[|a| + i] == b[i];
  }

  lemma BlockListHead(lists: seq<BlockList>)
    requires BlockListsOk(lists) && lists != []
    ensures BlockListOk([lists[0]], 0) && BlockListsOk(lists[1..])
    ensures AllBlocks(lists) == lists[0].blocks + AllBlocks(lists[1..])
  {
    DropBlockList(lists);
    assert BlockListOk(lists, 0);
  }

  // ------------------------------------------------------------- contains

  /** The newest page counts up to the bump offset, every other block in full. */
  function Reach(s: State, a: nat): nat
    requires a in s.held
  {
    if s.pageLists != [] && a == s.lastPage then s.lastAllocated else s.held[a]
  }

  ghost predicate Owns(s: State, ptr: nat) {
    exists a :: a in s.held && a <= ptr < a + Reach(s, a)
  }

  ghost predicate InHeld(held: map<nat, nat>, ptr: nat) {
    exists a :: a in held && a <= ptr < a + held[a]
  }

  ghost predicate PageHit(pages: seq<nat>, first: nat, rest: nat, ptr: nat) {
    exists i :: 0 <= i < |pages| && pages[i] <= ptr < pages[i] + if i == 0 then first else rest
  }

  ghost predicate BlockHit(blocks: seq<Block>, ptr: nat) {
    exists i :: 0 <= i < |blocks| && blocks[i].addr <= ptr < blocks[i].addr + blocks[i].bytes
  }

  method ScanPages(pages: seq<nat>, first: nat, rest: nat, ptr: nat) returns (found: bool)
    ensures found <==> PageHit(pages, first, rest, ptr)
  {
    var size := first;
    for i := 0 to |pages|
      invariant size == if i == 0 then first else rest
      invariant forall j :: 0 <= j < i ==> !(pages[j] <= ptr < pages[j] + if j == 0 then first else rest)
    {
      if pages[i] <= ptr < pages[i] + size {
        return true;
      }
      size := rest;
    }
    return false;
  }

  method ScanBlocks(blocks: seq<Block>, ptr: nat) returns (found: bool)
    ensures found <==> BlockHit(blocks, ptr)
  {
    for i := 0 to |blocks|
      invariant forall j :: 0 <= j < i ==> !(blocks[j].addr <= ptr < blocks[j].addr + blocks[j].bytes)
    {
      if blocks[i].addr <= ptr < blocks[i].addr + blocks[i].bytes {
        return true;
      }
    }
    return false;
  }

  method ScanPageLists(lists: seq<PageList>, first: nat, pageSize: nat, ptr: nat) returns (found: bool)
    requires forall k :: 0 <= k < |lists| ==> lists[k].pages != []
    ensures found <==> PageHit(AllPages(lists), first, pageSize, ptr)
  {
    var size := first;
    assert lists[0..] == lists;
    for k := 0 to |lists|
      invariant size == if k == 0 then first else pageSize
      invariant PageHit(AllPages(lists), first, pageSize, ptr) <==>
                PageHit(AllPages(lists[k..]), size, pageSize, ptr)
    {
      PageHitStep(lists, k, size, pageSize, ptr);
      found := ScanPages(lists[k].pages, size, pageSize, ptr);
      if found {
        return;
      }
      size := pageSize;
    }
    return false;
  }

  method ScanBlockLists(lists: seq<BlockList>, ptr: nat) returns (found: bool)
    ensures found <==> BlockHit(AllBlocks(lists), ptr)
  {
    assert lists[0..] == lists;
    for k := 0 to |lists|
      invariant BlockHit(AllBlocks(lists), ptr) <==> BlockHit(AllBlocks(lists[k..]), ptr)
    {
      BlockHitStep(lists, k, ptr);
      found := ScanBlocks(lists[k].blocks, ptr);
      if found {
        return;
      }
    }
    return false;
  }

  lemma AllPagesListed(s: State)
    requires Ok(s)
    ensures forall k :: 0 <= k < |s.pageLists| ==> s.pageLists[k].pages != []
  {
    forall k | 0 <= k < |s.pageLists|
      ensures s.pageLists[k].pages != []
    {
      assert PageListOk(s.pageSize, s.pageLists, k);
    }
  }

  lemma PageHitStep(lists: seq<PageList>, k: nat, size: nat, rest: nat, ptr: nat)
    requires k < |lists| && lists[k].pages != []
    ensures PageHit(AllPages(lists[k..]), size, rest, ptr) <==>
            PageHit(lists[k].pages, size, rest, ptr) || PageHit(AllPages(lists[k + 1..]), rest, rest, ptr)
  {
    var pages, tail := lists[k].pages, AllPages(lists[k + 1..]);
    assert lists[k..][1..] == lists[k + 1..] && AllPages(lists[k..]) == pages + tail;
    if PageHit(tail, rest, rest, ptr) {
      var i :| 0 <= i < |tail| && tail[i] <= ptr < tail[i] + if i == 0 then rest else rest;
      assert (pages + tail)[|pages| + i] == tail[i];
    }
    if PageHit(pages, size, rest, ptr) {
      var i :| 0 <= i < |pages| && pages[i] <= ptr < pages[i] + if i == 0 then size else rest;
      assert (pages + tail)[i] == pages[i];
    }
  }

  lemma BlockHitStep(lists: seq<BlockList>, k: nat, ptr: nat)
    requires k < |lists|
    ensures BlockHit(AllBlocks(lists[k..]), ptr) <==>
            BlockHit(lists[k].blocks, ptr) || BlockHit(AllBlocks(lists[k + 1..]), ptr)
  {
    var blocks, tail := lists[k].blocks, AllBlocks(lists[k + 1..]);
    assert lists[k..][1..] == lists[k + 1..] && AllBlocks(lists[k..]) == blocks + tail;
    if BlockHit(tail, ptr) {
      var i :| 0 <= i < |tail| && tail[i].addr <= ptr < tail[i].addr + tail[i].bytes;
      assert (blocks + tail)[|blocks| + i] == tail[i];
    }
    if BlockHit(blocks, ptr) {
      var i :| 0 <= i < |blocks| && blocks[i].addr <= ptr < blocks[i].addr + blocks[i].bytes;
      assert (blocks + tail)[i] == blocks[i];
    }
  }

  lemma HitIsOwned(s: State, ptr: nat)
    requires Ok(s)
    ensures Owns(s, ptr) <==>
            PageHit(AllPages(s.pageLists), s.lastAllocated, s.pageSize, ptr) || BlockHit(AllBlocks(s.blockLists), ptr)
  {
    var pages, blocks := AllPages(s.pageLists), AllBlocks(s.blockLists);
    assert s.pageLists != [] ==> pages != [] && pages[0] == s.lastPage;
    if Owns(s, ptr) {
      var a :| a in s.held && a <= ptr < a + Reach(s, a);
      if a in pages {
        var i :| 0 <= i < |pages| && pages[i] == a;
        assert pages[i] <= ptr;
      } else {
        var i :| 0 <= i < |blocks| && Addrs(blocks)[i] == a;
        assert blocks[i].addr <= ptr;
      }
    }
  }

  /** Every byte handed out is contained. */
  lemma OwnsRegions(s: State, i: nat, ptr: nat)
    requires Ok(s) && i < |s.regions| && s.regions[i].Start() <= ptr < s.regions[i].End()
    ensures Owns(s, ptr)
  {
    var r := s.regions[i];
    assert Fits(s.held, r);
    assert r.block <= ptr < r.block + Reach(s, r.block);
  }

  /** `contains` answers true outside the held memory exactly for the bytes between
    the end of the newest page and a bump offset that an over-aligned request has moved
    past it. */
  lemma OwnsOutside(s: State, ptr: nat)
    requires Ok(s)
    ensures Owns(s, ptr) && !InHeld(s.held, ptr) <==>
            !InHeld(s.held, ptr) && s.pageLists != []
            && s.lastPage + s.pageSize <= ptr < s.lastPage + s.lastAllocated
  {
    if s.pageLists != [] {
      LastPageListed(s);
      PageIsHeld(s, s.lastPage);
      assert s.lastPage + s.pageSize <= ptr < s.lastPage + s.lastAllocated ==>
        s.lastPage <= ptr < s.lastPage + Reach(s, s.lastPage);
    }
    if !InHeld(s.held, ptr) && Owns(s, ptr) {
      var a :| a in s.held && a <= ptr < a + Reach(s, a);
      assert !(a <= ptr < a + s.held[a]);
    }
  }

  lemma WideAligned(p: nat, alignment: nat)
    requires IsPow2(alignment)
    requires p % Wide(alignment) == 0
    ensures p % alignment == 0
  {
    if alignment < LIST_ALIGN {
      assert IsPow2(LIST_ALIGN);
      Pow2Divides(alignment, LIST_ALIGN);
      MultipleTrans(p, LIST_ALIGN, alignment);
    }
  }
}
