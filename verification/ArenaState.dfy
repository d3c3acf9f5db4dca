/** The states of the arena and what each placement does to them. */
module ArenaState {
  import opened Powers
  import opened ArenaLayout

  /** `regions` lists every byte range in use, oldest first; `held` is the memory
    obtained from the page allocator and from upstream, `aligns` the alignments it was
    obtained with. */
  datatype State = State(
    pageSize: nat,
    held: map<nat, nat>,
    aligns: map<nat, nat>,
    pageLists: seq<PageList>,
    lastPage: nat,
    lastAllocated: nat,
    used: nat,
    obtained: nat,
    blockLists: seq<BlockList>,
    taskLists: seq<TaskList>,
    regions: seq<Region>)

  function PageListRegion(l: PageList): Region {
    Region(l.host, l.off, PAGE_LIST_BYTES, Bookkeeping)
  }

  function BlockListRegion(l: BlockList): Region {
    Region(l.host, l.off, BLOCK_LIST_BYTES, Bookkeeping)
  }

  function TaskListRegion(l: TaskList): Region {
    Region(l.host, l.off, TASK_LIST_BYTES, Bookkeeping)
  }

  /** Every list occupies a region of its own. */
  ghost predicate ListsPlaced(s: State) {
    && (forall k :: 0 <= k < |s.pageLists| ==> PageListRegion(s.pageLists[k]) in s.regions)
    && (forall k :: 0 <= k < |s.blockLists| ==> BlockListRegion(s.blockLists[k]) in s.regions)
    && (forall k :: 0 <= k < |s.taskLists| ==> TaskListRegion(s.taskLists[k]) in s.regions)
  }

  /** Bytes of the current page that are still free. */
  function Slack(s: State): nat {
    if s.pageLists != [] && s.lastAllocated <= s.pageSize then s.pageSize - s.lastAllocated else 0
  }

  ghost predicate LastPageOk(s: State) {
    if s.pageLists == [] then s.lastPage == 0 && s.lastAllocated >= NO_PAGE
    else s.pageLists[0].pages != [] && s.lastPage == s.pageLists[0].pages[0]
  }

  predicate PageSizeOk(pageSize: nat) {
    IsPow2(pageSize) && PAGE_LIST_BYTES <= pageSize < 0x1_0000_0000
  }

  ghost predicate MemoryOk(s: State)
    requires s.pageSize > 0
  {
    && PageListsOk(s.pageSize, s.pageLists) && BlockListsOk(s.blockLists)
    && TaskListsOk(s.held, s.taskLists)
    && Inventory(s.pageSize, s.held, AllPages(s.pageLists), AllBlocks(s.blockLists))
  }

  ghost predicate Ok(s: State) {
    && PageSizeOk(s.pageSize) && 0 !in s.held && MemoryOk(s) && LastPageOk(s)
    && RegionsOk(s.held, s.regions) && Below(s.regions, s.lastPage, s.lastAllocated) && ListsPlaced(s)
    && s.used + Slack(s) <= s.obtained
  }

  ghost predicate Accounts(s: State) {
    Accounted(s.pageSize, s.obtained, s.aligns, AllPages(s.pageLists), AllBlocks(s.blockLists))
  }

  predicate Initial(s: State) {
    && s.pageLists == [] && s.blockLists == [] && s.taskLists == [] && s.regions == []
    && s.held == map[] && s.lastPage == 0 && s.lastAllocated >= NO_PAGE
    && s.used == 0 && s.obtained == 0
  }

  lemma InitialOk(s: State)
    requires PageSizeOk(s.pageSize) && Initial(s)
    ensures Ok(s) && Accounts(s)
  {
  }

  // ------------------------------------------------------------ placements

  /** do_align. */
  function Align(s: State, alignment: nat): State
    requires alignment > 0
  {
    s.(lastAllocated := AlignUp(s.lastAllocated, alignment))
  }

  /** The current page has room. */
  function InCurrentPage(s: State, bytes: nat, use: Use): State {
    s.(lastAllocated := s.lastAllocated + bytes, used := s.used + bytes,
       regions := s.regions + [Region(s.lastPage, s.lastAllocated, bytes, use)])
  }

  /** A new page that the newest list can still name. */
  function InListedPage(s: State, page: nat, bytes: nat, use: Use): State
    requires s.pageLists != []
  {
    s.(held := s.held[page := s.pageSize], aligns := s.aligns[page := s.pageSize], obtained := s.obtained + s.pageSize,
       used := s.used + bytes, lastPage := page, lastAllocated := bytes,
       pageLists := s.pageLists[0 := s.pageLists[0].(pages := [page] + s.pageLists[0].pages)],
       regions := s.regions + [Region(page, 0, bytes, use)])
  }

  /** A new page with a new list stored behind the last allocation of the old page. */
  function ListInOldPage(s: State, page: nat, bytes: nat, use: Use): State {
    var off := AlignUp(s.lastAllocated, LIST_ALIGN);
    var l := PageList(s.lastPage, off, [page]);
    s.(held := s.held[page := s.pageSize], aligns := s.aligns[page := s.pageSize], obtained := s.obtained + s.pageSize,
       used := s.used + bytes, lastPage := page, lastAllocated := bytes,
       pageLists := [l] + s.pageLists,
       regions := s.regions + [PageListRegion(l), Region(page, 0, bytes, use)])
  }

  /** A new page that also stores the new list, behind the allocation. */
  function ListInNewPage(s: State, page: nat, bytes: nat, use: Use): State {
    var off := AlignUp(bytes, LIST_ALIGN);
    var l := PageList(page, off, [page]);
    s.(held := s.held[page := s.pageSize], aligns := s.aligns[page := s.pageSize], obtained := s.obtained + s.pageSize,
       used := s.used + bytes, lastPage := page, lastAllocated := off + PAGE_LIST_BYTES,
       pageLists := [l] + s.pageLists,
       regions := s.regions + [PageListRegion(l), Region(page, 0, bytes, use)])
  }

  /** A full new page and an additional page for the new list. */
  function ListInExtraPage(s: State, page: nat, extra: nat, bytes: nat, use: Use): State {
    var l := PageList(extra, 0, [extra, page]);
    s.(held := s.held[page := s.pageSize][extra := s.pageSize],
       aligns := s.aligns[page := s.pageSize][extra := s.pageSize],
       obtained := s.obtained + 2 * s.pageSize,
       used := s.used + bytes, lastPage := extra, lastAllocated := PAGE_LIST_BYTES,
       pageLists := [l] + s.pageLists,
       regions := s.regions + [PageListRegion(l), Region(page, 0, bytes, use)])
  }

  /** An oversize block that the newest oversize list can still name. */
  function InListedBlock(s: State, b: Block, use: Use): State
    requires s.blockLists != []
  {
    s.(held := s.held[b.addr := b.bytes], aligns := s.aligns[b.addr := b.alignment],
       obtained := s.obtained + b.bytes, used := s.used + b.bytes,
       blockLists := s.blockLists[0 := s.blockLists[0].(blocks := [b] + s.blockLists[0].blocks)],
       regions := s.regions + [Region(b.addr, 0, b.bytes, use)])
  }

  /** An oversize block with a new list behind its `room` bytes. */
  function InBlockWithList(s: State, addr: nat, bytes: nat, room: nat, alignment: nat, use: Use): State {
    var b := Block(addr, room + BLOCK_LIST_BYTES, alignment);
    var l := BlockList(addr, room, [b]);
    s.(held := s.held[addr := b.bytes], aligns := s.aligns[addr := alignment],
       obtained := s.obtained + b.bytes, used := s.used + bytes,
       blockLists := [l] + s.blockLists,
       regions := s.regions + [BlockListRegion(l), Region(addr, 0, bytes, use)])
  }

  // ---------------------------------------------------------------- lemmas

  lemma AlignOk(s: State, alignment: nat)
    requires Ok(s) && alignment > 0
    ensures Ok(Align(s, alignment))
  {
  }

  lemma PageIsHeld(s: State, page: nat)
    requires Ok(s) && page in AllPages(s.pageLists)
    ensures page in s.held && s.held[page] == s.pageSize && page % s.pageSize == 0
  {
    var pages := AllPages(s.pageLists);
    var i :| 0 <= i < |pages| && pages[i] == page;
  }

  lemma LastPageListed(s: State)
    requires Ok(s) && s.pageLists != []
    ensures s.lastPage in AllPages(s.pageLists)
  {
    assert AllPages(s.pageLists)[0] == s.pageLists[0].pages[0];
  }

  /** Adding memory keeps the task lists where they are. */
  lemma TasksStay(s: State, a: nat, bytes: nat)
    requires TaskListsOk(s.held, s.taskLists) && a !in s.held
    ensures TaskListsOk(s.held[a := bytes], s.taskLists)
  {
  }

  lemma InCurrentPageOk(s: State, bytes: nat, use: Use)
    requires Ok(s) && s.lastAllocated + bytes <= s.pageSize
    ensures s.pageLists != [] && Ok(InCurrentPage(s, bytes, use))
  {
    LastPageListed(s);
    PageIsHeld(s, s.lastPage);
    AddBeyond(s.held, s.regions, Region(s.lastPage, s.lastAllocated, bytes, use), s.lastAllocated);
  }

  lemma InListedPageOk(s: State, page: nat, bytes: nat, use: Use)
    requires Ok(s) && s.pageLists != [] && |s.pageLists[0].pages| < LIST_CAPACITY
    requires page !in s.held && page > 0 && page % s.pageSize == 0 && bytes <= s.pageSize
    ensures Ok(InListedPage(s, page, bytes, use))
  {
    GrowPageList(s.pageSize, s.pageLists, page);
    AddPage(s.pageSize, s.held, AllPages(s.pageLists), AllBlocks(s.blockLists), page);
    TasksStay(s, page, s.pageSize);
    AddFresh(s.held, s.regions, s.pageSize, Region(page, 0, bytes, use));
    assert ListsPlaced(InListedPage(s, page, bytes, use)) by {
      assert PageListRegion(s.pageLists[0]) in s.regions;
    }
  }

  /** The newest list is full, so a new one may start. */
  ghost predicate NeedsList(s: State) {
    s.pageLists != [] ==> |s.pageLists[0].pages| == LIST_CAPACITY
  }

  lemma NewListPlaced(s: State, s': State, l: PageList)
    requires ListsPlaced(s) && s'.pageLists == [l] + s.pageLists
    requires s'.blockLists == s.blockLists && s'.taskLists == s.taskLists
    requires PageListRegion(l) in s'.regions && s.regions <= s'.regions
    ensures ListsPlaced(s')
  {
  }

  lemma ListInOldPageOk(s: State, page: nat, bytes: nat, use: Use)
    requires Ok(s) && NeedsList(s)
    requires page !in s.held && page > 0 && page % s.pageSize == 0 && bytes <= s.pageSize
    requires AlignUp(s.lastAllocated, LIST_ALIGN) + PAGE_LIST_BYTES <= s.pageSize
    ensures Ok(ListInOldPage(s, page, bytes, use))
  {
    var off := AlignUp(s.lastAllocated, LIST_ALIGN);
    var l := PageList(s.lastPage, off, [page]);
    LastPageListed(s);
    PageIsHeld(s, s.lastPage);
    StartPageList(s.pageSize, s.pageLists, l);
    AddPage(s.pageSize, s.held, AllPages(s.pageLists), AllBlocks(s.blockLists), page);
    TasksStay(s, page, s.pageSize);
    AddBeyond(s.held, s.regions, PageListRegion(l), s.lastAllocated);
    var regions1 := s.regions + [PageListRegion(l)];
    AddFresh(s.held, regions1, s.pageSize, Region(page, 0, bytes, use));
    var s' := ListInOldPage(s, page, bytes, use);
    assert s'.regions == regions1 + [Region(page, 0, bytes, use)];
    assert s'.regions[|s.regions|] == PageListRegion(l);
    NewListPlaced(s, s', l);
  }

  lemma ListInNewPageOk(s: State, page: nat, bytes: nat, use: Use)
    requires Ok(s) && NeedsList(s)
    requires page !in s.held && page > 0 && page % s.pageSize == 0
    requires bytes + PAGE_LIST_BYTES <= s.pageSize
    ensures Ok(ListInNewPage(s, page, bytes, use))
  {
    var off := AlignUp(bytes, LIST_ALIGN);
    AlignedRoom(s.pageSize, bytes);
    var l := PageList(page, off, [page]);
    StartPageList(s.pageSize, s.pageLists, l);
    AddPage(s.pageSize, s.held, AllPages(s.pageLists), AllBlocks(s.blockLists), page);
    TasksStay(s, page, s.pageSize);
    var user := Region(page, 0, bytes, use);
    var s' := ListInNewPage(s, page, bytes, use);
    FreshPair(s.held, s.regions, s.pageSize, PageListRegion(l), user);
    assert s'.regions == s.regions + [PageListRegion(l)] + [user];
    assert s'.regions[|s.regions|] == PageListRegion(l);
    NewListPlaced(s, s', l);
  }

  /** A list and an allocation before it in one new block join the layout. */
  lemma FreshPair(held: map<nat, nat>, regions: seq<Region>, bytes: nat, list: Region, user: Region)
    requires RegionsOk(held, regions) && list.block !in held && user.block == list.block
    requires list.off + list.len <= bytes && user.off == 0 && user.len <= list.off
    ensures RegionsOk(held[list.block := bytes], regions + [list] + [user])
    ensures Below(regions + [list] + [user], list.block, list.off + list.len)
  {
  }

  /** The list still fits after the allocation is rounded up. */
  lemma AlignedRoom(pageSize: nat, bytes: nat)
    requires PageSizeOk(pageSize) && bytes + PAGE_LIST_BYTES <= pageSize
    ensures AlignUp(bytes, LIST_ALIGN) + PAGE_LIST_BYTES <= pageSize
  {
    assert IsPow2(LIST_ALIGN);
    Pow2Divides(LIST_ALIGN, pageSize);
    AlignUpLeast(bytes, LIST_ALIGN, pageSize - PAGE_LIST_BYTES);
  }

  lemma ListInExtraPageOk(s: State, page: nat, extra: nat, bytes: nat, use: Use)
    requires Ok(s) && NeedsList(s)
    requires page !in s.held && page > 0 && page % s.pageSize == 0 && bytes <= s.pageSize
    requires extra !in s.held && extra > 0 && extra % s.pageSize == 0 && extra != page
    ensures Ok(ListInExtraPage(s, page, extra, bytes, use))
  {
    var l := PageList(extra, 0, [extra, page]);
    StartPageList(s.pageSize, s.pageLists, l);
    ExtraPageInventory(s, page, extra);
    var user := Region(page, 0, bytes, use);
    var s' := ListInExtraPage(s, page, extra, bytes, use);
    ExtraPageRegions(s, page, extra, user, PageListRegion(l));
    assert s'.regions == s.regions + [PageListRegion(l)] + [user];
    assert s'.regions[|s.regions|] == PageListRegion(l);
    NewListPlaced(s, s', l);
  }

  lemma ExtraPageInventory(s: State, page: nat, extra: nat)
    requires s.pageSize > 0 && MemoryOk(s) && page !in s.held && page % s.pageSize == 0
    requires extra !in s.held && extra % s.pageSize == 0 && extra != page
    ensures var held' := s.held[page := s.pageSize][extra := s.pageSize];
            Inventory(s.pageSize, held', [extra, page] + AllPages(s.pageLists), AllBlocks(s.blockLists))
            && TaskListsOk(held', s.taskLists)
  {
    var pages, blocks := AllPages(s.pageLists), AllBlocks(s.blockLists);
    var held1 := s.held[page := s.pageSize];
    AddPage(s.pageSize, s.held, pages, blocks, page);
    AddPage(s.pageSize, held1, [page] + pages, blocks, extra);
    assert [extra, page] + pages == [extra] + ([page] + pages);
    TasksStay(s, page, s.pageSize);
    TasksStay(s.(held := held1), extra, s.pageSize);
  }

  lemma ExtraPageRegions(s: State, page: nat, extra: nat, user: Region, list: Region)
    requires RegionsOk(s.held, s.regions) && page !in s.held && extra !in s.held && extra != page
    requires user.block == page && user.off == 0 && user.len <= s.pageSize
    requires list.block == extra && list.off + list.len <= s.pageSize
    ensures var held' := s.held[page := s.pageSize][extra := s.pageSize];
            RegionsOk(held', s.regions + [list] + [user])
            && Below(s.regions + [list] + [user], extra, list.off + list.len)
  {
  }

  // -------------------------------------------------------------- oversize

  lemma GrownBlockPlaced(s: State, s': State)
    requires ListsPlaced(s) && s'.pageLists == s.pageLists && s'.taskLists == s.taskLists
    requires s.regions <= s'.regions && s.blockLists != [] && |s'.blockLists| == |s.blockLists|
    requires BlockListRegion(s'.blockLists[0]) == BlockListRegion(s.blockLists[0])
    requires s'.blockLists[1..] == s.blockLists[1..]
    ensures ListsPlaced(s')
  {
  }

  lemma NewBlockListPlaced(s: State, s': State, l: BlockList)
    requires ListsPlaced(s) && s'.blockLists == [l] + s.blockLists
    requires s'.pageLists == s.pageLists && s'.taskLists == s.taskLists
    requires BlockListRegion(l) in s'.regions && s.regions <= s'.regions
    ensures ListsPlaced(s')
  {
  }

  lemma InListedBlockOk(s: State, b: Block, use: Use)
    requires Ok(s) && s.blockLists != [] && |s.blockLists[0].blocks| < LIST_CAPACITY
    requires b.addr !in s.held && b.addr > 0
    ensures Ok(InListedBlock(s, b, use))
  {
    var s' := InListedBlock(s, b, use);
    GrowBlockList(s.blockLists, b);
    AddOversize(s.pageSize, s.held, AllPages(s.pageLists), AllBlocks(s.blockLists), b);
    TasksStay(s, b.addr, b.bytes);
    AddFresh(s.held, s.regions, b.bytes, Region(b.addr, 0, b.bytes, use));
    LastPageNotFresh(s, b.addr);
    GrownBlockPlaced(s, s');
  }

  lemma LastPageNotFresh(s: State, a: nat)
    requires Ok(s) && a !in s.held && a > 0
    ensures a != s.lastPage
  {
    if s.pageLists != [] {
      LastPageListed(s);
      PageIsHeld(s, s.lastPage);
    }
  }

  lemma InBlockWithListOk(s: State, addr: nat, bytes: nat, room: nat, alignment: nat, use: Use)
    requires Ok(s) && (s.blockLists != [] ==> |s.blockLists[0].blocks| == LIST_CAPACITY)
    requires addr !in s.held && addr > 0 && bytes <= room
    ensures Ok(InBlockWithList(s, addr, bytes, room, alignment, use))
  {
    var s' := InBlockWithList(s, addr, bytes, room, alignment, use);
    var b := Block(addr, room + BLOCK_LIST_BYTES, alignment);
    var l := BlockList(addr, room, [b]);
    StartBlockList(s.blockLists, l);
    AddOversize(s.pageSize, s.held, AllPages(s.pageLists), AllBlocks(s.blockLists), b);
    TasksStay(s, addr, b.bytes);
    LastPageNotFresh(s, addr);
    var user := Region(addr, 0, bytes, use);
    FreshPair(s.held, s.regions, b.bytes, BlockListRegion(l), user);
    assert s'.regions == s.regions + [BlockListRegion(l)] + [user];
    assert s'.regions[|s.regions|] == BlockListRegion(l);
    NewBlockListPlaced(s, s', l);
  }

  // -------------------------------------------------------------- accounts

  /** A new page, named first, keeps the accounts. */
  lemma PageAccounts(s: State, page: nat)
    requires Ok(s) && Accounts(s) && page !in s.held
    ensures Accounted(s.pageSize, s.obtained + s.pageSize, s.aligns[page := s.pageSize],
                      [page] + AllPages(s.pageLists), AllBlocks(s.blockLists))
  {
    CountPage(s.pageSize, s.held, s.obtained, s.aligns, AllPages(s.pageLists), AllBlocks(s.blockLists), page);
  }

  lemma TwoPagesAccounts(s: State, page: nat, extra: nat)
    requires Ok(s) && Accounts(s) && page !in s.held && extra !in s.held
    ensures Accounted(s.pageSize, s.obtained + 2 * s.pageSize, s.aligns[page := s.pageSize][extra := s.pageSize],
                      [extra, page] + AllPages(s.pageLists), AllBlocks(s.blockLists))
  {
    PageAccounts(s, page);
    var pages, blocks := AllPages(s.pageLists), AllBlocks(s.blockLists);
    CountTwoPages(s.pageSize, s.held, s.obtained, s.aligns, pages, blocks, page, extra);
  }

  /** A new block, named first, keeps the accounts. */
  lemma BlockAccounts(s: State, b: Block)
    requires Ok(s) && Accounts(s) && b.addr !in s.held
    ensures Accounted(s.pageSize, s.obtained + b.bytes, s.aligns[b.addr := b.alignment],
                      AllPages(s.pageLists), [b] + AllBlocks(s.blockLists))
  {
    CountBlock(s.pageSize, s.held, s.obtained, s.aligns, AllPages(s.pageLists), AllBlocks(s.blockLists), b);
  }

  lemma {:induction false} AllPagesFront(lists: seq<PageList>, l: PageList)
    ensures AllPages([l] + lists) == l.pages + AllPages(lists)
  {
    assert ([l] + lists)[1..] == lists;
  }

  lemma {:induction false} AllBlocksFront(lists: seq<BlockList>, l: BlockList)
    ensures AllBlocks([l] + lists) == l.blocks + AllBlocks(lists)
  {
    assert ([l] + lists)[1..] == lists;
  }

  lemma InListedPageAccounts(s: State, page: nat, bytes: nat, use: Use)
    requires Ok(s) && Accounts(s) && page !in s.held
    requires s.pageLists != [] && |s.pageLists[0].pages| < LIST_CAPACITY
    ensures Accounts(InListedPage(s, page, bytes, use))
  {
    GrowPageList(s.pageSize, s.pageLists, page);
    PageAccounts(s, page);
  }

  lemma ListInOldPageAccounts(s: State, page: nat, bytes: nat, use: Use)
    requires Ok(s) && Accounts(s) && page !in s.held
    ensures Accounts(ListInOldPage(s, page, bytes, use))
  {
    AllPagesFront(s.pageLists, PageList(s.lastPage, AlignUp(s.lastAllocated, LIST_ALIGN), [page]));
    PageAccounts(s, page);
  }

  lemma ListInNewPageAccounts(s: State, page: nat, bytes: nat, use: Use)
    requires Ok(s) && Accounts(s) && page !in s.held
    ensures Accounts(ListInNewPage(s, page, bytes, use))
  {
    AllPagesFront(s.pageLists, PageList(page, AlignUp(bytes, LIST_ALIGN), [page]));
    PageAccounts(s, page);
  }

  lemma ListInExtraPageAccounts(s: State, page: nat, extra: nat, bytes: nat, use: Use)
    requires Ok(s) && Accounts(s) && page !in s.held && extra !in s.held
    ensures Accounts(ListInExtraPage(s, page, extra, bytes, use))
  {
    AllPagesFront(s.pageLists, PageList(extra, 0, [extra, page]));
    TwoPagesAccounts(s, page, extra);
  }

  lemma InListedBlockAccounts(s: State, b: Block, use: Use)
    requires Ok(s) && Accounts(s) && b.addr !in s.held
    requires s.blockLists != [] && |s.blockLists[0].blocks| < LIST_CAPACITY
    ensures Accounts(InListedBlock(s, b, use))
  {
    GrowBlockList(s.blockLists, b);
    BlockAccounts(s, b);
  }

  lemma InBlockWithListAccounts(s: State, addr: nat, bytes: nat, room: nat, alignment: nat, use: Use)
    requires Ok(s) && Accounts(s) && addr !in s.held
    ensures Accounts(InBlockWithList(s, addr, bytes, room, alignment, use))
  {
    var b := Block(addr, room + BLOCK_LIST_BYTES, alignment);
    AllBlocksFront(s.blockLists, BlockList(addr, room, [b]));
    BlockAccounts(s, b);
  }
}
