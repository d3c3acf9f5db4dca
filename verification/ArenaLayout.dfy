/** Byte layout of `ExclusiveMonotonicBufferResource`: what its pages, its oversize
  blocks and the lists stored inside them must satisfy. */
module ArenaLayout {
  import opened Sequences

  /** Entries per page list, oversize list and task list. */
  const LIST_CAPACITY: nat := 15
  /** sizeof(PageArray), sizeof(OversizePageArray), sizeof(DestroyTaskArray). */
  const PAGE_LIST_BYTES: nat := 128
  const BLOCK_LIST_BYTES: nat := 368
  const TASK_LIST_BYTES: nat := 248
  /** Alignment of all three. */
  const LIST_ALIGN: nat := 8
  /** `_last_page_allocated` while there is no page: UINT32_MAX. */
  const NO_PAGE: nat := 0xFFFF_FFFF

  datatype Use = User | Bookkeeping

  /** Bytes [off, off + len) of the memory block at address `block`. */
  datatype Region = Region(block: nat, off: nat, len: nat, use: Use) {
    function Start(): nat { block + off }
    function End(): nat { block + off + len }
  }

  /** A PageArray stored at `host + off`; `pages` are its used entries, newest first. */
  datatype PageList = PageList(host: nat, off: nat, pages: seq<nat>)

  datatype Block = Block(addr: nat, bytes: nat, alignment: nat)

  /** An OversizePageArray stored at `host + off`, entries newest first. */
  datatype BlockList = BlockList(host: nat, off: nat, blocks: seq<Block>)

  datatype Task = Task(ptr: int, destructor: int)

  /** A DestroyTaskArray stored at `host + off`, tasks newest first. */
  datatype TaskList = TaskList(host: nat, off: nat, tasks: seq<Task>)

  datatype Event = Destroyed(task: Task) | PageFreed(page: nat) | BlockFreed(block: Block)

  // ------------------------------------------------------------ contents

  /** All pages, newest first. */
  function AllPages(lists: seq<PageList>): seq<nat> {
    if lists == [] then [] else lists[0].pages + AllPages(lists[1..])
  }

  function AllBlocks(lists: seq<BlockList>): seq<Block> {
    if lists == [] then [] else lists[0].blocks + AllBlocks(lists[1..])
  }

  function AllTasks(lists: seq<TaskList>): seq<Task> {
    if lists == [] then [] else lists[0].tasks + AllTasks(lists[1..])
  }

  function Addrs(blocks: seq<Block>): (r: seq<nat>)
    ensures |r| == |blocks| && forall i :: 0 <= i < |blocks| ==> r[i] == blocks[i].addr
  {
    seq(|blocks|, i requires 0 <= i < |blocks| => blocks[i].addr)
  }

  function SumBytes(blocks: seq<Block>): nat {
    if blocks == [] then 0 else blocks[0].bytes + SumBytes(blocks[1..])
  }

  function PagesBytes(pageSize: nat, pages: seq<nat>): nat {
    if pages == [] then 0 else pageSize + PagesBytes(pageSize, pages[1..])
  }

  lemma {:induction false} PagesBytesIs(pageSize: nat, pages: seq<nat>)
    ensures PagesBytes(pageSize, pages) == pageSize * |pages|
  {
    if pages != [] {
      PagesBytesIs(pageSize, pages[1..]);
      assert pageSize * |pages| == pageSize * (|pages| - 1) + pageSize;
    }
  }

  /** Total length of the listed memory. */
  function HeldBytes(pageSize: nat, pages: seq<nat>, blocks: seq<Block>): nat {
    PagesBytes(pageSize, pages) + SumBytes(blocks)
  }

  /** Every listed block was obtained with the alignment that its entry records. */
  ghost predicate AlignsOk(aligns: map<nat, nat>, blocks: seq<Block>) {
    forall i :: 0 <= i < |blocks| ==> blocks[i].addr in aligns && aligns[blocks[i].addr] == blocks[i].alignment
  }

  // ------------------------------------------------------------- accounts

  /** `obtained` is the total length of the listed memory, and every listed block was
    obtained with the alignment that its entry records. */
  ghost predicate Accounted(
    pageSize: nat, obtained: nat, aligns: map<nat, nat>, pages: seq<nat>, blocks: seq<Block>)
  {
    obtained == HeldBytes(pageSize, pages, blocks) && AlignsOk(aligns, blocks)
  }

  lemma NewAlign(held: map<nat, nat>, aligns: map<nat, nat>, blocks: seq<Block>, a: nat, alignment: nat)
    requires AlignsOk(aligns, blocks) && a !in held
    requires forall i :: 0 <= i < |blocks| ==> blocks[i].addr in held
    ensures AlignsOk(aligns[a := alignment], blocks)
  {
  }

  lemma CountPage(pageSize: nat, held: map<nat, nat>, obtained: nat, aligns: map<nat, nat>,
                  pages: seq<nat>, blocks: seq<Block>, page: nat)
    requires Accounted(pageSize, obtained, aligns, pages, blocks) && page !in held
    requires forall i :: 0 <= i < |blocks| ==> blocks[i].addr in held
    ensures Accounted(pageSize, obtained + pageSize, aligns[page := pageSize], [page] + pages, blocks)
  {
    assert ([page] + pages)[1..] == pages;
    NewAlign(held, aligns, blocks, page, pageSize);
  }

  lemma CountTwoPages(pageSize: nat, held: map<nat, nat>, obtained: nat, aligns: map<nat, nat>,
                      pages: seq<nat>, blocks: seq<Block>, page: nat, extra: nat)
    requires Accounted(pageSize, obtained, aligns, pages, blocks) && page !in held && extra !in held
    requires forall i :: 0 <= i < |blocks| ==> blocks[i].addr in held
    ensures Accounted(pageSize, obtained + 2 * pageSize, aligns[page := pageSize][extra := pageSize],
                      [extra, page] + pages, blocks)
  {
    CountPage(pageSize, held, obtained, aligns, pages, blocks, page);
    CountPage(pageSize, held, obtained + pageSize, aligns[page := pageSize], [page] + pages, blocks, extra);
    assert [extra, page] + pages == [extra] + ([page] + pages);
  }

  lemma CountBlock(pageSize: nat, held: map<nat, nat>, obtained: nat, aligns: map<nat, nat>,
                   pages: seq<nat>, blocks: seq<Block>, b: Block)
    requires Accounted(pageSize, obtained, aligns, pages, blocks) && b.addr !in held
    requires forall i :: 0 <= i < |blocks| ==> blocks[i].addr in held
    ensures Accounted(pageSize, obtained + b.bytes, aligns[b.addr := b.alignment], pages, [b] + blocks)
  {
    assert ([b] + blocks)[1..] == blocks;
    NewAlign(held, aligns, blocks, b.addr, b.alignment);
  }

  // -------------------------------------------------------------- regions

  predicate Apart(r: Region, q: Region) {
    r.block != q.block || r.off + r.len <= q.off || q.off + q.len <= r.off
  }

  predicate Fits(blocks: map<nat, nat>, r: Region) {
    r.block in blocks && r.off + r.len <= blocks[r.block]
  }

  ghost predicate RegionsOk(blocks: map<nat, nat>, regions: seq<Region>) {
    && (forall i :: 0 <= i < |regions| ==> Fits(blocks, regions[i]))
    && (forall i, j :: 0 <= i < j < |regions| ==> Apart(regions[i], regions[j]))
  }

  /** Everything in the current page lies below the bump offset. */
  ghost predicate Below(regions: seq<Region>, page: nat, offset: nat) {
    forall i :: 0 <= i < |regions| && regions[i].block == page ==>
      regions[i].off + regions[i].len <= offset
  }

  /** Blocks of memory do not overlap. */
  ghost predicate BlocksApart(blocks: map<nat, nat>) {
    forall a, b :: a in blocks && b in blocks && a < b ==> a + blocks[a] <= b
  }

  /** Regions of non-overlapping blocks are disjoint as byte ranges. */
  lemma RegionsDisjoint(blocks: map<nat, nat>, regions: seq<Region>, i: nat, j: nat)
    requires BlocksApart(blocks) && RegionsOk(blocks, regions) && i < j < |regions|
    ensures regions[i].End() <= regions[j].Start() || regions[j].End() <= regions[i].Start()
  {
  }

  /** A region beyond the bump offset of its page joins the layout. */
  lemma AddBeyond(blocks: map<nat, nat>, regions: seq<Region>, r: Region, offset: nat)
    requires RegionsOk(blocks, regions) && Below(regions, r.block, offset)
    requires offset <= r.off && Fits(blocks, r)
    ensures RegionsOk(blocks, regions + [r]) && Below(regions + [r], r.block, r.off + r.len)
  {
  }

  /** A region in a block that was not there before joins the layout. */
  lemma AddFresh(blocks: map<nat, nat>, regions: seq<Region>, bytes: nat, r: Region)
    requires RegionsOk(blocks, regions) && r.block !in blocks && r.off + r.len <= bytes
    ensures RegionsOk(blocks[r.block := bytes], regions + [r])
    ensures Below(regions + [r], r.block, r.off + r.len)
  {
  }

  // ---------------------------------------------------------------- lists

  /** List `k` is full unless it is the newest, and lies in a page that it lists itself
    or that an older list names. */
  ghost predicate PageListOk(pageSize: nat, lists: seq<PageList>, k: nat)
    requires k < |lists|
  {
    && 1 <= |lists[k].pages| <= LIST_CAPACITY && (k > 0 ==> |lists[k].pages| == LIST_CAPACITY)
    && lists[k].host in AllPages(lists[k..])
    && lists[k].off % LIST_ALIGN == 0 && lists[k].off + PAGE_LIST_BYTES <= pageSize
  }

  /** An oversize list lies at the end of its own oldest block. */
  ghost predicate BlockListOk(lists: seq<BlockList>, k: nat)
    requires k < |lists|
  {
    && 1 <= |lists[k].blocks| <= LIST_CAPACITY && (k > 0 ==> |lists[k].blocks| == LIST_CAPACITY)
    && var oldest := lists[k].blocks[|lists[k].blocks| - 1];
    && lists[k].host == oldest.addr && lists[k].off + BLOCK_LIST_BYTES == oldest.bytes
  }

  ghost predicate TaskListOk(held: map<nat, nat>, l: TaskList, newest: bool) {
    && 1 <= |l.tasks| <= LIST_CAPACITY && (!newest ==> |l.tasks| == LIST_CAPACITY)
    && l.host in held && l.off + TASK_LIST_BYTES <= held[l.host]
  }

  ghost predicate PageListsOk(pageSize: nat, lists: seq<PageList>) {
    forall k :: 0 <= k < |lists| ==> PageListOk(pageSize, lists, k)
  }

  ghost predicate BlockListsOk(lists: seq<BlockList>) {
    forall k :: 0 <= k < |lists| ==> BlockListOk(lists, k)
  }

  ghost predicate TaskListsOk(blocks: map<nat, nat>, lists: seq<TaskList>) {
    forall k :: 0 <= k < |lists| ==> TaskListOk(blocks, lists[k], k == 0)
  }

  /** The held memory is exactly the listed pages and oversize blocks, each once. */
  ghost predicate Inventory(pageSize: nat, held: map<nat, nat>, pages: seq<nat>, blocks: seq<Block>)
    requires pageSize > 0
  {
    && Distinct(pages) && Distinct(Addrs(blocks))
    && (forall i :: 0 <= i < |pages| ==>
          pages[i] in held && held[pages[i]] == pageSize && pages[i] % pageSize == 0)
    && (forall i :: 0 <= i < |blocks| ==> blocks[i].addr in held && held[blocks[i].addr] == blocks[i].bytes)
    && (forall i, j :: 0 <= i < |pages| && 0 <= j < |blocks| ==> pages[i] != blocks[j].addr)
    && (forall a :: a in held ==> a in pages || a in Addrs(blocks))
  }

  lemma AddPage(pageSize: nat, held: map<nat, nat>, pages: seq<nat>, blocks: seq<Block>, page: nat)
    requires pageSize > 0 && Inventory(pageSize, held, pages, blocks)
    requires page !in held && page % pageSize == 0
    ensures Inventory(pageSize, held[page := pageSize], [page] + pages, blocks)
  {
  }

  lemma AddOversize(pageSize: nat, held: map<nat, nat>, pages: seq<nat>, blocks: seq<Block>, b: Block)
    requires pageSize > 0 && Inventory(pageSize, held, pages, blocks) && b.addr !in held
    ensures Inventory(pageSize, held[b.addr := b.bytes], pages, [b] + blocks)
  {
    forall a | a in held[b.addr := b.bytes]
      ensures a in pages || a in Addrs([b] + blocks)
    {
      if a == b.addr {
        assert Addrs([b] + blocks)[0] == a;
      } else if a in Addrs(blocks) {
        var i :| 0 <= i < |blocks| && Addrs(blocks)[i] == a;
        assert Addrs([b] + blocks)[i + 1] == a;
      }
    }
  }

  /** Returning the newest page leaves the inventory of the rest. */
  lemma RemovePage(pageSize: nat, held: map<nat, nat>, pages: seq<nat>, blocks: seq<Block>)
    requires pageSize > 0 && Inventory(pageSize, held, pages, blocks) && pages != []
    ensures Inventory(pageSize, held - {pages[0]}, pages[1..], blocks)
  {
  }

  lemma RemoveOversize(pageSize: nat, held: map<nat, nat>, pages: seq<nat>, blocks: seq<Block>)
    requires pageSize > 0 && Inventory(pageSize, held, pages, blocks) && blocks != []
    ensures Inventory(pageSize, held - {blocks[0].addr}, pages, blocks[1..])
  {
  }

  /** A page enters the newest list. */
  lemma GrowPageList(pageSize: nat, lists: seq<PageList>, page: nat)
    requires PageListsOk(pageSize, lists) && lists != [] && |lists[0].pages| < LIST_CAPACITY
    ensures var lists' := lists[0 := lists[0].(pages := [page] + lists[0].pages)];
            PageListsOk(pageSize, lists') && AllPages(lists') == [page] + AllPages(lists)
  {
    var lists' := lists[0 := lists[0].(pages := [page] + lists[0].pages)];
    assert lists'[1..] == lists[1..];
    assert AllPages(lists') == [page] + AllPages(lists);
    forall k | 0 <= k < |lists'|
      ensures PageListOk(pageSize, lists', k)
    {
      assert PageListOk(pageSize, lists, k);
      if k == 0 {
        assert lists'[0..] == lists' && lists[0..] == lists;
      } else {
        assert lists'[k..] == lists[k..];
      }
    }
  }

  /** A new list starts in front; the previous newest one must be full. */
  lemma StartPageList(pageSize: nat, lists: seq<PageList>, l: PageList)
    requires PageListsOk(pageSize, lists)
    requires lists != [] ==> |lists[0].pages| == LIST_CAPACITY
    requires 1 <= |l.pages| <= LIST_CAPACITY && (l.host in l.pages || l.host in AllPages(lists))
    requires l.off % LIST_ALIGN == 0 && l.off + PAGE_LIST_BYTES <= pageSize
    ensures PageListsOk(pageSize, [l] + lists) && AllPages([l] + lists) == l.pages + AllPages(lists)
  {
    var lists' := [l] + lists;
    assert lists'[1..] == lists;
    forall k | 0 <= k < |lists'|
      ensures PageListOk(pageSize, lists', k)
    {
      if k == 0 {
        assert lists'[0..] == lists';
      } else {
        assert lists'[k..] == lists[k - 1..];
        assert PageListOk(pageSize, lists, k - 1);
      }
    }
  }

  lemma DropPageList(pageSize: nat, lists: seq<PageList>)
    requires PageListsOk(pageSize, lists) && lists != []
    ensures PageListsOk(pageSize, lists[1..]) && AllPages(lists) == lists[0].pages + AllPages(lists[1..])
    ensures lists[1..] != [] ==> |lists[1].pages| == LIST_CAPACITY
  {
    forall k | 0 <= k < |lists| - 1
      ensures PageListOk(pageSize, lists[1..], k)
    {
      assert lists[1..][k..] == lists[k + 1..];
      assert PageListOk(pageSize, lists, k + 1);
    }
    if |lists| > 1 {
      assert PageListOk(pageSize, lists, 1);
    }
  }

  lemma GrowBlockList(lists: seq<BlockList>, b: Block)
    requires BlockListsOk(lists) && lists != [] && |lists[0].blocks| < LIST_CAPACITY
    ensures var lists' := lists[0 := lists[0].(blocks := [b] + lists[0].blocks)];
            BlockListsOk(lists') && AllBlocks(lists') == [b] + AllBlocks(lists)
  {
    var lists' := lists[0 := lists[0].(blocks := [b] + lists[0].blocks)];
    assert lists'[1..] == lists[1..];
    assert AllBlocks(lists') == [b] + AllBlocks(lists);
    forall k | 0 <= k < |lists'|
      ensures BlockListOk(lists', k)
    {
      assert BlockListOk(lists, k);
    }
  }

  lemma StartBlockList(lists: seq<BlockList>, l: BlockList)
    requires BlockListsOk(lists)
    requires lists != [] ==> |lists[0].blocks| == LIST_CAPACITY
    requires |l.blocks| == 1 && l.host == l.blocks[0].addr && l.off + BLOCK_LIST_BYTES == l.blocks[0].bytes
    ensures BlockListsOk([l] + lists) && AllBlocks([l] + lists) == l.blocks + AllBlocks(lists)
  {
    var lists' := [l] + lists;
    assert lists'[1..] == lists;
    forall k | 0 <= k < |lists'|
      ensures BlockListOk(lists', k)
    {
      if k > 0 {
        assert BlockListOk(lists, k - 1);
      }
    }
  }

  lemma DropBlockList(lists: seq<BlockList>)
    requires BlockListsOk(lists) && lists != []
    ensures BlockListsOk(lists[1..]) && AllBlocks(lists) == lists[0].blocks + AllBlocks(lists[1..])
  {
    forall k | 0 <= k < |lists| - 1
      ensures BlockListOk(lists[1..], k)
    {
      assert BlockListOk(lists, k + 1);
    }
  }
}
