/**
 The page arithmetic of mmap_kmalloc.c: alignment, page tables as maps from user page to frame, physical
 memory as a map from (frame, offset) to byte, and what a user and the kernel see of the same cells.
 */
module MmapPages {
  import opened Bytes

  const PAGE_SIZE: int := 4096
  const LEN: int := 16384

  // ---------------------------------------------------------------------------------------------
  // Alignment of the kmalloc block
  // ---------------------------------------------------------------------------------------------

  const WORD: int := 0x1_0000_0000_0000_0000   // unsigned long has 64 bits

  /** x & PAGE_MASK, which clears the low 12 bits. */
  function PageMask(x: int): int {
    x - x % PAGE_SIZE
  }

  /** kmalloc_area, in wrapping 64-bit arithmetic. */
  function AlignUp(ptr: int): int {
    PageMask((ptr + PAGE_SIZE - 1) % WORD)
  }

  /** For every address whose rounding does not wrap, and for no other, the mask gives the least page boundary
      at or above it; the others give 0. */
  lemma AlignUpIsLeast(ptr: int, boundary: int)
    requires 0 <= ptr < WORD
    ensures AlignUp(ptr) % PAGE_SIZE == 0
    ensures ptr <= AlignUp(ptr) <==> ptr <= WORD - PAGE_SIZE
    ensures ptr > WORD - PAGE_SIZE ==> AlignUp(ptr) == 0
    ensures ptr <= WORD - PAGE_SIZE && boundary % PAGE_SIZE == 0 && boundary >= ptr ==> boundary >= AlignUp(ptr)
  {
  }

  /** A block of LEN plus two pages, wherever it starts, holds LEN plus a whole page from the boundary on. */
  lemma AlignedAreaFits(ptr: int)
    requires 0 <= ptr && ptr + LEN + 2 * PAGE_SIZE <= WORD
    ensures ptr <= AlignUp(ptr) && AlignUp(ptr) + LEN + PAGE_SIZE <= ptr + LEN + 2 * PAGE_SIZE
  {
  }

  // ---------------------------------------------------------------------------------------------
  // Page tables
  // ---------------------------------------------------------------------------------------------

  type PageTable = map<int, int>

  /** What remap_pfn_range does when it maps n pages from user page `page`, frame `pfn` on. */
  function Remap(pt: PageTable, page: int, pfn: int, n: nat): PageTable {
    if n == 0 then pt else Remap(pt, page, pfn, n - 1)[page + n - 1 := pfn + n - 1]
  }

  /** The table with the first k frames of a list at user pages page, page+1, ... */
  function Mapped(pt: PageTable, page: int, frames: seq<int>, k: nat): PageTable
    requires k <= |frames|
  {
    if k == 0 then pt else Mapped(pt, page, frames, k - 1)[page + k - 1 := frames[k - 1]]
  }

  /** User page page+j leads to frame j, every other page where it led before. */
  lemma {:induction false} MappedAt(pt: PageTable, page: int, frames: seq<int>, k: nat, p: int)
    requires k <= |frames|
    ensures var t := Mapped(pt, page, frames, k);
            && (page <= p < page + k ==> p in t && t[p] == frames[p - page])
            && (!(page <= p < page + k) ==> (p in t <==> p in pt) && (p in pt ==> t[p] == pt[p]))
    decreases k
  {
    if k == 0 {
    } else {
      MappedAt(pt, page, frames, k - 1, p);
    }
  }

  /** One call for a contiguous area and one call a page for a scattered one give the same table exactly
      when the scattered frames are consecutive. */
  lemma {:induction false} OneCallEqualsPageLoop(pt: PageTable, page: int, pfn: int, frames: seq<int>, k: nat)
    requires k <= |frames|
    ensures Remap(pt, page, pfn, k) == Mapped(pt, page, frames, k)
            <==> forall j :: 0 <= j < k ==> frames[j] == pfn + j
    decreases k
  {
    if k == 0 {
    } else {
      OneCallEqualsPageLoop(pt, page, pfn, frames, k - 1);
      if Remap(pt, page, pfn, k) == Mapped(pt, page, frames, k) {
        forall j | 0 <= j < k
          ensures frames[j] == pfn + j
        {
          MappedAt(pt, page, frames, k, page + j);
          RemapAt(pt, page, pfn, k, j);
        }
      }
    }
  }

  lemma {:induction false} RemapAt(pt: PageTable, page: int, pfn: int, n: nat, j: nat)
    requires j < n
    ensures page + j in Remap(pt, page, pfn, n) && Remap(pt, page, pfn, n)[page + j] == pfn + j
    decreases n
  {
    if j == n - 1 {
    } else {
      RemapAt(pt, page, pfn, n - 1, j);
    }
  }

  // ---------------------------------------------------------------------------------------------
  // Cells
  // ---------------------------------------------------------------------------------------------

  type Cell = (int, int)
  type Memory = map<Cell, Byte>

  predicate Distinct(frames: seq<int>) {
    forall i, j :: 0 <= i < j < |frames| ==> frames[i] != frames[j]
  }

  /** The cell behind byte i of a kernel area lying in these frames. */
  function KernelCell(frames: seq<int>, i: int): Cell
    requires 0 <= i < |frames| * PAGE_SIZE
  {
    (frames[i / PAGE_SIZE], i % PAGE_SIZE)
  }

  /** The cell behind a mapped user address. */
  function UserCell(pt: PageTable, addr: int): Cell
    requires addr / PAGE_SIZE in pt
  {
    (pt[addr / PAGE_SIZE], addr % PAGE_SIZE)
  }

  lemma CellsDiffer(frames: seq<int>, i: int, j: int)
    requires Distinct(frames) && 0 <= i < |frames| * PAGE_SIZE && 0 <= j < |frames| * PAGE_SIZE && i != j
    ensures KernelCell(frames, i) != KernelCell(frames, j)
  {
    if i / PAGE_SIZE == j / PAGE_SIZE {
      assert i == PAGE_SIZE * (i / PAGE_SIZE) + i % PAGE_SIZE;
      assert j == PAGE_SIZE * (j / PAGE_SIZE) + j % PAGE_SIZE;
    }
  }

  /** Coherence: after the page loop, user byte start+i and kernel byte i are one cell. */
  lemma SameCell(pt: PageTable, start: int, frames: seq<int>, k: nat, i: int)
    requires k <= |frames| && start % PAGE_SIZE == 0 && 0 <= i < k * PAGE_SIZE
    ensures var t := Mapped(pt, start / PAGE_SIZE, frames, k);
            (start + i) / PAGE_SIZE in t && UserCell(t, start + i) == KernelCell(frames, i)
  {
    MappedAt(pt, start / PAGE_SIZE, frames, k, start / PAGE_SIZE + i / PAGE_SIZE);
    assert (start + i) / PAGE_SIZE == start / PAGE_SIZE + i / PAGE_SIZE;
    assert (start + i) % PAGE_SIZE == i % PAGE_SIZE;
  }

  /** The bytes of a kernel area. */
  predicate Backed(mem: Memory, frames: seq<int>) {
    forall i :: 0 <= i < |frames| * PAGE_SIZE ==> KernelCell(frames, i) in mem
  }

  function Area(mem: Memory, frames: seq<int>): (a: seq<Byte>)
    requires Backed(mem, frames)
    ensures |a| == |frames| * PAGE_SIZE
  {
    seq(|frames| * PAGE_SIZE, i requires 0 <= i < |frames| * PAGE_SIZE => mem[KernelCell(frames, i)])
  }

  /** Storing through one cell changes exactly that byte of the area. */
  lemma StoreUpdates(mem: Memory, frames: seq<int>, i: int, b: Byte)
    requires Backed(mem, frames) && Distinct(frames) && 0 <= i < |frames| * PAGE_SIZE
    ensures Backed(mem[KernelCell(frames, i) := b], frames)
    ensures Area(mem[KernelCell(frames, i) := b], frames) == Area(mem, frames)[i := b]
  {
    var mem' := mem[KernelCell(frames, i) := b];
    forall j | 0 <= j < |frames| * PAGE_SIZE && j != i
      ensures mem'[KernelCell(frames, j)] == mem[KernelCell(frames, j)]
    {
      CellsDiffer(frames, i, j);
    }
  }

  /** Physical memory with exactly these frames, holding whatever was in them. */
  function Allocated(frames: set<int>, initial: (int, int) -> Byte): (mem: Memory)
    ensures forall f, o :: (f, o) in mem <==> f in frames && 0 <= o < PAGE_SIZE
    ensures forall f, o :: (f, o) in mem ==> mem[(f, o)] == initial(f, o)
  {
    map f, o | f in frames && 0 <= o < PAGE_SIZE :: (f, o) := initial(f, o)
  }

  lemma AllocatedBacks(all: set<int>, initial: (int, int) -> Byte, frames: seq<int>)
    requires forall f :: f in frames ==> f in all
    ensures Backed(Allocated(all, initial), frames)
  {
    forall i | 0 <= i < |frames| * PAGE_SIZE ensures KernelCell(frames, i) in Allocated(all, initial) {
      var f, o := frames[i / PAGE_SIZE], i % PAGE_SIZE;
      assert f in frames;
      assert (f, o) in Allocated(all, initial);
    }
  }

  /** Nothing but bytes of these frames has changed. */
  ghost predicate OnlyIn(frames: seq<int>, mem: Memory, mem': Memory) {
    && (forall c :: c in mem <==> c in mem')
    && (forall c: Cell :: c in mem && c.0 !in frames ==> mem'[c] == mem[c])
  }

  predicate Apart(frames: seq<int>, others: seq<int>) {
    forall f :: f in frames ==> f !in others
  }

  /** Storing into one area leaves every area without a frame in common alone. */
  lemma StoreElsewhere(mem: Memory, frames: seq<int>, i: int, b: Byte, others: seq<int>)
    requires Backed(mem, others) && Apart(frames, others) && 0 <= i < |frames| * PAGE_SIZE
    ensures Backed(mem[KernelCell(frames, i) := b], others)
    ensures Area(mem[KernelCell(frames, i) := b], others) == Area(mem, others)
  {
    var f := frames[i / PAGE_SIZE];
    assert f in frames;
    assert f !in others;
    forall j | 0 <= j < |others| * PAGE_SIZE
      ensures KernelCell(others, j) != KernelCell(frames, i)
    {
      assert others[j / PAGE_SIZE] in others;
    }
  }

  /** A user program's stores: (offset into the mapping, byte). */
  datatype Store = Store(i: int, b: Byte)

  /** Stores done through the user's page table. */
  function UserStores(mem: Memory, pt: PageTable, start: int, stores: seq<Store>): (r: Memory)
    requires forall s :: s in stores ==> (start + s.i) / PAGE_SIZE in pt
    ensures forall c :: c in mem ==> c in r
    decreases |stores|
  {
    if stores == [] then mem
    else
      var s := stores[|stores| - 1];
      UserStores(mem, pt, start, stores[..|stores| - 1])[UserCell(pt, start + s.i) := s.b]
  }

  /** The same stores done on a byte array. */
  function Overlay(a: seq<Byte>, stores: seq<Store>): (r: seq<Byte>)
    requires forall s :: s in stores ==> 0 <= s.i < |a|
    decreases |stores|
    ensures |r| == |a|
  {
    if stores == [] then a
    else
      var s := stores[|stores| - 1];
      Overlay(a, stores[..|stores| - 1])[s.i := s.b]
  }

  /** What a byte holds after the stores: the last one to it, or what it held before if there is none. */
  predicate AfterStores(before: Byte, stores: seq<Store>, i: int, after: Byte) {
    || (after == before && forall k :: 0 <= k < |stores| ==> stores[k].i != i)
    || (exists k :: 0 <= k < |stores| && LastTo(stores, i, k) && stores[k].b == after)
  }

  /** Store k goes to offset i, and no later one does. */
  predicate LastTo(stores: seq<Store>, i: int, k: int)
    requires 0 <= k < |stores|
  {
    stores[k].i == i && forall l :: k < l < |stores| ==> stores[l].i != i
  }

  lemma OneMoreStore(before: Byte, stores: seq<Store>, s: Store, i: int, after: Byte)
    requires AfterStores(before, stores, i, after)
    ensures AfterStores(before, stores + [s], i, if s.i == i then s.b else after)
  {
    var more := stores + [s];
    if s.i == i {
      assert LastTo(more, i, |stores|);
    } else if !(after == before && forall k :: 0 <= k < |stores| ==> stores[k].i != i) {
      var k :| 0 <= k < |stores| && LastTo(stores, i, k) && stores[k].b == after;
      assert more[k] == stores[k] && LastTo(more, i, k);
    }
  }

  /** The last store to a byte wins. */
  lemma {:induction false} LastStoreWins(a: seq<Byte>, stores: seq<Store>, i: int)
    requires (forall s :: s in stores ==> 0 <= s.i < |a|) && 0 <= i < |a|
    ensures AfterStores(a[i], stores, i, Overlay(a, stores)[i])
    decreases |stores|
  {
    if stores == [] {
    } else {
      var m := |stores| - 1;
      LastStoreWins(a, stores[..m], i);
      OneMoreStore(a[i], stores[..m], stores[m], i, Overlay(a, stores[..m])[i]);
      assert stores[..m] + [stores[m]] == stores;
    }
  }

  /** The stores fall into the first k pages of the mapping. */
  predicate Within(stores: seq<Store>, k: nat) {
    forall s :: s in stores ==> 0 <= s.i < k * PAGE_SIZE
  }

  lemma StoresAreMapped(pt: PageTable, start: int, frames: seq<int>, k: nat, stores: seq<Store>)
    requires k <= |frames| && start % PAGE_SIZE == 0 && Within(stores, k)
    ensures forall s :: s in stores ==> (start + s.i) / PAGE_SIZE in Mapped(pt, start / PAGE_SIZE, frames, k)
  {
    forall s | s in stores
      ensures (start + s.i) / PAGE_SIZE in Mapped(pt, start / PAGE_SIZE, frames, k)
    {
      SameCell(pt, start, frames, k, s.i);
    }
  }

  /** Stores through the mapping touch no byte outside the area's frames. */
  lemma {:induction false} StoresStayInTheArea(
      mem: Memory, pt: PageTable, start: int, frames: seq<int>, k: nat, stores: seq<Store>)
    requires Backed(mem, frames) && k <= |frames| && start % PAGE_SIZE == 0 && Within(stores, k)
    requires forall s :: s in stores ==> (start + s.i) / PAGE_SIZE in Mapped(pt, start / PAGE_SIZE, frames, k)
    ensures OnlyIn(frames, mem, UserStores(mem, Mapped(pt, start / PAGE_SIZE, frames, k), start, stores))
    decreases |stores|
  {
    if stores == [] {
    } else {
      var m := |stores| - 1;
      var i := stores[m].i;
      StoresStayInTheArea(mem, pt, start, frames, k, stores[..m]);
      SameCell(pt, start, frames, k, i);
      assert KernelCell(frames, i) in mem && frames[i / PAGE_SIZE] in frames;
    }
  }

  /** Whatever a program stores through its mapping is what the kernel reads from the area, and nothing
      else of the area changes. */
  lemma {:induction false} StoresReachTheArea(
      mem: Memory, pt: PageTable, start: int, frames: seq<int>, k: nat, stores: seq<Store>)
    requires Backed(mem, frames) && Distinct(frames) && k <= |frames| && start % PAGE_SIZE == 0
    requires Within(stores, k)
    requires forall s :: s in stores ==> (start + s.i) / PAGE_SIZE in Mapped(pt, start / PAGE_SIZE, frames, k)
    ensures var t := Mapped(pt, start / PAGE_SIZE, frames, k);
            && Backed(UserStores(mem, t, start, stores), frames)
            && Area(UserStores(mem, t, start, stores), frames) == Overlay(Area(mem, frames), stores)
    decreases |stores|
  {
    if stores == [] {
    } else {
      var t, m := Mapped(pt, start / PAGE_SIZE, frames, k), |stores| - 1;
      var s := stores[m];
      StoresReachTheArea(mem, pt, start, frames, k, stores[..m]);
      SameCell(pt, start, frames, k, s.i);
      StoreUpdates(UserStores(mem, t, start, stores[..m]), frames, s.i, s.b);
    }
  }

  // ---------------------------------------------------------------------------------------------
  // What the guards let through
  // ---------------------------------------------------------------------------------------------

  /** `length` of mmap_vmalloc, an unsigned int. */
  function Length32(start: int, end: int): int {
    (end - start) % 0x1_0000_0000
  }

  /** mmap_vmalloc accepts a vma and maps all of it exactly when the vma is at most two pages. (Its 32-bit
      length also accepts, and maps short, a vma that exceeds a multiple of 4 GiB by at most two pages.) */
  lemma VmallocCoversExactly(start: int, end: int)
    requires 0 <= start <= end && start % PAGE_SIZE == 0 && end % PAGE_SIZE == 0
    ensures Length32(start, end) % PAGE_SIZE == 0
    ensures end - start < 0x1_0000_0000 ==> Length32(start, end) == end - start
    ensures Length32(start, end + 0x1_0000_0000) == Length32(start, end)
    ensures Length32(start, end) == end - start && Length32(start, end) <= 2 * PAGE_SIZE
            <==> end - start <= 2 * PAGE_SIZE
  {
  }

  /** The kmalloc guard is LEN * PAGE_SIZE, 4096 times the block: a mapping it accepts stays inside the block
      of LEN + 2 pages exactly when it is no longer than the room from the page boundary on. */
  lemma KmallocGuardIsWide(ptr: int, area: int, length: int)
    requires ptr <= area < ptr + PAGE_SIZE && area % PAGE_SIZE == 0
    requires 0 <= length <= LEN * PAGE_SIZE && length % PAGE_SIZE == 0
    ensures area + length <= ptr + LEN + 2 * PAGE_SIZE <==>
              length / PAGE_SIZE <= (if area == ptr then 6 else 5)
  {
  }
}
