/** mmap_kmalloc.c with its globals, the two areas, one page table and physical memory changed in place. */
module MmapDriver {
  import opened Bytes
  import opened MmapPages

  const EIO: int := 5
  const EAGAIN: int := 11

  /** An area's bytes after test_mmap_open: ascii 0123456789 over and over. */
  predicate Filled(a: seq<Byte>) {
    |a| == 2 * PAGE_SIZE && forall i :: 0 <= i < |a| ==> a[i] == 48 + i % 10
  }

  class Device {
    const kFrames: seq<int>        // frames behind kmalloc_area, consecutive
    const vFrames: seq<int>        // frames behind vmalloc_ptr, anywhere
    var mem: Memory
    var reserved: set<int>
    var table: PageTable
    var readFlag: bool

    /** Two distinct pages back each area, and the areas share no frame. */
    ghost predicate Valid()
      reads this
    {
      && |kFrames| == |vFrames| == 2
      && Distinct(kFrames) && Distinct(vFrames)
      && kFrames[1] == kFrames[0] + 1
      && Apart(kFrames, vFrames) && Apart(vFrames, kFrames)
      && Backed(mem, kFrames) && Backed(mem, vFrames)
    }

    /** Module load: the allocators gave frames k, k+1 to the aligned kmalloc area and v to the vmalloc area,
        with whatever bytes were in them. */
    constructor (k: int, v: seq<int>, initial: (int, int) -> Byte)
      requires |v| == 2 && v[0] != v[1] && k !in v && k + 1 !in v
      ensures Valid() && kFrames == [k, k + 1] && vFrames == v
      ensures reserved == {} && table == map[] && readFlag
      ensures mem == Allocated({k, k + 1, v[0], v[1]}, initial)
    {
      kFrames, vFrames := [k, k + 1], v;
      mem := Allocated({k, k + 1, v[0], v[1]}, initial);
      reserved, table, readFlag := {}, map[], true;
      AllocatedBacks({k, k + 1, v[0], v[1]}, initial, [k, k + 1]);
      AllocatedBacks({k, k + 1, v[0], v[1]}, initial, v);
    }

    /** The two areas, in either order. */
    ghost predicate Areas(frames: seq<int>, others: seq<int>) {
      (frames == kFrames && others == vFrames) || (frames == vFrames && others == kFrames)
    }

    ghost function Frames(minor: int): (f: seq<int>)
      ensures minor == 0 || minor == 1 ==> f == if minor == 0 then kFrames else vFrames
    {
      if minor == 0 then kFrames else vFrames
    }

    /** *(alloc_area + i) = b */
    method Poke(frames: seq<int>, ghost others: seq<int>, i: int, b: Byte)
      requires Valid() && Areas(frames, others) && 0 <= i < 2 * PAGE_SIZE
      modifies this`mem
      ensures Valid()
      ensures Area(mem, frames) == old(Area(mem, frames))[i := b]
      ensures Area(mem, others) == old(Area(mem, others)) && OnlyIn(frames, old(mem), mem)
    {
      assert frames[i / PAGE_SIZE] in frames;
      StoreUpdates(mem, frames, i, b);
      StoreElsewhere(mem, frames, i, b, others);
      mem := mem[KernelCell(frames, i) := b];
    }

    /** Lines 175-182: memset, then the nested loops that write ascii digits. */
    method Fill(frames: seq<int>, ghost others: seq<int>)
      requires Valid() && Areas(frames, others)
      modifies this`mem
      ensures Valid() && Filled(Area(mem, frames))
      ensures Area(mem, others) == old(Area(mem, others)) && OnlyIn(frames, old(mem), mem)
    {
      for z := 0 to 2 * PAGE_SIZE
        invariant Valid() && Area(mem, others) == old(Area(mem, others)) && OnlyIn(frames, old(mem), mem)
      {
        Poke(frames, others, z, 90);
      }
      var i := 0;
      while i < 2 * PAGE_SIZE
        invariant Valid() && Area(mem, others) == old(Area(mem, others)) && OnlyIn(frames, old(mem), mem)
        invariant 0 <= i <= 2 * PAGE_SIZE && (i % 10 == 0 || i == 2 * PAGE_SIZE)
        invariant forall x :: 0 <= x < i ==> Area(mem, frames)[x] == 48 + x % 10
        decreases 2 * PAGE_SIZE - i
      {
        ghost var block := i;
        var j := 0;
        while j < 10 && i < 2 * PAGE_SIZE
          invariant Valid() && Area(mem, others) == old(Area(mem, others)) && OnlyIn(frames, old(mem), mem)
          invariant i == block + j && i <= 2 * PAGE_SIZE && 0 <= j <= 10
          invariant forall x :: 0 <= x < i ==> Area(mem, frames)[x] == 48 + x % 10
          decreases 10 - j
        {
          assert j == i % 10;
          Poke(frames, others, i, '0' as int + j);
          i := i + 1;
          j := j + 1;
        }
      }
    }

    /** test_mmap_open: reserves the two pages of the minor's area and fills it; other minors fail. */
    method Open(minor: int) returns (ret: int)
      requires Valid()
      modifies this`mem, this`reserved
      ensures Valid()
      ensures ret == 0 <==> minor == 0 || minor == 1
      ensures ret != 0 ==> ret == -1 && mem == old(mem) && reserved == old(reserved)
      ensures ret == 0 ==>
                && Filled(Area(mem, Frames(minor)))
                && reserved == old(reserved) + {Frames(minor)[0], Frames(minor)[1]}
      ensures ret == 0 ==> OnlyIn(Frames(minor), old(mem), mem)
      ensures minor == 0 ==> Area(mem, vFrames) == old(Area(mem, vFrames))
      ensures minor == 1 ==> Area(mem, kFrames) == old(Area(mem, kFrames))
    {
      var frames;
      ghost var others;
      if minor == 0 {
        frames, others := kFrames, vFrames;
      } else if minor == 1 {
        frames, others := vFrames, kFrames;
      } else {
        return -1;
      }
      var virt := 0;
      while virt < 2 * PAGE_SIZE
        invariant virt == 0 || virt == PAGE_SIZE || virt == 2 * PAGE_SIZE
        invariant mem == old(mem) && reserved == old(reserved) + set x | x in frames[..virt / PAGE_SIZE]
        decreases 2 * PAGE_SIZE - virt
      {
        reserved := reserved + {frames[virt / PAGE_SIZE]};
        virt := virt + PAGE_SIZE;
      }
      Fill(frames, others);
      ret := 0;
    }

    /** test_mmap_release: takes back exactly the reservations an open of the same minor made. */
    method Release(minor: int) returns (ret: int)
      requires Valid()
      modifies this`reserved
      ensures Valid()
      ensures ret == 0 <==> minor == 0 || minor == 1
      ensures ret != 0 ==> ret == -1 && reserved == old(reserved)
      ensures ret == 0 ==> reserved == old(reserved) - {Frames(minor)[0], Frames(minor)[1]}
    {
      var frames;
      if minor == 0 {
        frames := kFrames;
      } else if minor == 1 {
        frames := vFrames;
      } else {
        return -1;
      }
      var virt := 0;
      while virt < 2 * PAGE_SIZE
        invariant virt == 0 || virt == PAGE_SIZE || virt == 2 * PAGE_SIZE
        invariant reserved == old(reserved) - set x | x in frames[..virt / PAGE_SIZE]
        decreases 2 * PAGE_SIZE - virt
      {
        reserved := reserved - {frames[virt / PAGE_SIZE]};
        virt := virt + PAGE_SIZE;
      }
      ret := 0;
    }

    /** mmap_vmalloc: maps page by page; `remap(j)` is what the j-th remap_pfn_range returns, 0 for success.
        A failed step leaves exactly the pages before it mapped and returns its error. */
    method MmapVmalloc(start: int, end: int, remap: nat -> int) returns (ret: int)
      requires Valid() && 0 <= start <= end && start % PAGE_SIZE == 0 && end % PAGE_SIZE == 0
      modifies this`table
      ensures Valid()
      ensures Length32(start, end) > 2 * PAGE_SIZE ==> ret == -5 && table == old(table)
      ensures Length32(start, end) <= 2 * PAGE_SIZE ==>
                exists k: nat :: k <= Length32(start, end) / PAGE_SIZE
                  && table == Mapped(old(table), start / PAGE_SIZE, vFrames, k)
                  && (forall j: nat :: j < k ==> remap(j) == 0)
                  && (if k == Length32(start, end) / PAGE_SIZE then ret == 0 else ret == remap(k) != 0)
    {
      var page, k, length := start / PAGE_SIZE, 0, Length32(start, end);
      VmallocCoversExactly(start, end);
      if length > 2 * PAGE_SIZE {
        return -EIO;
      }
      while length > 0
        invariant 0 <= length && length % PAGE_SIZE == 0
        invariant 0 <= k && k * PAGE_SIZE + length == Length32(start, end) && page == start / PAGE_SIZE + k
        invariant table == Mapped(old(table), start / PAGE_SIZE, vFrames, k)
        invariant forall j: nat :: j < k ==> remap(j) == 0
        decreases length
      {
        var pfn := vFrames[k];
        ret := remap(k);
        if ret != 0 {
          return ret;
        }
        table := table[page := pfn];
        k := k + 1;
        page := page + 1;
        length := length - PAGE_SIZE;
      }
      ret := 0;
    }

    /** mmap_kmalloc: one contiguous mapping, accepted up to LEN * PAGE_SIZE. remap_pfn_range maps pages in
        order and fails after `reach` of them, if it does not reach the end; what it has mapped stays. */
    method MmapKmalloc(start: int, end: int, reach: nat) returns (ret: int)
      requires Valid() && 0 <= start <= end && start % PAGE_SIZE == 0 && end % PAGE_SIZE == 0
      modifies this`table
      ensures Valid()
      ensures (end - start) / PAGE_SIZE > 16384 ==> ret == -5 && table == old(table)
      ensures (end - start) / PAGE_SIZE <= 16384 ==>
                var k := (end - start) / PAGE_SIZE;
                && ret == (if reach >= k then 0 else -11)
                && table == Remap(old(table), start / PAGE_SIZE, kFrames[0], if reach >= k then k else reach)
      ensures ret == 0 && end - start <= 2 * PAGE_SIZE ==>
                table == Mapped(old(table), start / PAGE_SIZE, kFrames, (end - start) / PAGE_SIZE)
    {
      if end - start > LEN * PAGE_SIZE {
        return -EIO;
      }
      var k := (end - start) / PAGE_SIZE;
      if k <= 2 {
        OneCallEqualsPageLoop(table, start / PAGE_SIZE, kFrames[0], kFrames, k);
      }
      table := Remap(table, start / PAGE_SIZE, kFrames[0], if reach >= k then k else reach);
      ret := if reach >= k then 0 else -EAGAIN;
    }

    /** A user program's stores through its mapping. */
    method UserWrites(start: int, k: nat, stores: seq<Store>, ghost before: PageTable)
      requires Valid() && start % PAGE_SIZE == 0 && k <= 2 && Within(stores, k)
      requires table == Mapped(before, start / PAGE_SIZE, kFrames, k)
      modifies this`mem
      ensures Valid() && Area(mem, kFrames) == Overlay(old(Area(mem, kFrames)), stores)
      ensures OnlyIn(kFrames, old(mem), mem)
    {
      StoresAreMapped(before, start, kFrames, k, stores);
      StoresReachTheArea(mem, before, start, kFrames, k, stores);
      StoresStayInTheArea(mem, before, start, kFrames, k, stores);
      mem := UserStores(mem, table, start, stores);
    }

    /** test_mmap_proc_read: the whole area, whatever size was asked for, then end of file, in turn. */
    method ProcRead(size: nat) returns (count: int, data: seq<Byte>)
      requires Valid()
      modifies this`readFlag
      ensures Valid() && readFlag == !old(readFlag)
      ensures old(readFlag) ==> count == 2 * PAGE_SIZE && data == Area(mem, kFrames)
      ensures !old(readFlag) ==> count == 0 && data == []
    {
      if readFlag {
        readFlag := false;
      } else {
        readFlag := true;
        return 0, [];
      }
      data := Area(mem, kFrames);
      count := 2 * PAGE_SIZE;
    }
  }

  /** A user's session on minor 0: open, map up to two pages, store anything anywhere in the mapping, read
      /proc. Every byte read is the last one stored at its offset, or the digit of the pattern if nothing was
      stored there. */
  method MapWriteRead(d: Device, start: int, k: nat, stores: seq<Store>) returns (count: int, data: seq<Byte>)
    requires d.Valid() && d.readFlag && 0 <= start && start % PAGE_SIZE == 0 && k <= 2 && Within(stores, k)
    modifies d
    ensures count == 2 * PAGE_SIZE == |data|
    ensures forall i :: 0 <= i < |data| ==> AfterStores(48 + i % 10, stores, i, data[i])
    ensures d.Valid() && data == Area(d.mem, d.kFrames) && OnlyIn(d.kFrames, old(d.mem), d.mem)
    ensures d.table == Mapped(old(d.table), start / PAGE_SIZE, d.kFrames, k)
    ensures d.reserved == old(d.reserved) + {d.kFrames[0], d.kFrames[1]} && !d.readFlag
  {
    ghost var before := d.table;
    var ret := d.Open(0);
    ghost var digits := Area(d.mem, d.kFrames);
    ret := d.MmapKmalloc(start, start + k * PAGE_SIZE, k);
    assert (start + k * PAGE_SIZE - start) / PAGE_SIZE == k;
    d.UserWrites(start, k, stores, before);
    assert d.readFlag;
    count, data := d.ProcRead(2 * PAGE_SIZE);
    forall i | 0 <= i < |data| ensures AfterStores(48 + i % 10, stores, i, data[i]) {
      LastStoreWins(digits, stores, i);
    }
  }
}
