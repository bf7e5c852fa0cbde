/**
 Where the DMA buffers go: iw_find_low_memory picks, out of an area twice the size it needs, a
 physically contiguous chunk that ISA DMA can reach without crossing a 64K boundary; pcm_open
 lays the playback and record rings out in it.
 */
module LowMemory {
  import opened Runs

  const PAGE_SIZE := 4096
  const BOUNDARY := 0x1_0000         // 64K
  const ISA_LIMIT := 0x100_0000      // 16 MB: the bits of 0xff000000 are clear below it
  const WORD := 0x1_0000_0000        // uint32 arithmetic is modulo this

  /** An area found from a previous run of the driver, as the kernel describes it. */
  datatype Found = Found(id: nat, hasInfo: bool, size: nat, address: nat, locked: bool,
                         mapped: bool, physical: nat, physicalSize: nat)

  /** What create_area and get_memory_map return for a new area. */
  datatype Created = Created(id: nat, address: nat, mapped: bool, physical: nat)

  /** The size to use for a requested minimum: whole pages, at most 64K. */
  function LowSize(requested: nat): (r: nat)
    requires 0 < requested < WORD
    ensures 0 < r && r % 4096 == 0
    ensures if requested <= 0x1_0000 then requested <= r < requested + 4096 else r == 0x1_0000
  {
    var rounded := (requested + PAGE_SIZE - 1) % WORD / PAGE_SIZE * PAGE_SIZE;
    var low := if rounded < requested then requested else rounded;
    if low > BOUNDARY then BOUNDARY else low
  }

  /** May an area found be kept?  The tests are those of the driver, in its order. */
  predicate Usable(f: Found, need: nat) {
    && f.hasInfo
    && !(f.size < need)
    && f.mapped
    && f.physical < ISA_LIMIT
    && !(!f.locked || f.physicalSize < need)
  }

  predicate CrossesBoundary(phys: nat, size: nat) {
    size > 0 && phys / BOUNDARY != (phys + size - 1) / BOUNDARY
  }

  /** Where the chunk of low bytes starts in a double-sized area at this physical address. */
  function ChunkStart(physical: nat, low: nat): nat {
    var boundary := (physical / BOUNDARY * BOUNDARY + BOUNDARY) % WORD;
    if boundary - physical >= low then physical else boundary
  }

  /** The chunk crosses no 64K boundary and ends within the area, however the area lies. */
  lemma ChunkFits(physical: nat, low: nat)
    requires physical < ISA_LIMIT && 0 < low <= BOUNDARY
    ensures var c := ChunkStart(physical, low);
            && c / 0x1_0000 == (c + low - 1) / 0x1_0000
            && physical <= c && c + low < physical + 2 * low
            && (c == physical <==> physical / 0x1_0000 == (physical + low - 1) / 0x1_0000)
            && (c != physical ==> c % 0x1_0000 == 0)
  {
    var q := physical / BOUNDARY;
    var c := ChunkStart(physical, low);
    if c == physical {
      Same64K(c, q);
      Same64K(c + low - 1, q);
    } else {
      Same64K(c, q + 1);
      Same64K(c + low - 1, q + 1);
      assert (physical + low - 1) / BOUNDARY > q;
    }
  }

  lemma ChunkInPages(physical: nat, low: nat)
    requires physical < ISA_LIMIT && 0 < low <= BOUNDARY
    requires physical % PAGE_SIZE == 0 && low % PAGE_SIZE == 0
    ensures (ChunkStart(physical, low) - physical + low) % 4096 == 0
  {
    assert BOUNDARY == 16 * PAGE_SIZE;
    var p, l, q := physical / PAGE_SIZE, low / PAGE_SIZE, physical / BOUNDARY;
    if ChunkStart(physical, low) != physical {
      assert ChunkStart(physical, low) - physical + low == ((q + 1) * 16 - p + l) * PAGE_SIZE;
      Multiple((q + 1) * 16 - p + l);
    }
  }

  lemma Multiple(k: int)
    ensures k * PAGE_SIZE % PAGE_SIZE == 0
  {
  }

  /** The chunk lies below 16 MB exactly if so many bytes do from the start of the area on.  The
      driver makes sure of that for an area it allocates; of an area left by a previous run it
      only tests where it starts. */
  lemma ChunkBelow16MB(physical: nat, low: nat)
    requires physical < ISA_LIMIT && 0 < low <= BOUNDARY
    ensures ChunkStart(physical, low) + low <= 0x100_0000 <==> physical + low <= 0x100_0000
  {
    var q := physical / BOUNDARY;
    assert q <= 255;
    if q < 255 {
      assert (q + 2) * BOUNDARY <= ISA_LIMIT;
    }
  }

  /** What is kept of an area that the driver has placed its chunk in and resized. */
  function Kept(physical: nat, low: nat): int { ChunkStart(physical, low) - physical + low }

  /** The area that a run of the driver leaves behind is never used again: once resized it is too
      small for the next run's first test, which goes by twice the size. */
  lemma ResizedNeverReused(physical: nat, low: nat, f: Found)
    requires physical < ISA_LIMIT && 0 < low <= BOUNDARY && f.size == Kept(physical, low)
    ensures low <= f.size < 2 * low && !Usable(f, 2 * low)
  {
  }

  /** If resize_area failed, whose result is not looked at, the whole area is left.  It is used again
      then, and the chunk in it is below 16 MB like that of the run that allocated it. */
  lemma WholeAreaStaysLow(physical: nat, low: nat, f: Found)
    requires 0 < low <= BOUNDARY && physical + 2 * low < ISA_LIMIT
    requires f.physical == physical && f.size == 2 * low
    ensures ChunkStart(f.physical, low) + low <= 0x100_0000 && !CrossesBoundary(ChunkStart(f.physical, low), low)
  {
    ChunkBelow16MB(physical, low);
    ChunkFits(physical, low);
  }

  /** So an area whose chunk lies above 16 MB has not been made by this driver.  But one that somebody
      else has made under its name is used, if it starts below 16 MB. */
  lemma ForeignAreaAbove16MB()
    ensures Usable(Found(1, true, 0x2_0000, 0, true, true, 0xff_f000, 0x2_0000), 2 * LowSize(65536))
    ensures ChunkStart(0xff_f000, LowSize(65536)) == 0x100_0000
  {
  }

  class Card {
    var lowSize: nat
    var lowMem: nat
    var lowPhys: nat
    var lowArea: nat
    var kept: nat                    // bytes of the area that remain after resize_area

    /** iw_find_low_memory, the choice of an area: None for an error return.  An area found is used again if and only
        if the kernel tells its size and where it is, and it is locked, is contiguous for twice the size, and starts
        below 16 MB; a new one if it could be made, and ends below 16 MB. */
    method ChooseArea(low: nat, found: Option<Found>, created: Option<Created>)
      returns (area: Option<(nat, nat, nat, nat)>)
      requires created.Some? ==> created.value.physical < 0x1_0000_0000
      requires 0 < low <= 0x1_0000
      ensures if found.Some? && found.value.hasInfo && found.value.size >= 2 * low && found.value.mapped
                 && found.value.physical < 0x100_0000 && found.value.locked && found.value.physicalSize >= 2 * low
              then area == Some((found.value.id, found.value.address, found.value.physical, found.value.size))
              else if created.Some? && created.value.mapped && created.value.physical + 2 * low < 0x100_0000
              then area == Some((created.value.id, created.value.address, created.value.physical, 2 * low))
              else area == None
    {
      var allocateSize := 2 * low;
      if found.Some? && Usable(found.value, allocateSize) {
        return Some((found.value.id, found.value.address, found.value.physical, found.value.size));
      }
      if created.None? || !created.value.mapped { return None; }
      if created.value.physical >= ISA_LIMIT { return None; }
      if (created.value.physical + allocateSize) % WORD >= ISA_LIMIT { return None; }
      return Some((created.value.id, created.value.address, created.value.physical, allocateSize));
    }

    /** iw_find_low_memory, the placement: bump the start up to the boundary if need be, and give
        back the end of the area. */
    method Place(low: nat, id: nat, address: nat, physical: nat, trySize: nat)
      requires physical < 0x100_0000 && 0 < low <= 0x1_0000 && trySize >= 2 * low
      modifies this
      ensures lowSize == low && lowArea == id
      ensures lowPhys == if physical % 0x1_0000 + low <= 0x1_0000 then physical
                         else physical - physical % 0x1_0000 + 0x1_0000
      ensures lowPhys == ChunkStart(physical, low) && lowMem == address + lowPhys - physical
      ensures kept == lowPhys - physical + low <= trySize
    {
      lowSize, lowArea := low, id;
      var boundary := (physical / BOUNDARY * BOUNDARY + BOUNDARY) % WORD;
      if boundary - physical >= low {
        lowMem, lowPhys := address, physical;
        kept := trySize;
        if trySize > low { kept := low; }
      } else {
        var delta := boundary - physical;
        lowMem, lowPhys := address + delta, boundary;
        kept := trySize;
        if trySize > low + delta { kept := low + delta; }
      }
    }

    /** iw_find_low_memory: true for B_OK, if and only if the area found can be used again or a new one can be used.
        Then the chunk, as many whole pages as were asked for, but at most 64K, crosses no 64K boundary, is in the
        part of the area that is kept, which is whole pages, and, in a new area, lies below 16 MB; and the next run
        will not use the area as it is left. */
    method FindLowMemory(requested: nat, found: Option<Found>, created: Option<Created>) returns (ok: bool)
      requires 0 < requested < 0x1_0000_0000
      requires created.Some? ==> created.value.physical < 0x1_0000_0000 && created.value.physical % 4096 == 0
      requires found.Some? ==> found.value.physical % 4096 == 0
      modifies this
      ensures var low := LowSize(requested);
              var reuse := found.Some? && found.value.hasInfo && found.value.size >= 2 * low && found.value.mapped
                           && found.value.physical < 0x100_0000 && found.value.locked
                           && found.value.physicalSize >= 2 * low;
              && (ok <==> reuse || (created.Some? && created.value.mapped
                                    && created.value.physical + 2 * low < 0x100_0000))
              && (ok ==>
                    var physical := if reuse then found.value.physical else created.value.physical;
                    && lowSize == low && low % 4096 == 0
                    && (if requested <= 0x1_0000 then requested <= low < requested + 4096 else low == 0x1_0000)
                    && lowPhys / 0x1_0000 == (lowPhys + lowSize - 1) / 0x1_0000
                    && physical <= lowPhys && (lowPhys == physical || lowPhys % 0x1_0000 == 0)
                    && lowArea == (if reuse then found.value.id else created.value.id)
                    && lowMem - (if reuse then found.value.address else created.value.address) == lowPhys - physical
                    && lowPhys + lowSize == physical + kept
                    && kept <= (if reuse then found.value.size else 2 * low)
                    && kept % 4096 == 0
                    && (!reuse ==> lowPhys + lowSize <= 0x100_0000)
                    && kept < 2 * low
                    && (forall f: Found | f.size == kept :: !Usable(f, 2 * low)))
    {
      var low := LowSize(requested);
      var area := ChooseArea(low, found, created);
      if area.None? { return false; }
      var (id, address, physical, trySize) := area.value;
      Place(low, id, address, physical, trySize);
      ChunkFits(physical, low);
      ChunkInPages(physical, low);
      ChunkBelow16MB(physical, low);
      ghost var left := kept;
      forall f: Found | f.size == left ensures !Usable(f, 2 * low) {
        ResizedNeverReused(physical, low, f);
      }
      return true;
    }
  }

  // The rings in the chunk

  /** The offsets pcm_open gives the four buffers, and the end of the last. */
  function RingOffsets(wrSize: nat, rdSize: nat): (nat, nat, nat, nat, nat) {
    var wr1 := 0;
    var wr2 := wr1 + wrSize;
    var rd1 := wr2 + wrSize;
    var rd2 := rd1 + rdSize;
    (wr1, wr2, rd1, rd2, rd2 + rdSize)
  }

  /** 16-bit DMA counts words: what the driver passes for the playback and the record ring. */
  function PlaybackWords(wrSize: nat): nat { 2 * wrSize / 2 }
  function RecordWords(rdSize: nat): nat { rdSize }

  /** In a chunk that does not cross a 64K boundary, the two DMA transfers cover exactly the
      playback and the record ring, do not overlap, stay in the chunk and cross no boundary. */
  lemma RingsFit(phys: nat, size: nat, wrSize: nat, rdSize: nat)
    requires size > 0 && phys / 0x1_0000 == (phys + size - 1) / 0x1_0000 && wrSize > 0 && rdSize > 0
    requires 2 * wrSize + 2 * rdSize <= size
    ensures var (wr1, wr2, rd1, rd2, end) := RingOffsets(wrSize, rdSize);
            && wr1 == 0 && wr2 == wrSize && rd1 == 2 * wrSize && rd2 == 2 * wrSize + rdSize
            && end == 2 * wrSize + 2 * rdSize <= size
            && wr1 + 2 * PlaybackWords(wrSize) == rd1 && rd1 + 2 * RecordWords(rdSize) == end
            && (phys + wr1) / 0x1_0000 == (phys + rd1 - 1) / 0x1_0000 == (phys + end - 1) / 0x1_0000
  {
    var q := phys / BOUNDARY;
    assert q * BOUNDARY <= phys && phys + size - 1 < (q + 1) * BOUNDARY;
    var rd1 := RingOffsets(wrSize, rdSize).2;
    Same64K(phys + 2 * wrSize - 1, q);
    Same64K(phys + rd1, q);
    Same64K(phys + rd1 + 2 * rdSize - 1, q);
  }

  lemma Same64K(a: nat, q: nat)
    requires q * BOUNDARY <= a < (q + 1) * BOUNDARY
    ensures a / BOUNDARY == q
  {
  }

  /** The sizes the driver uses fit the memory it asks for. */
  lemma DriverRingsFit()
    ensures RingOffsets(2048, 8192) == (0, 2048, 4096, 12288, 20480) && LowSize(65536) == 65536
  {
  }
}
