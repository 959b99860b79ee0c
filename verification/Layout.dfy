/** Address arithmetic of the interlaced tracks: 64 groups of a top track (456 blocks) followed by a
    bottom track (568 blocks) in each zone. */
module Layout {
  import opened Types

  function ZoneOf(key: nat): nat { key / TOTAL_ITEMS }

  function ZoneLba(zone: nat): nat { zone * TOTAL_ITEMS * BLOCK_SECTORS }

  function BottomBlock(offset: nat): nat {
    offset / BOTTOM_TRACK_SIZE * GROUP_BLOCKS + TOP_TRACK_SIZE + offset % BOTTOM_TRACK_SIZE
  }

  function TopBlock(offset: nat): nat {
    offset / TOP_TRACK_SIZE * GROUP_BLOCKS + offset % TOP_TRACK_SIZE
  }

  /** Block of a seeded key: bottom tracks first, then top tracks. */
  function SeedBlock(offset: nat): nat {
    if offset < BOTTOM_BLOCKS then BottomBlock(offset) else TopBlock(offset - BOTTOM_BLOCKS)
  }

  /** Block of the `i`-th new key under two-phase allocation. */
  function Slot2(i: nat): nat {
    if i < BOTTOM_BLOCKS then
      var track := i / BOTTOM_TRACK_SIZE;
      (track + 1) * TOP_TRACK_SIZE + track * BOTTOM_TRACK_SIZE + i % BOTTOM_TRACK_SIZE
    else
      var top := i - BOTTOM_BLOCKS;
      top / TOP_TRACK_SIZE * (TOP_TRACK_SIZE + BOTTOM_TRACK_SIZE) + top % TOP_TRACK_SIZE
  }

  const HALF_TOP: nat := TOP_TRACK_SIZE * TRACK_GROUPS / 2

  /** Block of the `i`-th new key under three-phase allocation: even top tracks before odd ones. */
  function Slot3(i: nat): nat {
    if i < BOTTOM_BLOCKS then
      var track := i / BOTTOM_TRACK_SIZE;
      (track + 1) * TOP_TRACK_SIZE + track * BOTTOM_TRACK_SIZE + i % BOTTOM_TRACK_SIZE
    else if i < BOTTOM_BLOCKS + HALF_TOP then
      var top := i - BOTTOM_BLOCKS;
      2 * (top / TOP_TRACK_SIZE) * (TOP_TRACK_SIZE + BOTTOM_TRACK_SIZE) + top % TOP_TRACK_SIZE
    else
      var top := i - BOTTOM_BLOCKS - HALF_TOP;
      (2 * (top / TOP_TRACK_SIZE) + 1) * (TOP_TRACK_SIZE + BOTTOM_TRACK_SIZE) + top % TOP_TRACK_SIZE
  }

  /** Inverse of Slot2: when a block is handed out. */
  function Index2(block: nat): nat {
    var track, within := block / GROUP_BLOCKS, block % GROUP_BLOCKS;
    if within < TOP_TRACK_SIZE then BOTTOM_BLOCKS + track * TOP_TRACK_SIZE + within
    else track * BOTTOM_TRACK_SIZE + (within - TOP_TRACK_SIZE)
  }

  function Index3(block: nat): nat {
    var track, within := block / GROUP_BLOCKS, block % GROUP_BLOCKS;
    if within < TOP_TRACK_SIZE then
      BOTTOM_BLOCKS + (if track % 2 == 0 then 0 else HALF_TOP) + track / 2 * TOP_TRACK_SIZE + within
    else track * BOTTOM_TRACK_SIZE + (within - TOP_TRACK_SIZE)
  }

  /** `track` groups and `within` blocks make a block number, and it takes them apart again. */
  lemma Group(track: nat, within: nat)
    requires within < GROUP_BLOCKS
    ensures (track * GROUP_BLOCKS + within) / GROUP_BLOCKS == track
    ensures (track * GROUP_BLOCKS + within) % GROUP_BLOCKS == within
  {
  }

  lemma BottomTrack(track: nat, within: nat)
    requires within < BOTTOM_TRACK_SIZE
    ensures (track * BOTTOM_TRACK_SIZE + within) / BOTTOM_TRACK_SIZE == track
    ensures (track * BOTTOM_TRACK_SIZE + within) % BOTTOM_TRACK_SIZE == within
  {
  }

  lemma TopTrack(track: nat, within: nat)
    requires within < TOP_TRACK_SIZE
    ensures (track * TOP_TRACK_SIZE + within) / TOP_TRACK_SIZE == track
    ensures (track * TOP_TRACK_SIZE + within) % TOP_TRACK_SIZE == within
  {
  }

  /** Two-phase allocation hands out each of a zone's blocks exactly once. */
  lemma Slot2Bijection(i: nat)
    requires i < TOTAL_ITEMS
    ensures Slot2(i) < TOTAL_ITEMS && Index2(Slot2(i)) == i
    ensures Index2(i) < TOTAL_ITEMS && Slot2(Index2(i)) == i
    ensures SeedBlock(i) == Slot2(i)
  {
    Slot2Forward(i);
    Slot2Backward(i);
  }

  lemma Slot2Forward(i: nat)
    requires i < TOTAL_ITEMS
    ensures Slot2(i) < TOTAL_ITEMS && Index2(Slot2(i)) == i && SeedBlock(i) == Slot2(i)
  {
    if i < BOTTOM_BLOCKS {
      Group(i / BOTTOM_TRACK_SIZE, TOP_TRACK_SIZE + i % BOTTOM_TRACK_SIZE);
    } else {
      Group((i - BOTTOM_BLOCKS) / TOP_TRACK_SIZE, (i - BOTTOM_BLOCKS) % TOP_TRACK_SIZE);
    }
  }

  lemma Slot2Backward(block: nat)
    requires block < TOTAL_ITEMS
    ensures Index2(block) < TOTAL_ITEMS && Slot2(Index2(block)) == block
  {
    var track, within := block / GROUP_BLOCKS, block % GROUP_BLOCKS;
    if within < TOP_TRACK_SIZE {
      TopTrack(track, within);
    } else {
      BottomTrack(track, within - TOP_TRACK_SIZE);
    }
  }

  /** So does three-phase allocation. */
  lemma Slot3Bijection(i: nat)
    requires i < TOTAL_ITEMS
    ensures Slot3(i) < TOTAL_ITEMS && Index3(Slot3(i)) == i
    ensures Index3(i) < TOTAL_ITEMS && Slot3(Index3(i)) == i
  {
    Slot3Forward(i);
    Slot3Backward(i);
  }

  lemma Halves(k: nat)
    ensures 2 * k / 2 == k && 2 * k % 2 == 0 && (2 * k + 1) / 2 == k && (2 * k + 1) % 2 == 1
  {
  }

  lemma Slot3Forward(i: nat)
    requires i < TOTAL_ITEMS
    ensures Slot3(i) < TOTAL_ITEMS && Index3(Slot3(i)) == i
  {
    if i < BOTTOM_BLOCKS {
      Group(i / BOTTOM_TRACK_SIZE, TOP_TRACK_SIZE + i % BOTTOM_TRACK_SIZE);
    } else if i < BOTTOM_BLOCKS + HALF_TOP {
      var top := i - BOTTOM_BLOCKS;
      var track, within := top / TOP_TRACK_SIZE, top % TOP_TRACK_SIZE;
      assert top == track * TOP_TRACK_SIZE + within;
      Halves(track);
      Group(2 * track, within);
    } else {
      var top := i - BOTTOM_BLOCKS - HALF_TOP;
      var track, within := top / TOP_TRACK_SIZE, top % TOP_TRACK_SIZE;
      assert top == track * TOP_TRACK_SIZE + within;
      Halves(track);
      Group(2 * track + 1, within);
    }
  }

  lemma Slot3Backward(block: nat)
    requires block < TOTAL_ITEMS
    ensures Index3(block) < TOTAL_ITEMS && Slot3(Index3(block)) == block
  {
    var track, within := block / GROUP_BLOCKS, block % GROUP_BLOCKS;
    assert block == track * GROUP_BLOCKS + within && track < TRACK_GROUPS;
    if within < TOP_TRACK_SIZE {
      assert track == 2 * (track / 2) + track % 2;
      TopTrack(track / 2, within);
    } else {
      BottomTrack(track, within - TOP_TRACK_SIZE);
    }
  }

  /** Two-phase allocation fills the bottom tracks one after another and then the top tracks; three-phase
      allocation fills the top tracks of even number before those of odd number. */
  lemma AllocationOrder(track: nat, within: nat)
    requires track < TRACK_GROUPS
    ensures within < 568 ==>
              Slot2(track * 568 + within) == Slot3(track * 568 + within) == track * 1024 + 456 + within
    ensures within < 456 ==> Slot2(64 * 568 + track * 456 + within) == track * 1024 + within
    ensures within < 456 && track < 32 ==>
              && Slot3(64 * 568 + track * 456 + within) == 2 * track * 1024 + within
              && Slot3(64 * 568 + 32 * 456 + track * 456 + within) == (2 * track + 1) * 1024 + within
  {
    if within < 568 { BottomTrack(track, within); }
    if within < 456 { TopTrack(track, within); }
  }

  /** Absolute sector of a block of a zone. */
  function BlockSector(zone: nat, block: nat): nat { ZoneLba(zone) + block * BLOCK_SECTORS }

  /** Bottom blocks come in order of their offsets, and within the zone. */
  lemma BottomOrder(a: nat, b: nat)
    requires a < BOTTOM_BLOCKS && b < BOTTOM_BLOCKS
    ensures BottomBlock(a) < TOTAL_ITEMS && BottomBlock(a) == Slot2(a)
    ensures a != b ==> BottomBlock(a) != BottomBlock(b)
  {
    Slot2Bijection(a);
    Slot2Bijection(b);
  }

  // ---------------------------------------------------------------- sector ranges

  /** Blocks from the one that holds sector `lba` to the one that holds the last of `sectors`. */
  function BlocksSpanned(lba: nat, sectors: nat): nat {
    if sectors == 0 then 0 else (lba % BLOCK_SECTORS + sectors + BLOCK_SECTORS - 1) / BLOCK_SECTORS
  }

  /** imrsim_write_block_count returns that number as 32 bits. */
  function BlockCount(lba: nat, sectors: nat): nat { BlocksSpanned(lba, sectors) % (U32_MAX + 1) }

  predicate Counted(lba: nat, sectors: nat, key: nat) {
    lba / BLOCK_SECTORS <= key < lba / BLOCK_SECTORS + BlockCount(lba, sectors)
  }

  /** Some sector of the range lies in the block. */
  ghost predicate Touched(lba: nat, sectors: nat, key: nat) {
    exists sector: nat :: lba <= sector < lba + sectors && sector / BLOCK_SECTORS == key
  }

  /** The counted blocks are exactly the touched ones if and only if the number fits 32 bits. */
  lemma CountIsExact(lba: nat, sectors: nat)
    ensures (forall key: nat :: Counted(lba, sectors, key) <==> Touched(lba, sectors, key)) <==>
            BlocksSpanned(lba, sectors) <= U32_MAX
  {
    forall key: nat ensures Touched(lba, sectors, key) <==>
                       lba / BLOCK_SECTORS <= key < lba / BLOCK_SECTORS + BlocksSpanned(lba, sectors)
    {
      if lba / BLOCK_SECTORS <= key < lba / BLOCK_SECTORS + BlocksSpanned(lba, sectors) {
        var sector := Max(lba, key * BLOCK_SECTORS);
        assert lba <= sector < lba + sectors && sector / BLOCK_SECTORS == key;
      }
    }
    if BlocksSpanned(lba, sectors) > U32_MAX {
      var missed := lba / BLOCK_SECTORS + BlockCount(lba, sectors);
      assert !Counted(lba, sectors, missed) && Touched(lba, sectors, missed);
    }
  }
}
