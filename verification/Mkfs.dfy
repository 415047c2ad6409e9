/** A new volume: its geometry, the image that `mkfs` writes, and what is mounted. */
module Mkfs {
  import opened Options
  import opened Words
  import opened DirectoryEntries
  import opened FatChains
  import opened BlockContents
  import opened Volume

  function BlockSizeOfConfig(config: nat): nat
  {
    match config
    case 0 => 256
    case 1 => 512
    case 2 => 1024
    case 3 => 2048
    case 4 => 4096
    case _ => 0
  }

  /** The first entry of the table holds the geometry of the volume. */
  function FirstEntry(blocksInFat: nat, config: nat): U16
    requires blocksInFat <= 32 && config <= 4
  {
    blocksInFat * 0x100 + config
  }

  /** What mounting reads from it: the number of blocks of the table, and the block size. */
  function ParseFirstEntry(first: U16): (nat, nat)
  {
    (first / 0x100, BlockSizeOfConfig(first % 0x100))
  }

  function PowerOfTwo(n: nat): nat
  {
    if n == 0 then 1 else 2 * PowerOfTwo(n - 1)
  }

  /** Block sizes are 256 times a power of two, and there are five of them. */
  lemma BlockSizeIs(config: nat)
    ensures BlockSizeOfConfig(config) == if config <= 4 then 256 * PowerOfTwo(config) else 0
  {
    assert PowerOfTwo(1) == 2 && PowerOfTwo(2) == 4;
    assert PowerOfTwo(3) == 8 && PowerOfTwo(4) == 16;
  }

  /** The high byte of the first entry is the number of blocks, the low byte the configuration; mounting reads both. */
  lemma FirstEntryReadsBack(blocksInFat: nat, config: nat)
    requires 1 <= blocksInFat <= 32 && config <= 4
    ensures FirstEntry(blocksInFat, config) == 256 * blocksInFat + config
    ensures ParseFirstEntry(256 * blocksInFat + config) == (blocksInFat, 256 * PowerOfTwo(config))
  {
    BlockSizeIs(config);
  }

  /** How many data blocks the image gets. */
  function BlocksInImage(blocksInFat: nat, config: nat): int
  {
    var entries := BlockSizeOfConfig(config) * blocksInFat / 2;
    if config == 4 then entries - 2 else entries - 1
  }

  /** The number of entries of the table. */
  function EntriesInFat(blocksInFat: nat, config: nat): nat
  {
    BlockSizeOfConfig(config) * blocksInFat / 2
  }

  /** The sizes in numbers: two bytes per entry, and a block number for every entry but the first. */
  lemma SizesAre(blocksInFat: nat, config: nat)
    requires 1 <= blocksInFat <= 32 && config <= 4
    ensures EntriesInFat(blocksInFat, config) == 128 * PowerOfTwo(config) * blocksInFat
    ensures BlocksInImage(blocksInFat, config) ==
            128 * PowerOfTwo(config) * blocksInFat - if config == 4 then 2 else 1
  {
    BlockSizeIs(config);
    var p := PowerOfTwo(config);
    assert 256 * p * blocksInFat == 2 * (128 * p * blocksInFat);
  }

  lemma EntriesBounds(blocksInFat: nat, config: nat)
    requires 1 <= blocksInFat <= 32 && config <= 4
    ensures 128 <= EntriesInFat(blocksInFat, config) <= 0x1_0000
    ensures EntriesInFat(blocksInFat, config) == 0x1_0000 <==> config == 4 && blocksInFat == 32
  {
  }

  /**
   The image holds every block that a chain may use, unless its blocks have 4096 bytes and
   its table is not the largest one.
   */
  lemma ImageIsComplete(blocksInFat: nat, config: nat, fat: seq<U16>)
    requires 1 <= blocksInFat <= 32 && config <= 4 && |fat| == EntriesInFat(blocksInFat, config)
    ensures (forall b: nat :: IsBlock(fat, b) ==> b <= BlocksInImage(blocksInFat, config)) <==>
              config != 4 || blocksInFat == 32
  {
    EntriesBounds(blocksInFat, config);
    assert IsBlock(fat, (Limit(fat) - 1) as nat);
  }

  // ---- the new volume ----

  ghost function EmptyLayout(entries: nat): Layout
  {
    Layout([1], map[], seq(entries, b => if b == 1 then Directory else Nobody), 0)
  }

  ghost predicate IsEmptyVolume(d: Disk)
  {
    && IsBlockSize(d.bs) && |d.data| == |d.fat| >= 2 && d.fat[1] == END_OF_FILE
    && (forall b :: 2 <= b < |d.fat| ==> d.fat[b] == 0)
    && (forall b :: 0 <= b < |d.data| ==> d.data[b] == Zeros(d.bs))
  }

  lemma BlankEntry(d: Disk, s: Slot)
    requires IsEmptyVolume(d) && IsSlot(d, EmptyLayout(|d.fat|), s)
    ensures Mark(EntryOf(d, s)) == END_OF_DIRECTORY
  {
  }

  lemma EmptyVolumeOk(d: Disk)
    requires IsEmptyVolume(d)
    ensures VolumeOk(d, EmptyLayout(|d.fat|)) && Files(d, EmptyLayout(|d.fat|)) == map[]
  {
    var lay := EmptyLayout(|d.fat|);
    hide EntryOf, IsValidFilename;
    forall s | IsSlot(d, lay, s)
      ensures Mark(EntryOf(d, s)) == END_OF_DIRECTORY
    {
      BlankEntry(d, s);
    }
    assert IsChain(d.fat, lay.root);
    forall n
      ensures n !in Files(d, lay)
    {
      FileExists(d, lay, n);
    }
  }

  /** The table of a volume that has just been mounted: only the three host descriptors. */
  ghost predicate IsFreshTable(fds: seq<FdEntry>)
  {
    && |fds| == GLOBAL_FD_TABLE_SIZE
    && forall f :: 3 <= f < |fds| ==> fds[f].refs == 0 && fds[f].entry.None?
  }

  lemma FreshTableOk(d: Disk, fds: seq<FdEntry>)
    requires IsEmptyVolume(d) && IsFreshTable(fds)
    ensures TableOk(d, EmptyLayout(|d.fat|), fds)
  {
  }
}
