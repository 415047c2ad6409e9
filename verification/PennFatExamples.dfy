/** Calls on a new volume after which no layout explains it any more. */
module PennFatExamples {
  import opened Words
  import opened DirectoryEntries
  import opened FatChains
  import opened BlockContents
  import opened Volume
  import opened RootDirectory
  import opened VolumeSteps
  import opened Writing
  import opened Mkfs
  import opened PennFat
  import opened Views
  import opened ViewSteps

  const A: CString := [97]
  const B: CString := [98]

  lemma NamesAreFine()
    ensures IsValidFilename(A) && IsValidFilename(B) && A != B
  {
  }

  /** Nothing comes before the first place of the first root block. */
  lemma FirstPlace(d: Disk, lay: Layout)
    requires VolumeOk(d, lay) && !IsLive(EntryOf(d, Slot(1, 0)))
    ensures IsFirstReusable(d, lay, Slot(1, 0))
  {
    hide EntryOf, EndMarked, NamesOk, FilesOk;
    assert lay.root[0] == 1 && 1 in lay.root;
  }

  lemma FirstPlaceIsFree(d: Disk, lay: Layout)
    requires VolumeOk(d, lay) && Files(d, lay) == map[]
    ensures !IsLive(EntryOf(d, Slot(1, 0)))
  {
    hide EntryOf, Files, EndMarked, FilesOk;
    assert IsSlot(d, lay, Slot(1, 0)) by { assert lay.root[0] == 1; }
    if IsLive(EntryOf(d, Slot(1, 0))) {
      FileAt(d, lay, Slot(1, 0));
    }
  }

  /** A directory with at most one name has places left. */
  lemma HasPlaces(d: Disk, lay: Layout, n: CString)
    requires VolumeOk(d, lay) && Files(d, lay).Keys <= {n}
    ensures !IsFullDirectory(d, lay)
  {
    hide EntryOf, Files, EndMarked, FilesOk, NamesOk;
    if IsFullDirectory(d, lay) {
      var s, t := Slot(1, 0), Slot(1, 1);
      assert lay.root[0] == 1;
      assert IsSlot(d, lay, s) && IsSlot(d, lay, t);
      BeforeTheEnd(lay, d.bs);
      FileAt(d, lay, s);
      FileAt(d, lay, t);
      OneName(d, lay, s, t);
    }
  }

  lemma BeforeTheEnd(lay: Layout, bs: nat)
    requires lay.root != [] && lay.root[0] == 1 && 64 * lay.end + 128 > bs >= 256
    ensures IsBefore(lay, Slot(1, 0), EndSlot(lay)) && IsBefore(lay, Slot(1, 1), EndSlot(lay))
  {
    var j := |lay.root| - 1;
    if j > 0 {
      assert 0 <= 0 < j < |lay.root| && lay.root[0] == 1 && lay.root[j] == EndSlot(lay).block;
    }
  }

  lemma OneName(d: Disk, lay: Layout, s: Slot, t: Slot)
    requires NamesOk(d, lay) && IsLiveSlot(d, lay, s) && IsLiveSlot(d, lay, t) && NameOf(d, s) == NameOf(d, t)
    ensures s == t
  {
  }

  lemma {:induction false} IntervalSize(s: set<nat>, lo: nat, hi: nat)
    requires lo <= hi && forall b :: b in s <==> lo <= b < hi
    ensures |s| == hi - lo
  {
    if lo < hi {
      IntervalSize(s - {hi - 1}, lo, hi - 1);
    }
  }

  /** A new volume with a file open for writing. */
  method NewFile(blocksInFat: nat, config: nat) returns (fs: FileSystem, fd: int)
    requires 1 <= blocksInFat <= 32 && config <= 4
    ensures fs.Valid() && fs.bs == BlockSizeOfConfig(config) && fs.fat.Length == EntriesInFat(blocksInFat, config) &&
            fd == 3
    ensures fresh(fs) && fresh(fs.fat) && fresh(fs.data) && fresh(fs.fds)
    ensures IsOpen(fs.fds[..], fd) && fs.IsWritable(fd) && fs.fds[fd].mode == Write && fs.fds[fd].offset == 0
    ensures fs.fds[fd].entry.value.perm == 6 && fs.fds[fd].entry.value.size == 0 && IsLive(fs.fds[fd].entry.value)
    ensures fs.fds[fd].slot == Slot(1, 0) && IsLiveSlot(fs.D(), fs.lay, Slot(1, 0)) && NameOf(fs.D(), Slot(1, 0)) == A
    ensures Files(fs.D(), fs.lay) == map[A := []] && |FreeBlocks(fs.fat[..])| == Limit(fs.fat[..]) - 2
    ensures forall f :: 4 <= f < fs.fds.Length ==> fs.fds[f].refs == 0
  {
    hide VolumeOk, TableOk, EntryOf, Files, FileBytes, FreeBlocks, OthersKept, HasName, IsFirstReusable,
      IsFullDirectory, IsLiveSlot, NameOf, IsSlot, FileSystem.OpenCode, IsValidFilename;
    EntriesBounds(blocksInFat, config);
    fs := new FileSystem(blocksInFat, config);
    ghost var d, l, t := fs.D(), fs.lay, fs.fds[..];
    NamesAreFine();
    OpenEntries(d, l, t);
    assert t[3].refs == 0;
    IntervalSize(FreeBlocks(d.fat), 2, Limit(d.fat));
    FileExists(d, l, A);
    FirstPlaceIsFree(d, l);
    FirstPlace(d, l);
    HasPlaces(d, l, A);
    NoOpenSlotReused(d, l, t);
    fs.FreshCode(A, Write);
    var overrun;
    fd, overrun := fs.KOpen(A, Write, 0);
    FirstReusableUnique(d, l, fs.fds[fd].slot, Slot(1, 0));
    NamedView(fs.D(), fs.lay, fs.fds[..], fd, A);
  }

  /** A file is deleted while it is open. */
  method DeletedWhileOpen() returns (fs: FileSystem)
    ensures fs.Valid() && fresh(fs) && fresh(fs.fat) && fresh(fs.data) && fresh(fs.fds) &&
            Files(fs.D(), fs.lay) == map[]
    ensures Mark(EntryOf(fs.D(), Slot(1, 0))) == DELETED_BUT_OPEN && forall f :: 4 <= f < fs.fds.Length ==>
              fs.fds[f].refs == 0
  {
    hide VolumeOk, TableOk, EntryOf, Files, FileBytes, FreeBlocks, OthersKept, HasName, IsLiveSlot, NameOf, IsSlot,
      IsValidFilename, EntriesInFat;
    var fd;
    fs, fd := NewFile(1, 0);
    NamesAreFine();
    NameIsHere(fs.D(), fs.lay, Slot(1, 0), A);
    ghost var files := Files(fs.D(), fs.lay);
    var gone := fs.KUnlink(A);
    assert files - {A} == map[];
  }

  /** Then another one is created: its entry takes the place of the deleted one. */
  method ReuseBreaks() returns (fs: FileSystem, r: int)
    ensures r >= 0 && !fs.IsConsistent()
  {
    hide VolumeOk, TableOk, EntryOf, Files, FileBytes, FreeBlocks, OthersKept, HasName, IsFirstReusable,
      IsFullDirectory, IsLiveSlot, NameOf, IsSlot, FileSystem.OpenCode, IsValidFilename, WouldReuseOpenSlot;
    fs := DeletedWhileOpen();
    ghost var d, l, t := fs.D(), fs.lay, fs.fds[..];
    NamesAreFine();
    FileExists(d, l, B);
    FirstPlace(d, l);
    FirstReusableMark(d, l, Slot(1, 0));
    OpenEntries(d, l, t);
    assert t[4].refs == 0;
    HasPlaces(d, l, A);
    NoneNamed(d, l, t, B);
    fs.FreshCode(B, Write);
    var overrun;
    r, overrun := fs.KOpen(B, Write, 0);
  }

  lemma NoneNamed(d: Disk, lay: Layout, fds: seq<FdEntry>, n: CString)
    requires !HasName(d, lay, n)
    ensures forall g :: !IsOpenFile(d, lay, fds, n, g)
  {
    hide EntryOf;
  }

  lemma FarNumbers()
    ensures EntriesInFat(1, 0) == 128 && StartsInLastBlock(0, 1024, 256) && !IsTailWrite(0, 1024, 256) &&
            IndexOf(1025, 256) == 4
    ensures Room(0, 1024, 126, 256) == 126 * 256 - 512 && !IsSafeWrite(0, 1024, 1, 126, 256)
  {
  }

  /** A write that starts four blocks behind an empty file puts its byte into the third block. */
  method FarWriteBreaks() returns (fs: FileSystem, r: int)
    ensures r == 1 && !fs.IsConsistent()
  {
    hide VolumeOk, TableOk, EntryOf, Files, FileBytes, FreeBlocks, OthersKept, IsLiveSlot, NameOf, IsSlot, Overlaid,
      ScanStaysInside, Room, IsTailWrite, StartsInLastBlock, BlocksFor, IndexOf, IsSafeWrite, Resize;
    var fd;
    fs, fd := NewFile(1, 0);
    FarNumbers();
    var sought := fs.KLseek(fd, 1024, F_SEEK_SET);
    var overrun;
    r, overrun := fs.KWrite(fd, [0], 0);
  }

  lemma FillingNumbers(n: nat, free: nat, bs: nat)
    requires bs > 0 && 0 < n <= Capacity(free, bs)
    ensures IsTailWrite(0, 0, bs) && StartsInLastBlock(0, 0, bs) && IndexOf(0, bs) == 0 && BlocksFor(0, bs) == 0
    ensures Room(0, 0, free, bs) == Capacity(free, bs) && IsSafeWrite(0, 0, n, free, bs)
  {
    BlocksForBounds(0, bs);
    assert IsTailWrite(0, 0, bs);
    LandsAtOffset(0, 0, bs);
  }

  /** A new volume with a file of `n` zeros. */
  method NewZeros(blocksInFat: nat, config: nat, n: nat) returns (fs: FileSystem, fd: int)
    requires 1 <= blocksInFat <= 32 && config <= 4 && n < 0x8000_0000 && EntriesInFat(blocksInFat, config) < 0xFFFF
    requires 2 <= EntriesInFat(blocksInFat, config) &&
             0 < n <= Capacity(EntriesInFat(blocksInFat, config) - 2, BlockSizeOfConfig(config))
    ensures fs.Valid() && fs.bs == BlockSizeOfConfig(config) > 0 &&
            fs.fat.Length == EntriesInFat(blocksInFat, config) && fd == 3
    ensures fresh(fs) && fresh(fs.fat) && fresh(fs.data) && fresh(fs.fds)
    ensures IsOpen(fs.fds[..], fd) && fs.IsWritable(fd) && fs.fds[fd].mode == Write && fs.fds[fd].entry.value.perm == 6
    ensures IsLive(fs.fds[fd].entry.value) && fs.fds[fd].entry.value.size == n && fs.OpenBytes(fd) == Zeros(n)
    ensures Files(fs.D(), fs.lay).Keys == {A}
    ensures |FreeBlocks(fs.fat[..])| == EntriesInFat(blocksInFat, config) - 2 - BlocksFor(n, fs.bs)
    ensures forall f :: 4 <= f < fs.fds.Length ==> fs.fds[f].refs == 0
  {
    hide VolumeOk, TableOk, EntryOf, Files, FileBytes, FreeBlocks, OthersKept, IsLiveSlot, NameOf, IsSlot, Overlaid,
      ScanStaysInside, Room, IsTailWrite, StartsInLastBlock, BlocksFor, IndexOf, IsSafeWrite, Zeros, Resize, Capacity,
      EntriesInFat;
    fs, fd := NewFile(blocksInFat, config);
    FillingNumbers(n, |FreeBlocks(fs.fat[..])|, fs.bs);
    TailOrFar(0, 0, fs.bs);
    LiveOpenFile(fs.D(), fs.lay, fs.fds[..], fd);
    assert Resize([], 0) + Zeros(n)[..n] == Zeros(n);
    var r, overrun := fs.KWrite(fd, Zeros(n), 0);
  }

  lemma EarlyNumbers()
    ensures !StartsInLastBlock(300, 10, 256) && IndexOf(10, 256) == 0 && Room(300, 10, 0, 256) == 246
  {
  }

  /** A write of one byte at offset 10 of a file of two blocks goes to offset 266. */
  method EarlyWriteBreaks() returns (fs: FileSystem, r: int)
    ensures r == 1 && !fs.IsConsistent()
  {
    hide FileSystem.Valid, FileSystem.IsConsistent, FileBytes, Overlaid, Room, StartsInLastBlock, IndexOf;
    var fd;
    fs, fd := NewZeros(1, 0, 300);
    EarlyNumbers();
    r := WriteAt(fs, fd, 10, [1], 300);
  }

  /** A seek and a write, for an offset before the last block. */
  method WriteAt(fs: FileSystem, fd: int, offset: nat, str: seq<Byte>, ghost size: nat) returns (r: int)
    requires fs.Valid() && fs.bs > 0 && fs.IsWritable(fd) && fs.fds[fd].entry.value.perm == 6 &&
             fs.fds[fd].mode == Write
    requires fs.fds[fd].entry.value.size == size && !StartsInLastBlock(size, offset, fs.bs) && str != []
    requires offset < 0x8000_0000 && |str| < 0x8000_0000
    modifies fs`lay, fs.fat, fs.data, fs.fds
    ensures |str| <= Room(size, offset, 0, fs.bs) ==> r == |str| && !fs.IsConsistent()
    ensures |str| > Room(size, offset, 0, fs.bs) ==>
              && r == EK_WRITE_GET_BLOCK_FAILED && fs.Valid() && IsOpen(fs.fds[..], fd)
              && |old(fs.OpenBytes(fd))| <= offset + fs.bs + |str|
              && fs.OpenBytes(fd) == Overlaid(old(fs.OpenBytes(fd)), offset + fs.bs, str)
  {
    hide VolumeOk, TableOk, EntryOf, Files, FileBytes, FreeBlocks, OthersKept, NameOf, IsSlot, Overlaid,
      ScanStaysInside, Room, IsTailWrite, StartsInLastBlock, BlocksFor, IndexOf, IsSafeWrite, Resize;
    SafeIff(size, offset, |str|, |FreeBlocks(fs.fat[..])|, fs.bs);
    TailOrFar(size, offset, fs.bs);
    var sought := fs.KLseek(fd, offset, F_SEEK_SET);
    var overrun;
    r, overrun := fs.KWrite(fd, str, 0);
  }

  /** A longer write from there on fails, after it has changed the file from offset 266 on. */
  method EarlyWriteFails() returns (fs: FileSystem, fd: int, r: int)
    ensures r == EK_WRITE_GET_BLOCK_FAILED && fs.Valid() && IsOpen(fs.fds[..], fd)
    ensures fs.OpenBytes(fd) == Zeros(266) + seq(34, _ => 1)
  {
    hide FileSystem.Valid, FileBytes, Overlaid, Room, StartsInLastBlock, IndexOf;
    fs, fd := NewZeros(1, 0, 300);
    EarlyNumbers();
    r := WriteAt(fs, fd, 10, seq(300, _ => 1), 300);
    OverlaidZeros();
  }

  lemma OverlaidZeros()
    ensures Overlaid(Zeros(300), 266, seq(300, _ => 1)) == Zeros(266) + seq(34, _ => 1)
  {
  }

  lemma StuckNumbers()
    ensures BlockSizeOfConfig(3) == 2048 && EntriesInFat(32, 3) == 32768 && Capacity(32766, 2048) == 67104768
    ensures BlocksFor(67102720, 2048) == 32765 && StartsInLastBlock(0, 2048, 2048) && IndexOf(2048, 2048) == 1
    ensures Room(0, 2048, 1, 2048) == 0 && !IsSafeWrite(0, 2048, 1, 1, 2048)
  {
  }

  /** A second file, on a volume with one file. */
  method SecondFile(fs: FileSystem) returns (fd: int)
    requires fs.Valid() && Files(fs.D(), fs.lay).Keys == {A} && forall f :: 4 <= f < fs.fds.Length ==>
               fs.fds[f].refs == 0
    requires IsOpen(fs.fds[..], 3) && IsLive(fs.fds[3].entry.value)
    modifies fs`lay, fs.fat, fs.data, fs.fds
    ensures fs.Valid() && fs.IsWritable(fd) && fs.fds[fd].mode == Write && fs.fds[fd].entry.value.perm == 6
    ensures fs.fds[fd].entry.value.size == 0 && |FreeBlocks(fs.fat[..])| == |old(FreeBlocks(fs.fat[..]))|
  {
    hide VolumeOk, TableOk, EntryOf, Files, FileBytes, FreeBlocks, OthersKept, HasName, IsFirstReusable,
      IsFullDirectory, IsLiveSlot, NameOf, IsSlot, FileSystem.OpenCode, IsValidFilename, WouldReuseOpenSlot;
    NamesAreFine();
    ghost var d, l, t := fs.D(), fs.lay, fs.fds[..];
    FileExists(d, l, B);
    HasPlaces(d, l, A);
    NoneNamed(d, l, t, B);
    OpenEntries(d, l, t);
    NoOpenSlotReused(d, l, t);
    assert t[4].refs == 0;
    fs.FreshCode(B, Write);
    var overrun;
    fd, overrun := fs.KOpen(B, Write, 0);
    NamedView(fs.D(), fs.lay, fs.fds[..], fd, B);
  }

  /**
   An empty file, an offset in its second block, and one free block: the write gives it that
   block, finds no other one, returns 0 and does not tell the directory.
   */
  method StuckWriteBreaks() returns (fs: FileSystem, r: int)
    ensures r == 0 && !fs.IsConsistent()
  {
    hide VolumeOk, TableOk, EntryOf, Files, FileBytes, FreeBlocks, OthersKept, Overlaid, NameOf, IsSlot, Room,
      IsTailWrite, StartsInLastBlock, BlocksFor, IndexOf, IsSafeWrite, Zeros, Resize, Capacity, EntriesInFat;
    StuckNumbers();
    var fd;
    fs, fd := NewZeros(32, 3, 67102720);
    fd := SecondFile(fs);
    var sought := fs.KLseek(fd, 2048, F_SEEK_SET);
    var overrun;
    r, overrun := fs.KWrite(fd, [1], 0);
  }
}
