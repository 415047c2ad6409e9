/** Whole runs: any sequence of calls on a new volume. */
module Runs {
  import opened Options
  import opened Words
  import opened DirectoryEntries
  import opened FatChains
  import opened BlockContents
  import opened Volume
  import opened RootDirectory
  import opened VolumeSteps
  import opened Writing
  import opened Mkfs
  import opened PennFat
  import opened SpaceAccounting
  import opened DirectorySpace
  import opened Views
  import opened ViewSteps

  datatype Call =
    | Open(fname: CString, mode: Mode)
    | Close(fd: int)
    | ReadBytes(fd: int, n: int)
    | WriteBytes(fd: int, str: seq<Byte>)
    | SeekTo(fd: int, offset: Int32, whence: int)
    | SetMode(fd: int, number: int)
    | Unlink(fname: CString)
    | Move(src: CString, dest: CString)

  /**
   The calls that keep the volume consistent: an open does not put a new file into the place of one
   that is deleted but open, and a write is safe. Descriptors 0 to 2 are those of the terminal.
   */
  ghost predicate IsSound(fs: FileSystem, c: Call)
    reads fs, fs.fat, fs.data, fs.fds
  {
    match c
    case Open(fname, mode) => !(fs.MakesNewFile(fname, mode) && WouldReuseOpenSlot(fs.D(), fs.lay))
    case WriteBytes(fd, str) => (fd < 0 || fd >= 3) && IsSoundWrite(fs, fd, |str|)
    case ReadBytes(fd, _) => fd < 0 || fd >= 3
    case SetMode(fd, _) => fd >= 3
    case _ => true
  }

  predicate IsSoundWrite(fs: FileSystem, fd: int, n: nat)
    reads fs, fs.fat, fs.fds
  {
    fs.IsInRange(fd, n) && (n > 0 && fs.IsWritable(fd) ==> fs.bs > 0 && fs.IsSafe(fd, n))
  }

  /** Whether an open would create a file in the place of one that is deleted but open. */
  method ReusesOpenSlot(fs: FileSystem, fname: CString, mode: Mode) returns (b: bool)
    requires fs.Valid()
    ensures b <==> fs.MakesNewFile(fname, mode) && WouldReuseOpenSlot(fs.D(), fs.lay)
  {
    hide VolumeOk, TableOk, EntryOf, HasName, WouldReuseOpenSlot, IsFirstReusable, IsValidFilename, IsLiveSlot, NameOf;
    OpenEntries(fs.D(), fs.lay, fs.fds[..]);
    if mode == Read || !IsValidFilename(fname) {
      return false;
    }
    var f := fs.FindEmptyFd();
    if f == GLOBAL_FD_TABLE_SIZE {
      return false;
    }
    assert !IsOpen(fs.fds[..], f);
    var found, e, t := fs.FindFileInRootDir(fname);
    if found {
      NamedHere(fs.D(), fs.lay, t, fname);
      return false;
    }
    var s, isEnd := fs.FindEmptySpotInRootDir();
    FirstReusableMark(fs.D(), fs.lay, s);
    SlotOnDisk(fs.D(), fs.lay, s);
    return Mark(EntryAt(fs.data[s.block], s.idx)) == DELETED_BUT_OPEN;
  }

  lemma SlotOnDisk(d: Disk, lay: Layout, s: Slot)
    requires VolumeOk(d, lay) && IsSlot(d, lay, s)
    ensures s.block < |d.data| && 64 * s.idx + 64 <= |d.data[s.block]| &&
            EntryOf(d, s) == EntryAt(d.data[s.block], s.idx)
  {
    SlotInRange(d, lay, s);
  }

  method DecideSound(fs: FileSystem, c: Call) returns (b: bool)
    requires fs.Valid()
    ensures b <==> IsSound(fs, c)
  {
    hide FileSystem.Valid, FileSystem.MakesNewFile, WouldReuseOpenSlot, IsSoundWrite;
    match c
    case Open(fname, mode) =>
      var reuses := ReusesOpenSlot(fs, fname, mode);
      b := !reuses;
    case WriteBytes(fd, str) => b := (fd < 0 || fd >= 3) && IsSoundWrite(fs, fd, |str|);
    case ReadBytes(fd, _) => b := fd < 0 || fd >= 3;
    case SetMode(fd, _) => b := fd >= 3;
    case _ => b := true;
  }

  /** What a call that returns `r` and, if it reads, `buf` does to what callers see. */
  ghost predicate Follows(v: View, c: Call, bs: nat, r: int, buf: seq<Byte>, v': View)
    requires bs > 0
  {
    && (!c.ReadBytes? ==> buf == [])
    && match c
       case Open(fname, mode) => IsOpenedIn(v, fname, mode, bs, r, v')
       case Close(fd) => IsClosedIn(v, fd, bs, r, v')
       case ReadBytes(fd, n) => IsReadIn(v, fd, n, r, buf, v')
       case WriteBytes(fd, str) => IsWrittenIn(v, fd, str, bs, r, v')
       case SeekTo(fd, offset, whence) => IsSoughtIn(v, fd, offset, whence, r, v')
       case SetMode(fd, mode) => IsModeSetIn(v, fd, mode, r, v')
       case Unlink(fname) => IsUnlinkedIn(v, fname, bs, r, v')
       case Move(src, dest) => IsMovedIn(v, src, dest, bs, r, v')
  }

  ghost function Seen(fs: FileSystem): View
    reads fs, fs.fat, fs.data, fs.fds
  {
    ViewOf(fs.D(), fs.lay, fs.fds[..])
  }

  method ExecuteRead(fs: FileSystem, fd: int, n: int) returns (r: int, buf: seq<Byte>)
    requires fs.Valid() && (fd < 0 || fd >= 3)
    modifies fs.fds
    ensures fs.Valid() && IsReadIn(old(Seen(fs)), fd, n, r, buf, Seen(fs))
  {
    hide VolumeOk, TableOk, Files, FileBytes, OpenViews, ReadSlice, Perms, FreeBlocks;
    ghost var d, l, t := fs.D(), fs.lay, fs.fds[..];
    OpenEntries(d, l, t);
    FdInView(d, l, t, fd);
    r, buf := fs.KRead(fd, n);
    if r >= 0 {
      EntryViewed(d, l, t, fs.fds[..], fd);
    }
  }

  method ExecuteSeek(fs: FileSystem, fd: int, offset: Int32, whence: int) returns (r: int)
    requires fs.Valid()
    modifies fs.fds
    ensures fs.Valid() && IsSoughtIn(old(Seen(fs)), fd, offset, whence, r, Seen(fs))
  {
    hide VolumeOk, TableOk, Files, FileBytes, OpenViews, Perms, FreeBlocks, FileSystem.SeekResult;
    ghost var d, l, t := fs.D(), fs.lay, fs.fds[..];
    OpenEntries(d, l, t);
    FdInView(d, l, t, fd);
    if IsOpen(t, fd) {
      OpenSize(d, l, t, fd);
    }
    r := fs.KLseek(fd, offset, whence);
    if r >= 0 {
      EntryViewed(d, l, t, fs.fds[..], fd);
    }
  }

  method ExecuteSetMode(fs: FileSystem, fd: int, mode: int) returns (r: int)
    requires fs.Valid() && fd >= 3
    modifies fs.fds
    ensures fs.Valid() && IsModeSetIn(old(Seen(fs)), fd, mode, r, Seen(fs))
  {
    hide VolumeOk, TableOk, Files, FileBytes, OpenViews, Perms, FreeBlocks;
    ghost var d, l, t := fs.D(), fs.lay, fs.fds[..];
    OpenEntries(d, l, t);
    FdInView(d, l, t, fd);
    r := fs.KSetMode(fd, mode);
    if r == 0 {
      EntryViewed(d, l, t, fs.fds[..], fd);
    }
  }

  method ExecuteClose(fs: FileSystem, fd: int) returns (r: int, crash: bool)
    requires fs.Valid()
    modifies fs`lay, fs.fat, fs.data, fs.fds
    ensures crash ==> fd !in old(Seen(fs)).open
    ensures fs.Valid() && IsClosedIn(old(Seen(fs)), fd, fs.bs, r, Seen(fs))
  {
    hide VolumeOk, TableOk, EntryOf, Files, FileBytes, OpenViews, FreeBlocks, OthersKept, OthersViewed, Perms,
      Elements, BlocksFor, ChainOf;
    ghost var d, l, t := fs.D(), fs.lay, fs.fds[..];
    OpenEntries(d, l, t);
    FdInView(d, l, t, fd);
    r, crash := fs.KClose(fd);
    ghost var t' := fs.fds[..];
    if IsOpen(t, fd) {
      OthersKeptRefl(d, l, t[fd].slot);
      assert t' == t[fd := t'[fd]];
      FileViewed(d, l, t, fs.D(), fs.lay, t', fd);
      OpenFile(d, l, t, fd);
      if t[fd].refs == 1 && Mark(t[fd].entry.value) == DELETED_BUT_OPEN {
        ReleasedSpace(d, l, t[fd].slot);
        ClosePerms(d, l, fs.D(), fs.lay, t[fd].slot);
      }
    } else {
      NoneViewed(d, l, t, t');
    }
  }

  method ExecuteWrite(fs: FileSystem, fd: int, str: seq<Byte>, now: U64) returns (r: int, faulted: bool)
    requires fs.Valid() && IsSound(fs, WriteBytes(fd, str))
    modifies fs`lay, fs.fat, fs.data, fs.fds
    ensures !faulted ==> fs.Valid() && IsWrittenIn(old(Seen(fs)), fd, str, fs.bs, r, Seen(fs))
    ensures faulted ==> !ScanStaysInside(fs.fat.Length)
  {
    hide VolumeOk, TableOk, EntryOf, Files, FileBytes, FreeBlocks, OthersKept, Resize, IsSlot, NameOf, IsSafeWrite,
      Overlaid, OpenViews, StartsInLastBlock, IsTailWrite, Room, BlocksFor, IndexOf, Perms, ChainOf;
    ghost var d, l, t := fs.D(), fs.lay, fs.fds[..];
    OpenEntries(d, l, t);
    FdInView(d, l, t, fd);
    if IsOpen(t, fd) {
      OpenSize(d, l, t, fd);
      SafeIff(t[fd].entry.value.size, fs.WriteOffset(t[fd]), |str|, |FreeBlocks(d.fat)|, fs.bs);
    }
    r, faulted := fs.KWrite(fd, str, now);
    if faulted || str == [] {
      return;
    }
    if r == 0 {
      UntouchedViewed(d, l, t, fs.D(), fs.lay, fd);
    } else if r > 0 || r == EK_WRITE_GET_BLOCK_FAILED {
      WriteViewed(d, l, t, fs.D(), fs.lay, fs.fds[..], fd);
    }
  }

  method ExecuteUnlink(fs: FileSystem, fname: CString) returns (r: int)
    requires fs.Valid()
    modifies fs`lay, fs.fat, fs.data, fs.fds
    ensures fs.Valid() && IsUnlinkedIn(old(Seen(fs)), fname, fs.bs, r, Seen(fs))
  {
    hide VolumeOk, TableOk, EntryOf, Files, FileBytes, FreeBlocks, OthersKept, IsSlot, NameOf, HasName, OpenViews,
      IsValidFilename, Perms, Elements, ChainOf, IsOpenSlot;
    ghost var d, l, t := fs.D(), fs.lay, fs.fds[..];
    FileExists(d, l, fname);
    FreedViewed(d, l, t, fname);
    OpenEntries(d, l, t);
    r := fs.KUnlink(fname);
    if r == 0 {
      UnlinkViewed(d, l, t, fs.D(), fs.lay, fs.fds[..], fname);
    }
  }

  method ExecuteMove(fs: FileSystem, src: CString, dest: CString) returns (r: int)
    requires fs.Valid()
    modifies fs`lay, fs.fat, fs.data, fs.fds
    ensures fs.Valid() && IsMovedIn(old(Seen(fs)), src, dest, fs.bs, r, Seen(fs))
  {
    hide VolumeOk, TableOk, EntryOf, Files, FileBytes, FreeBlocks, OthersKept, IsSlot, NameOf, HasName, OpenViews,
      IsValidFilename, Perms, FreeBlocksWithout, OpenCodeOf, OpenCodeIn, IsFull, Nameless, MovedTo, BlocksFor;
    ghost var d, l, t := fs.D(), fs.lay, fs.fds[..];
    OpenEntries(d, l, t);
    FreedViewed(d, l, t, dest);
    FileExists(d, l, dest);
    PermExists(d, l, dest);
    if IsValidFilename(dest) {
      MoveCodeViewed(d, l, t, src, dest);
    }
    r := fs.KMv(src, dest);
    if r != EK_MV_INVALID_FILENAME {
      OpenAfterMove(d, l, t, fs.D(), fs.lay, fs.fds[..], src, dest, r == 0);
      assert Files(d, l) - {dest} - {src} == Files(d, l) - {src, dest};
    }
  }

  method ExecuteOpen(fs: FileSystem, fname: CString, mode: Mode, now: U64) returns (r: int, overrun: bool)
    requires fs.Valid() && !(fs.MakesNewFile(fname, mode) && WouldReuseOpenSlot(fs.D(), fs.lay))
    modifies fs`lay, fs.fat, fs.data, fs.fds
    ensures overrun ==> !ScanStaysInside(fs.fat.Length)
    ensures fs.Valid() && IsOpenedIn(old(Seen(fs)), fname, mode, fs.bs, r, Seen(fs))
  {
    hide VolumeOk, TableOk, EntryOf, Files, FileBytes, FreeBlocks, OthersKept, IsSlot, NameOf, HasName, OpenViews,
      IsValidFilename, WouldReuseOpenSlot, OpenCodeOf, OpenCodeIn, IsFirstReusable, IsFullDirectory, ChainOf, Elements,
      Perms, IsDirectoryOpened, IsEnteredIn, IsOpenFile;
    ghost var d, l, t := fs.D(), fs.lay, fs.fds[..];
    CodeViewed(d, l, t, fname, mode);
    NumberViewed(d, l, t, fname);
    OpenEntries(d, l, t);
    r, overrun := fs.KOpen(fname, mode, now);
    if r < 0 {
      NoneViewed(d, l, t, fs.fds[..]);
    } else {
      EnteredViewed(d, l, t, fs.D(), fs.lay, fs.fds[..], fname, mode, r);
      assert forall g :: IsOpenFile(d, l, t, fname, g) <==> old(fs.IsOpenAs(fname, g));
      assert !IsOpenFile(d, l, t, fname, r) ==> forall g :: 3 <= g < r ==> IsOpen(t, g);
      assert IsNumberFor(old(Seen(fs)), fname, r);
    }
  }

  /**
   One call. `faulted` says that the code has left its tables: a scan for a free block ran
   past the end of the table, or an entry that is not there was dereferenced.
   */
  method Execute(fs: FileSystem, c: Call, now: U64) returns (r: int, buf: seq<Byte>, faulted: bool)
    requires fs.Valid() && IsSound(fs, c)
    modifies fs`lay, fs.fat, fs.data, fs.fds
    ensures !faulted ==> fs.Valid() && Follows(old(Seen(fs)), c, fs.bs, r, buf, Seen(fs))
    ensures faulted ==> (c.Close? && c.fd !in old(Seen(fs)).open) || !ScanStaysInside(fs.fat.Length)
  {
    hide Seen, IsOpenedIn, IsClosedIn, IsReadIn, IsWrittenIn, IsSoughtIn, IsModeSetIn, IsUnlinkedIn, IsMovedIn,
      ScanStaysInside, VolumeOk, TableOk;
    buf, faulted := [], false;
    match c
    case Open(fname, mode) => r, faulted := ExecuteOpen(fs, fname, mode, now);
    case Close(fd) => r, faulted := ExecuteClose(fs, fd);
    case ReadBytes(fd, n) => r, buf := ExecuteRead(fs, fd, n);
    case WriteBytes(fd, str) => r, faulted := ExecuteWrite(fs, fd, str, now);
    case SeekTo(fd, offset, whence) => r := ExecuteSeek(fs, fd, offset, whence);
    case SetMode(fd, mode) => r := ExecuteSetMode(fs, fd, mode);
    case Unlink(fname) => r := ExecuteUnlink(fs, fname);
    case Move(src, dest) => r := ExecuteMove(fs, src, dest);
  }

  /** What callers see of a new volume. */
  function NewView(entries: nat): View
    requires entries >= 2
  {
    View(map[], map[], map[], (if entries < 0xFFFF then entries else 0xFFFF) - 2, 1)
  }

  lemma NewVolumeSeen(d: Disk, lay: Layout, fds: seq<FdEntry>)
    requires Files(d, lay) == map[] && lay.root == [1] && forall f :: 3 <= f < |fds| ==> fds[f].refs == 0
    requires |d.fat| >= 2 && forall b :: b in FreeBlocks(d.fat) <==> 2 <= b < Limit(d.fat)
    ensures ViewOf(d, lay, fds) == NewView(|d.fat|)
  {
    hide Files, FreeBlocks;
    assert OpenViews(d, lay, fds) == map[];
    assert Perms(d, lay) == map[] by { NoPerms(d, lay); }
    RangeSize(FreeBlocks(d.fat) + {1}, Limit(d.fat));
  }

  lemma NoPerms(d: Disk, lay: Layout)
    requires Files(d, lay) == map[]
    ensures Perms(d, lay) == map[]
  {
    hide Files, Perms, HasName;
    forall n
      ensures n !in Perms(d, lay)
    {
      FileExists(d, lay, n);
      PermExists(d, lay, n);
    }
    assert Perms(d, lay).Keys == {};
  }

  /**
   Any sequence of calls on a new volume, up to the first one that is not sound or that
   faults: the volume stays consistent, and every call returns, and does to what callers see, what
   `Follows` says.
   */
  method Run(blocksInFat: nat, config: nat, calls: seq<Call>, now: U64)
    returns (fs: FileSystem, results: seq<(int, seq<Byte>)>, faulted: bool, ghost trace: seq<View>)
    requires 1 <= blocksInFat <= 32 && config <= 4
    ensures fs.bs > 0 && fs.fat.Length >= 2 && IsRun(trace, calls, fs.bs, results) && trace[0] == NewView(fs.fat.Length)
    ensures !faulted ==> fs.Valid() && trace[|results|] == Seen(fs)
    ensures !faulted ==> |results| == |calls| || !IsSound(fs, calls[|results|])
    ensures faulted ==> |results| < |calls| && (calls[|results|].Close? || !ScanStaysInside(fs.fat.Length))
  {
    hide Files, Follows, IsSound, FreeBlocks, ScanStaysInside, OpenViews, VolumeOk, TableOk, NewView;
    EntriesBounds(blocksInFat, config);
    fs := new FileSystem(blocksInFat, config);
    NewVolumeSeen(fs.D(), fs.lay, fs.fds[..]);
    hide Seen, FileSystem.D;
    results, faulted, trace := [], false, [Seen(fs)];
    var i := 0;
    while i < |calls|
      invariant !faulted && 0 <= i == |results| <= |calls| && trace != [] && trace[0] == NewView(fs.fat.Length)
      invariant fs.Valid() && fresh(fs) && fresh(fs.fat) && fresh(fs.data) && fresh(fs.fds)
      invariant IsRun(trace, calls, fs.bs, results) && trace[i] == Seen(fs)
    {
      var sound := DecideSound(fs, calls[i]);
      if !sound {
        return;
      }
      var r, buf;
      r, buf, faulted := Execute(fs, calls[i], now);
      if faulted {
        return;
      }
      results, trace := results + [(r, buf)], trace + [Seen(fs)];
      i := i + 1;
    }
  }

  // ---- what follows for whole runs ----

  /** A run of the first calls: a call and its result lead from each view to the next one. */
  ghost predicate IsRun(trace: seq<View>, calls: seq<Call>, bs: nat, results: seq<(int, seq<Byte>)>)
    requires bs > 0
  {
    && |trace| == |results| + 1 && |results| <= |calls|
    && forall i :: 0 <= i < |results| ==> Follows(trace[i], calls[i], bs, results[i].0, results[i].1, trace[i + 1])
  }

  /** What a call returns and what it changes is determined by what callers see. */
  lemma CallIsDetermined(v: View, c: Call, bs: nat, r: int, buf: seq<Byte>, v': View, r1: int, buf1: seq<Byte>,
                         v1: View)
    requires bs > 0 && Follows(v, c, bs, r, buf, v') && Follows(v, c, bs, r1, buf1, v1)
    ensures r == r1 && buf == buf1 && v' == v1
  {
    hide OpenCodeIn, IsFullIn, BlocksFor, ClosedIn, ReadSlice, SoughtIn, StartsInLastBlock, Room, Overlaid, Resize,
      UnlinkedIn, RenamedIn, MoveResult, IsValidFilename;
  }

  /** So the calls determine everything that callers see of a run. */
  lemma {:induction false} RunIsDetermined(trace: seq<View>, results: seq<(int, seq<Byte>)>, trace1: seq<View>,
                                           results1: seq<(int, seq<Byte>)>, calls: seq<Call>, bs: nat)
    requires bs > 0 && IsRun(trace, calls, bs, results) && IsRun(trace1, calls, bs, results1)
    requires trace[0] == trace1[0] && |results| == |results1|
    ensures results == results1 && trace == trace1
  {
    hide Follows;
    if results != [] {
      var n := |results| - 1;
      RunIsDetermined(trace[..n + 1], results[..n], trace1[..n + 1], results1[..n], calls, bs);
      assert trace[n] == trace[..n + 1][n] && trace1[n] == trace1[..n + 1][n];
      CallIsDetermined(trace[n], calls[n], bs, results[n].0, results[n].1, trace[n + 1], results1[n].0, results1[n].1,
                       trace1[n + 1]);
      assert results == results[..n] + [results[n]] && results1 == results1[..n] + [results1[n]];
      assert trace == trace[..n + 1] + [trace[n + 1]] && trace1 == trace1[..n + 1] + [trace1[n + 1]];
    }
  }

  lemma CallKeepsCoherent(v: View, c: Call, bs: nat, r: int, buf: seq<Byte>, v': View)
    requires bs > 0 && IsCoherent(v) && Follows(v, c, bs, r, buf, v')
    ensures IsCoherent(v')
  {
    hide OpenCodeIn, IsFullIn, BlocksFor, StartsInLastBlock, Room, Overlaid, Resize, MoveResult, IsValidFilename,
      ReadSlice, SoughtIn, UnlinkedIn, RenamedIn, IsEnteredIn, IsStoredIn;
    if c.Open? && v' != v {
      EnteredKeepsCoherent(v, c.fname, c.mode, bs, r, v');
    } else if c.WriteBytes? && v' != v {
      StoredKeepsCoherent(v, c.fd, c.str, bs, r, v');
    } else if c.Unlink? {
      UnlinkKeepsCoherent(v, c.fname, bs);
    } else if c.Move? {
      UnlinkKeepsCoherent(v, c.dest, bs);
      RenameKeepsCoherent(UnlinkedIn(v, c.dest, bs), c.src, c.dest);
    }
  }

  /** Through a whole run, what an open file shows is what the directory has under its name. */
  lemma {:induction false} RunCoherent(trace: seq<View>, calls: seq<Call>, bs: nat, results: seq<(int, seq<Byte>)>,
                                       i: nat)
    requires bs > 0 && IsRun(trace, calls, bs, results) && IsCoherent(trace[0]) && i < |trace|
    ensures IsCoherent(trace[i])
  {
    hide Follows, IsCoherent;
    if i > 0 {
      RunCoherent(trace, calls, bs, results, i - 1);
      CallKeepsCoherent(trace[i - 1], calls[i - 1], bs, results[i - 1].0, results[i - 1].1, trace[i]);
    }
  }

  /** The call may change the contents or the offset of the file open as `fd`, other than by reading on. */
  predicate Disturbs(c: Call, r: int, fd: int)
  {
    match c
    case Open(_, mode) => r == fd && mode != Read
    case WriteBytes(g, _) => g == fd
    case SeekTo(g, _, _) => g == fd
    case _ => false
  }

  /** What the reads through `fd` returned, one after the other. */
  ghost function ReadThrough(calls: seq<Call>, results: seq<(int, seq<Byte>)>, fd: int): seq<Byte>
    requires |results| <= |calls|
    decreases |results|
  {
    if results == [] then []
    else
      var n := |results| - 1;
      ReadThrough(calls, results[..n], fd) +
      if calls[n].ReadBytes? && calls[n].fd == fd && results[n].0 >= 0 then results[n].1 else []
  }

  /** One call, seen through `fd`: the contents stay, and the offset moves by what was read. */
  lemma StepThrough(v: View, c: Call, bs: nat, r: int, buf: seq<Byte>, v': View, fd: int)
    requires bs > 0 && Follows(v, c, bs, r, buf, v') && fd in v.open && fd in v'.open && !Disturbs(c, r, fd)
    requires IsCoherent(v)
    ensures v'.open[fd].bytes == v.open[fd].bytes
    ensures var got := if c.ReadBytes? && c.fd == fd && r >= 0 then buf else [];
            && v'.open[fd].offset == v.open[fd].offset + |got|
            && (got != [] ==> exists n :: got == ReadSlice(v.open[fd].bytes, v.open[fd].offset, n))
  {
    hide OpenCodeIn, IsFullIn, BlocksFor, StartsInLastBlock, Room, Overlaid, Resize, MoveResult, IsValidFilename,
      ReadSlice, FileSystem.SeekResult;
  }

  lemma ReadOn(text: seq<Byte>, from: nat, to: nat, got: seq<Byte>, buf: seq<Byte>)
    requires from <= to <= |text| && got == text[from..to]
    requires buf == [] || exists n :: buf == ReadSlice(text, to, n)
    ensures to + |buf| <= |text| && got + buf == text[from..to + |buf|]
  {
  }

  /**
   Through an open file, a run reads the contiguous contents from its offset on, whatever else
   happens: other files are written, created and renamed, and the file itself may be renamed or
   deleted.
   */
  lemma {:induction false} OpenFileStreams(trace: seq<View>, calls: seq<Call>, bs: nat,
                                           results: seq<(int, seq<Byte>)>, fd: int)
    requires bs > 0 && IsRun(trace, calls, bs, results) && IsCoherent(trace[0])
    requires forall i :: 0 <= i < |trace| ==> fd in trace[i].open
    requires forall i :: 0 <= i < |results| ==> !Disturbs(calls[i], results[i].0, fd)
    requires trace[0].open[fd].offset <= |trace[0].open[fd].bytes|
    ensures var x, y := trace[0].open[fd], trace[|results|].open[fd];
            && y.bytes == x.bytes && x.offset <= y.offset <= |x.bytes|
            && ReadThrough(calls, results, fd) == x.bytes[x.offset..y.offset]
    decreases |results|
  {
    hide Follows, Disturbs, ReadSlice, IsCoherent;
    if results != [] {
      var n := |results| - 1;
      OpenFileStreams(trace[..n + 1], calls, bs, results[..n], fd);
      RunCoherent(trace, calls, bs, results, n);
      StepThrough(trace[n], calls[n], bs, results[n].0, results[n].1, trace[n + 1], fd);
      var got := if calls[n].ReadBytes? && calls[n].fd == fd && results[n].0 >= 0 then results[n].1 else [];
      var x, y := trace[0].open[fd], trace[n].open[fd];
      ReadOn(x.bytes, x.offset, y.offset, ReadThrough(calls, results[..n], fd), got);
    }
  }

  lemma NewViewCoherent(entries: nat)
    requires entries >= 2
    ensures IsCoherent(NewView(entries))
  {
  }

  lemma PartOfRun(trace: seq<View>, calls: seq<Call>, bs: nat, results: seq<(int, seq<Byte>)>, a: nat, b: nat)
    requires bs > 0 && IsRun(trace, calls, bs, results) && a <= b <= |results|
    ensures IsRun(trace[a..b + 1], calls[a..], bs, results[a..b])
  {
    hide Follows;
    forall i | 0 <= i < b - a
      ensures Follows(trace[a..b + 1][i], calls[a..][i], bs, results[a..b][i].0, results[a..b][i].1,
                      trace[a..b + 1][i + 1])
    {
      assert Follows(trace[a + i], calls[a + i], bs, results[a + i].0, results[a + i].1, trace[a + i + 1]);
    }
  }

  /**
   For runs on a new volume: between any two moments `a` and `b` through which a file stays open,
   and nobody writes to it or seeks in it through its descriptor, the reads are its contiguous contents.
   */
  lemma RunStreams(entries: nat, trace: seq<View>, calls: seq<Call>, bs: nat, results: seq<(int, seq<Byte>)>, fd: int,
                   a: nat, b: nat)
    requires bs > 0 && entries >= 2 && IsRun(trace, calls, bs, results) && trace[0] == NewView(entries)
    requires a <= b <= |results| && forall i :: a <= i <= b ==> fd in trace[i].open
    requires forall i :: a <= i < b ==> !Disturbs(calls[i], results[i].0, fd)
    requires trace[a].open[fd].offset <= |trace[a].open[fd].bytes|
    ensures var x, y := trace[a].open[fd], trace[b].open[fd];
            && y.bytes == x.bytes && x.offset <= y.offset <= |x.bytes|
            && ReadThrough(calls[a..], results[a..b], fd) == x.bytes[x.offset..y.offset]
  {
    hide IsRun, Disturbs, IsCoherent, NewView;
    NewViewCoherent(entries);
    RunLengths(trace, calls, bs, results);
    RunCoherent(trace, calls, bs, results, a);
    PartOfRun(trace, calls, bs, results, a, b);
    OpenFileStreams(trace[a..b + 1], calls[a..], bs, results[a..b], fd);
  }

  lemma RunLengths(trace: seq<View>, calls: seq<Call>, bs: nat, results: seq<(int, seq<Byte>)>)
    requires bs > 0 && IsRun(trace, calls, bs, results)
    ensures |trace| == |results| + 1 && |results| <= |calls|
  {
  }
}
