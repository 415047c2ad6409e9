/** The file operations of PennFAT on a mounted volume. */
module PennFat {
  import opened Options
  import opened Words
  import opened DirectoryEntries
  import opened FatChains
  import opened BlockContents
  import opened Volume
  import opened RootDirectory
  import opened VolumeSteps
  import opened Writing
  import opened Mkfs
  import opened SpaceAccounting

  // The error codes of src/utils/error_codes.h
  const EK_OPEN_INVALID_FILENAME := -19
  const EK_OPEN_GLOBAL_FD_TABLE_FULL := -21
  const EK_OPEN_FILE_DOES_NOT_EXIST := -22
  const EK_OPEN_ALREADY_WRITE_LOCKED := -25
  const EK_OPEN_WRITE_NEW_ROOT_DIR_ENTRY_FAILED := -26
  const EK_OPEN_WRONG_PERMISSIONS := -28
  const EK_CLOSE_FD_OUT_OF_RANGE := -30
  const EK_CLOSE_SPECIAL_FD := -31
  const EK_READ_FD_OUT_OF_RANGE := -33
  const EK_READ_FD_NOT_IN_TABLE := -34
  const EK_READ_WRONG_PERMISSIONS := -36
  const EK_LSEEK_BAD_WHENCE := -38
  const EK_LSEEK_NEGATIVE_OFFSET := -39
  const EK_LSEEK_OFFSET_OVERFLOW := -40
  const EK_LSEEK_FD_OUT_OF_RANGE := -41
  const EK_LSEEK_FD_NOT_IN_TABLE := -42
  const EK_LSEEK_WRONG_PERMISSIONS := -43
  const EK_LSEEK_SPECIAL_FD := -44
  const EK_WRITE_WRONG_PERMISSIONS := -45
  const EK_WRITE_FD_NOT_IN_TABLE := -46
  const EK_WRITE_FD_OUT_OF_RANGE := -47
  const EK_WRITE_GET_BLOCK_FAILED := -48
  const EK_UNLINK_FILE_NOT_FOUND := -55
  const EK_UNLINK_INVALID_FILENAME := -58
  const EK_MV_FILE_NOT_FOUND := -70
  const EK_MV_INVALID_FILENAME := -73
  const EK_MV_OPEN_FAILED := -74
  const EK_SETMODE_FD_OUT_OF_RANGE := -77
  const EK_SETMODE_BAD_MODE := -78
  const EK_SETMODE_FD_NOT_IN_USE := -79

  // Where a seek counts from, and the numbers of the modes
  const F_SEEK_SET := 1
  const F_SEEK_CUR := 2
  const F_SEEK_END := 3
  const F_READ := 0
  const F_WRITE := 1
  const F_APPEND := 2

  function NumberOf(mode: Mode): int
  {
    match mode case Read => F_READ case Write => F_WRITE case Append => F_APPEND
  }

  lemma ModeNumbers()
    ensures NumberOf(Read) == 0 && NumberOf(Write) == 1 && NumberOf(Append) == 2
  {
  }

  /**
   Which permissions refuse which way of opening. Of the others, a file with 1 or 3 can be opened and
   then be neither read nor, if it was opened to be written, written.
   */
  lemma PermissionsAre(perm: Byte)
    requires perm < 8
    ensures FileSystem.IsRefused(perm, Read) <==> perm in {0, 2}
    ensures FileSystem.IsRefused(perm, Write) <==> perm in {0, 4, 5}
    ensures FileSystem.IsRefused(perm, Append) <==> perm in {0, 4, 5}
  {
  }

  /**
   `first_empty_block` scans to a fixed bound that is not always the length of the table:
   65535, unless the table has exactly 32768 entries. This says that the bound lies inside.
   */
  predicate ScanStaysInside(entries: nat)
  {
    entries == 0x8000 || entries >= 0xFFFF
  }

  /** What a successful open does to a volume that stays consistent, for a file in slot `s`. */
  ghost predicate IsDirectoryOpened(d: Disk, lay: Layout, d': Disk, lay': Layout, fname: CString, mode: Mode, s: Slot)
  {
    && IsLiveSlot(d', lay', s) && NameOf(d', s) == fname && OthersKept(d, lay, d', lay', s)
    && Files(d', lay') == (if mode == Write || !HasName(d, lay, fname) then Files(d, lay)[fname := []]
                           else Files(d, lay))
    && (mode != Write && HasName(d, lay, fname) ==> d' == d && lay' == lay)
    // space: truncation frees the blocks of the file, creation may take one for the directory
    && (mode == Write && HasName(d, lay, fname) ==> FreeBlocks(d'.fat) == FreeBlocks(d.fat) + Elements(ChainOf(lay, s)))
    && (!HasName(d, lay, fname) ==>
        |FreeBlocks(d'.fat)| == |FreeBlocks(d.fat)| - if IsFullDirectory(d, lay) then 1 else 0)
    && |lay'.root| == |lay.root| + (if !HasName(d, lay, fname) && IsFullDirectory(d, lay) then 1 else 0)
  }

  lemma OpenedToRead(d: Disk, lay: Layout, d': Disk, lay': Layout, fname: CString, s: Slot)
    requires IsDirectoryOpened(d, lay, d', lay', fname, Read, s) && HasName(d, lay, fname)
    ensures d' == d && lay' == lay && IsLiveSlot(d', lay', s) && NameOf(d', s) == fname
  {
    hide IsLiveSlot, NameOf, OthersKept, Files, HasName, FreeBlocks, Elements, ChainOf, IsFullDirectory;
  }

  /** The two halves of an open together: the entry is found or made, then the file is truncated or not. */
  lemma OpenedInTwo(d: Disk, lay: Layout, d1: Disk, lay1: Layout, d': Disk, lay': Layout, fname: CString, mode: Mode,
                    s: Slot)
    requires OthersKept(d, lay, d1, lay1, s) && OthersKept(d1, lay1, d', lay', s) && IsLiveSlot(d', lay', s) &&
             NameOf(d', s) == fname
    requires HasName(d, lay, fname) ==> d1 == d && lay1 == lay
    requires !HasName(d, lay, fname) ==> Files(d1, lay1) == Files(d, lay)[fname := []] && s !in lay1.chains
    requires !HasName(d, lay, fname) ==>
               |FreeBlocks(d1.fat)| == |FreeBlocks(d.fat)| - if IsFullDirectory(d, lay) then 1 else 0
    requires !HasName(d, lay, fname) ==> |lay1.root| == |lay.root| + if IsFullDirectory(d, lay) then 1 else 0
    requires lay'.root == lay1.root
    requires mode != Write ==> d' == d1 && lay' == lay1
    requires mode == Write ==> Files(d', lay') == Files(d1, lay1)[fname := []]
    requires mode == Write ==> FreeBlocks(d'.fat) == FreeBlocks(d1.fat) + Elements(ChainOf(lay1, s))
    ensures IsDirectoryOpened(d, lay, d', lay', fname, mode, s)
  {
    hide IsLiveSlot, NameOf, OthersKept, Files, HasName, FreeBlocks, Elements, ChainOf, IsFullDirectory;
    OthersKeptTrans(d, lay, d1, lay1, d', lay', s);
    NoBlocksOf(lay1, s);
  }

  /** What a successful open does to the table: its entry `f`, which may have been in use for this file before. */
  ghost predicate IsTableOpened(d: Disk, lay: Layout, fds: seq<FdEntry>, fds': seq<FdEntry>, fname: CString, mode: Mode,
                                f: int)
    requires |fds'| == |fds| && 3 <= f < |fds|
  {
    var x, x' := fds[f], fds'[f];
    && (forall g :: 0 <= g < |fds| && g != f ==> fds'[g] == fds[g])
    && x'.refs == x.refs + 1 && x'.mode == mode
    && (x.refs > 0 ==> x'.slot == x.slot && (mode != Write ==> x'.entry == x.entry))
    && x'.entry.Some? && !FileSystem.IsRefused(x'.entry.value.perm, mode)
    && x'.entry.value.perm == (if HasName(d, lay, fname) then EntryOf(d, x'.slot).perm else 6)
    && x'.offset == (match mode case Append => x'.entry.value.size case Write => 0
                     case Read => if x.refs > 0 then x.offset else 0)
    && if HasName(d, lay, fname) then IsLiveSlot(d, lay, x'.slot) && NameOf(d, x'.slot) == fname
       else IsFirstReusable(d, lay, x'.slot)
  }

  /** No entry of the table is left for one more open file. */
  ghost predicate IsFull(fds: seq<FdEntry>)
  {
    forall f :: 3 <= f < |fds| ==> IsOpen(fds, f)
  }

  /** What an open returns: 0 stands for the number of an open file. */
  ghost function OpenCodeOf(d: Disk, lay: Layout, fds: seq<FdEntry>, fname: CString, mode: Mode): (r: int)
    ensures r <= 0
  {
    if !IsValidFilename(fname) then EK_OPEN_INVALID_FILENAME
    else if mode != Read && exists g :: IsOpenFile(d, lay, fds, fname, g) && fds[g].mode != Read
    then EK_OPEN_ALREADY_WRITE_LOCKED
    else if IsFull(fds) && !(exists g :: IsOpenFile(d, lay, fds, fname, g)) then EK_OPEN_GLOBAL_FD_TABLE_FULL
    else if HasName(d, lay, fname) then
      if FileSystem.IsRefused(EntryOf(d, SlotNamed(d, lay, fname)).perm, mode) then EK_OPEN_WRONG_PERMISSIONS else 0
    else if mode == Read then EK_OPEN_FILE_DOES_NOT_EXIST
    else if HasNoPlace(d, lay) then EK_OPEN_WRITE_NEW_ROOT_DIR_ENTRY_FAILED
    else 0
  }

  /** What a move returns when opening its source has returned `code`; 0 stands for an open file again. */
  function MoveResult(code: int): int
  {
    if code == 0 then 0 else if code == EK_OPEN_FILE_DOES_NOT_EXIST then EK_MV_FILE_NOT_FOUND else EK_MV_OPEN_FAILED
  }

  lemma MoveResultIs(code: int)
    ensures MoveResult(code) == match code case 0 => 0 case -22 => -70 case _ => -74
  {
  }

  /** The free blocks once a name has been unlinked: those of its file are among them unless the file is open. */
  ghost function FreeBlocksWithout(d: Disk, lay: Layout, fds: seq<FdEntry>, n: CString): set<nat>
  {
    if HasName(d, lay, n) && !IsOpenSlot(fds, SlotNamed(d, lay, n))
    then FreeBlocks(d.fat) + Elements(ChainOf(lay, SlotNamed(d, lay, n)))
    else FreeBlocks(d.fat)
  }

  /** Unlinking a name leaves what an open of another one returns. */
  lemma CodeAfterUnlink(d: Disk, lay: Layout, fds: seq<FdEntry>, d': Disk, lay': Layout, fds': seq<FdEntry>,
                        src: CString, dest: CString)
    requires TableOk(d, lay, fds) && TableOk(d', lay', fds') && IsValidFilename(dest)
    requires Files(d', lay') == Files(d, lay) - {dest} && Perms(d', lay') == Perms(d, lay) - {dest}
    requires forall g :: IsOpen(fds, g) ==> fds[g].entry.Some?
    requires forall g :: 0 <= g < |fds| ==>
               fds'[g] == if IsOpenNamed(fds, dest, g) then Unlinked(fds[g]) else fds[g]
    ensures OpenCodeOf(d', lay', fds', src, Read) ==
            if src == dest then if IsFull(fds) then EK_OPEN_GLOBAL_FD_TABLE_FULL else EK_OPEN_FILE_DOES_NOT_EXIST
            else OpenCodeOf(d, lay, fds, src, Read)
  {
    hide EntryOf, HasNoPlace, Files, FileBytes, Perms, HasName, IsValidFilename, IsOpenFile, NameOf;
    FileExists(d, lay, src);
    FileExists(d', lay', src);
    PermExists(d, lay, src);
    PermExists(d', lay', src);
    OpenNamedIff(d, lay, fds, src);
    OpenNamedIff(d', lay', fds', src);
    OpenNamedExists(d', lay', fds', src);
    OpenEntries(d, lay, fds);
    OpenEntries(d', lay', fds');
    hide TableOk;
    assert forall g :: IsOpen(fds', g) <==> IsOpen(fds, g);
    assert IsFull(fds') <==> IsFull(fds);
    if src == dest {
      assert forall g :: !IsOpenFile(d', lay', fds', src, g);
    } else {
      assert forall g :: IsOpenNamed(fds', src, g) <==> IsOpenNamed(fds, src, g);
      assert forall g :: IsOpenFile(d', lay', fds', src, g) <==> IsOpenFile(d, lay, fds, src, g);
    }
  }

  /** The blocks of a file can be counted with 16 bits. */
  lemma SizeInRange(d: Disk, lay: Layout, s: Slot)
    requires VolumeOk(d, lay) && IsSlot(d, lay, s) && IsOwning(EntryOf(d, s))
    ensures d.bs > 0 && BlocksFor(EntryOf(d, s).size, d.bs) <= 0xFFFE
  {
    hide EntryOf, FatOk, EndMarked, NamesOk, BlocksFor;
    assert Linked(lay, s, EntryOf(d, s), d.bs);
    if s in lay.chains {
      ChainLength(d.fat, lay, s);
    }
  }

  class FileSystem {
    const bs: nat
    const fat: array<U16>
    const data: array<seq<Byte>>
    const fds: array<FdEntry>
    ghost var lay: Layout

    ghost function D(): Disk
      reads this, fat, data
    {
      Disk(bs, fat[..], data[..])
    }

    /** The volume and the table of open files are consistent. */
    ghost predicate Valid()
      reads this, fat, data, fds
    {
      bs > 0 && VolumeOk(D(), lay) && TableOk(D(), lay, fds[..])
    }

    /** Some layout makes them so. */
    ghost predicate IsConsistent()
      reads this, fat, data, fds
    {
      exists l :: VolumeOk(D(), l) && TableOk(D(), l, fds[..])
    }

    /** What a reader of an open file sees. */
    ghost function OpenBytes(f: int): seq<Byte>
      requires 0 <= f < fds.Length
      reads this, fat, data, fds
    {
      FileBytes(D(), lay, fds[f].slot)
    }

    /** Every file that was open is still open, in the same place and with the same bytes. */
    twostate predicate OpenFilesKept()
      reads this, fat, data, fds
    {
      forall g :: old(IsOpen(fds[..], g)) ==>
        IsOpen(fds[..], g) && fds[g].slot == old(fds[g].slot) && OpenBytes(g) == old(OpenBytes(g))
    }

    /** The same files are open, in the same places, and none has changed; offsets and modes may have. */
    twostate predicate SameFiles()
      reads this, fat, data, fds
    {
      && D() == old(D()) && lay == old(lay)
      && forall g :: 0 <= g < fds.Length ==> fds[g] == old(fds[g]).(offset := fds[g].offset, mode := fds[g].mode)
    }

    // ---- blocks ----

    /** The least free block; 0 if there is none; or the scan has run past the table. */
    method FirstEmptyBlock() returns (b: nat, overrun: bool)
      requires fat.Length >= 1
      ensures b < fat.Length && b < END_OF_FILE
      ensures b != 0 ==> !overrun && b in FreeBlocks(fat[..]) && forall x :: 1 <= x < b ==> fat[x] != 0
      ensures b == 0 ==> FreeBlocks(fat[..]) == {}
      ensures overrun <==> FreeBlocks(fat[..]) == {} && !ScanStaysInside(fat.Length)
    {
      var bound := if 2 * fat.Length == 65536 then fat.Length else 65535;
      var i := 1;
      while i < bound
        invariant 1 <= i <= bound
        invariant i <= fat.Length
        invariant forall x :: 1 <= x < i ==> fat[x] != 0
      {
        if i == fat.Length {
          return 0, true;
        }
        if fat[i] == 0 {
          return i, false;
        }
        i := i + 1;
      }
      return 0, false;
    }

    /** `clear_fat_file`: zeroes the table entries of a chain. */
    method ClearChain(first: nat, ghost c: seq<nat>)
      requires IsChain(fat[..], c) && c[0] == first
      modifies fat
      ensures fat[..] == Cleared(old(fat[..]), c)
    {
      ghost var before := fat[..];
      ghost var i := 0;
      var block := first;
      while block != END_OF_FILE
        invariant 0 <= i <= |c|
        invariant block == if i < |c| then c[i] else END_OF_FILE
        invariant forall x :: 0 <= x < fat.Length ==> fat[x] == if x in c[..i] then 0 else before[x]
        decreases |c| - i
      {
        assert IsBlock(before, c[i]) && c[i] !in c[..i];
        var next := fat[block];
        fat[block] := 0;
        block := next;
        assert c[..i + 1] == c[..i] + [c[i]];
        i := i + 1;
      }
      assert c[..|c|] == c;
    }

    /** Frees the blocks of the file in slot `s`. */
    method ClearFatFile(first: nat, ghost s: Slot)
      requires FatOk(fat[..], lay) && s in lay.chains && lay.chains[s][0] == first
      modifies fat, `lay
      ensures fat[..] == Cleared(old(fat[..]), old(lay).chains[s])
      ensures lay == WithoutFile(old(lay), s) && FatOk(fat[..], lay)
      ensures FreeBlocks(fat[..]) == FreeBlocks(old(fat[..])) + Elements(old(lay).chains[s])
    {
      ClearedOk(fat[..], lay, s);
      ClearChain(first, lay.chains[s]);
      lay := WithoutFile(lay, s);
    }

    // ---- the directory ----

    /** Finds a name exactly when the directory has it, and its one slot then. */
    method FindFileInRootDir(fname: CString) returns (found: bool, e: Entry, s: Slot)
      requires VolumeOk(D(), lay) && IsValidFilename(fname)
      ensures found ==> IsLiveSlot(D(), lay, s) && NameOf(D(), s) == fname && e == EntryOf(D(), s)
      ensures !found ==> !HasName(D(), lay, fname)
    {
      ghost var d := D();
      assert lay.root[0] == 1;
      hide VolumeOk, EntryOf, HasName, NotAmong;
      var block := 1;
      ghost var j := 0;
      assert NotAmong(d, lay, fname, 0, 0) by { NoneSeen(d, lay, fname); }
      while true
        invariant 0 <= j < |lay.root| && block == lay.root[j]
        invariant NotAmong(d, lay, fname, j, 0)
        decreases |lay.root| - j
      {
        var i := 0;
        while i < bs / 64
          invariant 0 <= i <= bs / 64
          invariant NotAmong(d, lay, fname, j, i)
          invariant forall k :: 0 <= k < i ==> !IsEndMarker(d, Slot(block, k))
        {
          SlotRead(d, lay, j, i);
          s := Slot(block, i);
          e := EntryAt(data[block], i);
          if e.name[0] == END_OF_DIRECTORY {
            NotFound(d, lay, fname, j, i);
            return false, e, s;
          }
          if StringOf(e.name) == fname {
            ValidNamesAreLive(e, fname);
            return true, e, s;
          }
          NotAmongNext(d, lay, fname, j, i);
          i := i + 1;
        }
        NextRootBlock(d, lay, j);
        NotAmongNext(d, lay, fname, j, i);
        block := fat[block];
        j := j + 1;
      }
    }

    /** The first place that shows no name, be it deleted, deleted but open, or the end marker. */
    method FindEmptySpotInRootDir() returns (s: Slot, isEnd: bool)
      requires VolumeOk(D(), lay)
      ensures IsFirstReusable(D(), lay, s)
      ensures isEnd <==> IsEndMarker(D(), s)
      ensures isEnd ==> s == EndSlot(lay)
    {
      ghost var d := D();
      assert lay.root[0] == 1;
      hide VolumeOk, EntryOf, AllLive, IsFirstReusable;
      var block := 1;
      ghost var j := 0;
      NoneSeen(d, lay, []);
      while true
        invariant 0 <= j < |lay.root| && block == lay.root[j]
        invariant AllLive(d, lay, j, 0)
        decreases |lay.root| - j
      {
        var i := 0;
        while i < bs / 64
          invariant 0 <= i <= bs / 64
          invariant AllLive(d, lay, j, i)
          invariant forall k :: 0 <= k < i ==> !IsEndMarker(d, Slot(block, k))
        {
          SlotRead(d, lay, j, i);
          var e := EntryAt(data[block], i);
          if e.name[0] <= 2 {
            FoundReusable(d, lay, j, i);
            return Slot(block, i), e.name[0] == END_OF_DIRECTORY;
          }
          AllLiveNext(d, lay, j, i);
          i := i + 1;
        }
        NextRootBlock(d, lay, j);
        AllLiveNext(d, lay, j, i);
        block := fat[block];
        j := j + 1;
      }
    }

    /** `write_root_dir_entry` */
    method WriteRootDirEntry(e: Entry, s: Slot)
      requires s.block < data.Length && 64 * s.idx + 64 <= |data[s.block]|
      modifies data
      ensures D() == WithEntry(old(D()), s, e)
    {
      data[s.block] := PutEntry(data[s.block], s.idx, e);
    }

    /**
     Stores a new entry in the first place that shows no name, moving the end marker or
     adding a root block if that place is the end marker.
     */
    method WriteNewRootDirEntry(e: Entry) returns (ok: bool, overrun: bool, s: Slot)
      requires VolumeOk(D(), lay) && Mark(e) != END_OF_DIRECTORY
      modifies fat, data, `lay
      ensures ok ==> !overrun && IsFirstReusable(old(D()), old(lay), s)
      ensures ok ==> ChangesOnly(old(D()), old(lay), D(), lay, s, e) && lay.chains == old(lay).chains
      ensures ok ==> |FreeBlocks(fat[..])| + |lay.root| == old(|FreeBlocks(fat[..])| + |lay.root|)
      ensures ok ==> |lay.root| == old(|lay.root|) + if old(IsFullDirectory(D(), lay)) then 1 else 0
      ensures !ok <==> old(HasNoPlace(D(), lay))
      ensures !ok ==> D() == old(D()) && lay == old(lay) && (overrun <==> !ScanStaysInside(fat.Length))
    {
      hide DiskOk, FatOk, EndMarked, NamesOk, FilesOk, ChangesOnly, FreeBlocks, EntryOf, IsFirstReusable, IsEndMarker,
        IsSlot, IsFullDirectory;
      ghost var d, l := D(), lay;
      var isEnd;
      s, isEnd := FindEmptySpotInRootDir();
      ReusableInRange(d, l, s);
      FullIff(d, l, s);
      if isEnd && s.idx != bs / 64 - 1 {
        AppendedInBlock(d, l, e);
        WriteRootDirEntry(BLANK, Slot(s.block, s.idx + 1));
        lay := lay.(end := lay.end + 1);
        WriteRootDirEntry(e, s);
      } else if isEnd {
        var empty;
        empty, overrun := FirstEmptyBlock();
        if empty == 0 {
          return false, overrun, s;
        }
        AppendedWithNewBlock(d, l, empty, e);
        GrownSpace(d, l, empty, e);
        data[empty] := Zeros(bs);
        fat[s.block] := empty;
        fat[empty] := END_OF_FILE;
        lay := WithNextRootBlock(lay, empty);
        assert D() == GrownDisk(d, l, empty);
        WriteRootDirEntry(e, s);
      } else {
        KeptStoredChange(d, l, s, e);
        WriteRootDirEntry(e, s);
      }
      return true, false, s;
    }

    // ---- the table of open files ----

    /** The table is an index of the open files: it finds an open name exactly if there is one. */
    method FindFileInGlobalFdTable(fname: CString) returns (found: bool, f: nat)
      requires fds.Length == GLOBAL_FD_TABLE_SIZE && forall g :: IsOpen(fds[..], g) ==> fds[g].entry.Some?
      ensures found ==> IsOpen(fds[..], f) && IsLive(fds[f].entry.value) && IsNamed(fds[f].entry.value, fname)
      ensures !found ==>
                forall g :: IsOpen(fds[..], g) && IsLive(fds[g].entry.value) ==> !IsNamed(fds[g].entry.value, fname)
    {
      f := 3;
      while f < GLOBAL_FD_TABLE_SIZE
        invariant 3 <= f <= GLOBAL_FD_TABLE_SIZE
        invariant forall g :: IsOpen(fds[..], g) && g < f && IsLive(fds[g].entry.value) ==>
                    !IsNamed(fds[g].entry.value, fname)
      {
        if fds[f].refs > 0 {
          assert IsOpen(fds[..], f);
          if fds[f].entry.value.name[0] >= 3 && StringOf(fds[f].entry.value.name) == fname {
            return true, f;
          }
        }
        f := f + 1;
      }
      return false, f;
    }

    /** The least unused index from 3 on, or the size of the table. */
    method FindEmptyFd() returns (f: nat)
      requires fds.Length == GLOBAL_FD_TABLE_SIZE
      ensures 3 <= f <= GLOBAL_FD_TABLE_SIZE
      ensures f < GLOBAL_FD_TABLE_SIZE ==> fds[f].refs == 0
      ensures forall g :: 3 <= g < f ==> fds[g].refs > 0
    {
      f := 3;
      while f < GLOBAL_FD_TABLE_SIZE && fds[f].refs > 0
        invariant 3 <= f <= GLOBAL_FD_TABLE_SIZE
        invariant forall g :: 3 <= g < f ==> fds[g].refs > 0
      {
        f := f + 1;
      }
    }

    /** Clears the chain of a file that has one. */
    method ReleaseBlocks(first: nat, ghost s: Slot)
      requires FatOk(fat[..], lay) && (first != 0 <==> s in lay.chains) && (first != 0 ==> lay.chains[s][0] == first)
      modifies fat, `lay
      ensures D() == ReleasedDisk(old(D()), old(lay), s) && lay == ReleasedLayout(old(lay), s)
    {
      assert Cleared(fat[..], []) == fat[..];
      if first != 0 {
        ClearFatFile(first, s);
      }
    }

    // ---- k_open ----

    /** Whether the permission bits refuse this way of opening. */
    static predicate IsRefused(perm: Byte, mode: Mode)
    {
      perm == 0 || (perm == 2 && mode == Read) || ((perm == 4 || perm == 5) && mode != Read)
    }

    /**
     The second half of `k_open`: permission, reference count, truncation, offset. `whole`
     says that the volume is consistent; it is not when the new entry took an open slot.
     */
    method FinishOpen(f: nat, mode: Mode, now: U64, ghost whole: bool) returns (ok: bool)
      requires 3 <= f < fds.Length && fds[f].entry.Some?
      requires !whole ==> fds[f].entry.value.size == 0
      requires whole ==> VolumeOk(D(), lay) && TableOk(D(), lay, fds[..])
      requires whole ==> IsLiveSlot(D(), lay, fds[f].slot) && fds[f].entry == Some(EntryOf(D(), fds[f].slot))
      requires whole ==> forall g :: IsOpen(fds[..], g) && fds[g].slot == fds[f].slot ==> g == f
      modifies fat, data, fds, `lay
      ensures ok <==> !IsRefused(old(fds[f].entry.value.perm), mode)
      ensures !ok ==> fds[..] == old(fds[..])
      ensures ok ==> fds[..] == old(fds[..])[f := fds[f]] && IsOpen(fds[..], f)
      ensures ok ==> fds[f].refs == old(fds[f].refs) + 1 && fds[f].slot == old(fds[f].slot) && fds[f].mode == mode
      ensures ok ==> fds[f].entry.Some? && fds[f].entry.value.perm == old(fds[f].entry.value.perm)
      ensures mode != Write ==> fds[f].entry == old(fds[f].entry)
      ensures ok ==>
                fds[f].offset ==
                  match mode case Append => old(fds[f].entry.value.size) case Write => 0 case Read => old(fds[f].offset)
      ensures !ok || mode != Write || !whole ==> D() == old(D()) && lay == old(lay)
      ensures whole ==> Valid() && OthersKept(old(D()), old(lay), D(), lay, fds[f].slot) && lay.root == old(lay.root)
      ensures whole && ok ==>
                IsLiveSlot(D(), lay, fds[f].slot) && NameOf(D(), fds[f].slot) == old(NameOf(D(), fds[f].slot))
      ensures whole && ok && mode == Write ==> FileBytes(D(), lay, fds[f].slot) == [] && ChainOf(lay, fds[f].slot) == []
      ensures whole && ok && mode == Write ==>
                FreeBlocks(fat[..]) == old(FreeBlocks(fat[..])) + Elements(old(ChainOf(lay, fds[f].slot)))
      ensures whole && ok && mode == Write ==> Files(D(), lay) == old(Files(D(), lay))[NameOf(D(), fds[f].slot) := []]
    {
      hide VolumeOk, TableOk, EntryOf, Files, FileBytes, IsEndMarker, FreeBlocks;
      ghost var d, l, t := D(), lay, fds[..];
      ghost var s := fds[f].slot;
      var e: Entry := fds[f].entry.value;
      if whole {
        SlotLinked(d, l, s);
      }
      if IsRefused(e.perm, mode) {
        return false;
      }
      var x := fds[f].(refs := fds[f].refs + 1, mode := mode,
                       offset := match mode case Append => e.size case Write => 0 case Read => fds[f].offset);
      if mode == Write && e.size > 0 {
        e := e.(size := 0, mtime := now, firstBlock := 0);
        x := x.(entry := Some(e));
        Truncated(d, l, t, f, x, s, e);
        assert FatOk(fat[..], lay) by { LayoutOf(d, l); }
        ReleaseBlocks(fds[f].entry.value.firstBlock, s);
        WriteRootDirEntry(e, x.slot);
      } else if whole {
        ReopenedTableOk(d, l, t, f, x);
        if mode == Write {
          EmptyFile(d, l, s);
        }
      }
      fds[f] := x;
      assert fds[..] == t[f := x];
      return true;
    }

    /**
     The first half of `k_open` for a name that is not open: the table entry `f` is filled
     from the directory, or from a new directory entry.
     */
    method EnterInTable(f: nat, fname: CString, mode: Mode, now: U64) returns (r: int, overrun: bool, ghost whole: bool)
      requires Valid() && 3 <= f < fds.Length && fds[f].refs == 0 && IsValidFilename(fname)
      requires forall g :: IsOpen(fds[..], g) && fds[g].entry.Some? && IsLive(fds[g].entry.value) ==>
                 !IsNamed(fds[g].entry.value, fname)
      modifies fat, data, fds, `lay
      ensures r == 0 || r == EK_OPEN_FILE_DOES_NOT_EXIST || r == EK_OPEN_WRITE_NEW_ROOT_DIR_ENTRY_FAILED
      ensures r < 0 ==> D() == old(D()) && lay == old(lay) && fds[..] == old(fds[..])
      ensures r == EK_OPEN_FILE_DOES_NOT_EXIST <==> mode == Read && !old(HasName(D(), lay, fname))
      ensures r == EK_OPEN_WRITE_NEW_ROOT_DIR_ENTRY_FAILED <==>
                mode != Read && !old(HasName(D(), lay, fname)) && old(HasNoPlace(D(), lay))
      ensures overrun <==> r == EK_OPEN_WRITE_NEW_ROOT_DIR_ENTRY_FAILED && !ScanStaysInside(fat.Length)
      ensures r == 0 ==>
                fds[..] == old(fds[..])[f := fds[f]] && fds[f].refs == 0 && fds[f].entry.Some? && fds[f].offset == 0
      ensures r == 0 ==> (whole <==> old(HasName(D(), lay, fname)) || !old(WouldReuseOpenSlot(D(), lay)))
      ensures r == 0 && whole ==> Valid() && OthersKept(old(D()), old(lay), D(), lay, fds[f].slot)
      ensures r == 0 && whole ==> IsLiveSlot(D(), lay, fds[f].slot) && fds[f].entry == Some(EntryOf(D(), fds[f].slot))
      ensures r == 0 && whole ==> NameOf(D(), fds[f].slot) == fname && !IsOpenSlot(fds[..], fds[f].slot)
      ensures r == 0 && old(HasName(D(), lay, fname)) ==> D() == old(D()) && lay == old(lay)
      ensures r == 0 && whole && !old(HasName(D(), lay, fname)) ==>
                Files(D(), lay) == old(Files(D(), lay))[fname := []]
      ensures r == 0 && !old(HasName(D(), lay, fname)) ==> fds[f].entry.value.size == 0 && fds[f].entry.value.perm == 6
      ensures r == 0 ==> |FreeBlocks(fat[..])| + |lay.root| == old(|FreeBlocks(fat[..])| + |lay.root|)
      ensures r == 0 && !old(HasName(D(), lay, fname)) ==>
                |lay.root| == old(|lay.root|) + if old(IsFullDirectory(D(), lay)) then 1 else 0
      ensures r == 0 && !old(HasName(D(), lay, fname)) ==> IsFirstReusable(old(D()), old(lay), fds[f].slot)
      ensures r == 0 && !old(HasName(D(), lay, fname)) ==> fds[f].slot !in lay.chains || !whole
      ensures r == 0 && !whole ==>
                fds[f].entry == Some(NewEntry(fname, now)) && EntryOf(D(), fds[f].slot) == fds[f].entry.value
      ensures r == 0 && !whole ==>
                IsSlot(old(D()), old(lay), fds[f].slot) && Mark(EntryOf(old(D()), fds[f].slot)) == DELETED_BUT_OPEN
    {
      hide VolumeOk, TableOk, EntryOf, Files, FileBytes, IsEndMarker, FreeBlocks, HasName, OthersKept, IsFirstReusable,
        IsOpenSlot, IsFullDirectory;
      ghost var d, l, t := D(), lay, fds[..];
      whole := true;
      var found, e, s := FindFileInRootDir(fname);
      if found {
        NamedHere(d, l, s, fname);
        NotOpenByName(d, l, t, s, fname);
        OthersKeptRefl(d, l, s);
      } else {
        if mode == Read {
          return EK_OPEN_FILE_DOES_NOT_EXIST, false, true;
        }
        e := NewEntry(fname, now);
        var ok;
        ok, overrun, s := WriteNewRootDirEntry(e);
        if !ok {
          return EK_OPEN_WRITE_NEW_ROOT_DIR_ENTRY_FAILED, overrun, true;
        }
        whole := !WouldReuseOpenSlot(d, l);
        FirstReusableMark(d, l, s);
        if whole {
          Created(d, l, t, D(), lay, f, FdEntry(0, Some(e), s, mode, 0), s, fname, now);
        }
      }
      if found {
        UnusedTableOk(d, l, t, f, FdEntry(0, Some(e), s, mode, 0));
      }
      fds[f] := FdEntry(0, Some(e), s, mode, 0);
      assert fds[..] == t[f := fds[f]];
      return 0, false, whole;
    }

    /** The call creates a file: the name is valid, unknown, and there is room in the table. */
    ghost predicate MakesNewFile(fname: CString, mode: Mode)
      reads this, fat, data, fds
    {
      IsValidFilename(fname) && mode != Read && !HasName(D(), lay, fname) && !IsTableFull()
    }

    ghost predicate IsTableFull()
      reads this, fds
    {
      IsFull(fds[..])
    }

    /** The file of this name is open, as number `g`. */
    ghost predicate IsOpenAs(fname: CString, g: int)
      reads this, fat, data, fds
    {
      IsOpenFile(D(), lay, fds[..], fname, g)
    }

    /** What an open returns: 0 stands for the number of an open file. */
    ghost function OpenCode(fname: CString, mode: Mode): (r: int)
      reads this, fat, data, fds
      ensures r <= 0
    {
      OpenCodeOf(D(), lay, fds[..], fname, mode)
    }

    /** The open files are the same ones, with the same entries. */
    twostate predicate SameOpenFiles()
      reads fds
    {
      forall g :: (IsOpen(fds[..], g) <==> old(IsOpen(fds[..], g))) && (IsOpen(fds[..], g) ==> fds[g] == old(fds[g]))
    }

    /** What a successful open does to the table: its entry `f`, which may have been in use for this file before. */
    twostate predicate IsOpened(fname: CString, mode: Mode, f: int)
      requires 3 <= f < fds.Length
      reads this, fat, data, fds
    {
      IsTableOpened(old(D()), old(lay), old(fds[..]), fds[..], fname, mode, f)
    }

    /** Opening a file that is open already, and may be opened in this mode. */
    method OpenAgain(f: nat, fname: CString, mode: Mode, now: U64) returns (r: int)
      requires Valid() && IsOpenAs(fname, f) && IsValidFilename(fname) && (mode == Read || fds[f].mode == Read)
      modifies fat, data, fds, `lay
      ensures Valid() && r == if old(OpenCode(fname, mode)) == 0 then f else old(OpenCode(fname, mode))
      ensures r == f || r == EK_OPEN_WRONG_PERMISSIONS
      ensures r < 0 ==> D() == old(D()) && lay == old(lay) && SameOpenFiles()
      ensures r >= 0 ==>
                f < fds.Length && IsOpened(fname, mode, f) &&
                  IsDirectoryOpened(old(D()), old(lay), D(), lay, fname, mode, fds[f].slot)
    {
      hide VolumeOk, TableOk, EntryOf, Files, FileBytes, IsEndMarker, FreeBlocks, HasName, OthersKept, ChangesOnly,
        IsFirstReusable, IsFullDirectory, IsValidFilename, IsLiveSlot, IsSlot, NameOf, ChainOf, Elements,
        IsDirectoryOpened;
      OpenEntries(D(), lay, fds[..]);
      OpenFileUnique(D(), lay, fds[..], fname, f);
      OpenFile(D(), lay, fds[..], f);
      ghost var d, l := D(), lay;
      OthersKeptRefl(d, l, fds[f].slot);
      var ok := FinishOpen(f, mode, now, true);
      if !ok {
        return EK_OPEN_WRONG_PERMISSIONS;
      }
      OpenedInTwo(d, l, d, l, D(), lay, fname, mode, fds[f].slot);
      return f;
    }

    lemma InvalidCode(fname: CString, mode: Mode)
      requires !IsValidFilename(fname)
      ensures OpenCode(fname, mode) == EK_OPEN_INVALID_FILENAME
    {
    }

    lemma MissingCode(fname: CString, mode: Mode)
      ensures OpenCode(fname, mode) == EK_OPEN_FILE_DOES_NOT_EXIST ==> !HasName(D(), lay, fname)
      ensures OpenCode(fname, mode) == 0 && mode == Read ==> HasName(D(), lay, fname)
    {
      hide IsValidFilename, HasName, EntryOf, HasNoPlace;
    }

    lemma LockedCode(fname: CString, mode: Mode, g: int)
      requires IsValidFilename(fname) && mode != Read && IsOpenAs(fname, g) && fds[g].mode != Read
      ensures OpenCode(fname, mode) == EK_OPEN_ALREADY_WRITE_LOCKED
    {
      hide IsValidFilename;
      assert fds[..][g] == fds[g];
    }

    lemma FullCode(fname: CString, mode: Mode)
      requires IsValidFilename(fname) && IsTableFull() && forall g :: !IsOpenFile(D(), lay, fds[..], fname, g)
      ensures OpenCode(fname, mode) == EK_OPEN_GLOBAL_FD_TABLE_FULL
    {
      hide EntryOf, HasName, IsValidFilename, IsOpenFile, HasNoPlace;
    }

    lemma FreshCode(fname: CString, mode: Mode)
      requires Valid() && IsValidFilename(fname) && !IsTableFull() &&
               forall g :: !IsOpenFile(D(), lay, fds[..], fname, g)
      ensures OpenCode(fname, mode) ==
              if HasName(D(), lay, fname) then
                if IsRefused(EntryOf(D(), SlotNamed(D(), lay, fname)).perm, mode) then EK_OPEN_WRONG_PERMISSIONS else 0
              else if mode == Read then EK_OPEN_FILE_DOES_NOT_EXIST
              else if HasNoPlace(D(), lay) then EK_OPEN_WRITE_NEW_ROOT_DIR_ENTRY_FAILED
              else 0
    {
      hide VolumeOk, TableOk, EntryOf, HasName, IsValidFilename, IsOpenFile, HasNoPlace;
    }

    /** A place that is taken from a deleted open file is one that there is. */
    lemma ReuseCode(fname: CString, mode: Mode)
      requires Valid() && MakesNewFile(fname, mode) && WouldReuseOpenSlot(D(), lay)
      requires forall g :: !IsOpenFile(D(), lay, fds[..], fname, g)
      ensures OpenCode(fname, mode) == 0
    {
      hide VolumeOk, TableOk, EntryOf, HasName, IsValidFilename, IsOpenFile, IsFirstReusable, OpenCode,
        IsFullDirectory;
      FreshCode(fname, mode);
      var s :| IsFirstReusable(D(), lay, s) && Mark(EntryOf(D(), s)) == DELETED_BUT_OPEN;
      FullIff(D(), lay, s);
    }

    /** Opening a file that is not open; the table entry `f` is not in use. */
    method OpenFresh(f: nat, fname: CString, mode: Mode, now: U64) returns (r: int, overrun: bool)
      requires Valid() && 3 <= f < fds.Length && fds[f].refs == 0 && IsValidFilename(fname)
      requires forall g :: IsOpen(fds[..], g) && fds[g].entry.Some? && IsLive(fds[g].entry.value) ==>
                 !IsNamed(fds[g].entry.value, fname)
      modifies fat, data, fds, `lay
      ensures r == if old(OpenCode(fname, mode)) == 0 then f else old(OpenCode(fname, mode))
      ensures r == f || r < 0
      ensures mode == Read && !old(HasName(D(), lay, fname)) ==> r < 0
      ensures overrun <==> r == EK_OPEN_WRITE_NEW_ROOT_DIR_ENTRY_FAILED && !ScanStaysInside(fat.Length)
      ensures r < 0 ==> D() == old(D()) && lay == old(lay) && SameOpenFiles()
      ensures r >= 0 ==> IsOpened(fname, mode, f)
      ensures r < 0 || old(HasName(D(), lay, fname)) || !old(WouldReuseOpenSlot(D(), lay)) ==> Valid()
      ensures r >= 0 && Valid() ==> IsDirectoryOpened(old(D()), old(lay), D(), lay, fname, mode, fds[f].slot)
      ensures r >= 0 && !old(HasName(D(), lay, fname)) && old(WouldReuseOpenSlot(D(), lay)) ==> !IsConsistent()
    {
      hide VolumeOk, TableOk, EntryOf, Files, FileBytes, IsEndMarker, FreeBlocks, HasName, OthersKept, ChangesOnly,
        NewEntry, IsFirstReusable, IsFullDirectory, WouldReuseOpenSlot, IsValidFilename, IsLiveSlot, IsSlot, NameOf,
        ChainOf, Elements, IsOpenFile, HasNoPlace, OpenCode, IsDirectoryOpened;
      ghost var d, l, t := D(), lay, fds[..];
      NoneOpenByName(d, l, t, fname);
      assert !IsOpen(t, f);
      FreshCode(fname, mode);
      ghost var whole;
      r, overrun, whole := EnterInTable(f, fname, mode, now);
      if r < 0 {
        return;
      }
      if HasName(d, l, fname) {
        NameIsHere(d, l, fds[f].slot, fname);
      }
      ghost var d1, l1 := D(), lay;
      var ok := FinishOpen(f, mode, now, whole);
      if !ok {
        return EK_OPEN_WRONG_PERMISSIONS, false;
      }
      if whole {
        OpenedInTwo(d, l, d1, l1, D(), lay, fname, mode, fds[f].slot);
      } else {
        OverwrittenIsIncoherent(d, l, t, D(), fds[..], fds[f].slot);
      }
      return f, false;
    }

    method KOpen(fname: CString, mode: Mode, now: U64) returns (r: int, overrun: bool)
      requires Valid()
      modifies fat, data, fds, `lay
      // what is returned: an error, the number of the file if it is open, or the least number that is not in use
      ensures if old(OpenCode(fname, mode)) == 0 then 3 <= r < fds.Length else r == old(OpenCode(fname, mode))
      ensures overrun <==> r == EK_OPEN_WRITE_NEW_ROOT_DIR_ENTRY_FAILED && !ScanStaysInside(fat.Length)
      ensures r >= 0 ==> forall g :: old(IsOpenAs(fname, g)) ==> r == g
      ensures r >= 0 && !old(IsOpenAs(fname, r)) ==>
                old(fds[r].refs) == 0 && forall g :: 3 <= g < r ==> old(fds[g].refs) > 0
      // the invariant, and exactly when a call breaks it
      ensures if old(MakesNewFile(fname, mode)) && old(WouldReuseOpenSlot(D(), lay)) then !IsConsistent() else Valid()
      // the new state
      ensures r < 0 ==> D() == old(D()) && lay == old(lay) && SameOpenFiles()
      ensures r >= 0 ==> IsOpened(fname, mode, r)
      ensures r >= 0 && Valid() ==> IsDirectoryOpened(old(D()), old(lay), D(), lay, fname, mode, fds[r].slot)
    {
      hide VolumeOk, TableOk, EntryOf, Files, FileBytes, FreeBlocks, HasName, OthersKept, IsDirectoryOpened, OpenCode,
        IsFirstReusable, IsFullDirectory, WouldReuseOpenSlot, IsValidFilename, IsLiveSlot, IsSlot, NameOf, ChainOf,
        Elements, IsOpenFile;
      ghost var d, l, t := D(), lay, fds[..];
      if !IsValidFilename(fname) {
        InvalidCode(fname, mode);
        return EK_OPEN_INVALID_FILENAME, false;
      }
      OpenEntries(d, l, t);
      var found, f := FindFileInGlobalFdTable(fname);
      if found {
        OpenByName(d, l, t, f, fname);
        OpenFileUnique(d, l, t, fname, f);
        if fds[f].mode != Read && mode != Read {
          LockedCode(fname, mode, f);
          return EK_OPEN_ALREADY_WRITE_LOCKED, false;
        }
        r := OpenAgain(f, fname, mode, now);
        return r, false;
      }
      NoneOpenByName(d, l, t, fname);
      if MakesNewFile(fname, mode) && WouldReuseOpenSlot(d, l) {
        ReuseCode(fname, mode);
      }
      f := FindEmptyFd();
      if f == GLOBAL_FD_TABLE_SIZE {
        FullCode(fname, mode);
        return EK_OPEN_GLOBAL_FD_TABLE_FULL, false;
      }
      r, overrun := OpenFresh(f, fname, mode, now);
    }

    // ---- k_close ----

    /** This close is the last one of a file that has been deleted meanwhile. */
    ghost predicate IsLastCloseOfDeleted(fd: int)
      reads fds
    {
      IsOpen(fds[..], fd) && fds[fd].refs == 1 && fds[fd].entry.Some? && Mark(fds[fd].entry.value) == DELETED_BUT_OPEN
    }

    /** Closing; `crash` is the dereference of a null entry, when there is nothing to close. */
    method KClose(fd: int) returns (r: int, crash: bool)
      requires Valid()
      modifies fat, data, fds, `lay
      ensures r == if fd < 0 || fd >= fds.Length then EK_CLOSE_FD_OUT_OF_RANGE
                   else if fd < 3 then EK_CLOSE_SPECIAL_FD else 0
      ensures crash <==> 3 <= fd < fds.Length && old(fds[fd].refs) == 0 && old(fds[fd].entry).None?
      ensures Valid() && Files(D(), lay) == old(Files(D(), lay)) && lay.root == old(lay.root)
      ensures forall g :: 0 <= g < fds.Length && g != fd ==> fds[g] == old(fds[g])
      ensures r == 0 ==> fds[fd].refs == if old(fds[fd].refs) == 0 then 0 else old(fds[fd].refs) - 1
      ensures old(IsOpen(fds[..], fd)) && old(fds[fd].refs) > 1 ==>
                fds[fd] == old(fds[fd]).(refs := old(fds[fd].refs) - 1)
      ensures r == 0 && !crash && old(fds[fd].refs) <= 1 ==>
                fds[fd] == old(fds[fd]).(refs := 0, entry := None, mode := Read)
      // the blocks of a deleted file are released at its last close, and only then
      ensures old(IsLastCloseOfDeleted(fd)) ==>
                && FreeBlocks(fat[..]) == old(FreeBlocks(fat[..])) + Elements(old(ChainOf(lay, fds[fd].slot)))
                && OthersKept(old(D()), old(lay), D(), lay, old(fds[fd].slot))
                && Mark(EntryOf(D(), old(fds[fd].slot))) == DELETED
      ensures !old(IsLastCloseOfDeleted(fd)) ==> D() == old(D()) && lay == old(lay)
    {
      hide VolumeOk, TableOk, EntryOf, Files, FilesAfter, FileBytes, IsEndMarker, FreeBlocks, OthersKept, ChangesOnly,
        Linked, EntryFits, IsSlot;
      ghost var d, l, t := D(), lay, fds[..];
      OpenEntries(d, l, t);
      if fd >= GLOBAL_FD_TABLE_SIZE || fd < 0 {
        return EK_CLOSE_FD_OUT_OF_RANGE, false;
      }
      if fd < 3 {
        return EK_CLOSE_SPECIAL_FD, false;
      }
      var x := fds[fd];
      if x.refs > 0 {
        OpenFile(d, l, t, fd);
        x := x.(refs := x.refs - 1);
      }
      if x.refs > 0 {
        SharedTableOk(d, l, t, fd, x);
      } else {
        if x.entry.None? {
          return 0, true;
        }
        IdleEntries(d, l, t, fd);
        var e: Entry := x.entry.value;
        x := x.(entry := None, mode := Read);
        if e.name[0] == DELETED_BUT_OPEN {
          var gone := Marked(e, DELETED).(firstBlock := 0);
          Deleted(d, l, x.slot, gone);
          OpenFileChanged(d, l, t, WithEntry(ReleasedDisk(d, l, x.slot), x.slot, gone), ReleasedLayout(l, x.slot), fd,
                          x, x.slot, gone);
          ghost var d', l' := WithEntry(ReleasedDisk(d, l, x.slot), x.slot, gone), ReleasedLayout(l, x.slot);
          NoNameChanged(d, l, x.slot, gone, FileBytes(d', l', x.slot));
          SlotLinked(d, l, x.slot);
          assert FatOk(fat[..], lay) by { LayoutOf(d, l); }
          assert e.firstBlock != 0 <==> x.slot in lay.chains by { LinkedBlocks(d, l, x.slot); }
          assert e.firstBlock != 0 ==> lay.chains[x.slot][0] == e.firstBlock by { LinkedBlocks(d, l, x.slot); }
          ReleaseBlocks(e.firstBlock, x.slot);
          WriteRootDirEntry(gone, x.slot);
        } else {
          IdleTableOk(d, l, t, fd, x);
        }
      }
      fds[fd] := x;
      assert fds[..] == t[fd := x];
      return 0, false;
    }

    // ---- k_unlink ----

    /** The slot of a name; of no interest if the directory does not have the name. */
    ghost function SlotFor(fname: CString): Slot
      reads this, fat, data
    {
      if HasName(D(), lay, fname) then SlotNamed(D(), lay, fname) else Slot(0, 0)
    }

    /** The name goes; the blocks go with it unless the file is open. */
    method KUnlink(fname: CString) returns (r: int)
      requires Valid()
      modifies fat, data, fds, `lay
      ensures r == if !IsValidFilename(fname) then EK_UNLINK_INVALID_FILENAME
                   else if !old(HasName(D(), lay, fname)) then EK_UNLINK_FILE_NOT_FOUND else 0
      ensures r != 0 ==> D() == old(D()) && lay == old(lay) && fds[..] == old(fds[..])
      ensures Valid() && Files(D(), lay) == if r == 0 then old(Files(D(), lay)) - {fname} else old(Files(D(), lay))
      ensures Perms(D(), lay) == if r == 0 then old(Perms(D(), lay)) - {fname} else old(Perms(D(), lay))
      ensures OpenFilesKept() && lay.root == old(lay.root)
      ensures r == 0 ==> OthersKept(old(D()), old(lay), D(), lay, old(SlotFor(fname)))
      // an open file stays readable: same blocks, same bytes, same reference count
      ensures r == 0 && old(IsOpenSlot(fds[..], SlotFor(fname))) ==>
                && lay == old(lay) && fat[..] == old(fat[..])
                && FileBytes(D(), lay, old(SlotFor(fname))) == old(FileBytes(D(), lay, SlotFor(fname)))
                && Mark(EntryOf(D(), old(SlotFor(fname)))) == DELETED_BUT_OPEN
      ensures r == 0 ==> forall g :: 0 <= g < fds.Length ==>
                fds[g] == if old(IsOpenNamed(fds[..], fname, g)) then Unlinked(old(fds[g])) else old(fds[g])
      ensures r == 0 && !old(IsOpenSlot(fds[..], SlotFor(fname))) ==>
                && fds[..] == old(fds[..])
                && FreeBlocks(fat[..]) == old(FreeBlocks(fat[..])) + Elements(old(ChainOf(lay, SlotFor(fname))))
                && Mark(EntryOf(D(), old(SlotFor(fname)))) == DELETED
    {
      hide VolumeOk, TableOk, EntryOf, Files, FilesAfter, FileBytes, IsEndMarker, FreeBlocks, OthersKept, ChangesOnly,
        Linked, EntryFits, IsSlot, HasName, IsValidFilename, Perms;
      ghost var d, l, t := D(), lay, fds[..];
      if !IsValidFilename(fname) {
        return EK_UNLINK_INVALID_FILENAME;
      }
      OpenEntries(d, l, t);
      var found, f := FindFileInGlobalFdTable(fname);
      if found {
        OpenByName(d, l, t, f, fname);
        OpenNamedUnique(d, l, t, fname, f);
        NameIsHere(d, l, fds[f].slot, fname);
        var e := Marked(fds[f].entry.value, DELETED_BUT_OPEN);
        var x := fds[f].(entry := Some(e));
        NamelessFits(d, l, x.slot, e);
        Rewritten(d, l, t, f, x, x.slot, e);
        NameDropped(d, l, x.slot, e, FileBytes(d, l, x.slot));
        fds[f] := x;
        assert fds[..] == t[f := x];
        WriteRootDirEntry(e, x.slot);
        OpenBytesKept(d, l, t, D(), lay, x.slot);
        UnlinkedPerms(d, l, D(), lay, x.slot, fname);
        return 0;
      }
      var known, e, s := FindFileInRootDir(fname);
      if !known {
        return EK_UNLINK_FILE_NOT_FOUND;
      }
      NamedHere(d, l, s, fname);
      NameIsHere(d, l, s, fname);
      NotOpenByName(d, l, t, s, fname);
      NotBlank(d, s);
      var gone := Marked(e, DELETED);
      Deleted(d, l, s, gone);
      ClosedFileChanged(d, l, t, WithEntry(ReleasedDisk(d, l, s), s, gone), ReleasedLayout(l, s), s, gone);
      NameDropped(d, l, s, gone, FileBytes(WithEntry(ReleasedDisk(d, l, s), s, gone), ReleasedLayout(l, s), s));
      LinkedBlocks(d, l, s);
      assert FatOk(fat[..], lay) by { LayoutOf(d, l); }
      ReleaseBlocks(gone.firstBlock, s);
      WriteRootDirEntry(gone, s);
      OpenBytesKept(d, l, t, D(), lay, s);
      UnlinkedPerms(d, l, D(), lay, s, fname);
      return 0;
    }

    // ---- k_mv ----

    /** `strcpy` of the new name into the entry of an open file, written through. */
    method RenameOpen(f: nat, dest: CString)
      requires Valid() && IsOpen(fds[..], f) && IsLive(EntryOf(D(), fds[f].slot))
      requires IsValidFilename(dest) && !HasName(D(), lay, dest)
      modifies data, fds
      ensures Valid() && OpenFilesKept()
      ensures |dest| < 32 && old(fds[f].entry.Some?) && fds[..] == old(fds[..])[f := Renamed(old(fds[f]), dest)]
      ensures IsLiveSlot(D(), lay, fds[f].slot) && OpenBytes(f) == old(OpenBytes(f))
      ensures Files(D(), lay) == (old(Files(D(), lay)) - {old(NameOf(D(), fds[f].slot))})[dest := OpenBytes(f)]
      ensures old(NameOf(D(), fds[f].slot)) in old(Perms(D(), lay))
      ensures var n := old(NameOf(D(), fds[f].slot));
              Perms(D(), lay) == (old(Perms(D(), lay)) - {n})[dest := old(Perms(D(), lay))[n]]
      ensures fds[f].entry.Some? && IsLive(fds[f].entry.value)
    {
      hide VolumeOk, TableOk, EntryOf, Files, FileBytes, OthersKept, IsSlot, EntryFits, Perms;
      ghost var d, l, t := D(), lay, fds[..];
      OpenFile(d, l, t, f);
      var e: Entry := fds[f].entry.value;
      e := e.(name := StrCpy(e.name, dest));
      NewNameFits(d, l, fds[f].slot, e, dest);
      var x := fds[f].(entry := Some(e));
      Rewritten(d, l, t, f, x, x.slot, e);
      RenamedPerms(d, l, WithEntry(d, x.slot, e), x.slot, e);
      fds[f] := x;
      assert fds[..] == t[f := x];
      WriteRootDirEntry(e, x.slot);
      OpenBytesKept(d, l, t, D(), lay, x.slot);
    }

    /** The second half of a move: the file just opened to be read is renamed, and closed again. */
    method RenameAndClose(f: nat, dest: CString)
      requires Valid() && IsOpen(fds[..], f) && IsLiveSlot(D(), lay, fds[f].slot)
      requires IsValidFilename(dest) && !HasName(D(), lay, dest)
      modifies fat, data, fds, `lay
      ensures Valid() && fat[..] == old(fat[..]) && lay == old(lay)
      ensures forall g :: old(IsOpen(fds[..], g)) ==> FileBytes(D(), lay, old(fds[g].slot)) == old(OpenBytes(g))
      ensures var n := old(NameOf(D(), fds[f].slot));
              && n in old(Files(D(), lay)) && n in old(Perms(D(), lay))
              && Files(D(), lay) == (old(Files(D(), lay)) - {n})[dest := old(Files(D(), lay))[n]]
              && Perms(D(), lay) == (old(Perms(D(), lay)) - {n})[dest := old(Perms(D(), lay))[n]]
      ensures forall g :: 0 <= g < fds.Length && g != f ==> fds[g] == old(fds[g])
      ensures |dest| < 32 && old(fds[f].entry.Some?)
      ensures if old(fds[f].refs) > 1 then fds[f] == Renamed(old(fds[f]), dest).(refs := old(fds[f].refs) - 1)
              else fds[f].refs == 0
    {
      hide VolumeOk, TableOk, EntryOf, Files, FileBytes, OthersKept, IsSlot, IsValidFilename, FreeBlocks, HasName,
        NameOf, ChainOf, Elements, Perms;
      LayoutOf(D(), lay);
      FileAt(D(), lay, fds[f].slot);
      RenameOpen(f, dest);
      var closed, crash := KClose(f);
    }

    /** The move itself, once no file has the new name. */
    method MoveToFreeName(src: CString, dest: CString) returns (r: int)
      requires Valid() && IsValidFilename(dest) && dest !in Files(D(), lay)
      modifies fat, data, fds, `lay
      ensures Valid() && OpenFilesKept()
      ensures r == MoveResult(old(OpenCode(src, Read))) && fat[..] == old(fat[..]) && lay.root == old(lay.root)
      ensures r == 0 ==>
                src in old(Files(D(), lay)) && Files(D(), lay) ==
                  (old(Files(D(), lay)) - {src})[dest := old(Files(D(), lay))[src]]
      ensures r == 0 ==>
                src in old(Perms(D(), lay)) && Perms(D(), lay) ==
                  (old(Perms(D(), lay)) - {src})[dest := old(Perms(D(), lay))[src]]
      ensures r != 0 ==> D() == old(D()) && lay == old(lay) && SameOpenFiles()
      ensures |dest| < 32
      ensures r == 0 ==> forall g :: 3 <= g < fds.Length ==>
                if old(IsOpenNamed(fds[..], src, g)) then fds[g] == Renamed(old(fds[g]), dest).(mode := Read)
                else fds[g] == old(fds[g]) || (fds[g].refs == 0 && old(fds[g].refs) == 0)
    {
      hide VolumeOk, TableOk, EntryOf, Files, FileBytes, OthersKept, IsSlot, IsValidFilename, FreeBlocks, HasName,
        NameOf, ChainOf, Elements, OpenCode, IsFirstReusable, IsOpenFile, IsDirectoryOpened, Perms, IsLiveSlot;
      MissingCode(src, Read);
      ValidLength(dest);
      FileExists(D(), lay, src);
      ghost var t := fds[..];
      OpenNamedIff(D(), lay, t, src);
      FileExists(D(), lay, dest);
      var f, overrun := KOpen(src, Read, 0);
      if f < 0 {
        return if f == EK_OPEN_FILE_DOES_NOT_EXIST then EK_MV_FILE_NOT_FOUND else EK_MV_OPEN_FAILED;
      }
      OpenedToRead(old(D()), old(lay), D(), lay, src, fds[f].slot);
      assert IsOpen(t, f) ==> IsOpenFile(old(D()), old(lay), t, src, f);
      forall g | IsOpenNamed(t, src, g) ensures g == f {
        assert old(IsOpenAs(src, g));
      }
      RenameAndClose(f, dest);
      assert forall g :: 3 <= g < fds.Length && g != f ==> fds[g] == t[g];
      assert IsOpen(t, f) ==> fds[f] == Renamed(t[f], dest).(mode := Read);
      return 0;
    }

    /** What a move returns, as the code of an open is turned into one: the file named `dest` has gone by then. */
    ghost function MoveCode(src: CString, dest: CString): int
      reads this, fat, data, fds
    {
      if !IsValidFilename(dest) then EK_MV_INVALID_FILENAME
      else if src == dest then if IsTableFull() then EK_MV_OPEN_FAILED else EK_MV_FILE_NOT_FOUND
      else MoveResult(OpenCode(src, Read))
    }

    /** The free blocks once this name has been unlinked. */
    ghost function FreeWithout(fname: CString): set<nat>
      reads this, fat, data, fds
    {
      FreeBlocksWithout(D(), lay, fds[..], fname)
    }

    /**
     Moves `src` to `dest`. A file named `dest` is unlinked first, whether or not there is a
     `src` to move, and also when the two names are the same.
     */
    method KMv(src: CString, dest: CString) returns (r: int)
      requires Valid()
      modifies fat, data, fds, `lay
      ensures Valid() && OpenFilesKept()
      ensures r == old(MoveCode(src, dest))
      ensures r == 0 ==> src != dest && src in old(Files(D(), lay))
      ensures r == 0 ==> Files(D(), lay) == (old(Files(D(), lay)) - {src, dest})[dest := old(Files(D(), lay))[src]]
      ensures r != 0 && r != EK_MV_INVALID_FILENAME ==> Files(D(), lay) == old(Files(D(), lay)) - {dest}
      ensures r == 0 ==>
                src in old(Perms(D(), lay)) && Perms(D(), lay) ==
                  (old(Perms(D(), lay)) - {dest} - {src})[dest := old(Perms(D(), lay))[src]]
      ensures r != 0 && r != EK_MV_INVALID_FILENAME ==> Perms(D(), lay) == old(Perms(D(), lay)) - {dest}
      ensures lay.root == old(lay.root)
      ensures r != EK_MV_INVALID_FILENAME ==> FreeBlocks(fat[..]) == old(FreeWithout(dest))
      // the open files: `dest` has been deleted, `src` has been renamed and put into read mode
      ensures r == EK_MV_INVALID_FILENAME ==> D() == old(D()) && lay == old(lay) && fds[..] == old(fds[..])
      ensures r != EK_MV_INVALID_FILENAME ==> |dest| < 32 && forall g :: 3 <= g < fds.Length ==>
                if old(IsOpenNamed(fds[..], dest, g)) then fds[g] == Unlinked(old(fds[g]))
                else if r == 0 && old(IsOpenNamed(fds[..], src, g))
                     then fds[g] == Renamed(old(fds[g]), dest).(mode := Read)
                else fds[g] == old(fds[g]) || (fds[g].refs == 0 && old(fds[g].refs) == 0)
    {
      hide VolumeOk, TableOk, EntryOf, Files, FileBytes, OthersKept, IsSlot, IsValidFilename, FreeBlocks, HasName,
        NameOf, ChainOf, Elements, Perms, OpenCodeOf, IsOpenSlot, IsFull;
      ghost var d, l, t := D(), lay, fds[..];
      if !IsValidFilename(dest) {
        return EK_MV_INVALID_FILENAME;
      }
      FileExists(d, l, dest);
      PermExists(d, l, dest);
      OpenEntries(d, l, t);
      OpenNamedExists(d, l, t, dest);
      ValidLength(dest);
      var status := KUnlink(dest);
      CodeAfterUnlink(d, l, t, D(), lay, fds[..], src, dest);
      r := MoveToFreeName(src, dest);
    }

    // ---- k_read ----

    /** Follows `n` links of a chain. */
    method SkipBlocks(first: nat, n: nat, ghost c: seq<nat>) returns (block: nat)
      requires IsChain(fat[..], c) && c[0] == first && n < |c|
      ensures block == c[n]
    {
      block := first;
      for i := 0 to n
        invariant block == c[i]
      {
        assert IsBlock(fat[..], c[i]);
        block := fat[block];
      }
    }

    /** Copies the bytes `start..start + n` of a chain out, block by block. */
    method CopyBlocks(first: nat, oib: nat, n: nat, ghost c: seq<nat>, ghost j: nat) returns (buf: seq<Byte>)
      requires bs > 0 && IsChain(fat[..], c) && HasBlocks(data[..], bs, c)
      requires j < |c| && first == c[j] && oib < bs && Capacity(j, bs) + oib + n <= Capacity(|c|, bs)
      ensures buf == Flatten(data[..], bs, c)[Capacity(j, bs) + oib..Capacity(j, bs) + oib + n]
    {
      hide Flatten, IsChain, HasBlocks, Capacity;
      FlattenLength(data[..], bs, c);
      buf := [];
      var block, at := first, oib;
      ghost var k, pos := j, Capacity(j, bs) + oib;
      ghost var start := pos;
      ChainStep(fat[..], c, j);
      while n > |buf| && block != END_OF_FILE
        invariant j <= k <= |c| && block == (if k < |c| then c[k] else END_OF_FILE)
        invariant block == END_OF_FILE ==> k == |c|
        invariant 0 <= at < bs && pos == start + |buf| && |buf| <= n && start == Capacity(j, bs) + oib
        invariant |buf| < n ==> k < |c| && pos == Capacity(k, bs) + at
        invariant pos <= Capacity(|c|, bs) && buf == Flatten(data[..], bs, c)[start..pos]
        decreases |c| - k
      {
        var m := if n - |buf| < bs - at then n - |buf| else bs - at;
        ReadStep(data[..], bs, c, start, k, at, m, buf);
        InCapacity(k, |c|, bs);
        ChainStep(fat[..], c, k);
        buf := buf + data[block][at..at + m];
        pos := pos + m;
        if |buf| < n {
          BlockIndex(pos, k + 1, |c|, bs);
        }
        if k + 1 < |c| {
          ChainStep(fat[..], c, k + 1);
        }
        at := 0;
        block := fat[block];
        k := k + 1;
      }
    }

    /** The block index and the offset inside that block. */
    method SplitOffset(offset: nat) returns (j: nat, oib: nat)
      requires bs > 0
      ensures offset == Capacity(j, bs) + oib && oib == offset % bs < bs && j == offset / bs
    {
      DivMod(offset, bs);
      return offset / bs, offset % bs;
    }

    /** The part of `k_read` behind its checks: seeking the block of the offset, then copying. */
    method ReadFile(first: nat, size: nat, offset: nat, n: int, ghost s: Slot) returns (buf: seq<Byte>)
      requires VolumeOk(D(), lay) && IsSlot(D(), lay, s) && IsOwning(EntryOf(D(), s))
      requires first == EntryOf(D(), s).firstBlock && size == EntryOf(D(), s).size && offset < size
      ensures buf == ReadSlice(FileBytes(D(), lay, s), offset, n)
    {
      hide VolumeOk, EntryOf, FatOk, Flatten, FileBytes, IsSlot, ReadSlice, IsChain, HasBlocks;
      ghost var d := D();
      FileSize(d, lay, s);
      LinkedBlocks(d, lay, s);
      BlockSizeOf(d, lay);
      ghost var c := ChainOf(lay, s);
      ReadSliceOfPrefix(Flatten(d.data, d.bs, c), size, offset, n);
      var j, oib := SplitOffset(offset);
      BlockIndex(offset, j, |c|, bs);
      assert IsChain(fat[..], c) by { ChainIn(d, lay, s); }
      var block := SkipBlocks(first, j, c);
      var m := if n < size - offset then n else size - offset;
      if m <= 0 {
        return [];
      }
      buf := CopyBlocks(block, oib, m, c, j);
    }

    method KRead(fd: int, n: int) returns (r: int, buf: seq<Byte>)
      requires Valid() && (fd < 0 || fd >= 3)
      modifies fds
      ensures r == EK_READ_FD_OUT_OF_RANGE <==> fd < 0 || fd >= fds.Length
      ensures r == EK_READ_FD_NOT_IN_TABLE <==> 0 <= fd < fds.Length && !old(IsOpen(fds[..], fd))
      ensures r == EK_READ_WRONG_PERMISSIONS <==> old(IsOpen(fds[..], fd)) && old(fds[fd].entry.value.perm) < 4
      ensures r >= 0 <==> old(IsOpen(fds[..], fd)) && old(fds[fd].entry.value.perm) >= 4
      ensures r < 0 ==> fds[..] == old(fds[..]) && buf == []
      ensures r >= 0 ==> r == |buf| && buf == ReadSlice(old(OpenBytes(fd)), old(fds[fd].offset), n)
      ensures r >= 0 ==> fds[..] == old(fds[..])[fd := fds[fd]] && fds[fd] == old(fds[fd]).(offset := fds[fd].offset)
      ensures r >= 0 ==> fds[fd].offset == old(fds[fd].offset) + r
      ensures Valid()
    {
      hide VolumeOk, TableOk, EntryOf, FileBytes, IsSlot, NameOf, IsEndMarker;
      ghost var d, l, t := D(), lay, fds[..];
      OpenEntries(d, l, t);
      if fd >= GLOBAL_FD_TABLE_SIZE || fd < 0 {
        return EK_READ_FD_OUT_OF_RANGE, [];
      }
      if fds[fd].refs == 0 {
        return EK_READ_FD_NOT_IN_TABLE, [];
      }
      var x := fds[fd];
      var e: Entry := x.entry.value;
      OpenFile(d, l, t, fd);
      FileSize(d, l, x.slot);
      if e.perm < 4 {
        return EK_READ_WRONG_PERMISSIONS, [];
      }
      if x.offset >= e.size || n == 0 {
        return 0, [];
      }
      buf := ReadFile(e.firstBlock, e.size, x.offset, n, x.slot);
      x := x.(offset := x.offset + |buf|);
      SharedTableOk(d, l, t, fd, x);
      fds[fd] := x;
      assert fds[..] == t[fd := x];
      return |buf|, buf;
    }

    // ---- k_write ----

    /**
     The walk of `k_write` along a file of `size` bytes. It makes `target` steps, and `target`
     is one more than the index of the block that holds the offset. So it stops one block too
     far if there is one, and on the last block otherwise; then the rest of that block is zeroed.
     */
    method WalkToOffset(first: nat, target: nat, size: nat, ghost c: seq<nat>) returns (block: nat, deep: nat)
      requires bs > 0 && IsChain(fat[..], c) && c[0] == first && HasBlocks(data[..], bs, c)
      requires (|c| - 1) * bs <= size <= |c| * bs
      modifies data
      ensures target <= |c| ==> block == c[LandingIndex(|c|, target)]
      ensures target < |c| ==> deep == target && block == c[target] && data[..] == old(data[..])
      ensures target >= |c| ==> deep == |c| && block == c[|c| - 1]
      ensures target >= |c| ==>
                var n := size - (|c| - 1) * bs;
                block < data.Length && data[..] == old(data[..])[block := Resize(old(data[block])[..n], bs)]
    {
      assert c != [];
      hide IsChain, HasBlocks;
      ghost var before, links := data[..], fat[..];
      block, deep := first, 0;
      ChainStep(links, c, 0);
      while deep < target
        invariant 0 <= deep <= target && deep < |c| && block == c[deep] && data[..] == before && fat[..] == links
      {
        ChainStep(links, c, deep);
        var next := fat[block];
        deep := deep + 1;
        if next == END_OF_FILE {
          if deep < |c| {
            ChainStep(links, c, deep);
          }
          BlockAt(before, bs, c, deep - 1);
          var inBlock := size - (deep - 1) * bs;
          assert (|c| - 1) * bs + bs == |c| * bs;
          assert Resize(data[block][..inBlock], bs) == data[block][..inBlock] + Zeros(bs - inBlock);
          data[block] := data[block][..inBlock] + Zeros(bs - inBlock);
          return;
        }
        block := next;
      }
    }

    /** The least free block is the last one of the file: linked, but not marked as used. */
    ghost predicate IsUnmarked(b: nat)
      reads fat, data
    {
      && 0 < b < fat.Length && fat[b] == 0 && (forall x :: 1 <= x < b ==> fat[x] != 0)
      && b < data.Length && data[b] == Zeros(bs)
    }

    /** One round of the gap loop: a fresh block if the last one is marked, else the same again. */
    method GapRound(prev: nat, ghost s: Slot, ghost d0: Disk, ghost lay0: Layout) returns (block: nat, overrun: bool)
      requires s in lay.chains && lay.chains[s] != [] && prev == Last(lay, s) && prev < fat.Length && prev < END_OF_FILE
      requires TouchesOnly(d0, lay0, Closed(D(), prev), lay, s)
      requires IsUnmarked(prev) || fat[prev] != 0
      modifies fat, data, `lay
      ensures block == 0 ==>
                old(fat[prev]) != 0 && old(FreeBlocks(fat[..])) == {} && (overrun <==> !ScanStaysInside(fat.Length))
      ensures block == 0 ==>
                fat[..] == old(fat[..])[prev := END_OF_FILE] && data[..] == old(data[..]) && lay == old(lay)
      ensures block != 0 && old(fat[prev]) == 0 ==>
                block == prev && fat[..] == old(fat[..])[prev := prev] && data[..] == old(data[..]) && lay == old(lay)
                && fat[..][prev := END_OF_FILE] == old(fat[..])[prev := END_OF_FILE]
      ensures block != 0 && old(fat[prev]) != 0 ==>
                && s in lay.chains && lay.chains[s] == old(lay).chains[s] + [block] && IsUnmarked(block)
                && Last(lay, s) == block < END_OF_FILE && TouchesOnly(d0, lay0, Closed(D(), block), lay, s)
                && Blocks(D(), lay, s) == old(Blocks(D(), lay, s)) + Zeros(bs)
                && |FreeBlocks(fat[..][block := END_OF_FILE])| == old(|FreeBlocks(fat[..][prev := END_OF_FILE])|) - 1
    {
      hide TouchesOnly, Blocks;
      ghost var d := D();
      block, overrun := FirstEmptyBlock();
      assert fat[prev] == 0 ==> prev in FreeBlocks(fat[..]);
      if block == 0 {
        fat[prev] := END_OF_FILE;
        return;
      }
      if fat[prev] != 0 {
        hide FreeBlocks;
        GapLinked(d0, lay0, d, lay, s, prev, block);
        lay := WithNextBlock(lay, s, block);
        fat[prev] := block;
        data[block] := Zeros(bs);
        assert D() == Disk(d.bs, d.fat[prev := block], d.data[block := Zeros(d.bs)]);
      } else {
        fat[prev] := block;
        data[block] := Zeros(bs);
        assert fat[..][prev := END_OF_FILE] == d.fat[prev := END_OF_FILE];
      }
    }

    /**
     The gap is being filled: the file had the blocks `c0` with the bytes `b0`, and has got `made`
     of the `f0` free ones so far.
     */
    ghost predicate IsFilling(block: nat, made: nat, s: Slot, d0: Disk, lay0: Layout, c0: seq<nat>, f0: nat,
                              b0: seq<Byte>)
      reads this, fat, data
    {
      && s in lay.chains && lay.chains[s] != [] && block == Last(lay, s) && block < fat.Length && block < END_OF_FILE
      && TouchesOnly(d0, lay0, Closed(D(), block), lay, s)
      && c0 <= lay.chains[s] && |lay.chains[s]| == |c0| + made
      && Blocks(D(), lay, s) == b0 + Zeros(Capacity(made, bs))
      && |FreeBlocks(fat[..][block := END_OF_FILE])| == f0 - made
    }

    /** One round, in these terms. The last block is marked in every second round. */
    method FillRound(prev: nat, isMarked: bool, ghost made: nat, ghost s: Slot, ghost d0: Disk, ghost lay0: Layout,
                     ghost c0: seq<nat>, ghost f0: nat, ghost b0: seq<Byte>)
      returns (block: nat, overrun: bool)
      requires IsFilling(prev, made, s, d0, lay0, c0, f0, b0) && if isMarked then fat[prev] != 0 else IsUnmarked(prev)
      modifies fat, data, `lay
      ensures block == 0 ==> isMarked && made == f0 && (overrun <==> !ScanStaysInside(fat.Length)) && lay == old(lay)
      ensures block == 0 ==> prev < fat.Length == |old(fat[..])| && D() == Closed(old(D()), prev)
      ensures block == 0 ==> TouchesOnly(d0, lay0, D(), lay, s)
      ensures block != 0 ==> IsFilling(block, if isMarked then made + 1 else made, s, d0, lay0, c0, f0, b0)
      ensures block != 0 ==> if isMarked then IsUnmarked(block) else block < fat.Length && fat[block] != 0
      ensures block != 0 ==> block < data.Length && data[block] == Zeros(bs)
    {
      hide TouchesOnly, FreeBlocks, Blocks, Capacity, Zeros;
      ghost var before := D();
      block, overrun := GapRound(prev, s, d0, lay0);
      if block == 0 {
        NoneFree(before, prev);
        assert D() == Closed(before, prev);
      } else if isMarked {
        ZerosGrow(b0, made, bs);
      } else {
        assert Closed(D(), block) == Closed(before, prev);
        BlocksOf(before, D(), lay, s);
      }
    }

    /**
     The loop of `k_write` that fills the gap between the end of a file and the offset. It
     links a block without marking it as used, so every second round finds the same block
     again: `g` rounds link only `(g + 1) / 2` blocks.
     */
    method FillGap(last: nat, g: nat, ghost s: Slot, ghost d0: Disk, ghost lay0: Layout)
      returns (block: nat, full: bool, overrun: bool)
      requires TouchesOnly(d0, lay0, D(), lay, s) && s in lay.chains && lay.chains[s] != [] && last == Last(lay, s)
      modifies fat, data, `lay
      ensures !full ==> !overrun && IsFilling(block, (g + 1) / 2, s, d0, lay0, old(lay).chains[s],
                                              |old(FreeBlocks(fat[..]))|, old(Blocks(D(), lay, s)))
      ensures !full && g == 0 ==> D() == old(D()) && lay == old(lay)
      ensures !full && g > 0 ==> block < data.Length && data[block] == Zeros(bs)
      ensures full ==> |old(FreeBlocks(fat[..]))| < (g + 1) / 2 && (overrun <==> !ScanStaysInside(fat.Length))
      // when the blocks do not suffice, all of them go to the file
      ensures full ==> s in lay.chains && lay.chains[s] != [] && old(lay).chains[s] <= lay.chains[s]
      ensures full ==> TouchesOnly(d0, lay0, D(), lay, s)
      ensures full ==> |lay.chains[s]| == |old(lay).chains[s]| + |old(FreeBlocks(fat[..]))|
      ensures full && |old(FreeBlocks(fat[..]))| == 0 ==> D() == old(D()) && lay == old(lay)
    {
      hide TouchesOnly, FreeBlocks, Blocks, IsFilling, Zeros, IsUnmarked;
      ghost var c0, f0, b0 := lay.chains[s], |FreeBlocks(fat[..])|, Blocks(D(), lay, s);
      FillingStarts(last, s, d0, lay0);
      block, full := last, false;
      var k := 0;
      ghost var made := 0;
      while k < g
        invariant 0 <= k <= g && IsFilling(block, made, s, d0, lay0, c0, f0, b0)
        invariant k == 2 * made || k + 1 == 2 * made
        invariant k == 0 ==> D() == old(D()) && lay == old(lay) && block == last
        invariant k > 0 ==> block < data.Length && data[block] == Zeros(bs)
        invariant if k == 2 * made then block < fat.Length && fat[block] != 0 else IsUnmarked(block)
      {
        var prev := block;
        FillingHas(prev, made, s, d0, lay0, c0, f0, b0);
        block, overrun := FillRound(prev, k % 2 == 0, made, s, d0, lay0, c0, f0, b0);
        if block == 0 {
          return block, true, overrun;
        }
        if k % 2 == 0 {
          made := made + 1;
        }
        k := k + 1;
      }
      return block, false, false;
    }

    lemma FillingStarts(last: nat, s: Slot, d0: Disk, lay0: Layout)
      requires TouchesOnly(d0, lay0, D(), lay, s) && s in lay.chains && lay.chains[s] != [] && last == Last(lay, s)
      ensures IsFilling(last, 0, s, d0, lay0, lay.chains[s], |FreeBlocks(fat[..])|, Blocks(D(), lay, s))
      ensures last < fat.Length && fat[last] != 0 && Closed(D(), last) == D()
    {
      hide TouchesOnly, FreeBlocks, Blocks;
      ClosedAlready(d0, lay0, D(), lay, s);
      assert Blocks(D(), lay, s) + Zeros(Capacity(0, bs)) == Blocks(D(), lay, s);
    }

    lemma FillingHas(block: nat, made: nat, s: Slot, d0: Disk, lay0: Layout, c0: seq<nat>, f0: nat, b0: seq<Byte>)
      requires IsFilling(block, made, s, d0, lay0, c0, f0, b0)
      ensures s in lay.chains && lay.chains[s] != [] && c0 <= lay.chains[s] && |lay.chains[s]| == |c0| + made
    {
    }

    /**
     A write is under way on the file in slot `s`: `block` is its last block, which need not
     be marked as such yet, its bytes start with `got`, and nothing else has changed.
     */
    ghost predicate IsWriting(block: nat, got: seq<Byte>, s: Slot, d0: Disk, lay0: Layout)
      reads this, fat, data
    {
      && s in lay.chains && lay.chains[s] != [] && block == Last(lay, s) && block < fat.Length && block < END_OF_FILE
      && TouchesOnly(d0, lay0, Closed(D(), block), lay, s)
      && |got| <= |Blocks(D(), lay, s)| && Blocks(D(), lay, s)[..|got|] == got
    }

    /** How many blocks the file and the free ones make together. */
    ghost function AllBlocks(block: nat, s: Slot): nat
      requires block < fat.Length
      reads this, fat
    {
      |ChainOf(lay, s)| + |FreeBlocks(fat[..][block := END_OF_FILE])|
    }

    lemma ChainAmongAll(block: nat, s: Slot)
      requires block < fat.Length && s in lay.chains
      ensures |lay.chains[s]| <= AllBlocks(block, s)
    {
    }

    lemma WritingInRange(block: nat, got: seq<Byte>, s: Slot, d0: Disk, lay0: Layout)
      requires IsWriting(block, got, s, d0, lay0)
      ensures block < fat.Length && s in lay.chains
    {
    }

    /** The end of a write: its last block is marked. */
    method CloseChain(block: nat, ghost got: seq<Byte>, ghost s: Slot, ghost d0: Disk, ghost lay0: Layout)
      requires IsWriting(block, got, s, d0, lay0)
      modifies fat
      ensures s in lay.chains && TouchesOnly(d0, lay0, D(), lay, s)
      ensures |got| <= |Blocks(D(), lay, s)| && Blocks(D(), lay, s)[..|got|] == got
      ensures block < fat.Length && |lay.chains[s]| + |FreeBlocks(fat[..])| == old(AllBlocks(block, s))
    {
      hide TouchesOnly, Blocks, FreeBlocks;
      ghost var d := D();
      fat[block] := END_OF_FILE;
      assert D() == Closed(d, block);
      BlocksOf(d, D(), lay, s);
    }

    /** One round of the copy loop: the last block takes what fits into it behind `got`. */
    method CopyPiece(block: nat, at: nat, str: seq<Byte>, n: nat, isNew: bool, ghost s: Slot, ghost d0: Disk,
                     ghost lay0: Layout, ghost got: seq<Byte>)
      returns (m: nat)
      requires IsWriting(block, got, s, d0, lay0) && |got| == LastStart(bs, lay, s) + at && at < bs && n < |str|
      requires isNew && at > 0 ==> block < data.Length && at <= |data[block]| && data[block][..at] == Zeros(at)
      modifies data
      ensures m == if |str| - n < bs - at then |str| - n else bs - at
      ensures IsWriting(block, got + str[n..n + m], s, d0, lay0) && AllBlocks(block, s) == old(AllBlocks(block, s))
      ensures |lay.chains[s]| == BlocksFor(|got| + m, bs)
      ensures LastStart(bs, lay, s) + bs <= Capacity(AllBlocks(block, s), bs)
      ensures |lay.chains[s]| == AllBlocks(block, s) ==> LastStart(bs, lay, s) + bs == Capacity(AllBlocks(block, s), bs)
    {
      hide DiskOk, FatOk, SameBlocks, SameChains, Blocks, Last, LastStart, Capacity, BlocksFor, FreeBlocks;
      m := if |str| - n < bs - at then |str| - n else bs - at;
      ghost var d := Closed(D(), block);
      assert block in lay.chains[s] by { LastIsIn(lay, s); }
      TouchData(d0, lay0, d, lay, s, block, Zeros(bs));
      var buf := if isNew then Zeros(bs) else data[block];
      buf := buf[..at] + str[n..n + m] + buf[at + m..];
      TouchData(d0, lay0, d, lay, s, block, buf);
      LastBlockRewritten(d, lay, s, buf, at, str[n..n + m]);
      ghost var before := D();
      data[block] := buf;
      assert Closed(D(), block) == d.(data := d.data[block := buf]);
      BlocksOf(before, d, lay, s);
      BlocksOf(Closed(D(), block), D(), lay, s);
      Filled(d0, lay0, Closed(D(), block), D(), lay, s, |got| + m, AllBlocks(block, s));
    }

    /** Marks the last block as such and links a free one behind it, if there is one. */
    method ExtendFile(block: nat, ghost s: Slot, ghost d0: Disk, ghost lay0: Layout, ghost got: seq<Byte>)
      returns (next: nat, overrun: bool)
      requires IsWriting(block, got, s, d0, lay0) && |got| == LastStart(bs, lay, s) + bs
      modifies fat, `lay
      ensures overrun <==> next == 0 && !ScanStaysInside(fat.Length)
      ensures next == 0 ==>
                IsWriting(block, got, s, d0, lay0) && lay == old(lay) && AllBlocks(block, s) == |lay.chains[s]|
      ensures next == 0 ==> AllBlocks(block, s) == old(AllBlocks(block, s))
      ensures next != 0 ==> IsWriting(next, got, s, d0, lay0) && |got| == LastStart(bs, lay, s)
      ensures next != 0 ==>
                s in lay.chains && lay.chains[s] == old(lay).chains[s] + [next] &&
                  AllBlocks(next, s) == old(AllBlocks(block, s))
    {
      hide TouchesOnly, FreeBlocks, Blocks;
      BlocksTouched(d0, lay0, Closed(D(), block), D(), lay, s);
      ghost var before := D();
      fat[block] := END_OF_FILE;
      ghost var d := D();
      assert d == Closed(before, block);
      BlocksOf(before, d, lay, s);
      next, overrun := FirstEmptyBlock();
      if next != 0 {
        RunOn(d0, lay0, d, lay, s, next);
        fat[block] := next;
        lay := WithNextBlock(lay, s, next);
        assert D() == d.(fat := d.fat[block := next]);
      } else {
        assert fat[..][block := END_OF_FILE] == fat[..];
      }
    }

    lemma IndexInFile(block: nat, got: seq<Byte>, at: nat, s: Slot, d0: Disk, lay0: Layout)
      requires IsWriting(block, got, s, d0, lay0) && bs > 0 && at < bs && |got| == LastStart(bs, lay, s) + at
      ensures IndexOf(|got|, bs) < 0x1_0000
    {
      hide TouchesOnly, Blocks, FatOk;
      TouchedFacts(d0, lay0, Closed(D(), block), lay, s);
      ChainLength(Closed(D(), block).fat, lay, s);
      StartOf(bs, lay, s);
      DivUnique(|got|, |lay.chains[s]| - 1, at, bs);
    }

    /**
     The copy loop of `k_write`, for an offset not before the last block of the file: it
     fills the last block behind `base`, then one new block after the other, until the bytes
     or the free blocks run out.
     */
    method CopyOut(last: nat, oib: nat, str: seq<Byte>, offset: nat, size: nat, ghost s: Slot, ghost d0: Disk,
                   ghost lay0: Layout, ghost base: seq<Byte>)
      returns (n: nat, overrun: bool)
      requires IsWriting(last, base, s, d0, lay0) && |base| == LastStart(bs, lay, s) + oib && oib < bs && str != []
      requires BlocksFor(size, bs) <= IndexOf(offset, bs) + 1
      requires IndexOf(offset, bs) > BlocksFor(size, bs) && oib > 0 ==>
                 last < data.Length && oib <= |data[last]| && data[last][..oib] == Zeros(oib)
      requires |base| == offset || IndexOf(offset + |str|, bs) < 0x1_0000
      modifies fat, data, `lay
      ensures var room := Capacity(old(AllBlocks(last, s)), bs) - |base|;
              && (overrun <==> !ScanStaysInside(fat.Length) && |str| > room)
              && (!overrun ==> n == if |str| <= room then |str| else room)
      ensures !overrun ==> 0 < n <= |str| && s in lay.chains && old(lay).chains[s] <= lay.chains[s]
      ensures !overrun ==> TouchesOnly(d0, lay0, D(), lay, s) && |lay.chains[s]| == BlocksFor(|base| + n, bs)
      ensures !overrun ==> |lay.chains[s]| + |FreeBlocks(fat[..])| == old(AllBlocks(last, s))
      ensures !overrun ==> |base| + n <= |Blocks(D(), lay, s)| && Blocks(D(), lay, s)[..|base| + n] == base + str[..n]
    {
      hide IsWriting, AllBlocks, BlocksFor, LastStart, IndexOf, Capacity, TouchesOnly, Blocks, Zeros;
      WritingInRange(last, base, s, d0, lay0);
      ghost var l, total := lay, AllBlocks(last, s);
      ghost var got := base;
      n, overrun := 0, false;
      var block: nat, at: nat := last, oib;
      assert base + str[..0] == base;
      while true
        invariant IsWriting(block, got, s, d0, lay0) && block < fat.Length && AllBlocks(block, s) == total
        invariant !overrun && 0 <= n < |str| && 0 <= at < bs && s in lay.chains && l.chains[s] <= lay.chains[s]
        invariant got == base + str[..n] && |got| == LastStart(bs, lay, s) + at
        invariant if n == 0 then block == last && at == oib && data[..] == old(data[..]) else at == 0
        decreases |str| - n
      {
        assert IndexOf(offset + n, bs) < 0x1_0000 by {
          NoBlocksAhead(offset + n, |str| - n, bs);
          IndexInFile(block, got, at, s, d0, lay0);
        }
        var current := IndexOf(offset + n, bs) % 0x1_0000;
        var m := CopyPiece(block, at, str, n, current > BlocksFor(size, bs), s, d0, lay0, got);
        got := got + str[n..n + m];
        assert str[..n + m] == str[..n] + str[n..n + m];
        n := n + m;
        if n >= |str| {
          break;
        }
        assert current + 1 >= BlocksFor(size, bs) by { NoBlocksAhead(offset, n - m, bs); }
        var next;
        next, overrun := ExtendFile(block, s, d0, lay0, got);
        if next == 0 {
          break;
        }
        assert next < fat.Length by { WritingInRange(next, got, s, d0, lay0); }
        block, at := next, 0;
      }
      CloseChain(block, got, s, d0, lay0);
    }

    /** The first block of a file that has none yet. */
    method TakeFirstBlock(first: nat, ghost s: Slot, ghost d0: Disk, ghost lay0: Layout) returns (b: nat, overrun: bool)
      requires TouchesOnly(d0, lay0, D(), lay, s) && (first != 0 <==> s in lay.chains)
      requires first != 0 ==> lay.chains[s] != [] && lay.chains[s][0] == first
      modifies fat, `lay
      ensures b == 0 <==> first == 0 && old(FreeBlocks(fat[..])) == {}
      ensures overrun <==> b == 0 && !ScanStaysInside(fat.Length)
      ensures first != 0 || b == 0 ==> D() == old(D()) && lay == old(lay)
      ensures first != 0 ==> b == first
      ensures b != 0 ==>
                TouchesOnly(d0, lay0, D(), lay, s) && s in lay.chains && lay.chains[s] != [] && lay.chains[s][0] == b
      ensures first == 0 && b != 0 ==>
                lay.chains[s] == [b] && |FreeBlocks(fat[..])| == |old(FreeBlocks(fat[..]))| - 1 && b < 0x1_0000
    {
      assert fat.Length >= 1;
      hide TouchesOnly, FreeBlocks;
      b, overrun := first, false;
      if first == 0 {
        b, overrun := FirstEmptyBlock();
        if b != 0 {
          ghost var d := D();
          TouchFirst(d0, lay0, d, lay, s, b);
          assert b < |lay.owner| by { LayoutInRange(d0, lay0, d, lay, s); }
          fat[b] := END_OF_FILE;
          lay := WithFirstBlock(lay, s, b);
          assert D() == Closed(d, b);
        }
      }
    }

    /** The walk of a write that does not start before the last block. */
    method WalkToEnd(first: nat, target: nat, size: nat, ghost s: Slot, ghost d0: Disk, ghost lay0: Layout,
                     ghost bytes: seq<Byte>)
      returns (r: (nat, nat))
      requires TouchesOnly(d0, lay0, D(), lay, s) && s in lay.chains && lay.chains[s] != [] &&
               lay.chains[s][0] == first && bs > 0
      requires LastStart(bs, lay, s) <= size <= LastStart(bs, lay, s) + bs && size == |bytes| &&
               |lay.chains[s]| <= target
      requires size <= |Blocks(D(), lay, s)| && Blocks(D(), lay, s)[..size] == bytes
      modifies data
      ensures r.0 == Last(lay, s) && r.1 == |lay.chains[s]| && TouchesOnly(d0, lay0, D(), lay, s)
      ensures Blocks(D(), lay, s) == Resize(bytes, LastStart(bs, lay, s) + bs)
    {
      hide FatOk, Flatten, DiskOk, HasBlocks, Blocks, IsChain, Resize, TouchesOnly;
      ghost var d := D();
      TouchedFacts(d0, lay0, d, lay, s);
      ChainTouched(d, lay, s);
      LastSplit(d, lay, s);
      var block, deep := WalkToOffset(first, target, size, lay.chains[s]);
      ghost var zeroed := Resize(d.data[block][..size - LastStart(bs, lay, s)], bs);
      LastIsIn(lay, s);
      TouchData(d0, lay0, d, lay, s, block, zeroed);
      ZeroedTail(d, lay, s, size);
      assert D() == d.(data := d.data[block := zeroed]);
      return (block, deep);
    }

    /** Where the walk and the gap have led to. */
    lemma Sought(block: nat, s: Slot, d0: Disk, lay0: Layout, bytes: seq<Byte>, k: nat, g: nat, oib: nat)
      requires s in lay.chains && lay.chains[s] != [] && block == Last(lay, s) && block < fat.Length &&
               block < END_OF_FILE && oib < bs && k > 0
      requires TouchesOnly(d0, lay0, Closed(D(), block), lay, s) && |lay.chains[s]| == k + (g + 1) / 2 &&
               |bytes| <= (k - 1) * bs + bs
      requires Blocks(D(), lay, s) == Resize(bytes, (k - 1) * bs + bs) + Zeros(Capacity((g + 1) / 2, bs))
      ensures LastStart(bs, lay, s) >= 0
      ensures IsWriting(block, Resize(bytes, LastStart(bs, lay, s) + oib), s, d0, lay0)
      ensures AllBlocks(block, s) == |lay.chains[s]| + |FreeBlocks(fat[..][block := END_OF_FILE])|
    {
      hide TouchesOnly, Blocks, Resize, FreeBlocks;
      var n := (g + 1) / 2;
      BlocksTouched(d0, lay0, Closed(D(), block), D(), lay, s);
      assert (k - 1) * bs + bs + n * bs == (k + n) * bs;
      ResizeGrow(bytes, (k - 1) * bs + bs, n * bs);
      ResizePrefix(bytes, LastStart(bs, lay, s) + oib, (k + n) * bs);
    }

    /**
     From the first block of a file to the block that `k_write` copies into: the walk, then
     the gap. `bytes` is what the file holds, `size` bytes in as many blocks as it takes (or
     in one fresh block).
     */
    method SeekForWrite(first: nat, offset: nat, size: nat, ghost s: Slot, ghost d0: Disk, ghost lay0: Layout,
                        ghost bytes: seq<Byte>)
      returns (block: nat, full: bool, overrun: bool)
      requires TouchesOnly(d0, lay0, D(), lay, s) && s in lay.chains && lay.chains[s] != [] &&
               lay.chains[s][0] == first && bs > 0
      requires LastStart(bs, lay, s) <= size <= LastStart(bs, lay, s) + bs && size == |bytes|
      requires size <= |Blocks(D(), lay, s)| && Blocks(D(), lay, s)[..size] == bytes
      requires |lay.chains[s]| <= IndexOf(offset, bs) + 1 < 0x1_0000
      modifies fat, data, `lay
      ensures var k := |old(lay).chains[s]|; var g := IndexOf(offset, bs) + 1 - k;
              && (!full ==>
                  !overrun && s in lay.chains && old(lay).chains[s] <= lay.chains[s] &&
                    |lay.chains[s]| == k + (g + 1) / 2)
              && (!full && g > 0 ==> block < data.Length && data[block] == Zeros(bs))
              && (full ==> |old(FreeBlocks(fat[..]))| < (g + 1) / 2 && (overrun <==> !ScanStaysInside(fat.Length)))
              && (full ==> s in lay.chains && lay.chains[s] != [] && old(lay).chains[s] <= lay.chains[s]
                           && TouchesOnly(d0, lay0, D(), lay, s) && |lay.chains[s]| == k + |old(FreeBlocks(fat[..]))|)
              && (full && |old(FreeBlocks(fat[..]))| == 0 ==>
                    lay == old(lay) && fat[..] == old(fat[..]) && size <= |Blocks(D(), lay, s)| &&
                      Blocks(D(), lay, s)[..size] == bytes)
      ensures !full ==> |lay.chains[s]| == LandingIndex(|old(lay).chains[s]|, IndexOf(offset, bs) + 1) + 1
      ensures !full ==> LastStart(bs, lay, s) >= 0
      ensures !full ==> IsWriting(block, Resize(bytes, LastStart(bs, lay, s) + offset % bs), s, d0, lay0)
      ensures !full ==> block < fat.Length && AllBlocks(block, s) == |old(lay).chains[s]| + |old(FreeBlocks(fat[..]))|
    {
      hide TouchesOnly, FreeBlocks, Blocks, IsWriting, AllBlocks, IndexOf, LastStart, Resize;
      DivMod(offset, bs);
      var target := (IndexOf(offset, bs) + 1) % 0x1_0000;
      var deep := WalkToEnd(first, target, size, s, d0, lay0, bytes);
      ghost var k := |lay.chains[s]|;
      StartOf(bs, lay, s);
      ResizePrefixOf(bytes, size, Blocks(D(), lay, s));
      block := deep.0;
      block, full, overrun := FillGap(block, target - deep.1, s, d0, lay0);
      if !full {
        Sought(block, s, d0, lay0, bytes, k, target - k, offset % bs);
      }
    }

    /** The place of a write has been found. */
    ghost predicate IsPlaced(block: nat, offset: nat, size: nat, free: nat, s: Slot, d0: Disk, lay0: Layout,
                             bytes: seq<Byte>, base: seq<Byte>)
      requires bs > 0
      reads this, fat, data
    {
      && IsWriting(block, base, s, d0, lay0) && block < fat.Length && s in lay.chains
      && |base| == LastStart(bs, lay, s) + offset % bs == LandingAt(size, offset, bs) && base == Resize(bytes, |base|)
      && AllBlocks(block, s) == BlocksFor(size, bs) + free
      && (IndexOf(offset, bs) > BlocksFor(size, bs) ==> block < data.Length && data[block] == Zeros(bs))
    }

    /** A file with the bytes that it had, though the rest of its last block may have been zeroed. */
    ghost predicate IsStill(size: nat, s: Slot, d0: Disk, lay0: Layout, bytes: seq<Byte>)
      reads this, fat, data
    {
      && fat[..] == d0.fat && lay == lay0
      && if s in lay.chains then size <= |Blocks(D(), lay, s)| && Blocks(D(), lay, s)[..size] == bytes else D() == d0
    }

    /**
     A write has found no block for its first byte: nothing counts as changed, or all free blocks
     went to the file.
     */
    ghost predicate IsGivenUp(first0: nat, first: nat, size: nat, s: Slot, d0: Disk, lay0: Layout, bytes: seq<Byte>)
      requires bs > 0
      reads this, fat, data
    {
      && TouchesOnly(d0, lay0, D(), lay, s)
      && if |FreeBlocks(d0.fat)| == 0 then first == first0 && IsStill(size, s, d0, lay0, bytes)
         else s in lay.chains && lay.chains[s] != [] && lay.chains[s][0] == first > 0 &&
              |lay.chains[s]| > BlocksFor(size, bs)
    }

    /** The first part of a write: a first block if there is none, the walk and the gap. */
    method PlaceWrite(first0: nat, size: nat, offset: nat, ghost s: Slot, ghost d0: Disk, ghost lay0: Layout,
                      ghost bytes: seq<Byte>)
      returns (first: nat, block: nat, full: bool, overrun: bool, ghost base: seq<Byte>)
      requires VolumeOk(d0, lay0) && D() == d0 && lay == lay0 && bs > 0
      requires IsSlot(d0, lay0, s) && IsOwning(EntryOf(d0, s)) && bytes == FileBytes(d0, lay0, s)
      requires first0 == EntryOf(d0, s).firstBlock && size == EntryOf(d0, s).size
      requires StartsInLastBlock(size, offset, bs) && IndexOf(offset, bs) + 1 < 0x1_0000
      modifies fat, data, `lay
      ensures overrun <==> full && !ScanStaysInside(fat.Length)
      ensures !full ==> IsPlaced(block, offset, size, |FreeBlocks(d0.fat)|, s, d0, lay0, bytes, base)
      ensures !full ==> lay.chains[s] != [] && lay.chains[s][0] == first && 0 < first < 0x1_0000
      ensures first < 0x1_0000 && (first0 != 0 ==> first == first0)
      ensures full <==> Room(size, offset, |FreeBlocks(d0.fat)|, bs) <= 0
      ensures full ==> IsGivenUp(first0, first, size, s, d0, lay0, bytes)
    {
      hide VolumeOk, TouchesOnly, FreeBlocks, Blocks, FileBytes, EntryOf, IsSlot, IsWriting, AllBlocks, IndexOf,
        LastStart, Resize, BlocksFor, Capacity, Room;
      BeforeSteps(d0, lay0, s);
      ghost var free := |FreeBlocks(fat[..])|;
      RoomIffReached(size, offset, free, bs);
      first, overrun := TakeFirstBlock(first0, s, d0, lay0);
      if first == 0 {
        return first, 0, true, overrun, [];
      }
      if first0 != 0 {
        BeforeWrite(d0, lay0, s);
      } else {
        BeforeFirstWrite(d0, lay0, D(), lay, s);
      }
      ghost var k := |lay.chains[s]|;
      assert k == BlocksAtStart(size, bs);
      block, full, overrun := SeekForWrite(first, offset, size, s, d0, lay0, bytes);
      if full {
        return first, block, full, overrun, [];
      }
      StartOf(bs, lay, s);
      ChainAmongAll(block, s);
      base := Resize(bytes, LastStart(bs, lay, s) + offset % bs);
    }

    /**
     The blocks that a write needs, and the bytes in them. `first0` is 0 for a file that has
     no blocks; the result `first` is then the block that it got, if any.
     */
    method WriteBlocks(first0: nat, size: nat, offset: nat, str: seq<Byte>, ghost s: Slot, ghost d0: Disk,
                       ghost lay0: Layout, ghost bytes: seq<Byte>)
      returns (first: nat, n: nat, overrun: bool)
      requires VolumeOk(d0, lay0) && D() == d0 && lay == lay0 && str != [] && bs > 0
      requires IsSlot(d0, lay0, s) && IsOwning(EntryOf(d0, s)) && bytes == FileBytes(d0, lay0, s)
      requires first0 == EntryOf(d0, s).firstBlock && size == EntryOf(d0, s).size
      requires StartsInLastBlock(size, offset, bs) && IndexOf(offset, bs) + 1 < 0x1_0000
      requires IsFarWrite(size, offset, bs) ==> IndexOf(offset + |str|, bs) + 1 < 0x1_0000
      modifies fat, data, `lay
      ensures var room := Room(size, offset, |FreeBlocks(d0.fat)|, bs);
              && (overrun <==> !ScanStaysInside(fat.Length) && |str| > room)
              && (!overrun ==> n == if |str| <= room then |str| else if room > 0 then room else 0)
      ensures first < 0x1_0000 && (first0 != 0 ==> first == first0)
      ensures !overrun && n > 0 ==> n <= |str| && s in lay.chains && TouchesOnly(d0, lay0, D(), lay, s)
      ensures !overrun && n > 0 ==> lay.chains[s] != [] && lay.chains[s][0] == first && 0 < first < 0x1_0000
      ensures !overrun && n > 0 ==>
                |lay.chains[s]| + |FreeBlocks(fat[..])| == BlocksFor(size, bs) + |FreeBlocks(d0.fat)|
      ensures !overrun && n > 0 && !IsTailWrite(size, offset, bs) ==> |lay.chains[s]| < BlocksFor(offset + n, bs)
      ensures !overrun && n > 0 && IsTailWrite(size, offset, bs) ==>
              && |lay.chains[s]| == BlocksFor(offset + n, bs)
              && offset + n <= |Blocks(D(), lay, s)|
              && Blocks(D(), lay, s)[..offset + n] == Resize(bytes, offset) + str[..n]
      ensures !overrun && n == 0 ==> IsGivenUp(first0, first, size, s, d0, lay0, bytes)
    {
      hide VolumeOk, TouchesOnly, FreeBlocks, Blocks, FileBytes, EntryOf, IsSlot, IsWriting, AllBlocks, IndexOf,
        LastStart, Resize, BlocksFor, Capacity, IsTailWrite, Zeros, LandingAt, ScanStaysInside, IsGivenUp;
      var block, full;
      ghost var base;
      first, block, full, overrun, base := PlaceWrite(first0, size, offset, s, d0, lay0, bytes);
      if full {
        return first, 0, overrun;
      }
      ghost var l := lay;
      var _, oib := SplitOffset(offset);
      ZerosPrefix(oib, bs);
      LandsAtOffset(size, offset, bs);
      TailOrFar(size, offset, bs);
      n, overrun := CopyOut(block, oib, str, offset, size, s, d0, lay0, base);
      if !overrun && !IsTailWrite(size, offset, bs) {
        ShortChain(|base|, offset, n, bs);
      }
    }

    // ---- writes before the last block ----

    /**
     The copy loop of `k_write` for an offset before the last block. It starts in the block
     behind the one of the offset, number `k0` of the chain, and follows the links. When they
     end before the bytes do, it fails; else the file ends in the block written last, number `k`.
     */
    method CopyThrough(second: nat, oib: nat, str: seq<Byte>, offset: nat, size: nat, ghost k0: nat, ghost s: Slot,
                       ghost d0: Disk)
      returns (failed: bool, ghost k: nat)
      requires D() == d0 && TouchesOnly(d0, lay, d0, lay, s) && s in lay.chains && 0 < k0 < |lay.chains[s]| &&
               second == lay.chains[s][k0]
      requires bs > 0 && oib < bs && str != [] && offset + bs == Capacity(k0, bs) + oib
      requires |lay.chains[s]| == BlocksFor(size, bs)
      modifies fat, data
      ensures k < |lay.chains[s]| && lay.chains[s][k] < fat.Length == |d0.fat|
      ensures TouchesOnly(d0, lay, d0.(data := data[..]), lay, s)
      ensures failed <==> offset + bs + |str| > Capacity(|lay.chains[s]|, bs)
      ensures failed ==> fat[..] == d0.fat && |Blocks(d0, lay, s)| == Capacity(|lay.chains[s]|, bs) >= offset + bs
      ensures failed ==>
                var p, all := offset + bs, Blocks(d0, lay, s);
                Blocks(D(), lay, s) == all[..p] + str[..|all| - p]
      ensures !failed ==>
                && fat[..] == d0.fat[lay.chains[s][k] := END_OF_FILE]
                && Capacity(k, bs) < offset + bs + |str| <= Capacity(k, bs) + bs
    {
      hide TouchesOnly, Blocks, FatOk, IndexOf, BlocksFor, Capacity, DiskOk;
      ghost var c, p, all := lay.chains[s], offset + bs, Blocks(d0, lay, s);
      TouchedFacts(d0, lay, d0, lay, s);
      BlocksLength(d0, lay, s);
      InCapacity(k0, |c|, bs);
      var n: nat := 0;
      var block: nat, at: nat := second, oib;
      k := k0;
      assert all[..p] + str[..0] + all[p..] == all;
      while true
        invariant k0 <= k < |c| && block == c[k] && 0 <= at < bs && 0 <= n < |str| && fat[..] == d0.fat &&
                  lay == old(lay)
        invariant p + n == Capacity(k, bs) + at && p + n < |all| == Capacity(|c|, bs)
        invariant TouchesOnly(d0, lay, D(), lay, s) && Blocks(D(), lay, s) == all[..p] + str[..n] + all[p + n..]
        decreases |str| - n
      {
        ghost var d := D();
        var m := if |str| - n < bs - at then |str| - n else bs - at;
        InCapacity(k, |c|, bs);
        TouchPiece(d0, lay, d, s, k, at, str[n..n + m]);
        PieceAdded(all, str, p, n, m);
        data[block] := data[block][..at] + str[n..n + m] + data[block][at + m..];
        assert D() == d.(data := d.data[block := d.data[block][..at] + str[n..n + m] + d.data[block][at + m..]]);
        assert D() == d0.(data := data[..]);
        LinkOf(d0.fat, lay, s, k);
        n := n + m;
        if n >= |str| {
          fat[block] := END_OF_FILE;
          return false, k;
        }
        assert IndexOf(offset + n - m, bs) + 1 < BlocksFor(size, bs) by { OneBlockAhead(offset, n - m, k, at, bs); }
        block := fat[block];
        if block == END_OF_FILE {
          return true, k;
        }
        k, at := k + 1, 0;
        InCapacity(k, |c|, bs);
      }
    }

    // ---- k_write ----

    /** Where a write through this table entry starts. */
    function WriteOffset(x: FdEntry): nat
      requires x.entry.Some?
    {
      if x.mode == Append then x.entry.value.size else x.offset
    }

    /** `fd` is open on a file that may be written. */
    predicate IsWritable(fd: int)
      reads fds
    {
      IsOpen(fds[..], fd) && fds[fd].entry.Some? && (fds[fd].entry.value.perm == 2 || fds[fd].entry.value.perm >= 5)
    }

    /**
     `n` is a number of bytes that can be asked for; and for a write through `fd` that starts far
     behind its file, the index of every block up to its end is a 16-bit number.
     */
    predicate IsInRange(fd: int, n: nat)
      reads this, fds
    {
      n < 0x8000_0000 &&
      (IsWritable(fd) ==>
         bs > 0 && (IsFarWrite(fds[fd].entry.value.size, WriteOffset(fds[fd]), bs) ==>
                      IndexOf(WriteOffset(fds[fd]) + n, bs) + 1 < 0x1_0000))
    }

    /** `fd` is writable, and its offset lies in the last block of the file or behind it. */
    predicate IsForward(fd: int)
      reads this, fds
    {
      IsWritable(fd) && bs > 0 && StartsInLastBlock(fds[fd].entry.value.size, WriteOffset(fds[fd]), bs)
    }

    /** `fd` is writable, and its offset lies in the last block of the file or in the one behind it. */
    predicate IsTail(fd: int)
      reads this, fds
    {
      IsWritable(fd) && bs > 0 && IsTailWrite(fds[fd].entry.value.size, WriteOffset(fds[fd]), bs)
    }

    /**
     How many bytes fit on the volume from where a write through `fd` starts; not positive if that
     place cannot be reached.
     */
    function RoomFor(fd: int): int
      requires IsWritable(fd) && bs > 0
      reads this, fat, fds
    {
      Room(fds[fd].entry.value.size, WriteOffset(fds[fd]), |FreeBlocks(fat[..])|, bs)
    }

    /** A write of `n` bytes through `fd` runs out of blocks of the file before it comes to the last one's end. */
    predicate RunsOut(fd: int, n: nat)
      requires IsWritable(fd) && bs > 0
      reads this, fds
    {
      !IsForward(fd) && n > Room(fds[fd].entry.value.size, WriteOffset(fds[fd]), 0, bs)
    }

    /** A write of `n` bytes through `fd` keeps the volume consistent. */
    predicate IsSafe(fd: int, n: nat)
      requires IsWritable(fd) && bs > 0
      reads this, fat, fds
    {
      IsSafeWrite(fds[fd].entry.value.size, WriteOffset(fds[fd]), n, |FreeBlocks(fat[..])|, bs)
    }

    /** What a write that returns `r` does to the table of open files. */
    twostate predicate IsEntered(fd: int, r: nat, now: U64)
      requires old(IsWritable(fd)) && IsOpen(fds[..], fd)
      reads this, fds
    {
      var end := old(WriteOffset(fds[fd])) + r;
      && fds[..] == old(fds[..])[fd := fds[fd]] && fds[fd].entry.Some? && fds[fd].offset == end
      && fds[fd] == old(fds[fd]).(offset := fds[fd].offset, entry := fds[fd].entry)
      && var e := fds[fd].entry.value;
         e == old(fds[fd].entry.value).(size := e.size, mtime := now, firstBlock := e.firstBlock) && e.size == end
    }

    /** What a tail write that returns `r` does to the file, the directory and the free space. */
    twostate predicate IsWritten(fd: int, str: seq<Byte>, r: nat)
      requires old(IsTail(fd)) && IsOpen(fds[..], fd) && r <= |str|
      reads this, fat, data, fds
    {
      var offset := old(WriteOffset(fds[fd]));
      var s := old(fds[fd].slot);
      && OpenBytes(fd) == Resize(old(OpenBytes(fd)), offset) + str[..r]
      && OthersKept(old(D()), old(lay), D(), lay, s) && lay.root == old(lay.root)
      && Files(D(), lay) == (if IsLive(old(fds[fd].entry.value))
                             then old(Files(D(), lay))[old(NameOf(D(), fds[fd].slot)) := OpenBytes(fd)]
                             else old(Files(D(), lay)))
      && bs > 0 && |ChainOf(lay, s)| == BlocksFor(offset + r, bs)
      && |FreeBlocks(fat[..])| == old(|FreeBlocks(fat[..])|) +
        old(BlocksFor(fds[fd].entry.value.size, bs)) - BlocksFor(offset + r, bs)
    }

    /** What a write that could not place any byte does: nothing that a reader could see. */
    twostate predicate IsUntouched(fd: int)
      requires 0 <= fd < fds.Length
      reads this, fat, data, fds
    {
      && fds[..] == old(fds[..]) && fat[..] == old(fat[..]) && OpenBytes(fd) == old(OpenBytes(fd))
      && OthersKept(old(D()), old(lay), D(), lay, fds[fd].slot) && Files(D(), lay) == old(Files(D(), lay))
      && lay.root == old(lay.root)
    }

    /** What a write that ran out of blocks does: the file is overwritten to its end, one block behind the offset. */
    twostate predicate IsOverlaid(fd: int, str: seq<Byte>)
      requires old(IsWritable(fd)) && IsOpen(fds[..], fd)
      reads this, fat, data, fds
    {
      var p := old(WriteOffset(fds[fd])) + bs;
      && fds[..] == old(fds[..]) && fat[..] == old(fat[..]) && OthersKept(old(D()), old(lay), D(), lay, fds[fd].slot)
      && lay.root == old(lay.root)
      && |old(OpenBytes(fd))| <= p + |str| && OpenBytes(fd) == Overlaid(old(OpenBytes(fd)), p, str)
      && Files(D(), lay) == (if IsLive(fds[fd].entry.value)
                             then old(Files(D(), lay))[old(NameOf(D(), fds[fd].slot)) := OpenBytes(fd)]
                             else old(Files(D(), lay)))
    }

    /** The end of a write: the entry with its new size goes to the table and to the directory. */
    method StoreSize(fd: int, e: Entry, ghost s: Slot, ghost d: Disk, ghost l: Layout, ghost got: seq<Byte>)
      requires s in lay.chains && lay.chains[s] != [] && e.firstBlock == lay.chains[s][0] != 0 && bs == d.bs && bs > 0
      requires IsOpen(fds[..], fd) && fds[fd].slot == s && VolumeOk(d, l) && TableOk(d, l, fds[..]) &&
               TouchesOnly(d, l, D(), lay, s)
      requires fds[fd].entry.Some? && e.name == fds[fd].entry.value.name && e.size > 0
      modifies data, fds
      ensures fds[..] == old(fds[..])[fd := old(fds[fd]).(entry := Some(e), offset := e.size)]
      ensures |lay.chains[s]| == BlocksFor(e.size, bs) && |got| == e.size <= old(|Blocks(D(), lay, s)|) &&
              old(Blocks(D(), lay, s))[..e.size] == got ==>
              && Valid() && OthersKept(d, l, D(), lay, s) && OpenBytes(fd) == got
              && Files(D(), lay) == if IsLive(e) then Files(d, l)[NameOf(d, s) := got] else Files(d, l)
      ensures |lay.chains[s]| < BlocksFor(e.size, bs) ==> !IsConsistent()
    {
      hide VolumeOk, TableOk, TouchesOnly, Blocks, FileBytes, EntryOf, IsSlot, BlocksFor, Files, OthersKept, NameOf;
      ghost var t := fds[..];
      OpenFile(d, l, t, fd);
      var x := fds[fd].(entry := Some(e), offset := e.size);
      if |lay.chains[x.slot]| == BlocksFor(e.size, bs) && |got| == e.size <= |Blocks(D(), lay, x.slot)| &&
        Blocks(D(), lay, x.slot)[..e.size] == got {
        Written(d, l, t, D(), lay, fd, x, x.slot, e, got);
      }
      StoredEntry(d, l, D(), lay, x.slot, e);
      NotInRoot(fat[..], lay, s, 0);
      WriteRootDirEntry(e, x.slot);
      fds[fd] := x;
      assert fds[..] == t[fd := x];
      if |lay.chains[x.slot]| < BlocksFor(e.size, bs) {
        InRoot(D(), lay, s);
        NoLayoutFits(D(), lay.root, x.slot, lay.chains[s]);
      }
    }

    /** The numbers of a write in range are those that the code computes with. */
    lemma RangeFits(fd: int, n: nat)
      requires Valid() && IsWritable(fd) && IsInRange(fd, n)
      ensures WriteOffset(fds[fd]) + n < 0x1_0000_0000 && IndexOf(WriteOffset(fds[fd]), bs) + 1 < 0x1_0000
    {
      hide VolumeOk, TableOk, EntryOf, BlocksFor, IndexOf, FatOk;
      BlockSizeOf(D(), lay);
      OpenFile(D(), lay, fds[..], fd);
      SizeInRange(D(), lay, fds[fd].slot);
      NumbersFit(fds[fd].entry.value.size, WriteOffset(fds[fd]), n, bs);
    }

    /** The part of `k_write` behind its checks, for an offset not before the last block. */
    method WriteForward(fd: int, str: seq<Byte>, now: U64) returns (n: nat, overrun: bool)
      requires Valid() && IsForward(fd) && IsInRange(fd, |str|) && str != []
      modifies fat, data, fds, `lay
      ensures overrun <==> !ScanStaysInside(fat.Length) && |str| > old(RoomFor(fd))
      ensures !overrun ==>
                n == if |str| <= old(RoomFor(fd)) then |str| else if old(RoomFor(fd)) > 0 then old(RoomFor(fd)) else 0
      ensures !overrun && n > 0 ==> n <= |str| && IsOpen(fds[..], fd) && IsEntered(fd, n, now)
      ensures !overrun && n > 0 && old(IsTail(fd)) ==> Valid() && IsWritten(fd, str, n)
      ensures !overrun && n > 0 && !old(IsTail(fd)) ==> !IsConsistent()
      ensures !overrun && n == 0 ==>
                if |old(FreeBlocks(fat[..]))| == 0 then Valid() && IsUntouched(fd) else !IsConsistent()
    {
      hide VolumeOk, TableOk, TouchesOnly, FreeBlocks, Blocks, FileBytes, EntryOf, IsSlot, IndexOf, Resize, BlocksFor,
        IsTailWrite, Files, OthersKept, NameOf, Room, StartsInLastBlock, ScanStaysInside;
      ghost var d, l, t := D(), lay, fds[..];
      OpenFile(d, l, t, fd);
      var x := fds[fd];
      var e: Entry := x.entry.value;
      var size, offset := e.size, WriteOffset(x);
      RangeFits(fd, |str|);
      ghost var bytes := FileBytes(d, l, x.slot);
      var first;
      first, n, overrun := WriteBlocks(e.firstBlock, size, offset, str, x.slot, d, l, bytes);
      if overrun {
        return;
      }
      if n == 0 {
        if e.firstBlock == 0 {
          x := x.(entry := Some(e.(firstBlock := first)));
          fds[fd] := x;
        }
        assert fds[..] == t[fd := x];
        NothingWritten(d, l, t, D(), lay, fds[..], fd, x, x.slot);
        if |FreeBlocks(d.fat)| != 0 && e.firstBlock != 0 {
          NeverWritten(d, l, t, D(), lay, fd, x.slot);
        }
        return;
      }
      assert lay.root == l.root by { TouchedFacts(d, l, D(), lay, x.slot); }
      e := e.(firstBlock := first, mtime := now, size := offset + n);
      StoreSize(fd, e, x.slot, d, l, if IsTailWrite(size, offset, bs) then Resize(bytes, offset) + str[..n] else []);
    }

    /** The walk of an early write: one block too far. */
    method SeekEarly(first: nat, offset: nat, size: nat, ghost s: Slot) returns (block: nat, oib: nat)
      requires VolumeOk(D(), lay) && bs > 0 && s in lay.chains && IsSlot(D(), lay, s) && IsOwning(EntryOf(D(), s))
      requires size == EntryOf(D(), s).size && lay.chains[s] != [] && first == lay.chains[s][0] &&
               !StartsInLastBlock(size, offset, bs)
      modifies data
      ensures D() == old(D()) && |lay.chains[s]| == BlocksFor(size, bs) && IndexOf(offset, bs) + 1 < |lay.chains[s]|
      ensures block == lay.chains[s][IndexOf(offset, bs) + 1] && oib < bs
      ensures offset + bs == Capacity(IndexOf(offset, bs) + 1, bs) + oib
    {
      hide VolumeOk, EntryOf, IsSlot, Blocks, FileBytes, BlocksFor, IsChain, HasBlocks;
      ghost var c := lay.chains[s];
      BeforeWrite(D(), lay, s);
      StartOf(bs, lay, s);
      LayoutOf(D(), lay);
      ChainTouched(D(), lay, s);
      var j;
      j, oib := SplitOffset(offset);
      assert (j + 1) * bs == j * bs + bs;
      var deep;
      block, deep := WalkToOffset(first, j + 1, size, c);
    }

    /** The end of an early write: the file has one block more than its new size needs. */
    method StoreEarlySize(fd: int, e: Entry, ghost s: Slot, ghost d: Disk, ghost k: nat)
      requires bs > 0 && VolumeOk(d, lay) && TableOk(d, lay, fds[..]) && IsOpen(fds[..], fd) && fds[fd].slot == s &&
               bs == d.bs
      requires s in lay.chains && k < |lay.chains[s]| && e.firstBlock == lay.chains[s][0] && BlocksFor(e.size, bs) == k
      requires fds[fd].entry.Some? && e.name == fds[fd].entry.value.name
      requires lay.chains[s][k] < |d.fat| && fat[..] == d.fat[lay.chains[s][k] := END_OF_FILE] &&
               TouchesOnly(d, lay, d.(data := data[..]), lay, s)
      modifies data, fds
      ensures !IsConsistent() && fds[..] == old(fds[..])[fd := old(fds[fd]).(entry := Some(e), offset := e.size)]
    {
      hide VolumeOk, TableOk, TouchesOnly, EntryOf, BlocksFor, FatOk;
      ghost var t := fds[..];
      OpenFile(d, lay, t, fd);
      var x := fds[fd].(entry := Some(e), offset := e.size);
      StoredEntry(d, lay, d.(data := data[..]), lay, s, e);
      LayoutOf(d, lay);
      NotInRoot(d.fat, lay, s, k);
      CutChain(d.fat, lay.chains[s], k, lay.root);
      WriteRootDirEntry(e, x.slot);
      fds[fd] := x;
      assert fds[..] == t[fd := x];
      SameData(D(), WithEntry(d.(data := old(data[..])), s, e), s);
      NoLayoutFits(D(), lay.root, s, lay.chains[s][..k + 1]);
    }

    /** The part of `k_write` behind its checks, for an offset before the last block. */
    method WriteEarly(fd: int, str: seq<Byte>, now: U64) returns (r: int)
      requires Valid() && IsWritable(fd) && !IsForward(fd) && IsInRange(fd, |str|) && str != []
      modifies fat, data, fds
      ensures r == if old(RunsOut(fd, |str|)) then EK_WRITE_GET_BLOCK_FAILED else |str|
      ensures old(RunsOut(fd, |str|)) ==> Valid() && IsOpen(fds[..], fd) && IsOverlaid(fd, str)
      ensures !old(RunsOut(fd, |str|)) ==> !IsConsistent() && IsOpen(fds[..], fd) && IsEntered(fd, |str|, now)
    {
      hide VolumeOk, TableOk, TouchesOnly, FreeBlocks, Blocks, FileBytes, EntryOf, IsSlot, IndexOf, BlocksFor,
        IsTailWrite, Files, OthersKept, NameOf, Capacity, Overlaid;
      ghost var d, t := D(), fds[..];
      OpenFile(d, lay, t, fd);
      var x := fds[fd];
      var e: Entry := x.entry.value;
      var size, offset := e.size, WriteOffset(x);
      RangeFits(fd, |str|);
      BeforeSteps(d, lay, x.slot);
      LandsAtOffset(size, offset, bs);
      var block, oib := SeekEarly(e.firstBlock, offset, size, x.slot);
      ghost var k;
      var failed;
      failed, k := CopyThrough(block, oib, str, offset, size, IndexOf(offset, bs) + 1, x.slot, d);
      if failed {
        RanOut(d, lay, t, D(), fd, offset + bs, str);
        return EK_WRITE_GET_BLOCK_FAILED;
      }
      e := e.(mtime := now, size := offset + |str|);
      OneBlockMore(offset + bs + |str|, k, bs);
      StoreEarlySize(fd, e, x.slot, d, k);
      return |str|;
    }

    /** Writing. An empty write does nothing; every other one is told apart by where it starts. */
    method KWrite(fd: int, str: seq<Byte>, now: U64) returns (r: int, overrun: bool)
      requires Valid() && (fd < 0 || fd >= 3) && IsInRange(fd, |str|)
      modifies fat, data, fds, `lay
      // errors
      ensures r == EK_WRITE_FD_OUT_OF_RANGE <==> fd < 0 || fd >= fds.Length
      ensures r == EK_WRITE_FD_NOT_IN_TABLE <==> 0 <= fd < fds.Length && !old(IsOpen(fds[..], fd))
      ensures r == EK_WRITE_WRONG_PERMISSIONS <==> old(IsOpen(fds[..], fd)) && !old(IsWritable(fd))
      ensures r == EK_WRITE_GET_BLOCK_FAILED <==> old(IsWritable(fd)) && str != [] && old(RunsOut(fd, |str|))
      ensures r >= 0 || r == EK_WRITE_GET_BLOCK_FAILED <==> old(IsWritable(fd))
      ensures !old(IsWritable(fd)) || str == [] ==>
                !overrun && D() == old(D()) && lay == old(lay) && fds[..] == old(fds[..]) && Valid()
      ensures r == EK_WRITE_GET_BLOCK_FAILED ==> !overrun && IsOpen(fds[..], fd) && IsOverlaid(fd, str)
      // from the last block on, the largest prefix that fits is stored
      ensures old(IsWritable(fd)) && str == [] ==> r == 0
      ensures old(IsForward(fd)) && str != [] ==>
                (overrun <==> !ScanStaysInside(fat.Length) && |str| > old(RoomFor(fd)))
      ensures old(IsForward(fd)) && str != [] && !overrun ==>
                r == if |str| <= old(RoomFor(fd)) then |str| else if old(RoomFor(fd)) > 0 then old(RoomFor(fd)) else 0
      ensures old(IsWritable(fd)) && !old(IsForward(fd)) ==> !overrun && (r >= 0 ==> r == |str|)
      ensures !overrun && r > 0 ==> r <= |str| && IsOpen(fds[..], fd) && IsEntered(fd, r, now) && IsWritable(fd)
      ensures old(IsTail(fd)) && !overrun && r > 0 ==> IsWritten(fd, str, r)
      ensures old(IsForward(fd)) && !overrun && r == 0 && str != [] && |old(FreeBlocks(fat[..]))| == 0 ==>
                IsUntouched(fd)
      // the invariant, and exactly when a call breaks it
      ensures old(IsWritable(fd)) && str != [] && !overrun ==>
                if old(IsSafe(fd, |str|)) then Valid() else !IsConsistent()
    {
      hide VolumeOk, TableOk, FreeBlocks, OthersKept, Files, FileBytes, BlocksFor, IsTailWrite, Room, EntryOf, IsSlot,
        StartsInLastBlock, Capacity, LandingAt, Overlaid, IndexOf;
      OpenEntries(D(), lay, fds[..]);
      if fd >= GLOBAL_FD_TABLE_SIZE || fd < 0 {
        return EK_WRITE_FD_OUT_OF_RANGE, false;
      }
      if fds[fd].refs == 0 {
        return EK_WRITE_FD_NOT_IN_TABLE, false;
      }
      var perm := fds[fd].entry.value.perm;
      if perm != 2 && perm < 5 {
        return EK_WRITE_WRONG_PERMISSIONS, false;
      }
      if str == [] {
        return 0, false;
      }
      SafeIff(fds[fd].entry.value.size, WriteOffset(fds[fd]), |str|, |FreeBlocks(fat[..])|, bs);
      if IsForward(fd) {
        r, overrun := WriteForward(fd, str, now);
      } else {
        r := WriteEarly(fd, str, now);
        overrun := false;
      }
    }

    // ---- k_lseek, k_setmode ----

    /** What a seek through this entry returns: the new offset or an error. No seek goes back from where it counts. */
    static function SeekResult(here: nat, size: nat, offset: Int32, whence: int): int
    {
      var to := offset + if whence == F_SEEK_SET then 0 else if whence == F_SEEK_CUR then here else size;
      if to < 0 then EK_LSEEK_NEGATIVE_OFFSET
      else if offset < 0 || to >= 0x1_0000_0000 then EK_LSEEK_OFFSET_OVERFLOW
      else to
    }

    /** A seek by `offset` from a place: forward as far as 32 bits reach, never back. */
    static predicate IsPlaceFrom(place: nat, offset: int, r: int)
    {
      && (r >= 0 <==> offset >= 0 && place + offset < 0x1_0000_0000) && (r >= 0 ==> r == place + offset)
      && (r == -39 <==> place + offset < 0)
      && (r == -40 <==> (offset < 0 && place + offset >= 0) || place + offset >= 0x1_0000_0000)
    }

    /**
     The sum of a place and an offset. The test for overflow is one of unsigned numbers, so that a
     negative offset counts as a large one.
     */
    static method AddOffset(place: U32, offset: Int32) returns (r: int)
      ensures r == SeekResult(place, place, offset, F_SEEK_CUR) == SeekResult(place, place, offset, F_SEEK_END)
    {
      if offset < 0 && 0 - offset > place {
        return EK_LSEEK_NEGATIVE_OFFSET;
      }
      var unsigned := if offset < 0 then offset + 0x1_0000_0000 else offset;
      if 0xFFFF_FFFF - place < unsigned {
        return EK_LSEEK_OFFSET_OVERFLOW;
      }
      return place + offset;
    }

    method KLseek(fd: int, offset: Int32, whence: int) returns (r: int)
      requires Valid()
      modifies fds
      ensures r == if fd < 0 || fd >= fds.Length then EK_LSEEK_FD_OUT_OF_RANGE
                   else if fd < 3 then EK_LSEEK_SPECIAL_FD
                   else if !old(IsOpen(fds[..], fd)) then EK_LSEEK_FD_NOT_IN_TABLE
                   else if whence < F_SEEK_SET || whence > F_SEEK_END then EK_LSEEK_BAD_WHENCE
                   else if old(fds[fd].entry.value.perm) < 4 then EK_LSEEK_WRONG_PERMISSIONS
                   else SeekResult(old(fds[fd].offset), old(fds[fd].entry.value.size), offset, whence)
      // where a seek counts from: the start, the offset or the end; it goes forward or fails
      ensures old(IsOpen(fds[..], fd)) && old(fds[fd].entry.value.perm) >= 4 ==>
                var here, size := old(fds[fd].offset), old(fds[fd].entry.value.size);
                && (whence == 1 ==> r == if offset < 0 then -39 else offset)
                && (whence == 2 ==> IsPlaceFrom(here, offset, r))
                && (whence == 3 ==> IsPlaceFrom(size, offset, r))
      ensures r < 0 ==> fds[..] == old(fds[..])
      ensures r >= 0 ==>
                r < 0x1_0000_0000 && old(IsOpen(fds[..], fd)) &&
                  fds[..] == old(fds[..])[fd := old(fds[fd]).(offset := r)]
      ensures Valid()
    {
      hide VolumeOk, TableOk, EntryOf;
      OpenEntries(D(), lay, fds[..]);
      if fd >= GLOBAL_FD_TABLE_SIZE || fd < 0 {
        return EK_LSEEK_FD_OUT_OF_RANGE;
      }
      if fd < 3 {
        return EK_LSEEK_SPECIAL_FD;
      }
      if fds[fd].refs == 0 {
        return EK_LSEEK_FD_NOT_IN_TABLE;
      }
      if whence != F_SEEK_SET && whence != F_SEEK_CUR && whence != F_SEEK_END {
        return EK_LSEEK_BAD_WHENCE;
      }
      var x := fds[fd];
      if x.entry.value.perm < 4 {
        return EK_LSEEK_WRONG_PERMISSIONS;
      }
      if whence == F_SEEK_SET {
        r := if offset < 0 then EK_LSEEK_NEGATIVE_OFFSET else offset;
      } else {
        r := AddOffset(if whence == F_SEEK_CUR then x.offset else x.entry.value.size, offset);
      }
      if r < 0 {
        return;
      }
      SharedTableOk(D(), lay, fds[..], fd, x.(offset := r));
      ghost var t := fds[..];
      fds[fd] := x.(offset := r);
      assert fds[..] == t[fd := fds[fd]];
    }

    /** Sets the mode of an entry of the table, the special ones included. */
    method KSetMode(fd: nat, mode: int) returns (r: int)
      requires fds.Length == GLOBAL_FD_TABLE_SIZE
      modifies fds
      ensures r == if fd >= fds.Length then EK_SETMODE_FD_OUT_OF_RANGE
                   else if old(fds[fd].refs) == 0 then EK_SETMODE_FD_NOT_IN_USE
                   else if mode < F_READ || mode > F_APPEND then EK_SETMODE_BAD_MODE else 0
      ensures r != 0 ==> fds[..] == old(fds[..])
      ensures r == 0 ==>
                fds[..] == old(fds[..])[fd := old(fds[fd]).(mode := fds[fd].mode)] && NumberOf(fds[fd].mode) == mode
      ensures (Valid() <==> old(Valid())) && (IsConsistent() <==> old(IsConsistent()))
    {
      hide VolumeOk, TableOk;
      if fd >= GLOBAL_FD_TABLE_SIZE {
        return EK_SETMODE_FD_OUT_OF_RANGE;
      }
      if fds[fd].refs <= 0 {
        return EK_SETMODE_FD_NOT_IN_USE;
      }
      if mode != F_READ && mode != F_WRITE && mode != F_APPEND {
        return EK_SETMODE_BAD_MODE;
      }
      ghost var t := fds[..];
      fds[fd] := fds[fd].(mode := if mode == F_READ then Read else if mode == F_WRITE then Write else Append);
      assert fds[..] == t[fd := fds[fd]];
      ghost var d := D();
      forall l ensures TableOk(d, l, fds[..]) <==> TableOk(d, l, t) {
        ModeTableOk(d, l, t, fd, fds[fd].mode);
      }
      assert old(IsConsistent()) <==> exists l :: VolumeOk(d, l) && TableOk(d, l, t);
      assert IsConsistent() <==> exists l :: VolumeOk(d, l) && TableOk(d, l, fds[..]);
      return 0;
    }

    // ---- mkfs and mount ----

    /** A new volume, mounted: an empty directory, and every other block free. */
    constructor (blocksInFat: nat, config: nat)
      requires 1 <= blocksInFat <= 32 && config <= 4
      ensures Valid() && fresh(fat) && fresh(data) && fresh(fds)
      ensures bs == BlockSizeOfConfig(config) && fat.Length == EntriesInFat(blocksInFat, config)
      ensures bs == 256 * PowerOfTwo(config) && fat.Length == 128 * PowerOfTwo(config) * blocksInFat
      ensures fat.Length > 0 && fat[0] == FirstEntry(blocksInFat, config) == 256 * blocksInFat + config
      ensures Files(D(), lay) == map[] && lay.root == [1] && (forall f :: 3 <= f < fds.Length ==> fds[f].refs == 0)
      ensures forall b :: b in FreeBlocks(fat[..]) <==> 2 <= b < Limit(fat[..])
    {
      EntriesBounds(blocksInFat, config);
      BlockSizeIs(config);
      SizesAre(blocksInFat, config);
      var size := BlockSizeOfConfig(config);
      var entries := EntriesInFat(blocksInFat, config);
      var first := FirstEntry(blocksInFat, config);
      bs := size;
      fat := new U16[entries](i => if i == 0 then first else if i == 1 then END_OF_FILE else 0);
      data := new seq<Byte>[entries](_ => Zeros(size));
      fds := new FdEntry[GLOBAL_FD_TABLE_SIZE](i => FdEntry(if i < 3 then 1 else 0, None, Slot(0, 0), Read, 0));
      lay := EmptyLayout(entries);
      new;
      hide VolumeOk, TableOk, Files;
      EmptyVolumeOk(D());
      FreshTableOk(D(), fds[..]);
    }
  }
}
