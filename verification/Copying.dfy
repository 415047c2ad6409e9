/** The `cp` command of the PennFAT shell, from one file of the volume to another. */
module Copying {
  import opened Options
  import opened Words
  import opened DirectoryEntries
  import opened FatChains
  import opened BlockContents
  import opened Volume
  import opened RootDirectory
  import opened VolumeSteps
  import opened Writing
  import opened PennFat
  import opened SpaceAccounting
  import opened DirectorySpace

  /** How much of a text of `n` bytes fits into `space` blocks. */
  ghost function Fitting(n: nat, space: nat, bs: nat): (k: nat)
    ensures k <= n
  {
    if n <= Capacity(space, bs) then n else Capacity(space, bs)
  }

  /** A copy of `text` is under way: `i` bytes have been read, and what fits of them is in the destination. */
  ghost predicate IsCopying(fs: FileSystem, a: int, b: int, text: seq<Byte>, i: nat, space: nat)
    reads fs, fs.fat, fs.data, fs.fds
  {
    && fs.Valid() && a != b && IsOpen(fs.fds[..], a) && IsOpen(fs.fds[..], b) && fs.fds[a].slot != fs.fds[b].slot
    && fs.fds[a].entry.Some? && fs.fds[a].entry.value.perm >= 4 && IsLive(fs.fds[a].entry.value)
    && i <= |text| && fs.fds[a].offset == i && fs.OpenBytes(a) == text
    && fs.IsWritable(b) && fs.fds[b].mode == Write && IsLive(fs.fds[b].entry.value)
    && var k := Fitting(i, space, fs.bs);
       && fs.fds[b].offset == k == fs.fds[b].entry.value.size && fs.OpenBytes(b) == text[..k]
       && BlocksFor(k, fs.bs) + |FreeBlocks(fs.fat[..])| == space
  }

  lemma OpenName(d: Disk, lay: Layout, fds: seq<FdEntry>, f: int)
    requires VolumeOk(d, lay) && TableOk(d, lay, fds) && IsOpen(fds, f)
    ensures fds[f].entry.Some? && NameOf(d, fds[f].slot) == StringOf(fds[f].entry.value.name)
    ensures IsSlot(d, lay, fds[f].slot) && !IsEndMarker(d, fds[f].slot)
  {
  }

  lemma OtherKept(d: Disk, lay: Layout, d': Disk, lay': Layout, s: Slot, t: Slot)
    requires OthersKept(d, lay, d', lay', s) && t != s && IsSlot(d, lay, t) && !IsEndMarker(d, t)
    ensures FileBytes(d', lay', t) == FileBytes(d, lay, t) && EntryOf(d', t) == EntryOf(d, t) &&
            NameOf(d', t) == NameOf(d, t)
  {
  }

  /** What is written behind the bytes that fitted so far. */
  lemma Continued(text: seq<Byte>, i: nat, buf: seq<Byte>, w: nat, space: nat, bs: nat)
    requires i <= |text| && buf == ReadSlice(text, i, 1024) && buf != []
    requires var room := Capacity(space, bs) - Fitting(i, space, bs);
             w == if |buf| <= room then |buf| else if room > 0 then room else 0
    ensures i + |buf| <= |text| && w <= |buf| && Fitting(i, space, bs) + w == Fitting(i + |buf|, space, bs)
    ensures var k := Fitting(i, space, bs); Resize(text[..k], k) + buf[..w] == text[..k + w]
  {
    hide Capacity;
    var k := Fitting(i, space, bs);
    assert Resize(text[..k], k) == text[..k];
    if w > 0 {
      assert k == i && buf == text[i..i + |buf|];
      assert buf[..w] == text[k..k + w];
    }
    assert text[..k] + text[k..k + w] == text[..k + w];
  }

  lemma FitsInSpace(i: nat, space: nat, bs: nat)
    ensures Fitting(i, space, bs) <= Capacity(space, bs) && Fitting(0, space, bs) == 0
  {
  }

  lemma ReadEnds(text: seq<Byte>, i: nat)
    requires i <= |text|
    ensures i + |ReadSlice(text, i, 1024)| <= |text| && |ReadSlice(text, i, 1024)| <= 1024 &&
            (ReadSlice(text, i, 1024) == [] <==> i == |text|)
  {
  }

  /** The descriptor is open on a named file and stands at its end. */
  ghost predicate IsAtEnd(fs: FileSystem, b: int, k: nat)
    reads fs, fs.fds
  {
    IsOpen(fs.fds[..], b) && fs.fds[b].entry.Some? && IsLive(fs.fds[b].entry.value) && fs.fds[b].mode == Write &&
      fs.fds[b].offset == k == fs.fds[b].entry.value.size
  }

  /** A write at the end of a file; it is refused if the file may not be written. */
  method WriteOut(fs: FileSystem, b: int, buf: seq<Byte>, now: U64, ghost k: nat, ghost space: nat)
    returns (r: int, faulted: bool)
    requires fs.Valid() && IsAtEnd(fs, b, k) && k <= Capacity(space, fs.bs) && buf != []
    requires |buf| < 0x8000_0000
    requires fs.IsWritable(b) ==> BlocksFor(k, fs.bs) + |FreeBlocks(fs.fat[..])| == space
    requires NameOf(fs.D(), fs.fds[b].slot) in Files(fs.D(), fs.lay) &&
             Files(fs.D(), fs.lay)[NameOf(fs.D(), fs.fds[b].slot)] == fs.OpenBytes(b)
    modifies fs`lay, fs.fat, fs.data, fs.fds
    ensures !old(fs.IsWritable(b)) ==>
              r < 0 && !faulted && fs.Valid() && fs.D() == old(fs.D()) && fs.lay == old(fs.lay) &&
                fs.fds[..] == old(fs.fds[..])
    ensures faulted ==> !ScanStaysInside(fs.fat.Length) && k + |buf| > Capacity(space, fs.bs)
    ensures old(fs.IsWritable(b)) && !faulted ==>
              && 0 <= r <= |buf| && fs.Valid() && fs.IsWritable(b)
              && r == (if k + |buf| <= Capacity(space, fs.bs) then |buf| else Capacity(space, fs.bs) - k)
              && fs.OpenBytes(b) == Resize(old(fs.OpenBytes(b)), k) + buf[..r]
              && fs.fds[..] == old(fs.fds[..])[b := fs.fds[b]] && IsAtEnd(fs, b, k + r)
              && fs.fds[b] == old(fs.fds[b]).(offset := k + r, entry := fs.fds[b].entry)
              && fs.fds[b].entry.value.name == old(fs.fds[b].entry.value.name)
              && BlocksFor(k + r, fs.bs) + |FreeBlocks(fs.fat[..])| == space
              && OthersKept(old(fs.D()), old(fs.lay), fs.D(), fs.lay, fs.fds[b].slot)
              && var name := old(NameOf(fs.D(), fs.fds[b].slot));
                 Files(fs.D(), fs.lay) == old(Files(fs.D(), fs.lay))[name := fs.OpenBytes(b)]
  {
    hide VolumeOk, TableOk, EntryOf, Files, FileBytes, FreeBlocks, OthersKept, IsTailWrite, IsSlot, NameOf, IndexOf,
      BlocksFor, StartsInLastBlock, Capacity, Room, IsSafeWrite, Overlaid, ScanStaysInside;
    AppendIsTail(k, |FreeBlocks(fs.fat[..])|, fs.bs);
    TailOrFar(k, k, fs.bs);
    if fs.IsWritable(b) {
      assert fs.IsTail(b) && fs.IsForward(b) && fs.IsSafe(b, |buf|);
      assert fs.RoomFor(b) == Capacity(space, fs.bs) - k;
      assert |fs.OpenBytes(b)| == k by {
        OpenFile(fs.D(), fs.lay, fs.fds[..], b);
        FileSize(fs.D(), fs.lay, fs.fds[b].slot);
      }
    }
    r, faulted := fs.KWrite(b, buf, now);
  }

  /**
   A copy that writes nothing: the source may not be read, or has no bytes, as one that is the
   destination too, or the destination may not be written.
   */
  ghost predicate IsStuck(fs: FileSystem, a: int, b: int, text: seq<Byte>)
    reads fs, fs.fat, fs.data, fs.fds
  {
    && fs.Valid() && IsOpen(fs.fds[..], a) && fs.fds[a].entry.Some? && IsLive(fs.fds[a].entry.value)
    && fs.fds[a].offset == 0 && fs.OpenBytes(a) == text && IsAtEnd(fs, b, 0)
    && (fs.fds[a].entry.value.perm < 4 || text == [] || !fs.IsWritable(b)) && (a == b ==> text == [])
  }

  /** Both files are open under names. */
  ghost predicate AreOpen(fs: FileSystem, a: int, b: int)
    reads fs, fs.fat, fs.data, fs.fds
  {
    && fs.Valid() && IsOpen(fs.fds[..], a) && IsOpen(fs.fds[..], b)
    && fs.fds[a].entry.Some? && IsLive(fs.fds[a].entry.value) && fs.fds[b].entry.Some? && IsLive(fs.fds[b].entry.value)
  }

  /** The state of the loop, for a copy that works and for one that is stuck. */
  ghost predicate IsAt(fs: FileSystem, a: int, b: int, text: seq<Byte>, i: nat, space: nat, works: bool)
    reads fs, fs.fat, fs.data, fs.fds
  {
    if works then IsCopying(fs, a, b, text, i, space) else i == 0 && IsStuck(fs, a, b, text)
  }

  /** One round of the loop: up to 1024 bytes are read and what fits of them is written. */
  method CopyOnce(fs: FileSystem, a: int, b: int, now: U64, ghost text: seq<Byte>, ghost i: nat, ghost space: nat,
                  ghost works: bool)
    returns (more: bool, failed: bool, faulted: bool, ghost i': nat)
    requires IsAt(fs, a, b, text, i, space, works)
    modifies fs`lay, fs.fat, fs.data, fs.fds
    ensures faulted ==> works && !ScanStaysInside(fs.fat.Length) && |text| > Capacity(space, fs.bs)
    ensures !faulted && works ==> i <= i' && IsCopying(fs, a, b, text, i', space) && !failed
    ensures !faulted && works ==> if more then i < i' else i' == |text|
    ensures !works ==> !more && i' == 0 && AreOpen(fs, a, b)
    ensures !works ==> (failed <==> old(fs.fds[a].entry.value.perm) >= 4 && text != [])
    ensures !faulted && works ==>
              var name := old(NameOf(fs.D(), fs.fds[b].slot));
              Files(fs.D(), fs.lay) == old(Files(fs.D(), fs.lay))[name := fs.OpenBytes(b)]
    ensures !works ==> Files(fs.D(), fs.lay) == old(Files(fs.D(), fs.lay))
    ensures !faulted ==> NameOf(fs.D(), fs.fds[b].slot) == old(NameOf(fs.D(), fs.fds[b].slot))
    ensures !faulted ==> forall g :: 0 <= g < fs.fds.Length ==> fs.fds[g].refs == old(fs.fds[g].refs)
  {
    hide VolumeOk, TableOk, EntryOf, Files, FileBytes, FreeBlocks, OthersKept, Resize, IsSlot, NameOf, BlocksFor,
      Capacity, ReadSlice, Fitting;
    FitsInSpace(i, space, fs.bs);
    ReadEnds(text, i);
    LiveOpenFile(fs.D(), fs.lay, fs.fds[..], b);
    OpenName(fs.D(), fs.lay, fs.fds[..], a);
    OpenName(fs.D(), fs.lay, fs.fds[..], b);
    var r, buf := fs.KRead(a, 1024);
    i' := i + |buf|;
    if r <= 0 {
      return false, false, false, if works then i' else 0;
    }
    ghost var k := Fitting(i, space, fs.bs);
    ghost var d, l := fs.D(), fs.lay;
    var w;
    w, faulted := WriteOut(fs, b, buf, now, k, space);
    if faulted {
      return true, false, true, i';
    }
    if w < 0 {
      return false, true, false, i;
    }
    Continued(text, i, buf, w, space, fs.bs);
    OpenName(fs.D(), fs.lay, fs.fds[..], b);
    OtherKept(d, l, fs.D(), fs.lay, fs.fds[b].slot, fs.fds[a].slot);
    return true, false, false, i';
  }

  ghost predicate NoneOpen(fs: FileSystem)
    reads fs, fs.fds
  {
    forall f :: 3 <= f < fs.fds.Length ==> fs.fds[f].refs == 0
  }

  /** A file found by name: its entry, its bytes, its size. */
  lemma NamedFile(d: Disk, lay: Layout, fds: seq<FdEntry>, f: int, n: CString)
    requires VolumeOk(d, lay) && TableOk(d, lay, fds) && IsOpen(fds, f) && IsLiveSlot(d, lay, fds[f].slot) &&
             NameOf(d, fds[f].slot) == n
    ensures IsSlot(d, lay, fds[f].slot) && !IsEndMarker(d, fds[f].slot) &&
            fds[f].entry == Some(EntryOf(d, fds[f].slot)) && IsLive(EntryOf(d, fds[f].slot))
    ensures n in Files(d, lay) && Files(d, lay)[n] == FileBytes(d, lay, fds[f].slot)
    ensures |FileBytes(d, lay, fds[f].slot)| == EntryOf(d, fds[f].slot).size
    ensures forall g :: IsOpen(fds, g) && fds[g].slot == fds[f].slot ==> g == f
  {
    hide FatOk, EndMarked, NamesOk, FilesOk, TableOk, EntryOf, Files, FileBytes;
    OpenFile(d, lay, fds, f);
    FileAt(d, lay, fds[f].slot);
    FileSize(d, lay, fds[f].slot);
  }

  /** The only descriptors in use are these two; a number that is none stands for nothing. */
  ghost predicate IsOnly(fs: FileSystem, a: int, b: int)
    reads fs, fs.fds
  {
    forall f :: 3 <= f < fs.fds.Length ==> fs.fds[f].refs == (if f == a then 1 else 0) + if f == b then 1 else 0
  }

  /** What an open for writing returns is the same when one file, whichever it is, is open to be read. */
  lemma CodeWithReader(d: Disk, lay: Layout, fds: seq<FdEntry>, fds': seq<FdEntry>, a: int, n: CString)
    requires |fds| == |fds'| == GLOBAL_FD_TABLE_SIZE && 3 <= a < |fds| && fds'[a].mode == Read
    requires forall f :: 3 <= f < |fds| ==> fds[f].refs == 0 && (f != a ==> fds'[f].refs == 0)
    ensures OpenCodeOf(d, lay, fds', n, Write) == OpenCodeOf(d, lay, fds, n, Write)
  {
    hide EntryOf, IsValidFilename, HasName, HasNoPlace, IsLiveSlot, NameOf;
    assert !IsOpen(fds, 3) && !IsOpen(fds', if a == 3 then 4 else 3);
    assert forall g :: IsOpenFile(d, lay, fds', n, g) ==> g == a;
    assert forall g :: !IsOpenFile(d, lay, fds, n, g);
  }

  /** The source is open to be read from its start, and nothing else is. */
  ghost predicate HasSource(fs: FileSystem, a: int, src: CString)
    reads fs, fs.fat, fs.data, fs.fds
  {
    && fs.Valid() && IsOpen(fs.fds[..], a) && IsOnly(fs, a, -1) && fs.fds[a].mode == Read && fs.fds[a].offset == 0
    && IsLiveSlot(fs.D(), fs.lay, fs.fds[a].slot) && NameOf(fs.D(), fs.fds[a].slot) == src
  }

  method OpenSource(fs: FileSystem, src: CString, now: U64, ghost dest: CString) returns (a: int)
    requires fs.Valid() && NoneOpen(fs)
    modifies fs`lay, fs.fat, fs.data, fs.fds
    ensures a >= 0 <==> old(fs.OpenCode(src, Read)) == 0
    ensures fs.Valid() && fs.D() == old(fs.D()) && fs.lay == old(fs.lay)
    ensures if a < 0 then NoneOpen(fs) else HasSource(fs, a, src)
    ensures a >= 0 ==> fs.OpenCode(dest, Write) == old(fs.OpenCode(dest, Write))
  {
    hide VolumeOk, TableOk, EntryOf, Files, FileBytes, FreeBlocks, OthersKept, WouldReuseOpenSlot, HasName, IsSlot,
      IsLiveSlot, NameOf, OpenCodeOf, IsFirstReusable, IsFullDirectory, IsValidFilename, Perms;
    ghost var t := fs.fds[..];
    OpenEntries(fs.D(), fs.lay, t);
    fs.MissingCode(src, Read);
    var faulted;
    a, faulted := fs.KOpen(src, Read, now);
    if a >= 0 {
      CodeWithReader(fs.D(), fs.lay, t, fs.fds[..], a, dest);
    }
  }

  /** The bytes of the source reach the destination: they may be read, and written there. */
  ghost predicate CanCopy(perms: map<CString, Byte>, src: CString, dest: CString)
    requires src in perms
  {
    src != dest && perms[src] >= 4 && (dest in perms ==> perms[dest] == 2 || perms[dest] >= 5)
  }

  /** What is there to be copied, once the destination has been emptied. */
  ghost function TextOf(files: map<CString, seq<Byte>>, src: CString, dest: CString): seq<Byte>
    requires src in files
  {
    if src == dest then [] else files[src]
  }

  lemma SourceOf(fs: FileSystem, a: int, src: CString)
    requires HasSource(fs, a, src)
    ensures fs.fds[a].entry.Some? && IsLive(fs.fds[a].entry.value) && src in Perms(fs.D(), fs.lay) &&
            src in Files(fs.D(), fs.lay)
    ensures fs.fds[a].entry.value.perm == Perms(fs.D(), fs.lay)[src]
    ensures Files(fs.D(), fs.lay)[src] == fs.OpenBytes(a)
    ensures forall g :: IsOpen(fs.fds[..], g) ==> g == a
    ensures !WouldReuseOpenSlot(fs.D(), fs.lay) && IsOpenFile(fs.D(), fs.lay, fs.fds[..], src, a)
  {
    hide VolumeOk, TableOk, EntryOf, Files, FileBytes, Perms, WouldReuseOpenSlot, IsLiveSlot, NameOf;
    NamedFile(fs.D(), fs.lay, fs.fds[..], a, src);
    LayoutOf(fs.D(), fs.lay);
    PermAt(fs.D(), fs.lay, fs.fds[a].slot);
    NoOpenSlotReused(fs.D(), fs.lay, fs.fds[..]);
  }

  /** What the table shows of the two files once the destination is open. */
  lemma DestOpened(d: Disk, lay: Layout, fds: seq<FdEntry>, d': Disk, lay': Layout, fds': seq<FdEntry>, a: int, b: int,
                   src: CString, dest: CString)
    requires VolumeOk(d, lay) && TableOk(d, lay, fds) && VolumeOk(d', lay') && TableOk(d', lay', fds')
    requires IsOpenFile(d, lay, fds, src, a) && forall g :: IsOpen(fds, g) ==> g == a
    requires |fds'| == |fds| && 3 <= b < |fds| && IsTableOpened(d, lay, fds, fds', dest, Write, b)
    requires IsDirectoryOpened(d, lay, d', lay', dest, Write, fds'[b].slot)
    requires (IsOpen(fds, b) ==> IsOpenFile(d, lay, fds, dest, b)) && (IsOpenFile(d, lay, fds, dest, a) ==> a == b)
    ensures a == b <==> src == dest
    ensures src != dest ==> fds'[a] == fds[a] && fds[a].slot != fds'[b].slot
    ensures src != dest ==> FileBytes(d', lay', fds[a].slot) == FileBytes(d, lay, fds[a].slot)
    ensures fds'[b].entry.Some? && fds'[b].entry.value.size == 0 && IsLive(fds'[b].entry.value)
    ensures FileBytes(d', lay', fds'[b].slot) == [] && NameOf(d', fds'[b].slot) == dest
  {
    hide VolumeOk, TableOk, EntryOf, Files, FileBytes, FreeBlocks, OthersKept, HasName, IsSlot, IsFullDirectory,
      IsFirstReusable, Perms, Elements, ChainOf;
    NamedFile(d, lay, fds, a, src);
    assert IsOpen(fds', b);
    NamedFile(d', lay', fds', b, dest);
    if src != dest {
      assert IsOpen(fds', a);
      assert fds'[a].slot != fds'[b].slot;
      OtherKept(d, lay, d', lay', fds'[b].slot, fds[a].slot);
    }
  }

  /** The permissions of the destination, and the space for it. */
  lemma DestSpace(d: Disk, lay: Layout, d': Disk, lay': Layout, dest: CString, x: FdEntry)
    requires VolumeOk(d, lay) && IsDirectoryOpened(d, lay, d', lay', dest, Write, x.slot)
    requires if HasName(d, lay, dest) then IsLiveSlot(d, lay, x.slot) && NameOf(d, x.slot) == dest else true
    requires x.entry.Some? &&
             x.entry.value.perm == if HasName(d, lay, dest) then EntryOf(d, x.slot).perm else 6
    ensures d.bs > 0 && x.entry.value.perm == if dest in Perms(d, lay) then Perms(d, lay)[dest] else 6
    ensures |FreeBlocks(d'.fat)| == SpaceFor(Files(d, lay), dest, |FreeBlocks(d.fat)|, IsFullDirectory(d, lay), d.bs)
  {
    hide VolumeOk, EntryOf, Files, FileBytes, FreeBlocks, OthersKept, HasName, IsFullDirectory, BlocksFor, Perms;
    BlockSizeOf(d, lay);
    FileExists(d, lay, dest);
    PermExists(d, lay, dest);
    if HasName(d, lay, dest) {
      LayoutOf(d, lay);
      FileAt(d, lay, x.slot);
      PermAt(d, lay, x.slot);
      ReleasedSpace(d, lay, x.slot);
    }
  }

  method OpenDest(fs: FileSystem, a: int, dest: CString, now: U64, ghost src: CString,
                  ghost files: map<CString, seq<Byte>>, ghost perms: map<CString, Byte>)
    returns (b: int, faulted: bool)
    requires HasSource(fs, a, src) && files == Files(fs.D(), fs.lay) && perms == Perms(fs.D(), fs.lay)
    requires src in files && src in perms
    modifies fs`lay, fs.fat, fs.data, fs.fds
    ensures b >= 0 <==> old(fs.OpenCode(dest, Write)) == 0
    ensures faulted ==> b < 0 && !ScanStaysInside(fs.fat.Length)
    ensures b < 0 ==> fs.Valid() && fs.D() == old(fs.D()) && fs.lay == old(fs.lay) && IsOnly(fs, a, -1)
    ensures b >= 0 ==> IsAt(fs, a, b, TextOf(files, src, dest), 0, |FreeBlocks(fs.fat[..])|, CanCopy(perms, src, dest))
    ensures b >= 0 ==> AreOpen(fs, a, b) && IsOnly(fs, a, b) && fs.fds[a].entry.value.perm == perms[src]
    ensures b >= 0 ==> NameOf(fs.D(), fs.fds[b].slot) == dest && fs.OpenBytes(b) == []
    ensures b >= 0 ==> Files(fs.D(), fs.lay) == files[dest := []]
    ensures b >= 0 ==>
              |FreeBlocks(fs.fat[..])| == SpaceFor(files, dest, |old(FreeBlocks(fs.fat[..]))|,
                                                   old(IsFullDirectory(fs.D(), fs.lay)), fs.bs)
  {
    hide VolumeOk, TableOk, EntryOf, Files, FileBytes, FreeBlocks, OthersKept, WouldReuseOpenSlot, HasName, IsSlot,
      IsLiveSlot, NameOf, BlocksFor, Capacity, OpenCodeOf, IsFirstReusable, IsFullDirectory, IsValidFilename,
      IsOpenFile, HasNoPlace, Perms, IsDirectoryOpened, SpaceFor, IsAt;
    ghost var d, l, t := fs.D(), fs.lay, fs.fds[..];
    SourceOf(fs, a, src);
    b, faulted := fs.KOpen(dest, Write, now);
    if b >= 0 {
      assert IsOpen(t, b) ==> old(fs.IsOpenAs(dest, b));
      assert IsOpenFile(d, l, t, dest, a) ==> old(fs.IsOpenAs(dest, a));
      DestOpened(d, l, t, fs.D(), fs.lay, fs.fds[..], a, b, src, dest);
      DestSpace(d, l, fs.D(), fs.lay, dest, fs.fds[b]);
      FilesAfterOpen(d, l, fs.D(), fs.lay, dest, fs.fds[b].slot);
      ReadyToCopy(fs, a, b, TextOf(files, src, dest), CanCopy(perms, src, dest));
    }
  }

  lemma ReadyToCopy(fs: FileSystem, a: int, b: int, text: seq<Byte>, works: bool)
    requires AreOpen(fs, a, b) && fs.fds[a].offset == 0 && fs.OpenBytes(a) == text
    requires fs.fds[b].mode == Write && fs.fds[b].offset == 0 == fs.fds[b].entry.value.size && fs.OpenBytes(b) == []
    requires works ==>
               a != b && fs.fds[a].slot != fs.fds[b].slot && fs.fds[a].entry.value.perm >= 4 && fs.IsWritable(b)
    requires !works ==> fs.fds[a].entry.value.perm < 4 || text == [] || !fs.IsWritable(b)
    ensures IsAt(fs, a, b, text, 0, |FreeBlocks(fs.fat[..])|, works)
  {
    hide VolumeOk, TableOk, FileBytes, FreeBlocks, BlocksFor, Capacity;
    BlocksForBounds(0, fs.bs);
  }

  lemma FilesAfterOpen(d: Disk, lay: Layout, d': Disk, lay': Layout, dest: CString, s: Slot)
    requires IsDirectoryOpened(d, lay, d', lay', dest, Write, s)
    ensures Files(d', lay') == Files(d, lay)[dest := []]
  {
  }

  /** The blocks that there are for the destination once it has been emptied or created. */
  ghost function SpaceFor(files: map<CString, seq<Byte>>, dest: CString, free: nat, isFull: bool, bs: nat): int
    requires bs > 0
  {
    if dest in files then free + BlocksFor(|files[dest]|, bs) else free - if isFull then 1 else 0
  }

  method CopyAll(fs: FileSystem, a: int, b: int, now: U64, ghost text: seq<Byte>, ghost space: nat,
                 ghost dest: CString, ghost works: bool)
    returns (failed: bool, faulted: bool)
    requires IsAt(fs, a, b, text, 0, space, works) && IsOnly(fs, a, b)
    requires NameOf(fs.D(), fs.fds[b].slot) == dest && (!works ==> fs.OpenBytes(b) == [])
    modifies fs`lay, fs.fat, fs.data, fs.fds
    ensures faulted ==> !ScanStaysInside(fs.fat.Length)
    ensures !faulted ==> AreOpen(fs, a, b) && IsOnly(fs, a, b)
    ensures !faulted ==> (failed <==> !works && old(fs.fds[a].entry.value.perm) >= 4 && text != [])
    ensures !faulted ==>
              Files(fs.D(), fs.lay) ==
                old(Files(fs.D(), fs.lay))[dest := text[..if works then Fitting(|text|, space, fs.bs) else 0]]
  {
    hide VolumeOk, TableOk, EntryOf, Files, FileBytes, FreeBlocks, NameOf, BlocksFor, Capacity;
    LiveOpenFile(fs.D(), fs.lay, fs.fds[..], b);
    ghost var i: nat := 0;
    var more := true;
    failed, faulted := false, false;
    while more
      invariant works || more ==> IsAt(fs, a, b, text, i, space, works) && !failed
      invariant !works && !more ==> i == 0 && (failed <==> old(fs.fds[a].entry.value.perm) >= 4 && text != [])
      invariant !works && more ==> fs.fds[..] == old(fs.fds[..])
      invariant AreOpen(fs, a, b) && IsOnly(fs, a, b) && (!more && works ==> i == |text|) && !faulted
      invariant NameOf(fs.D(), fs.fds[b].slot) == dest
      invariant Files(fs.D(), fs.lay) == old(Files(fs.D(), fs.lay))[dest := text[..Fitting(i, space, fs.bs)]]
      decreases |text| - i, more
    {
      more, failed, faulted, i := CopyOnce(fs, a, b, now, text, i, space, works);
      if faulted {
        return;
      }
    }
  }

  method CloseBoth(fs: FileSystem, a: int, b: int)
    requires AreOpen(fs, a, b) && IsOnly(fs, a, b)
    modifies fs`lay, fs.fat, fs.data, fs.fds
    ensures fs.Valid() && NoneOpen(fs) && Files(fs.D(), fs.lay) == old(Files(fs.D(), fs.lay))
  {
    hide VolumeOk, TableOk, EntryOf, Files, FileBytes, FreeBlocks, OthersKept;
    var r, crash := fs.KClose(a);
    r, crash := fs.KClose(b);
  }

  /**
   The command. If both files can be opened, `n` bytes of the source reach the destination: all of
   them if they fit into the blocks that are free once the destination has been emptied or created,
   else as many as fit. None of them do if the permissions are against it, and a file copied to
   itself is empty afterwards. Otherwise nothing happens. `ok` says that there is no error to report.
   */
  method Cp(fs: FileSystem, src: CString, dest: CString, now: U64)
    returns (ok: bool, faulted: bool, ghost n: nat, ghost space: nat)
    requires fs.Valid() && NoneOpen(fs)
    modifies fs`lay, fs.fat, fs.data, fs.fds
    ensures faulted ==> !ok && !ScanStaysInside(fs.fat.Length)
    ensures !faulted ==> fs.Valid() && NoneOpen(fs)
    ensures var opens := old(fs.OpenCode(src, Read)) == 0 && old(fs.OpenCode(dest, Write)) == 0;
            var files, perms := old(Files(fs.D(), fs.lay)), old(Perms(fs.D(), fs.lay));
            if !opens then !ok && (!faulted ==> Files(fs.D(), fs.lay) == files)
            else
              && src in files && src in perms && n <= |TextOf(files, src, dest)|
              && space == SpaceFor(files, dest, old(|FreeBlocks(fs.fat[..])|), old(IsFullDirectory(fs.D(), fs.lay)),
                                   fs.bs)
              && n == (if CanCopy(perms, src, dest) then Fitting(|files[src]|, space, fs.bs) else 0)
              && (!faulted ==> Files(fs.D(), fs.lay) == files[dest := TextOf(files, src, dest)[..n]])
              && (!faulted ==> (ok <==> CanCopy(perms, src, dest) || src == dest || perms[src] < 4 || files[src] == []))
  {
    hide VolumeOk, TableOk, EntryOf, Files, FileBytes, FreeBlocks, OthersKept, WouldReuseOpenSlot, HasName, IsSlot,
      IsLiveSlot, NameOf, BlocksFor, Capacity, IsFullDirectory, HasNoPlace, IsValidFilename, Perms, OpenCodeOf, IsAt,
      SpaceFor, Fitting;
    ok, faulted, n, space := false, false, 0, 0;
    var a := OpenSource(fs, src, now, dest);
    if a < 0 {
      return;
    }
    var b, r;
    SourceOf(fs, a, src);
    ghost var files, perms := Files(fs.D(), fs.lay), Perms(fs.D(), fs.lay);
    b, faulted := OpenDest(fs, a, dest, now, src, files, perms);
    if b < 0 {
      var crash;
      OpenEntries(fs.D(), fs.lay, fs.fds[..]);
      r, crash := fs.KClose(a);
      return;
    }
    ghost var text, works := TextOf(files, src, dest), CanCopy(perms, src, dest);
    space := |FreeBlocks(fs.fat[..])|;
    n := if works then Fitting(|text|, space, fs.bs) else 0;
    var failed;
    failed, faulted := CopyAll(fs, a, b, now, text, space, dest, works);
    if faulted {
      return;
    }
    CloseBoth(fs, a, b);
    ok := !failed;
  }
}
