/**
 What the callers of the file operations can see of a volume: the contents and permissions of every
 file by name; for every open file its contents, its offset, its mode and its permissions; and the
 space that is left. On these views the calls are a machine of its own, which says what every call
 returns and what it changes.
 */
module Views {
  import opened Options
  import opened Words
  import opened DirectoryEntries
  import opened FatChains
  import opened BlockContents
  import opened Volume
  import opened Writing
  import opened PennFat

  /** An open file; one that has been deleted has no name. */
  datatype OpenView = OpenView(name: Option<CString>, bytes: seq<Byte>, offset: nat, mode: Mode, refs: nat, perm: Byte)

  datatype View = View(files: map<CString, seq<Byte>>, perms: map<CString, Byte>, open: map<int, OpenView>, free: nat,
                       rootBlocks: nat)

  ghost function ViewOfFd(d: Disk, lay: Layout, x: FdEntry): OpenView
    requires x.entry.Some?
  {
    var e := x.entry.value;
    OpenView(if IsLive(e) then Some(StringOf(e.name))
             else None, FileBytes(d, lay, x.slot), x.offset, x.mode, x.refs, e.perm)
  }

  ghost function OpenViews(d: Disk, lay: Layout, fds: seq<FdEntry>): map<int, OpenView>
  {
    map f | 0 <= f < |fds| && IsOpen(fds, f) && fds[f].entry.Some? :: ViewOfFd(d, lay, fds[f])
  }

  ghost function ViewOf(d: Disk, lay: Layout, fds: seq<FdEntry>): View
  {
    View(Files(d, lay), Perms(d, lay), OpenViews(d, lay, fds), |FreeBlocks(d.fat)|, |lay.root|)
  }

  // ---- opening ----

  ghost predicate IsNamedAs(v: View, fname: CString, g: int)
  {
    g in v.open && v.open[g].name == Some(fname)
  }

  /** The files and the end marker take all places of the directory. */
  ghost predicate IsFullIn(v: View, bs: nat)
  {
    |v.files| + 1 == v.rootBlocks * (bs / 64)
  }

  /** What an open returns: 0 stands for the number of an open file. */
  ghost function OpenCodeIn(v: View, fname: CString, mode: Mode, bs: nat): (r: int)
    ensures r <= 0
  {
    if !IsValidFilename(fname) then EK_OPEN_INVALID_FILENAME
    else if mode != Read && exists g :: IsNamedAs(v, fname, g) && v.open[g].mode != Read
    then EK_OPEN_ALREADY_WRITE_LOCKED
    else if (forall g :: 3 <= g < GLOBAL_FD_TABLE_SIZE ==> g in v.open) && !(exists g :: IsNamedAs(v, fname, g))
    then EK_OPEN_GLOBAL_FD_TABLE_FULL
    else if fname in v.perms then if FileSystem.IsRefused(v.perms[fname], mode) then EK_OPEN_WRONG_PERMISSIONS else 0
    else if mode == Read then EK_OPEN_FILE_DOES_NOT_EXIST
    else if v.free == 0 && IsFullIn(v, bs) then EK_OPEN_WRITE_NEW_ROOT_DIR_ENTRY_FAILED
    else 0
  }

  /** The number that an open gives a file: the one it is open as, or else the least that is not in use. */
  ghost predicate IsNumberFor(v: View, fname: CString, r: int)
  {
    && (forall g :: IsNamedAs(v, fname, g) ==> r == g)
    && (IsNamedAs(v, fname, r) ||
        (3 <= r < GLOBAL_FD_TABLE_SIZE && r !in v.open && forall g :: 3 <= g < r ==> g in v.open))
  }

  /** Where an open file of this size is read or written next, once it has been opened. */
  ghost function OffsetIn(v: View, mode: Mode, r: int, size: nat): nat
  {
    match mode
    case Append => size
    case Write => 0
    case Read => if r in v.open then v.open[r].offset else 0
  }

  /** The file is open as number `r`, and was found, truncated or made. */
  ghost predicate IsEnteredIn(v: View, fname: CString, mode: Mode, bs: nat, r: int, v': View)
    requires bs > 0
  {
    var isNew := fname !in v.files;
    var bytes := if isNew || mode == Write then [] else v.files[fname];
    var perm := if fname in v.perms then v.perms[fname] else 6;
    var refs := if r in v.open then v.open[r].refs + 1 else 1;
    var grown := if isNew && IsFullIn(v, bs) then 1 else 0;
    && v'.files == v.files[fname := bytes] && v'.perms == v.perms[fname := perm]
    && v'.open == v.open[r := OpenView(Some(fname), bytes, OffsetIn(v, mode, r, |bytes|), mode, refs, perm)]
    && v'.free == v.free - grown + (if isNew || mode != Write then 0 else BlocksFor(|v.files[fname]|, bs))
    && v'.rootBlocks == v.rootBlocks + grown
  }

  ghost predicate IsOpenedIn(v: View, fname: CString, mode: Mode, bs: nat, r: int, v': View)
    requires bs > 0
  {
    var code := OpenCodeIn(v, fname, mode, bs);
    if code != 0 then r == code && v' == v
    else IsNumberFor(v, fname, r) && IsEnteredIn(v, fname, mode, bs, r, v')
  }

  // ---- closing, reading, seeking ----

  /** The last close of a deleted file releases its blocks. */
  ghost function ClosedIn(v: View, fd: int, bs: nat): View
    requires bs > 0
  {
    if fd !in v.open then v
    else
      var x := v.open[fd];
      if x.refs > 1 then v.(open := v.open[fd := x.(refs := x.refs - 1)])
      else v.(open := v.open - {fd}, free := v.free + if x.name.None? then BlocksFor(|x.bytes|, bs) else 0)
  }

  ghost predicate IsClosedIn(v: View, fd: int, bs: nat, r: int, v': View)
    requires bs > 0
  {
    && r == (if fd < 0 || fd >= GLOBAL_FD_TABLE_SIZE then EK_CLOSE_FD_OUT_OF_RANGE
             else if fd < 3 then EK_CLOSE_SPECIAL_FD else 0)
    && v' == ClosedIn(v, fd, bs)
  }

  ghost predicate IsReadIn(v: View, fd: int, n: int, r: int, buf: seq<Byte>, v': View)
  {
    if fd in v.open && v.open[fd].perm >= 4 then
      var x := v.open[fd];
      r == |buf| && buf == ReadSlice(x.bytes, x.offset, n) && v' == v.(open := v.open[fd := x.(offset := x.offset + r)])
    else
      && buf == [] && v' == v
      && r == if fd < 0 || fd >= GLOBAL_FD_TABLE_SIZE then EK_READ_FD_OUT_OF_RANGE
              else if fd !in v.open then EK_READ_FD_NOT_IN_TABLE else EK_READ_WRONG_PERMISSIONS
  }

  ghost function SoughtIn(v: View, fd: int, offset: Int32, whence: int): int
  {
    if fd < 0 || fd >= GLOBAL_FD_TABLE_SIZE then EK_LSEEK_FD_OUT_OF_RANGE
    else if fd < 3 then EK_LSEEK_SPECIAL_FD
    else if fd !in v.open then EK_LSEEK_FD_NOT_IN_TABLE
    else if whence < F_SEEK_SET || whence > F_SEEK_END then EK_LSEEK_BAD_WHENCE
    else if v.open[fd].perm < 4 then EK_LSEEK_WRONG_PERMISSIONS
    else FileSystem.SeekResult(v.open[fd].offset, |v.open[fd].bytes|, offset, whence)
  }

  ghost predicate IsSoughtIn(v: View, fd: int, offset: Int32, whence: int, r: int, v': View)
  {
    && r == SoughtIn(v, fd, offset, whence)
    && v' == if r >= 0 && fd in v.open then v.(open := v.open[fd := v.open[fd].(offset := r)]) else v
  }

  ghost predicate IsModeSetIn(v: View, fd: int, mode: int, r: int, v': View)
  {
    && r == (if fd >= GLOBAL_FD_TABLE_SIZE then EK_SETMODE_FD_OUT_OF_RANGE
             else if fd !in v.open then EK_SETMODE_FD_NOT_IN_USE
             else if mode < F_READ || mode > F_APPEND then EK_SETMODE_BAD_MODE else 0)
    && if r != 0 then v' == v
       else && fd in v.open && fd in v'.open && NumberOf(v'.open[fd].mode) == mode
            && v' == v.(open := v.open[fd := v.open[fd].(mode := v'.open[fd].mode)])
  }

  // ---- writing ----

  /** Where a write to an open file starts. */
  ghost function StartOfWrite(x: OpenView): nat
  {
    if x.mode == Append then |x.bytes| else x.offset
  }

  /** The directory and the open files once the file open as `fd` holds `bytes`. */
  ghost predicate HasBytes(v: View, fd: int, bytes: seq<Byte>, offset: nat, v': View)
    requires fd in v.open
  {
    var x := v.open[fd];
    && v'.files == (if x.name.Some? then v.files[x.name.value := bytes] else v.files)
    && v'.open == v.open[fd := x.(bytes := bytes, offset := offset)]
    && v'.perms == v.perms && v'.rootBlocks == v.rootBlocks
  }

  /**
   A write that keeps the volume consistent. From the last block of the file on, the largest prefix
   that fits is stored, and the file ends behind it. Before that, the write fails, and what it
   has overwritten starts one block too far.
   */
  ghost predicate IsStoredIn(v: View, fd: int, str: seq<Byte>, bs: nat, r: int, v': View)
    requires bs > 0 && fd in v.open
  {
    var x := v.open[fd];
    var size, start := |x.bytes|, StartOfWrite(x);
    if StartsInLastBlock(size, start, bs) then
      var room := Room(size, start, v.free, bs);
      && r == (if |str| <= room then |str| else if room > 0 then room else 0)
      && if r == 0 then v' == v
         else && HasBytes(v, fd, Resize(x.bytes, start) + str[..r], start + r, v')
              && v'.free == v.free + BlocksFor(size, bs) - BlocksFor(start + r, bs)
    else
      && r == EK_WRITE_GET_BLOCK_FAILED && size <= start + bs + |str|
      && HasBytes(v, fd, Overlaid(x.bytes, start + bs, str), x.offset, v') && v'.free == v.free
  }

  ghost predicate IsWrittenIn(v: View, fd: int, str: seq<Byte>, bs: nat, r: int, v': View)
    requires bs > 0
  {
    if fd in v.open && (v.open[fd].perm == 2 || v.open[fd].perm >= 5) && str != [] then
      IsStoredIn(v, fd, str, bs, r, v')
    else
      && v' == v
      && r == if fd < 0 || fd >= GLOBAL_FD_TABLE_SIZE then EK_WRITE_FD_OUT_OF_RANGE
              else if fd !in v.open then EK_WRITE_FD_NOT_IN_TABLE
              else if v.open[fd].perm != 2 && v.open[fd].perm < 5 then EK_WRITE_WRONG_PERMISSIONS else 0
  }

  // ---- unlinking, moving ----

  /** The open files once the one of this name has none any more. */
  ghost function Nameless(open: map<int, OpenView>, n: CString): map<int, OpenView>
  {
    map g | g in open :: if open[g].name == Some(n) then open[g].(name := None) else open[g]
  }

  /** The name has gone; the blocks have gone with it unless the file is open. */
  ghost function UnlinkedIn(v: View, fname: CString, bs: nat): View
    requires bs > 0
  {
    if fname !in v.files then v
    else
      View(v.files - {fname}, v.perms - {fname}, Nameless(v.open, fname),
           v.free + (if exists g :: IsNamedAs(v, fname, g) then 0 else BlocksFor(|v.files[fname]|, bs)), v.rootBlocks)
  }

  ghost predicate IsUnlinkedIn(v: View, fname: CString, bs: nat, r: int, v': View)
    requires bs > 0
  {
    && r == (if !IsValidFilename(fname) then EK_UNLINK_INVALID_FILENAME
             else if fname !in v.files then EK_UNLINK_FILE_NOT_FOUND else 0)
    && v' == if r == 0 then UnlinkedIn(v, fname, bs) else v
  }

  /** The open files once the one named `src` has become `dest`; moving puts it into read mode. */
  ghost function MovedTo(open: map<int, OpenView>, src: CString, dest: CString): map<int, OpenView>
  {
    map g | g in open :: if open[g].name == Some(src) then open[g].(name := Some(dest), mode := Read) else open[g]
  }

  ghost function RenamedIn(v: View, src: CString, dest: CString): View
  {
    if src !in v.files || src !in v.perms then v
    else
      v.(files := (v.files - {src})[dest := v.files[src]], perms := (v.perms - {src})[dest := v.perms[src]],
         open := MovedTo(v.open, src, dest))
  }

  /** The file named `dest` goes first; then `src` is opened to be read, and renamed. */
  ghost predicate IsMovedIn(v: View, src: CString, dest: CString, bs: nat, r: int, v': View)
    requires bs > 0
  {
    if !IsValidFilename(dest) then r == EK_MV_INVALID_FILENAME && v' == v
    else
      var v1 := UnlinkedIn(v, dest, bs);
      && r == MoveResult(OpenCodeIn(v1, src, Read, bs))
      && v' == if r == 0 then RenamedIn(v1, src, dest) else v1
  }

  // ---- what follows from that ----

  /** What an open file shows is what the directory has under its name, and no name is open twice. */
  ghost predicate IsCoherent(v: View)
  {
    && v.perms.Keys == v.files.Keys && (forall g :: g in v.open ==> 3 <= g < GLOBAL_FD_TABLE_SIZE)
    && (forall g :: g in v.open && v.open[g].name.Some? ==>
          v.open[g].name.value in v.files && v.files[v.open[g].name.value] == v.open[g].bytes)
    && (forall g, h :: g in v.open && h in v.open && v.open[g].name.Some? && v.open[g].name == v.open[h].name ==>
        g == h)
  }

  /** What was written is what is read back from the same place. */
  lemma WrittenReadsBack(v0: View, fd: int, str: seq<Byte>, bs: nat, r: int, v1: View, v2: View, v3: View, s: int,
                         n: int, buf: seq<Byte>)
    requires bs > 0 && fd in v0.open && v0.open[fd].perm >= 5 && IsWrittenIn(v0, fd, str, bs, r, v1) && r > 0
    requires 3 <= fd < GLOBAL_FD_TABLE_SIZE && StartOfWrite(v0.open[fd]) < 0x8000_0000
    requires IsSoughtIn(v1, fd, StartOfWrite(v0.open[fd]), F_SEEK_SET, s, v2) && IsReadIn(v2, fd, r, n, buf, v3)
    ensures n == r && buf == str[..r] && v3.open[fd].offset == v1.open[fd].offset
  {
    hide StartsInLastBlock, Room, BlocksFor, Overlaid;
    var start := StartOfWrite(v0.open[fd]);
    assert v2.open[fd].bytes == Resize(v0.open[fd].bytes, start) + str[..r];
  }

  lemma UnlinkKeepsCoherent(v: View, n: CString, bs: nat)
    requires bs > 0 && IsCoherent(v)
    ensures IsCoherent(UnlinkedIn(v, n, bs)) && n !in UnlinkedIn(v, n, bs).files
  {
    hide BlocksFor;
  }

  lemma RenameKeepsCoherent(v: View, src: CString, dest: CString)
    requires IsCoherent(v) && dest !in v.files
    ensures IsCoherent(RenamedIn(v, src, dest))
  {
  }

  lemma EnteredKeepsCoherent(v: View, fname: CString, mode: Mode, bs: nat, r: int, v': View)
    requires bs > 0 && IsCoherent(v) && IsNumberFor(v, fname, r) && IsEnteredIn(v, fname, mode, bs, r, v')
    ensures IsCoherent(v')
  {
    hide BlocksFor, IsFullIn;
    assert forall g :: g in v.open && g != r ==> !IsNamedAs(v, fname, g);
  }

  lemma BytesKeepCoherent(v: View, fd: int, bytes: seq<Byte>, offset: nat, v': View)
    requires IsCoherent(v) && fd in v.open && HasBytes(v, fd, bytes, offset, v')
    ensures IsCoherent(v')
  {
  }

  lemma StoredKeepsCoherent(v: View, fd: int, str: seq<Byte>, bs: nat, r: int, v': View)
    requires bs > 0 && IsCoherent(v) && fd in v.open && IsStoredIn(v, fd, str, bs, r, v')
    ensures IsCoherent(v')
  {
    hide StartsInLastBlock, Room, BlocksFor, IsCoherent, Overlaid, Resize, HasBytes;
    var x := v.open[fd];
    var start := StartOfWrite(x);
    if !StartsInLastBlock(|x.bytes|, start, bs) {
      BytesKeepCoherent(v, fd, Overlaid(x.bytes, start + bs, str), x.offset, v');
    } else if r != 0 {
      BytesKeepCoherent(v, fd, Resize(x.bytes, start) + str[..r], start + r, v');
    }
  }
}
