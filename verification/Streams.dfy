/**
 The file calls of a process. Each process has its own table of descriptors with its own
 offsets; the calls set the offset and the mode of the global table entry before each use.
 */
module Streams {
  import opened Options
  import opened Words
  import opened DirectoryEntries
  import opened FatChains
  import opened BlockContents
  import opened Volume
  import opened RootDirectory
  import opened VolumeSteps
  import opened Writing
  import opened PennFat
  import opened Copying
  import opened SpaceAccounting

  const PROCESS_FD_TABLE_SIZE := 128

  datatype ProcessFd = ProcessFd(inUse: bool, globalFd: nat, offset: U32, mode: Mode)

  /** The 32 bits of an offset, read as a signed number. */
  function Signed(x: U32): Int32
  {
    if x < 0x8000_0000 then x else x - 0x1_0000_0000
  }

  function Wrapped(x: int): U32
  {
    x % 0x1_0000_0000
  }

  /** Both are the same 32 bits as the number. */
  lemma SameBits(x: U32, y: int)
    ensures (Signed(x) - x) % 0x1_0000_0000 == 0 && (Wrapped(y) - y) % 0x1_0000_0000 == 0
  {
    var q := y / 0x1_0000_0000;
    assert y == 0x1_0000_0000 * q + y % 0x1_0000_0000;
    assert Wrapped(y) - y == 0x1_0000_0000 * (-q);
  }

  class Process {
    const table: array<ProcessFd>

    /** `fd` is a descriptor of an open file. */
    ghost predicate Refers(fs: FileSystem, fd: int)
      reads this, table, fs.fds
    {
      0 <= fd < table.Length && table[fd].inUse && IsOpen(fs.fds[..], table[fd].globalFd)
    }

    /** It may be read, and its offset is in the range of seeking. */
    ghost predicate IsReadable(fs: FileSystem, fd: int)
      reads this, table, fs.fds
    {
      && Refers(fs, fd) && table[fd].offset < 0x8000_0000
      && fs.fds[table[fd].globalFd].entry.Some? && fs.fds[table[fd].globalFd].entry.value.perm >= 4
    }

    /** What a descriptor is open on. */
    ghost function Text(fs: FileSystem, fd: int): seq<Byte>
      requires 0 <= fd < table.Length && table[fd].globalFd < fs.fds.Length
      reads this, table, fs, fs.fat, fs.data, fs.fds
    {
      fs.OpenBytes(table[fd].globalFd)
    }

    /** Where a read through `fd` starts: the seek to its offset fails if that is negative as a signed number. */
    ghost function ReadOffset(fs: FileSystem, fd: int): nat
      requires Refers(fs, fd)
      reads this, table, fs.fds
    {
      if table[fd].offset < 0x8000_0000 then table[fd].offset else fs.fds[table[fd].globalFd].offset
    }

    /** What a read through a descriptor in use returns, if it is an error. */
    ghost function ReadError(fs: FileSystem, fd: int): int
      requires 0 <= fd < table.Length
      reads this, table, fs, fs.fds
    {
      var g := table[fd].globalFd;
      if g >= fs.fds.Length then EK_READ_FD_OUT_OF_RANGE
      else if !IsOpen(fs.fds[..], g) then EK_READ_FD_NOT_IN_TABLE
      else if fs.fds[g].entry.Some? && fs.fds[g].entry.value.perm < 4 then EK_READ_WRONG_PERMISSIONS else 0
    }

    /** Reading. A result, also a negative one, is added to the offset of the descriptor. */
    method SRead(fs: FileSystem, fd: nat, n: int) returns (r: int, buf: seq<Byte>)
      requires fs.Valid() && table.Length == PROCESS_FD_TABLE_SIZE
      requires fd < table.Length && table[fd].inUse ==> table[fd].globalFd >= 3
      modifies table, fs.fds
      ensures fs.Valid() && fs.SameFiles()
      ensures fd >= table.Length || !old(table[fd].inUse) ==>
                r == -1 && buf == [] && table[..] == old(table[..]) && fs.fds[..] == old(fs.fds[..])
      ensures fd < table.Length && old(table[fd].inUse) ==>
                table[..] == old(table[..])[fd := old(table[fd]).(offset := Wrapped(old(table[fd].offset) + r))]
      ensures fd < table.Length && old(table[fd].inUse) && old(ReadError(fs, fd)) != 0 ==>
                r == old(ReadError(fs, fd)) && buf == [] && fs.fds[..] == old(fs.fds[..])
      ensures fd < table.Length && old(table[fd].inUse) && old(ReadError(fs, fd)) == 0 ==>
                && old(Refers(fs, fd)) && r == |buf| && buf == ReadSlice(old(Text(fs, fd)), old(ReadOffset(fs, fd)), n)
                && var g := old(table[fd].globalFd);
                   fs.fds[..] == old(fs.fds[..])[g := fs.fds[g]] && fs.fds[g].offset == old(ReadOffset(fs, fd)) + r
    {
      hide VolumeOk, TableOk, FileBytes;
      r, buf := -1, [];
      if fd >= PROCESS_FD_TABLE_SIZE || !table[fd].inUse {
        return;
      }
      OpenEntries(fs.D(), fs.lay, fs.fds[..]);
      var x := table[fd];
      var status := fs.KLseek(x.globalFd, Signed(x.offset), F_SEEK_SET);
      r, buf := fs.KRead(x.globalFd, n);
      table[fd] := x.(offset := Wrapped(x.offset + r));
    }

    /** The table entry that a write through `fd` works on: its own offset and mode go there first. */
    ghost function Begun(fs: FileSystem, fd: int): FdEntry
      requires Refers(fs, fd)
      reads this, table, fs.fds
    {
      fs.fds[table[fd].globalFd].(offset := table[fd].offset, mode := table[fd].mode)
    }

    /** A write of `n` bytes on the entry `x` is in range. */
    ghost predicate IsEntryInRange(fs: FileSystem, x: FdEntry, n: nat)
    {
      n < 0x8000_0000 &&
      (x.entry.Some? ==>
         fs.bs > 0 && (IsFarWrite(x.entry.value.size, fs.WriteOffset(x), fs.bs) ==>
                         IndexOf(fs.WriteOffset(x) + n, fs.bs) + 1 < 0x1_0000))
    }

    /** The numbers of a write of `n` bytes through `fd` are in range. */
    ghost predicate IsInRange(fs: FileSystem, fd: int, n: nat)
      reads this, table, fs, fs.fds
    {
      Refers(fs, fd) ==> IsEntryInRange(fs, Begun(fs, fd), n)
    }

    /** It may be read and written. */
    ghost predicate IsStreamWritable(fs: FileSystem, fd: int)
      reads this, table, fs.fds
    {
      IsReadable(fs, fd) && fs.IsWritable(table[fd].globalFd)
    }

    /** What a write of `str` on the entry `x`, number `g` of the table, does when `free` blocks are free. */
    twostate predicate IsWrittenThrough(fs: FileSystem, g: nat, x: FdEntry, free: nat, str: seq<Byte>, r: int,
                                        overrun: bool)
      requires g < fs.fds.Length && x.entry.Some? && fs.bs > 0
      reads fs, fs.fat, fs.data, fs.fds
    {
      var size, offset := x.entry.value.size, fs.WriteOffset(x);
      var room := Room(size, offset, free, fs.bs);
      if str == [] then r == 0 && !overrun && fs.Valid() && IsLeft(fs, g)
      else
        // from the last block on, the largest prefix that fits is stored
        && (StartsInLastBlock(size, offset, fs.bs) ==>
              (overrun <==> !ScanStaysInside(fs.fat.Length) && |str| > room))
        && (StartsInLastBlock(size, offset, fs.bs) && !overrun ==>
              r == if |str| <= room then |str| else if room > 0 then room else 0)
        && (!overrun && r > 0 && IsTailWrite(size, offset, fs.bs) ==> r <= |str| && IsStored(fs, x, g, str[..r]))
        && (!overrun && r == 0 && free == 0 && StartsInLastBlock(size, offset, fs.bs) ==> IsLeft(fs, g))
        // the volume stays consistent exactly if the write is safe
        && (!overrun ==>
              if IsSafeWrite(size, offset, |str|, free, fs.bs) then fs.Valid() else !fs.IsConsistent())
    }

    /** The part of `s_write` that works on the global table: the mode of the process, the write, the old mode. */
    method WriteThrough(fs: FileSystem, x: ProcessFd, str: seq<Byte>, now: U64) returns (r: int, overrun: bool)
      requires fs.Valid() && IsOpen(fs.fds[..], x.globalFd) && fs.bs > 0 && fs.fds[x.globalFd].entry.Some?
      requires fs.fds[x.globalFd].offset == x.offset
      requires IsEntryInRange(fs, fs.fds[x.globalFd].(mode := x.mode), |str|)
      modifies fs`lay, fs.fat, fs.data, fs.fds
      ensures !old(fs.IsWritable(x.globalFd)) ==> r == EK_WRITE_WRONG_PERMISSIONS && !overrun && fs.Valid()
      ensures !old(fs.IsWritable(x.globalFd)) ==>
                fs.D() == old(fs.D()) && fs.lay == old(fs.lay) && fs.fds[..] == old(fs.fds[..])
      ensures old(fs.IsWritable(x.globalFd)) ==>
                var y, free := old(fs.fds[x.globalFd]).(mode := x.mode), old(|FreeBlocks(fs.fat[..])|);
                IsWrittenThrough(fs, x.globalFd, y, free, str, r, overrun)
    {
      hide VolumeOk, TableOk, FileBytes, OthersKept, FreeBlocks, Files, BlocksFor, IsTailWrite, StartsInLastBlock,
        IndexOf, EntryOf, IsSlot, IsSafeWrite, Room, Overlaid, Resize, ScanStaysInside;
      OpenEntries(fs.D(), fs.lay, fs.fds[..]);
      ghost var t := fs.fds[..];
      var mode := fs.fds[x.globalFd].mode;
      var status := fs.KSetMode(x.globalFd, NumberOf(x.mode));
      OthersKeptRefl(fs.D(), fs.lay, fs.fds[x.globalFd].slot);
      r, overrun := fs.KWrite(x.globalFd, str, now);
      if overrun {
        return;
      }
      status := fs.KSetMode(x.globalFd, NumberOf(mode));
      assert !old(fs.IsWritable(x.globalFd)) ==> fs.fds[..] == t;
    }

    /** A write at the offset of the descriptor, or behind the file in append mode. */
    method SWrite(fs: FileSystem, fd: nat, str: seq<Byte>, now: U64) returns (r: int, overrun: bool)
      requires fs.Valid() && table.Length == PROCESS_FD_TABLE_SIZE && IsInRange(fs, fd, |str|)
      requires fd < table.Length && table[fd].inUse ==> table[fd].globalFd >= 3
      modifies table, fs`lay, fs.fat, fs.data, fs.fds
      ensures !old(IsReadable(fs, fd)) ==>
                r == -1 && !overrun && table[..] == old(table[..]) && fs.Valid() && fs.SameFiles()
      ensures old(IsReadable(fs, fd)) && !overrun ==>
                table[..] == old(table[..])[fd := old(table[fd]).(offset := Wrapped(old(table[fd].offset) + r))]
      ensures old(IsReadable(fs, fd)) && !old(IsStreamWritable(fs, fd)) ==>
                r == EK_WRITE_WRONG_PERMISSIONS && !overrun && fs.Valid() && fs.SameFiles()
      ensures old(IsStreamWritable(fs, fd)) ==>
                var x, free := old(Begun(fs, fd)), old(|FreeBlocks(fs.fat[..])|);
                IsWrittenThrough(fs, old(table[fd].globalFd), x, free, str, r, overrun)
      // that is: at the offset of the descriptor, or behind the file in append mode
      ensures old(IsStreamWritable(fs, fd)) && fs.bs > 0 && !overrun && r > 0 ==>
                var g, size := old(table[fd].globalFd), old(fs.fds[table[fd].globalFd].entry.value.size);
                var start := if old(table[fd].mode) == Append then size else old(table[fd].offset);
                IsTailWrite(size, start, fs.bs) ==>
                  r <= |str| && fs.OpenBytes(g) == Resize(old(fs.OpenBytes(g)), start) + str[..r]
    {
      hide VolumeOk, TableOk, FileBytes, OthersKept, FreeBlocks, IsTailWrite, StartsInLastBlock, IndexOf, IsSafeWrite,
        Room, Resize, ScanStaysInside;
      r, overrun := -1, false;
      if fd >= PROCESS_FD_TABLE_SIZE || !table[fd].inUse {
        return;
      }
      OpenEntries(fs.D(), fs.lay, fs.fds[..]);
      var x := table[fd];
      var status := fs.KLseek(x.globalFd, Signed(x.offset), F_SEEK_SET);
      if status < 0 {
        return;
      }
      r, overrun := WriteThrough(fs, x, str, now);
      if overrun {
        return;
      }
      table[fd] := x.(offset := Wrapped(x.offset + r));
    }

    /** A file is as it was; all other files and table entries too. */
    twostate predicate IsLeft(fs: FileSystem, g: nat)
      requires g < fs.fds.Length
      reads fs, fs.fat, fs.data, fs.fds
    {
      && fs.OpenBytes(g) == old(fs.OpenBytes(g))
      && OthersKept(old(fs.D()), old(fs.lay), fs.D(), fs.lay, old(fs.fds[g].slot))
      && (forall h :: 0 <= h < fs.fds.Length && h != g ==> fs.fds[h] == old(fs.fds[h]))
      && fs.fds[g] == old(fs.fds[g]).(offset := fs.fds[g].offset)
    }

    /** `bytes` have been written to an open file; all other files and table entries are as before. */
    twostate predicate IsStored(fs: FileSystem, x: FdEntry, g: nat, bytes: seq<Byte>)
      requires g < fs.fds.Length && x.entry.Some?
      reads fs, fs.fat, fs.data, fs.fds
    {
      && fs.OpenBytes(g) == Resize(old(fs.OpenBytes(g)), fs.WriteOffset(x)) + bytes
      && OthersKept(old(fs.D()), old(fs.lay), fs.D(), fs.lay, old(fs.fds[g].slot))
      && (forall h :: 0 <= h < fs.fds.Length && h != g ==> fs.fds[h] == old(fs.fds[h]))
      && fs.fds[g].entry.Some? && fs.fds[g] == old(fs.fds[g]).(offset := fs.fds[g].offset, entry := fs.fds[g].entry)
      && fs.fds[g].entry.value.perm == x.entry.value.perm && fs.fds[g].entry.value.size == fs.WriteOffset(x) + |bytes|
    }

    /** It may be read and written, it is in append mode, and `n` more bytes keep sizes and offsets in range. */
    ghost predicate IsAppendable(fs: FileSystem, fd: int, n: nat)
      reads this, table, fs, fs.fds
    {
      && IsStreamWritable(fs, fd) && table[fd].mode == Append
      && fs.fds[table[fd].globalFd].entry.value.size + n < 0x8000_0000 && table[fd].offset + n < 0x8000_0000
    }

    /** One append: a prefix of the bytes goes behind the file. */
    method AppendOne(fs: FileSystem, fd: nat, bytes: seq<Byte>, now: U64) returns (r: nat, overrun: bool)
      requires fs.Valid() && table.Length == PROCESS_FD_TABLE_SIZE && IsAppendable(fs, fd, |bytes|)
      modifies table, fs`lay, fs.fat, fs.data, fs.fds
      ensures overrun ==> !ScanStaysInside(fs.fat.Length)
      ensures !overrun ==>
                && fs.Valid() && r <= |bytes|
                && table[..] == old(table[..])[fd := table[fd]]
                && table[fd] == old(table[fd]).(offset := table[fd].offset)
                && table[fd].offset == old(table[fd].offset) + r
                && var g := old(table[fd].globalFd);
                   && fs.OpenBytes(g) == old(fs.OpenBytes(g)) + bytes[..r]
                   && OthersKept(old(fs.D()), old(fs.lay), fs.D(), fs.lay, old(fs.fds[g].slot))
                   && fs.fds[..] == old(fs.fds[..])[g := fs.fds[g]] && fs.fds[g].entry.Some?
                   && fs.fds[g] == old(fs.fds[g]).(offset := fs.fds[g].offset, entry := fs.fds[g].entry)
                   && fs.fds[g].entry.value.perm == old(fs.fds[g].entry.value.perm)
                   && fs.fds[g].entry.value.size == old(fs.fds[g].entry.value.size) + r
    {
      hide VolumeOk, TableOk, FileBytes, OthersKept, FreeBlocks, Room, IsSafeWrite, IsTailWrite, StartsInLastBlock,
        ScanStaysInside, BlocksFor, Capacity, IndexOf, IsFarWrite;
      AppendFits(fs.D(), fs.lay, fs.fds[..], table[fd].globalFd);
      var status;
      status, overrun := SWrite(fs, fd, bytes, now);
      r := if overrun then 0 else status;
    }
  }

  /** The end of a file is a place where a write may start. */
  lemma AppendFits(d: Disk, lay: Layout, fds: seq<FdEntry>, f: int)
    requires VolumeOk(d, lay) && TableOk(d, lay, fds) && IsOpen(fds, f) && d.bs > 0
    ensures fds[f].entry.Some?
    ensures var size, free := fds[f].entry.value.size, |FreeBlocks(d.fat)|;
            && |FileBytes(d, lay, fds[f].slot)| == size && !IsFarWrite(size, size, d.bs)
            && IsTailWrite(size, size, d.bs) && StartsInLastBlock(size, size, d.bs)
            && (forall n :: IsSafeWrite(size, size, n, free, d.bs))
            && Room(size, size, free, d.bs) >= 0 && (Room(size, size, free, d.bs) == 0 ==> free == 0)
  {
    hide VolumeOk, TableOk, FileBytes, EntryOf, IsTailWrite, StartsInLastBlock, IsSafeWrite, Room, BlocksFor,
      FreeBlocks, IsFarWrite;
    OpenFile(d, lay, fds, f);
    FileSize(d, lay, fds[f].slot);
    AppendIsTail(EntryOf(d, fds[f].slot).size, |FreeBlocks(d.fat)|, d.bs);
    TailOrFar(EntryOf(d, fds[f].slot).size, EntryOf(d, fds[f].slot).size, d.bs);
  }
}
