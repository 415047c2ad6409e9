/** What callers may rely on: the answers and the effects of the calls, alone and one after the other. */
module ViewLaws {
  import opened Options
  import opened Words
  import opened DirectoryEntries
  import opened BlockContents
  import opened Volume
  import opened Writing
  import opened PennFat
  import opened Views

  // ---- opening ----

  /** No number from 3 to 4095 is left for one more open file. */
  ghost predicate IsCrowded(v: View)
  {
    forall g :: 3 <= g < 4096 ==> g in v.open
  }

  ghost predicate IsOpenFor(v: View, fname: CString, g: int)
  {
    g in v.open && v.open[g].name == Some(fname)
  }

  /** Each answer of an open, if and only if. */
  lemma OpenAnswers(v: View, fname: CString, mode: Mode, bs: nat, r: int, v': View)
    requires bs > 0 && IsCoherent(v) && IsOpenedIn(v, fname, mode, bs, r, v')
    ensures var valid, known := IsValidFilename(fname), fname in v.files;
            var locked := mode != Read && exists g :: IsOpenFor(v, fname, g) && v.open[g].mode != Read;
            var open := exists g :: IsOpenFor(v, fname, g);
            var passes := valid && !locked && (open || !IsCrowded(v));
            && (r == -19 <==> !valid)
            && (r == -25 <==> valid && locked)
            && (r == -21 <==> valid && !locked && !open && IsCrowded(v))
            && (r == -28 <==> passes && known && FileSystem.IsRefused(v.perms[fname], mode))
            && (r == -22 <==> passes && !known && mode == Read)
            && (r == -26 <==> passes && !known && mode != Read && v.free == 0 &&
                              |v.files| + 1 == v.rootBlocks * (bs / 64))
            && (r < 0 ==> v' == v)
            && (r >= 0 ==> 3 <= r < 4096)
  {
    hide IsValidFilename, FileSystem.IsRefused, BlocksFor;
    assert forall g :: IsNamedAs(v, fname, g) <==> IsOpenFor(v, fname, g);
    hide IsNamedAs, IsEnteredIn;
    assert GLOBAL_FD_TABLE_SIZE == 4096;
  }

  /** A number is given out again only when it is free, and the least one is. */
  lemma LeastNumber(v: View, fname: CString, mode: Mode, bs: nat, r: int, v': View)
    requires bs > 0 && IsOpenedIn(v, fname, mode, bs, r, v') && r >= 0
    ensures (forall g :: IsOpenFor(v, fname, g) ==> r == g)
    ensures r !in v.open ==> forall g :: 3 <= g < r ==> g in v.open
    ensures r in v.open ==> IsOpenFor(v, fname, r) && v'.open[r].refs == v.open[r].refs + 1
    ensures r !in v.open ==> v'.open[r].refs == 1
  {
    hide IsValidFilename, FileSystem.IsRefused, BlocksFor;
    assert forall g :: IsNamedAs(v, fname, g) <==> IsOpenFor(v, fname, g);
  }

  /**
   Opened to be read, a file shows its contents from the start; to be written, nothing; to be
   appended to, its end.
   */
  lemma OpenThenRead(v: View, fname: CString, mode: Mode, bs: nat, f: int, v1: View, n: int, r: int, buf: seq<Byte>,
                     v2: View)
    requires bs > 0 && IsOpenedIn(v, fname, mode, bs, f, v1) && f >= 0 && f !in v.open
    requires IsReadIn(v1, f, n, r, buf, v2) && v1.open[f].perm >= 4
    ensures fname in v1.files && v1.open[f].bytes == v1.files[fname]
    ensures mode == Read && fname in v.files ==>
              |buf| == (if n <= 0 then 0 else if n < |v.files[fname]| then n else |v.files[fname]|)
              && buf == v.files[fname][..|buf|]
    ensures mode == Write ==> buf == [] && v1.files[fname] == []
    ensures mode == Append ==> buf == [] && (fname in v.files ==> v1.files[fname] == v.files[fname])
    ensures forall n :: n != fname ==> (n in v1.files <==> n in v.files) && (n in v.files ==> v1.files[n] == v.files[n])
  {
    hide IsValidFilename, FileSystem.IsRefused, BlocksFor, OpenCodeIn, IsNumberFor;
    ReadSliceIs(v1.open[f].bytes, v1.open[f].offset, n);
  }

  /** A new file is empty and may be read and written. */
  lemma OpenCreates(v: View, fname: CString, mode: Mode, bs: nat, f: int, v1: View)
    requires bs > 0 && IsCoherent(v) && IsOpenedIn(v, fname, mode, bs, f, v1) && f >= 0 && fname !in v.files
    ensures mode != Read && v1.files == v.files[fname := []] && v1.perms == v.perms[fname := 6]
    ensures f in v1.open && v1.open[f] == OpenView(Some(fname), [], 0, mode, 1, 6)
  {
    hide IsValidFilename, BlocksFor;
    assert forall g :: IsNamedAs(v, fname, g) ==> fname in v.files;
  }

  // ---- seeking ----

  /** Where each kind of seek counts from. */
  lemma SeekPlaces(v: View, fd: int, offset: Int32, whence: int, r: int, v': View)
    requires IsSoughtIn(v, fd, offset, whence, r, v') && 3 <= fd < 4096 && fd in v.open && v.open[fd].perm >= 4
    requires 0 <= offset
    ensures whence == 1 ==> r == offset
    ensures whence == 2 && v.open[fd].offset + offset < 0x1_0000_0000 ==> r == v.open[fd].offset + offset
    ensures whence == 3 && |v.open[fd].bytes| + offset < 0x1_0000_0000 ==> r == |v.open[fd].bytes| + offset
    ensures r >= 0 ==> v' == v.(open := v.open[fd := v.open[fd].(offset := r)])
    ensures r < 0 ==> v' == v
  {
  }

  /** A seek by nothing from the offset changes nothing; one from the end leaves nothing to be read. */
  lemma SeekByNothing(v: View, fd: int, r: int, v': View, n: int, m: int, buf: seq<Byte>, v2: View)
    requires 3 <= fd < 4096 && fd in v.open && v.open[fd].perm >= 4
    requires v.open[fd].offset < 0x1_0000_0000 && |v.open[fd].bytes| < 0x1_0000_0000
    ensures IsSoughtIn(v, fd, 0, 2, r, v') ==> r == v.open[fd].offset && v' == v
    ensures IsSoughtIn(v, fd, 0, 3, r, v') && IsReadIn(v', fd, n, m, buf, v2) ==> m == 0 && buf == []
  {
    hide ReadSlice;
    if IsSoughtIn(v, fd, 0, 2, r, v') {
      SeekPlaces(v, fd, 0, 2, r, v');
      assert v.open[fd := v.open[fd]] == v.open;
    }
    if IsSoughtIn(v, fd, 0, 3, r, v') {
      SeekPlaces(v, fd, 0, 3, r, v');
      ReadSliceIs(v.open[fd].bytes, |v.open[fd].bytes|, n);
    }
  }

  /** A relative seek never goes back. */
  lemma NoSeekBack(v: View, fd: int, offset: Int32, whence: int, r: int, v': View)
    requires IsSoughtIn(v, fd, offset, whence, r, v') && 2 <= whence <= 3 && offset < 0
    ensures r < 0 && v' == v
  {
  }

  // ---- writing ----

  /**
   What a write stores. In append mode it starts at the end of the file, and else at the offset; a gap
   reads as zeros, and the file ends behind the last byte written.
   */
  lemma WriteStores(v: View, fd: int, str: seq<Byte>, bs: nat, r: int, v': View, i: nat)
    requires bs > 0 && fd in v.open && IsWrittenIn(v, fd, str, bs, r, v') && r > 0
    ensures fd in v'.open && r <= |str|
    ensures var x, y := v.open[fd], v'.open[fd];
            var start := if x.mode == Append then |x.bytes| else x.offset;
            && |y.bytes| == start + r == y.offset
            && (i < start + r ==> y.bytes[i] == if i >= start then str[i - start] else if i < |x.bytes| then x.bytes[i]
                                  else 0)
            && (x.name.Some? ==> x.name.value in v'.files && v'.files[x.name.value] == y.bytes)
            && v'.perms == v.perms
  {
    hide StartsInLastBlock, Room, BlocksFor, Overlaid;
    var x := v.open[fd];
    var start := StartOfWrite(x);
    if i < start {
      ResizeIs(x.bytes, start, i);
    }
  }

  /** From the last block of the file on, a write stores all of its bytes if they fit, and else as many as fit. */
  lemma WriteFits(v: View, fd: int, str: seq<Byte>, bs: nat, r: int, v': View)
    requires bs > 0 && fd in v.open && IsWrittenIn(v, fd, str, bs, r, v') && str != []
    requires v.open[fd].perm == 2 || v.open[fd].perm >= 5
    ensures var x := v.open[fd];
            var start := if x.mode == Append then |x.bytes| else x.offset;
            var space := Capacity(BlocksFor(|x.bytes|, bs) + v.free, bs) - start;
            IsTailWrite(|x.bytes|, start, bs) ==> r == if |str| <= space then |str| else if space > 0 then space else 0
    ensures v.open[fd].mode == Append ==> IsTailWrite(|v.open[fd].bytes|, |v.open[fd].bytes|, bs)
  {
    hide BlocksFor, Overlaid, Resize, HasBytes, Capacity, StartsInLastBlock, IsSafeWrite, IsTailWrite, LandingAt;
    var size, start := |v.open[fd].bytes|, StartOfWrite(v.open[fd]);
    AppendIsTail(size, v.free, bs);
    LandsAtOffset(size, start, bs);
    TailOrFar(size, start, bs);
    TailStarts(size, start, bs);
  }

  lemma TailStarts(size: nat, offset: nat, bs: nat)
    requires bs > 0
    ensures IsTailWrite(size, offset, bs) ==> StartsInLastBlock(size, offset, bs)
  {
  }

  /** A write that starts before the last block fails, and has overwritten the file from one block further on. */
  lemma EarlyWriteFails(v: View, fd: int, str: seq<Byte>, bs: nat, r: int, v': View, i: nat)
    requires bs > 0 && fd in v.open && IsWrittenIn(v, fd, str, bs, r, v') && r < 0 && str != []
    requires v.open[fd].perm == 2 || v.open[fd].perm >= 5
    ensures fd in v'.open && r == -48 && v'.free == v.free
    ensures var x, y := v.open[fd], v'.open[fd];
            var start := if x.mode == Append then |x.bytes| else x.offset;
            && |y.bytes| == |x.bytes| && y.offset == x.offset
            && (i < |x.bytes| ==> i < start + bs || i - start - bs < |str|)
            && (i < |x.bytes| ==> y.bytes[i] == if i < start + bs then x.bytes[i] else str[i - start - bs])
  {
    hide BlocksFor, Resize, Room, StartsInLastBlock;
  }

  // ---- deleting, moving, closing ----

  /** A deleted file is gone from the directory, and cannot be opened to be read any more. */
  lemma UnlinkedIsGone(v: View, fname: CString, bs: nat, v1: View, f: int, v2: View)
    requires bs > 0 && IsCoherent(v) && IsValidFilename(fname) && fname in v.files && IsUnlinkedIn(v, fname, bs, 0, v1)
    requires IsOpenedIn(v1, fname, Read, bs, f, v2) && !IsCrowded(v)
    ensures fname !in v1.files && f == -22 && v2 == v1
    ensures forall n :: n != fname ==> (n in v1.files <==> n in v.files) && (n in v.files ==> v1.files[n] == v.files[n])
  {
    hide BlocksFor, IsValidFilename;
    assert forall g :: g in v1.open <==> g in v.open;
    assert forall g :: !IsNamedAs(v1, fname, g);
    assert GLOBAL_FD_TABLE_SIZE == 4096;
  }

  /** But who has it open reads on as before, and its blocks are free only when the last one has closed it. */
  lemma UnlinkedReadsOn(v: View, fname: CString, bs: nat, v1: View, fd: int, n: int, r: int, buf: seq<Byte>, v2: View)
    requires bs > 0 && IsValidFilename(fname) && fname in v.files && IsUnlinkedIn(v, fname, bs, 0, v1)
    requires fd in v.open && v.open[fd].name == Some(fname) && v.open[fd].perm >= 4 && IsReadIn(v1, fd, n, r, buf, v2)
    ensures buf == ReadSlice(v.open[fd].bytes, v.open[fd].offset, n) && v1.free == v.free
    ensures v1.open[fd].refs == 1 ==>
              fd !in ClosedIn(v1, fd, bs).open &&
                ClosedIn(v1, fd, bs).free == v.free + BlocksFor(|v.open[fd].bytes|, bs)
    ensures v1.open[fd].refs > 1 ==> fd in ClosedIn(v1, fd, bs).open && ClosedIn(v1, fd, bs).free == v.free
  {
    hide BlocksFor, IsValidFilename, ReadSlice;
    assert IsNamedAs(v, fname, fd);
  }

  /** A moved file has its contents and permissions under the new name and under no other. */
  lemma MovedIsThere(v: View, src: CString, dest: CString, bs: nat, v': View)
    requires bs > 0 && IsCoherent(v) && IsMovedIn(v, src, dest, bs, 0, v')
    ensures src != dest && src in v.files && src !in v'.files
    ensures dest in v'.files && v'.files[dest] == v.files[src]
    ensures src in v.perms && dest in v'.perms && v'.perms[dest] == v.perms[src]
    ensures forall n :: n != src && n != dest ==>
              (n in v'.files <==> n in v.files) && (n in v.files ==> v'.files[n] == v.files[n])
  {
    hide BlocksFor, IsValidFilename, FileSystem.IsRefused;
    var v1 := UnlinkedIn(v, dest, bs);
    assert OpenCodeIn(v1, src, Read, bs) == 0;
    assert src in v1.perms && v1.perms.Keys == v1.files.Keys;
  }

  /** A file moved to its own name is deleted. */
  lemma MovedToItself(v: View, n: CString, bs: nat, r: int, v': View)
    requires bs > 0 && IsCoherent(v) && IsMovedIn(v, n, n, bs, r, v') && IsValidFilename(n)
    ensures n !in v'.files && r == if IsCrowded(v) then -74 else -70
  {
    hide BlocksFor, IsValidFilename, FileSystem.IsRefused;
    var v1 := UnlinkedIn(v, n, bs);
    assert forall g :: g in v1.open <==> g in v.open;
    assert forall g :: !IsNamedAs(v1, n, g);
    assert GLOBAL_FD_TABLE_SIZE == 4096;
  }

  /** Deleting a file that is not open makes its blocks free at once. */
  lemma ClosedUnlinkFrees(v: View, fname: CString, bs: nat, v': View)
    requires bs > 0 && fname in v.files && IsUnlinkedIn(v, fname, bs, 0, v')
    requires forall g :: g in v.open ==> v.open[g].name != Some(fname)
    ensures v'.free == v.free + BlocksFor(|v.files[fname]|, bs) && v'.open == v.open
  {
    hide BlocksFor, IsValidFilename;
    assert forall g :: !IsNamedAs(v, fname, g);
    assert v'.open == Nameless(v.open, fname);
    assert forall g :: g in v.open ==> v'.open[g] == v.open[g];
    assert v'.open.Keys == v.open.Keys;
  }
}
