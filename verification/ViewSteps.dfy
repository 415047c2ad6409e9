/** That the calls on a volume do to its view what the machine on views says. */
module ViewSteps {
  import opened Options
  import opened Words
  import opened DirectoryEntries
  import opened FatChains
  import opened BlockContents
  import opened Volume
  import opened RootDirectory
  import opened VolumeSteps
  import opened Writing
  import opened PennFat
  import opened DirectorySpace
  import opened Views

  // ---- the views before and after a call ----

  lemma OpenKeys(d: Disk, lay: Layout, fds: seq<FdEntry>)
    requires TableOk(d, lay, fds)
    ensures forall f :: f in OpenViews(d, lay, fds) <==> IsOpen(fds, f)
    ensures forall f :: IsOpen(fds, f) ==> fds[f].entry.Some? && OpenViews(d, lay, fds)[f] == ViewOfFd(d, lay, fds[f])
  {
    hide FileBytes;
    OpenEntries(d, lay, fds);
  }

  /** Two open files have the same view. */
  ghost predicate SameView(d: Disk, lay: Layout, x: FdEntry, d': Disk, lay': Layout, x': FdEntry)
  {
    x' == x && x.entry.Some? && FileBytes(d', lay', x'.slot) == FileBytes(d, lay, x.slot)
  }

  /** All open files but `f` have the same view as before. */
  ghost predicate OthersViewed(d: Disk, lay: Layout, fds: seq<FdEntry>, d': Disk, lay': Layout, fds': seq<FdEntry>,
                               f: int)
  {
    forall g :: g != f ==>
      (IsOpen(fds', g) <==> IsOpen(fds, g)) && (IsOpen(fds, g) ==> SameView(d, lay, fds[g], d', lay', fds'[g]))
  }

  lemma SameViewOf(d: Disk, lay: Layout, x: FdEntry, d': Disk, lay': Layout, x': FdEntry)
    requires SameView(d, lay, x, d', lay', x')
    ensures x.entry.Some? && x'.entry.Some? && ViewOfFd(d', lay', x') == ViewOfFd(d, lay, x)
  {
  }

  lemma OneChanged(d: Disk, lay: Layout, fds: seq<FdEntry>, d': Disk, lay': Layout, fds': seq<FdEntry>, f: int)
    requires TableOk(d, lay, fds) && TableOk(d', lay', fds') && OthersViewed(d, lay, fds, d', lay', fds', f)
    ensures var open, open' := OpenViews(d, lay, fds), OpenViews(d', lay', fds');
            if IsOpen(fds', f) then fds'[f].entry.Some? && open' == open[f := ViewOfFd(d', lay', fds'[f])]
              else open' == open - {f}
  {
    hide TableOk, OpenViews, ViewOfFd, SameView;
    OpenKeys(d, lay, fds);
    OpenKeys(d', lay', fds');
    var open, open' := OpenViews(d, lay, fds), OpenViews(d', lay', fds');
    forall g | g != f
      ensures g in open' <==> g in open
      ensures g in open ==> open'[g] == open[g]
    {
      if IsOpen(fds, g) {
        SameViewOf(d, lay, fds[g], d', lay', fds'[g]);
      }
    }
    OneKeyChanged(open, open', f);
  }

  lemma OneKeyChanged(open: map<int, OpenView>, open': map<int, OpenView>, f: int)
    requires forall g :: g in open' && g != f ==> g in open && open'[g] == open[g]
    requires forall g :: g in open && g != f ==> g in open'
    ensures f in open' ==> open' == open[f := open'[f]]
    ensures f !in open' ==> open' == open - {f}
  {
    var m := if f in open' then open[f := open'[f]] else open - {f};
    forall g
      ensures g in m <==> g in open'
      ensures g in m ==> m[g] == open'[g]
    {
    }
    assert m.Keys == open'.Keys;
    assert m == open';
  }

  /**
   A call that changes the file in slot `s` only, and the table in entry `f` only, which is open on
   it or not at all.
   */
  lemma OtherViews(d: Disk, lay: Layout, fds: seq<FdEntry>, d': Disk, lay': Layout, fds': seq<FdEntry>, f: int, s: Slot)
    requires TableOk(d, lay, fds) && OthersKept(d, lay, d', lay', s) && |fds'| == |fds|
    requires forall g :: 0 <= g < |fds| && g != f ==> fds'[g] == fds[g]
    requires forall g :: IsOpen(fds, g) && fds[g].slot == s ==> g == f
    ensures OthersViewed(d, lay, fds, d', lay', fds', f)
  {
    OpenEntries(d, lay, fds);
    OpenBytesKept(d, lay, fds, d', lay', s);
    hide TableOk, OthersKept, FileBytes;
  }

  lemma SameDiskViews(d: Disk, lay: Layout, fds: seq<FdEntry>, fds': seq<FdEntry>, f: int)
    requires TableOk(d, lay, fds) && |fds'| == |fds| && forall g :: 3 <= g < |fds| && g != f ==> fds'[g] == fds[g]
    ensures OthersViewed(d, lay, fds, d, lay, fds', f)
  {
    OpenEntries(d, lay, fds);
    hide TableOk, FileBytes;
  }

  // ---- the calls, one by one ----

  lemma EntryViewed(d: Disk, lay: Layout, fds: seq<FdEntry>, fds': seq<FdEntry>, f: int)
    requires TableOk(d, lay, fds) && TableOk(d, lay, fds') && IsOpen(fds, f) && fds' == fds[f := fds'[f]] &&
             IsOpen(fds', f)
    ensures fds'[f].entry.Some? && OpenViews(d, lay, fds') == OpenViews(d, lay, fds)[f := ViewOfFd(d, lay, fds'[f])]
  {
    hide TableOk, ViewOfFd, OpenViews, OthersViewed;
    SameDiskViews(d, lay, fds, fds', f);
    OneChanged(d, lay, fds, d, lay, fds', f);
  }

  /** Nothing happened to the open files, though something may have to the entries not in use. */
  lemma NoneViewed(d: Disk, lay: Layout, fds: seq<FdEntry>, fds': seq<FdEntry>)
    requires TableOk(d, lay, fds) && TableOk(d, lay, fds')
    requires forall g :: (IsOpen(fds', g) <==> IsOpen(fds, g)) && (IsOpen(fds', g) ==> fds'[g] == fds[g])
    ensures OpenViews(d, lay, fds') == OpenViews(d, lay, fds)
  {
    OpenEntries(d, lay, fds);
    hide TableOk, FileBytes;
    assert OthersViewed(d, lay, fds, d, lay, fds', -1);
    OneChanged(d, lay, fds, d, lay, fds', -1);
  }

  lemma FdInView(d: Disk, lay: Layout, fds: seq<FdEntry>, f: int)
    requires TableOk(d, lay, fds)
    ensures f in OpenViews(d, lay, fds) <==> IsOpen(fds, f)
    ensures IsOpen(fds, f) ==> fds[f].entry.Some? && OpenViews(d, lay, fds)[f] == ViewOfFd(d, lay, fds[f])
  {
    hide TableOk, ViewOfFd, OpenViews;
    OpenKeys(d, lay, fds);
  }

  /** The entry of one open file changes, and the contents of that file. */
  lemma FileViewed(d: Disk, lay: Layout, fds: seq<FdEntry>, d': Disk, lay': Layout, fds': seq<FdEntry>, f: int)
    requires TableOk(d, lay, fds) && TableOk(d', lay', fds') && IsOpen(fds, f) && fds' == fds[f := fds'[f]]
    requires OthersKept(d, lay, d', lay', fds[f].slot)
    ensures IsOpen(fds', f) ==>
              fds'[f].entry.Some? && OpenViews(d', lay', fds') ==
                OpenViews(d, lay, fds)[f := ViewOfFd(d', lay', fds'[f])]
    ensures !IsOpen(fds', f) ==> OpenViews(d', lay', fds') == OpenViews(d, lay, fds) - {f}
  {
    assert forall g :: IsOpen(fds, g) && fds[g].slot == fds[f].slot ==> g == f;
    hide TableOk, ViewOfFd, OpenViews, OthersViewed, OthersKept;
    OtherViews(d, lay, fds, d', lay', fds', f, fds[f].slot);
    OneChanged(d, lay, fds, d', lay', fds', f);
  }

  /** An entry becomes open, or is opened once more; the file may be new or truncated. */
  lemma OpenViewed(d: Disk, lay: Layout, fds: seq<FdEntry>, d': Disk, lay': Layout, fds': seq<FdEntry>, f: int)
    requires TableOk(d, lay, fds) && TableOk(d', lay', fds') && IsOpen(fds', f) &&
             OthersKept(d, lay, d', lay', fds'[f].slot)
    requires forall g :: 0 <= g < |fds| && g != f ==> fds'[g] == fds[g]
    ensures fds'[f].entry.Some? && OpenViews(d', lay', fds') == OpenViews(d, lay, fds)[f := ViewOfFd(d', lay', fds'[f])]
  {
    forall g | IsOpen(fds, g) && fds[g].slot == fds'[f].slot ensures g == f {
      assert g != f ==> IsOpen(fds', g);
    }
    hide TableOk, ViewOfFd, OpenViews, OthersViewed, OthersKept;
    OtherViews(d, lay, fds, d', lay', fds', f, fds'[f].slot);
    OneChanged(d, lay, fds, d', lay', fds', f);
  }

  /** The view of a file opened by name. */
  lemma NamedView(d: Disk, lay: Layout, fds: seq<FdEntry>, f: int, n: CString)
    requires VolumeOk(d, lay) && TableOk(d, lay, fds) && IsOpen(fds, f) && IsLiveSlot(d, lay, fds[f].slot) &&
             NameOf(d, fds[f].slot) == n
    ensures fds[f].entry.Some? && ViewOfFd(d, lay, fds[f]).name == Some(n)
    ensures n in Files(d, lay) && ViewOfFd(d, lay, fds[f]).bytes == Files(d, lay)[n]
    ensures |FileBytes(d, lay, fds[f].slot)| == fds[f].entry.value.size
  {
    hide FatOk, EndMarked, NamesOk, FilesOk, TableOk, EntryOf, Files, FileBytes;
    OpenFile(d, lay, fds, f);
    FileAt(d, lay, fds[f].slot);
    FileSize(d, lay, fds[f].slot);
  }

  lemma OpenSize(d: Disk, lay: Layout, fds: seq<FdEntry>, f: int)
    requires VolumeOk(d, lay) && TableOk(d, lay, fds) && IsOpen(fds, f)
    ensures fds[f].entry.Some? && |FileBytes(d, lay, fds[f].slot)| == fds[f].entry.value.size
    ensures NameOf(d, fds[f].slot) == StringOf(fds[f].entry.value.name)
  {
    hide VolumeOk, TableOk, EntryOf, FileBytes;
    OpenFile(d, lay, fds, f);
    FileSize(d, lay, fds[f].slot);
  }

  /** The permissions stay when an open file keeps its name and its own ones. */
  lemma WritePerms(d: Disk, lay: Layout, fds: seq<FdEntry>, d': Disk, lay': Layout, fds': seq<FdEntry>, f: int)
    requires VolumeOk(d, lay) && VolumeOk(d', lay') && TableOk(d, lay, fds) && TableOk(d', lay', fds')
    requires IsOpen(fds, f) && IsOpen(fds', f) && fds'[f].slot == fds[f].slot
    requires fds[f].entry.Some? && fds'[f].entry.Some? && fds'[f].entry.value.name == fds[f].entry.value.name &&
             fds'[f].entry.value.perm == fds[f].entry.value.perm
    requires OthersKept(d, lay, d', lay', fds[f].slot) && Files(d', lay').Keys == Files(d, lay).Keys
    ensures Perms(d', lay') == Perms(d, lay)
  {
    hide DiskOk, FatOk, EndMarked, FilesOk, TableOk, EntryOf, Files, Perms, OthersKept, FileBytes;
    OpenFile(d, lay, fds, f);
    OpenFile(d', lay', fds', f);
    var s := fds[f].slot;
    if IsLiveSlot(d, lay, s) {
      FileAt(d, lay, s);
      PermAt(d, lay, s);
    }
    assert NameIn(d', lay', s) == NameIn(d, lay, s);
    PermsAfter(d, lay, d', lay', s);
    assert Perms(d, lay) - {} == Perms(d, lay);
  }

  /** An open file has been given other contents. */
  lemma WriteViewed(d: Disk, lay: Layout, fds: seq<FdEntry>, d': Disk, lay': Layout, fds': seq<FdEntry>, f: int)
    requires VolumeOk(d, lay) && VolumeOk(d', lay') && TableOk(d, lay, fds) && TableOk(d', lay', fds')
    requires IsOpen(fds, f) && OthersKept(d, lay, d', lay', fds[f].slot) && |lay'.root| == |lay.root|
    requires fds[f].entry.Some? && IsOpen(fds', f) && fds'[f].entry.Some? && fds' == fds[f := fds'[f]]
    requires fds'[f] == fds[f].(offset := fds'[f].offset, entry := fds'[f].entry)
    requires fds'[f].entry.value.name == fds[f].entry.value.name && fds'[f].entry.value.perm == fds[f].entry.value.perm
    requires Files(d', lay') == if IsLive(fds[f].entry.value)
               then Files(d, lay)[StringOf(fds[f].entry.value.name) := FileBytes(d', lay', fds[f].slot)]
                                else Files(d, lay)
    ensures f in ViewOf(d, lay, fds).open
    ensures HasBytes(ViewOf(d, lay, fds), f, FileBytes(d', lay', fds[f].slot), fds'[f].offset,
                     ViewOf(d', lay', fds'))
  {
    hide VolumeOk, TableOk, OpenViews, OthersKept, FileBytes, Files, Perms, FreeBlocks, EntryOf;
    FdInView(d, lay, fds, f);
    FileViewed(d, lay, fds, d', lay', fds', f);
    LiveOpenFile(d, lay, fds, f);
    OpenSize(d, lay, fds, f);
    assert Files(d', lay').Keys == Files(d, lay).Keys;
    WritePerms(d, lay, fds, d', lay', fds', f);
  }

  /** Nothing that counts has happened to a file. */
  lemma UntouchedViewed(d: Disk, lay: Layout, fds: seq<FdEntry>, d': Disk, lay': Layout, f: int)
    requires VolumeOk(d, lay) && VolumeOk(d', lay') && TableOk(d, lay, fds) && TableOk(d', lay', fds)
    requires IsOpen(fds, f) && OthersKept(d, lay, d', lay', fds[f].slot)
    requires Files(d', lay') == Files(d, lay) && FileBytes(d', lay', fds[f].slot) == FileBytes(d, lay, fds[f].slot)
    requires d'.fat == d.fat && |lay'.root| == |lay.root|
    ensures ViewOf(d', lay', fds) == ViewOf(d, lay, fds)
  {
    hide VolumeOk, TableOk, OpenViews, OthersKept, FileBytes, Files, Perms, FreeBlocks;
    FdInView(d, lay, fds, f);
    assert fds == fds[f := fds[f]];
    FileViewed(d, lay, fds, d', lay', fds, f);
    WritePerms(d, lay, fds, d', lay', fds, f);
  }

  lemma NameViewed(d: Disk, lay: Layout, fds: seq<FdEntry>, n: CString)
    requires TableOk(d, lay, fds)
    ensures forall g :: IsOpenNamed(fds, n, g) <==>
              g in OpenViews(d, lay, fds) && OpenViews(d, lay, fds)[g].name == Some(n)
  {
    hide TableOk, OpenViews;
    OpenKeys(d, lay, fds);
  }

  /** Every open file keeps its contents, and its entry changes in a way that its view depends on. */
  lemma AllViewed(d: Disk, lay: Layout, fds: seq<FdEntry>, d': Disk, lay': Layout, fds': seq<FdEntry>, open': map<int,
                  OpenView>)
    requires TableOk(d, lay, fds) && TableOk(d', lay', fds') && forall g :: IsOpen(fds', g) <==> IsOpen(fds, g)
    requires open'.Keys == OpenViews(d, lay, fds).Keys
    requires forall g :: IsOpen(fds, g) ==> fds'[g].entry.Some? && g in open' && open'[g] == ViewOfFd(d', lay', fds'[g])
    ensures OpenViews(d', lay', fds') == open'
  {
    hide TableOk, OpenViews, ViewOfFd;
    OpenKeys(d, lay, fds);
    OpenKeys(d', lay', fds');
    var open, now := OpenViews(d, lay, fds), OpenViews(d', lay', fds');
    assert forall g :: g in open' <==> g in open;
    assert forall g :: g in now <==> g in open;
    forall g | g in now
      ensures now[g] == open'[g]
    {
      assert IsOpen(fds, g);
    }
    assert now.Keys == open'.Keys;
  }

  lemma UnlinkViewed(d: Disk, lay: Layout, fds: seq<FdEntry>, d': Disk, lay': Layout, fds': seq<FdEntry>, n: CString)
    requires TableOk(d, lay, fds) && TableOk(d', lay', fds')
    requires forall g :: IsOpen(fds, g) ==>
               fds[g].entry.Some? && g < |fds'| && FileBytes(d', lay', fds[g].slot) == FileBytes(d, lay, fds[g].slot)
    requires forall g :: IsOpen(fds', g) <==> IsOpen(fds, g)
    requires forall g :: IsOpen(fds, g) ==> fds'[g] == if IsOpenNamed(fds, n, g) then Unlinked(fds[g]) else fds[g]
    ensures OpenViews(d', lay', fds') == Nameless(OpenViews(d, lay, fds), n)
  {
    hide TableOk, OpenViews, FileBytes;
    OpenKeys(d, lay, fds);
    AllViewed(d, lay, fds, d', lay', fds', Nameless(OpenViews(d, lay, fds), n));
  }

  lemma RenamedIs(x: FdEntry, n: CString)
    requires x.entry.Some? && IsValidFilename(n) && |n| < 32
    ensures var e := Renamed(x, n).entry.value; IsLive(e) && StringOf(e.name) == n && e.perm == x.entry.value.perm
  {
    StrCpyReadsBack(x.entry.value.name, n);
    ValidNamesAreLive(Renamed(x, n).entry.value, n);
  }

  lemma MoveViewed(d: Disk, lay: Layout, fds: seq<FdEntry>, d': Disk, lay': Layout, fds': seq<FdEntry>, src: CString,
                   dest: CString)
    requires TableOk(d, lay, fds) && TableOk(d', lay', fds') && IsValidFilename(dest) && |dest| < 32 && src != dest
    requires forall g :: IsOpen(fds, g) ==>
               fds[g].entry.Some? && g < |fds'| && FileBytes(d', lay', fds[g].slot) == FileBytes(d, lay, fds[g].slot)
    requires forall g :: IsOpen(fds', g) <==> IsOpen(fds, g)
    requires forall g :: IsOpen(fds, g) ==>
               fds'[g] == if IsOpenNamed(fds, dest, g) then Unlinked(fds[g])
                          else if IsOpenNamed(fds, src, g) then Renamed(fds[g], dest).(mode := Read) else fds[g]
    ensures OpenViews(d', lay', fds') == MovedTo(Nameless(OpenViews(d, lay, fds), dest), src, dest)
  {
    hide TableOk, OpenViews, FileBytes;
    OpenKeys(d, lay, fds);
    var open' := MovedTo(Nameless(OpenViews(d, lay, fds), dest), src, dest);
    forall g | IsOpen(fds, g)
      ensures fds'[g].entry.Some? && g in open' && open'[g] == ViewOfFd(d', lay', fds'[g])
    {
      RenamedIs(fds[g], dest);
    }
    AllViewed(d, lay, fds, d', lay', fds', open');
  }

  // ---- what a call returns, and the space that is left ----

  lemma FullViewed(d: Disk, lay: Layout, fds: seq<FdEntry>)
    requires VolumeOk(d, lay)
    ensures IsFullDirectory(d, lay) <==> IsFullIn(ViewOf(d, lay, fds), d.bs)
  {
    hide VolumeOk, IsFullDirectory, Files, Perms, OpenViews, FreeBlocks;
    FullIffCounted(d, lay);
  }

  /** What an open returns depends on what callers see, and on nothing else. */
  lemma CodeViewed(d: Disk, lay: Layout, fds: seq<FdEntry>, fname: CString, mode: Mode)
    requires VolumeOk(d, lay) && TableOk(d, lay, fds)
    ensures OpenCodeOf(d, lay, fds, fname, mode) == OpenCodeIn(ViewOf(d, lay, fds), fname, mode, d.bs)
  {
    hide VolumeOk, TableOk, EntryOf, Files, Perms, OpenViews, FreeBlocks, IsOpenFile, HasName, IsValidFilename,
      IsFullDirectory, IsFullIn;
    var v := ViewOf(d, lay, fds);
    OpenKeys(d, lay, fds);
    OpenEntries(d, lay, fds);
    OpenNamedIff(d, lay, fds, fname);
    NameViewed(d, lay, fds, fname);
    assert forall g :: IsOpenFile(d, lay, fds, fname, g) <==> IsNamedAs(v, fname, g);
    assert forall g :: IsOpenFile(d, lay, fds, fname, g) ==> v.open[g].mode == fds[g].mode;
    PermExists(d, lay, fname);
    FullViewed(d, lay, fds);
  }

  /** A name is open exactly if its slot is. */
  lemma OpenSlotNamed(d: Disk, lay: Layout, fds: seq<FdEntry>, n: CString)
    requires VolumeOk(d, lay) && TableOk(d, lay, fds) && HasName(d, lay, n)
    ensures IsOpenSlot(fds, SlotNamed(d, lay, n)) <==> exists g :: IsNamedAs(ViewOf(d, lay, fds), n, g)
  {
    hide VolumeOk, TableOk, EntryOf, Files, Perms, OpenViews, FreeBlocks, HasName, IsLiveSlot, NameOf;
    var v, s := ViewOf(d, lay, fds), SlotNamed(d, lay, n);
    OpenNamedIff(d, lay, fds, n);
    NameViewed(d, lay, fds, n);
    assert forall g :: IsOpenFile(d, lay, fds, n, g) <==> IsNamedAs(v, n, g);
    forall g | IsOpenFile(d, lay, fds, n, g)
      ensures IsOpen(fds, g) && fds[g].slot == s
    {
      NameIsHere(d, lay, fds[g].slot, n);
    }
    forall g | IsOpen(fds, g) && fds[g].slot == s
      ensures IsOpenFile(d, lay, fds, n, g)
    {
    }
  }

  /** The free blocks once a name has been unlinked. */
  lemma FreedViewed(d: Disk, lay: Layout, fds: seq<FdEntry>, n: CString)
    requires VolumeOk(d, lay) && TableOk(d, lay, fds)
    ensures d.bs > 0 && |FreeBlocksWithout(d, lay, fds, n)| == UnlinkedIn(ViewOf(d, lay, fds), n, d.bs).free
  {
    hide TableOk, EntryOf, Files, Perms, OpenViews, FreeBlocks, HasName, IsOpenSlot, IsNamedAs, FileBytes, BlocksFor,
      FatOk, EndMarked, NamesOk, FilesOk;
    BlockSizeOf(d, lay);
    FileExists(d, lay, n);
    if HasName(d, lay, n) {
      var s := SlotNamed(d, lay, n);
      FileAt(d, lay, s);
      OpenSlotNamed(d, lay, fds, n);
      ReleasedSpace(d, lay, s);
    }
  }

  /** Releasing a file that has no name any more leaves all permissions. */
  lemma ClosePerms(d: Disk, lay: Layout, d': Disk, lay': Layout, s: Slot)
    requires VolumeOk(d, lay) && VolumeOk(d', lay') && OthersKept(d, lay, d', lay', s)
    requires !IsLive(EntryOf(d, s)) && !IsLive(EntryOf(d', s)) && Files(d', lay') == Files(d, lay)
    ensures Perms(d', lay') == Perms(d, lay)
  {
    hide DiskOk, FatOk, EndMarked, NamesOk, FilesOk, EntryOf, Files, Perms, OthersKept;
    PermsAfter(d, lay, d', lay', s);
    assert Perms(d, lay) - {} == Perms(d, lay);
  }

  lemma OpenPerms(d: Disk, lay: Layout, d': Disk, lay': Layout, fname: CString, mode: Mode, s: Slot)
    requires VolumeOk(d, lay) && VolumeOk(d', lay') && IsDirectoryOpened(d, lay, d', lay', fname, mode, s)
    requires if HasName(d, lay, fname) then IsLiveSlot(d, lay, s) && NameOf(d, s) == fname
             else IsFirstReusable(d, lay, s)
    ensures Perms(d', lay') == Perms(d, lay)[fname := EntryOf(d', s).perm]
  {
    hide DiskOk, FatOk, EndMarked, NamesOk, FilesOk, EntryOf, Files, Perms, OthersKept, HasName, NameOf, FreeBlocks,
      IsFullDirectory;
    FileExists(d, lay, fname);
    assert Files(d', lay').Keys == Files(d, lay).Keys - NameIn(d, lay, s) + NameIn(d', lay', s);
    PermsAfter(d, lay, d', lay', s);
  }

  lemma OpenSpace(d: Disk, lay: Layout, d': Disk, lay': Layout, fds: seq<FdEntry>, fname: CString, mode: Mode, s: Slot)
    requires VolumeOk(d, lay) && IsDirectoryOpened(d, lay, d', lay', fname, mode, s)
    requires HasName(d, lay, fname) ==> IsLiveSlot(d, lay, s) && NameOf(d, s) == fname
    ensures var v := ViewOf(d, lay, fds);
            var isNew := fname !in v.files;
            var grown := if isNew && IsFullIn(v, d.bs) then 1 else 0;
            && d.bs > 0 && |lay'.root| == v.rootBlocks + grown
            && |FreeBlocks(d'.fat)| == v.free - grown +
              (if isNew || mode != Write then 0 else BlocksFor(|v.files[fname]|, d.bs))
  {
    hide VolumeOk, EntryOf, Files, Perms, OthersKept, HasName, NameOf, FreeBlocks, IsFullDirectory, BlocksFor,
      FileBytes, IsFullIn, OpenViews;
    FileExists(d, lay, fname);
    FullViewed(d, lay, fds);
    BlockSizeOf(d, lay);
    if HasName(d, lay, fname) {
      LayoutOf(d, lay);
      FileAt(d, lay, s);
      ReleasedSpace(d, lay, s);
    }
  }

  lemma PermKeys(d: Disk, lay: Layout)
    ensures Perms(d, lay).Keys == Files(d, lay).Keys
  {
    hide Perms, Files, HasName;
    forall n
      ensures n in Perms(d, lay) <==> n in Files(d, lay)
    {
      FileExists(d, lay, n);
      PermExists(d, lay, n);
    }
  }

  lemma FullTableViewed(d: Disk, lay: Layout, fds: seq<FdEntry>)
    requires TableOk(d, lay, fds)
    ensures IsFull(fds) <==> forall g :: 3 <= g < GLOBAL_FD_TABLE_SIZE ==> g in ViewOf(d, lay, fds).open
  {
    hide TableOk, OpenViews, Files, Perms, FreeBlocks;
    OpenKeys(d, lay, fds);
    OpenEntries(d, lay, fds);
    var open := ViewOf(d, lay, fds).open;
    if forall g :: 3 <= g < GLOBAL_FD_TABLE_SIZE ==> g in open {
      forall f | 3 <= f < |fds| ensures IsOpen(fds, f) {
        assert f in open;
      }
    }
  }

  lemma NoneNamed(v: View, n: CString)
    requires forall g :: !IsNamedAs(v, n, g)
    ensures Nameless(v.open, n) == v.open
  {
    forall g | g in v.open
      ensures Nameless(v.open, n)[g] == v.open[g]
    {
      assert !IsNamedAs(v, n, g);
    }
    assert Nameless(v.open, n).Keys == v.open.Keys;
  }

  /** What an open of another name returns once a name has gone. */
  lemma CodeInAfterUnlink(v: View, src: CString, dest: CString, bs: nat)
    requires bs > 0 && v.perms.Keys == v.files.Keys && IsValidFilename(dest)
    requires forall g :: IsNamedAs(v, dest, g) ==> dest in v.files
    ensures OpenCodeIn(UnlinkedIn(v, dest, bs), src, Read, bs) ==
            if src != dest then OpenCodeIn(v, src, Read, bs)
            else if forall g :: 3 <= g < GLOBAL_FD_TABLE_SIZE ==> g in v.open then EK_OPEN_GLOBAL_FD_TABLE_FULL
            else EK_OPEN_FILE_DOES_NOT_EXIST
  {
    hide IsFullIn, BlocksFor, IsValidFilename;
    var v1 := UnlinkedIn(v, dest, bs);
    assert forall g :: g in v1.open <==> g in v.open;
    assert src != dest ==> forall g :: IsNamedAs(v1, src, g) <==> IsNamedAs(v, src, g);
  }

  /** The number that an open gives, in the table and in what callers see of it. */
  lemma NumberViewed(d: Disk, lay: Layout, fds: seq<FdEntry>, fname: CString)
    requires VolumeOk(d, lay) && TableOk(d, lay, fds)
    ensures forall g :: IsOpenFile(d, lay, fds, fname, g) <==> IsNamedAs(ViewOf(d, lay, fds), fname, g)
    ensures forall g :: g in ViewOf(d, lay, fds).open <==> IsOpen(fds, g)
    ensures forall g :: IsNamedAs(ViewOf(d, lay, fds), fname, g) ==> HasName(d, lay, fname)
  {
    hide VolumeOk, TableOk, OpenViews, Files, Perms, FreeBlocks, IsOpenFile, IsOpenNamed, HasName;
    OpenNamedExists(d, lay, fds, fname);
    OpenKeys(d, lay, fds);
    OpenNamedIff(d, lay, fds, fname);
    NameViewed(d, lay, fds, fname);
  }

  /** The view of the file just opened. */
  lemma OpenedFd(d: Disk, lay: Layout, fds: seq<FdEntry>, d': Disk, lay': Layout, fds': seq<FdEntry>, fname: CString,
                 mode: Mode, r: int)
    requires VolumeOk(d', lay') && TableOk(d, lay, fds) && TableOk(d', lay', fds')
    requires |fds'| == |fds| && 3 <= r < |fds| && IsTableOpened(d, lay, fds, fds', fname, mode, r)
    requires IsDirectoryOpened(d, lay, d', lay', fname, mode, fds'[r].slot)
    ensures IsOpen(fds', r) && fds'[r].entry.Some? && fname in Files(d', lay')
    ensures var v, x, bytes := ViewOf(d, lay, fds), fds'[r], Files(d', lay')[fname];
            ViewOfFd(d', lay', x) ==
              OpenView(Some(fname), bytes, OffsetIn(v, mode, r, |bytes|), mode,
                       if r in v.open then v.open[r].refs + 1 else 1, x.entry.value.perm)
  {
    hide VolumeOk, TableOk, EntryOf, Files, Perms, OpenViews, FreeBlocks, FileBytes, OthersKept, HasName, IsLiveSlot,
      NameOf, IsFirstReusable, IsFullDirectory;
    FdInView(d, lay, fds, r);
    assert IsOpen(fds', r);
    NamedView(d', lay', fds', r, fname);
  }

  lemma EnteredViewed(d: Disk, lay: Layout, fds: seq<FdEntry>, d': Disk, lay': Layout, fds': seq<FdEntry>,
                      fname: CString, mode: Mode, r: int)
    requires VolumeOk(d, lay) && TableOk(d, lay, fds) && VolumeOk(d', lay') && TableOk(d', lay', fds') && d.bs > 0
    requires |fds'| == |fds| && 3 <= r < |fds| && IsTableOpened(d, lay, fds, fds', fname, mode, r)
    requires IsDirectoryOpened(d, lay, d', lay', fname, mode, fds'[r].slot)
    ensures IsEnteredIn(ViewOf(d, lay, fds), fname, mode, d.bs, r, ViewOf(d', lay', fds'))
  {
    hide VolumeOk, TableOk, EntryOf, Perms, OpenViews, FreeBlocks, FileBytes, OthersKept, HasName, IsLiveSlot, Files,
      NameOf, IsFirstReusable, IsFullDirectory, ViewOfFd, IsFullIn, BlocksFor, Elements;
    var s := fds'[r].slot;
    OpenedFd(d, lay, fds, d', lay', fds', fname, mode, r);
    OpenViewed(d, lay, fds, d', lay', fds', r);
    OpenFile(d', lay', fds', r);
    OpenPerms(d, lay, d', lay', fname, mode, s);
    OpenSpace(d, lay, d', lay', fds, fname, mode, s);
    FileExists(d, lay, fname);
    PermExists(d, lay, fname);
    if HasName(d, lay, fname) {
      NameIsHere(d, lay, s, fname);
    }
  }

  /** The open files after a move: `dest` has lost its name, and `src` has got it if there was one to move. */
  lemma OpenAfterMove(d: Disk, lay: Layout, fds: seq<FdEntry>, d': Disk, lay': Layout, fds': seq<FdEntry>, src: CString,
                      dest: CString, moved: bool)
    requires VolumeOk(d, lay) && TableOk(d, lay, fds) && TableOk(d', lay', fds') && IsValidFilename(dest) && |dest| < 32
    requires d.bs > 0 && (moved ==> src != dest)
    requires forall g :: IsOpen(fds, g) ==>
               fds[g].entry.Some? && g < |fds'| && FileBytes(d', lay', fds[g].slot) == FileBytes(d, lay, fds[g].slot)
    requires forall g :: IsOpen(fds', g) <==> IsOpen(fds, g)
    requires forall g :: IsOpen(fds, g) ==>
               fds'[g] == if IsOpenNamed(fds, dest, g) then Unlinked(fds[g])
                          else if moved && IsOpenNamed(fds, src, g) then Renamed(fds[g], dest).(mode := Read)
                               else fds[g]
    ensures var open := UnlinkedIn(ViewOf(d, lay, fds), dest, d.bs).open;
            OpenViews(d', lay', fds') == if moved then MovedTo(open, src, dest) else open
  {
    hide VolumeOk, TableOk, OpenViews, FileBytes, IsOpenNamed, Unlinked, Renamed, Nameless, MovedTo, IsValidFilename,
      Files, HasName, BlocksFor, Perms, FreeBlocks;
    FileExists(d, lay, dest);
    NumberViewed(d, lay, fds, dest);
    if !HasName(d, lay, dest) {
      NoneNamed(ViewOf(d, lay, fds), dest);
    }
    if moved {
      MoveViewed(d, lay, fds, d', lay', fds', src, dest);
    } else {
      UnlinkViewed(d, lay, fds, d', lay', fds', dest);
    }
  }

  /** What a move returns, by what callers see. */
  lemma MoveCodeViewed(d: Disk, lay: Layout, fds: seq<FdEntry>, src: CString, dest: CString)
    requires VolumeOk(d, lay) && TableOk(d, lay, fds) && IsValidFilename(dest) && d.bs > 0
    ensures MoveResult(OpenCodeIn(UnlinkedIn(ViewOf(d, lay, fds), dest, d.bs), src, Read, d.bs)) ==
            if src == dest then if IsFull(fds) then EK_MV_OPEN_FAILED else EK_MV_FILE_NOT_FOUND
            else MoveResult(OpenCodeOf(d, lay, fds, src, Read))
  {
    hide VolumeOk, TableOk, OpenViews, Files, Perms, HasName, IsValidFilename, OpenCodeOf, OpenCodeIn, UnlinkedIn,
      FreeBlocks, IsFull;
    FileExists(d, lay, dest);
    CodeViewed(d, lay, fds, src, Read);
    FullTableViewed(d, lay, fds);
    PermKeys(d, lay);
    NumberViewed(d, lay, fds, dest);
    CodeInAfterUnlink(ViewOf(d, lay, fds), src, dest, d.bs);
  }

  /** What callers see of a consistent volume is coherent. */
  lemma SeenIsCoherent(d: Disk, lay: Layout, fds: seq<FdEntry>)
    requires VolumeOk(d, lay) && TableOk(d, lay, fds)
    ensures IsCoherent(ViewOf(d, lay, fds))
  {
    hide VolumeOk, TableOk, OpenViews, Files, Perms, FreeBlocks, EntryOf, FileBytes, IsLiveSlot, NameOf;
    PermKeys(d, lay);
    OpenKeys(d, lay, fds);
    OpenEntries(d, lay, fds);
    var open := OpenViews(d, lay, fds);
    forall g, n | g in open && open[g].name == Some(n)
      ensures n in Files(d, lay) && Files(d, lay)[n] == open[g].bytes
      ensures forall h :: h in open && open[h].name == Some(n) ==> h == g
    {
      NameViewed(d, lay, fds, n);
      OpenNamedIff(d, lay, fds, n);
      assert IsOpenNamed(fds, n, g) && IsOpenFile(d, lay, fds, n, g);
      NamedView(d, lay, fds, g, n);
      OpenFileUnique(d, lay, fds, n, g);
    }
  }
}
