/** The steps that file operations are made of, and what each does to a volume. */
module VolumeSteps {
  import opened Options
  import opened Words
  import opened DirectoryEntries
  import opened FatChains
  import opened BlockContents
  import opened Volume
  import opened RootDirectory

  // ---- the table of open files ----

  /** One table entry follows the change of its slot; all the others are still coherent. */
  lemma ChangedTableOk(d: Disk, lay: Layout, fds: seq<FdEntry>, d': Disk, lay': Layout, f: int, x: FdEntry, s: Slot,
                       e: Entry)
    requires TableOk(d, lay, fds) && SlotBecomes(d, lay, d', lay', s, e)
    requires 3 <= f < |fds|
    requires forall g :: IsOpen(fds, g) && fds[g].slot == s ==> g == f
    requires IsOpen(fds, f) ==> fds[f].slot == s
    requires x.refs > 0 ==> x.slot == s && x.entry == Some(e) && IsOwning(e)
    requires x.refs == 0 ==> Mark(e) != DELETED_BUT_OPEN && IsIdleOrOpen(x)
    ensures TableOk(d', lay', fds[f := x])
  {
    hide EntryOf;
    var fds' := fds[f := x];
    forall g | IsOpen(fds', g)
      ensures Coherent(d', lay', fds'[g])
    {
      if g != f {
        assert IsOpen(fds, g) && Coherent(d, lay, fds[g]);
        assert IsSlot(d', lay', fds[g].slot);
      }
    }
    forall g, h | IsOpen(fds', g) && IsOpen(fds', h) && fds'[g].slot == fds'[h].slot
      ensures g == h
    {
      if g != f { assert IsOpen(fds, g); }
      if h != f { assert IsOpen(fds, h); }
    }
    forall t | IsSlot(d', lay', t) && Mark(EntryOf(d', t)) == DELETED_BUT_OPEN
      ensures IsOpenSlot(fds', t)
    {
      if t == s {
        assert IsOpen(fds', f);
      } else {
        assert IsOpenSlot(fds, t);
        var g :| IsOpen(fds, g) && fds[g].slot == t;
        assert IsOpen(fds', g);
      }
    }
  }

  /** A change to a slot that nobody has open. */
  lemma UntouchedTableOk(d: Disk, lay: Layout, fds: seq<FdEntry>, d': Disk, lay': Layout, s: Slot, e: Entry)
    requires TableOk(d, lay, fds) && SlotBecomes(d, lay, d', lay', s, e)
    requires !IsOpenSlot(fds, s) && Mark(e) != DELETED_BUT_OPEN
    ensures TableOk(d', lay', fds)
  {
  }

  // ---- whole operations ----

  /** Every file but the one in slot `s` keeps its entry and its bytes. */
  ghost predicate OthersKept(d: Disk, lay: Layout, d': Disk, lay': Layout, s: Slot)
  {
    forall t :: t != s && IsSlot(d, lay, t) && !IsEndMarker(d, t) ==>
      && IsSlot(d', lay', t) && EntryOf(d', t) == EntryOf(d, t)
      && FileBytes(d', lay', t) == FileBytes(d, lay, t)
  }

  lemma OpenFileChanged(d: Disk, lay: Layout, fds: seq<FdEntry>, d': Disk, lay': Layout, f: int, x: FdEntry, s: Slot,
                        e: Entry)
    requires VolumeOk(d, lay) && TableOk(d, lay, fds)
    requires ChangesOnly(d, lay, d', lay', s, e) && EntryFits(d, lay, s, e) && Linked(lay', s, e, d.bs)
    requires 3 <= f < |fds|
    requires forall g :: IsOpen(fds, g) && fds[g].slot == s ==> g == f
    requires IsOpen(fds, f) ==> fds[f].slot == s
    requires x.refs > 0 ==> x.slot == s && x.entry == Some(e) && IsOwning(e)
    requires x.refs == 0 ==> Mark(e) != DELETED_BUT_OPEN && IsIdleOrOpen(x)
    ensures VolumeOk(d', lay') && TableOk(d', lay', fds[f := x])
    ensures Files(d', lay') == FilesAfter(d, lay, s, e, FileBytes(d', lay', s))
    ensures OthersKept(d, lay, d', lay', s) && IsSlot(d', lay', s) && EntryOf(d', s) == e
  {
    hide DiskOk, FatOk, EndMarked, NamesOk, FilesOk, EntryFits, Linked, TableOk, EntryOf, Files, FilesAfter, FileBytes,
      IsEndMarker;
    ChangedVolumeOk(d, lay, d', lay', s, e);
    ChangedTableOk(d, lay, fds, d', lay', f, x, s, e);
    ChangedFiles(d, lay, d', lay', s, e);
  }

  lemma ClosedFileChanged(d: Disk, lay: Layout, fds: seq<FdEntry>, d': Disk, lay': Layout, s: Slot, e: Entry)
    requires VolumeOk(d, lay) && TableOk(d, lay, fds)
    requires ChangesOnly(d, lay, d', lay', s, e) && EntryFits(d, lay, s, e) && Linked(lay', s, e, d.bs)
    requires !IsOpenSlot(fds, s) && Mark(e) != DELETED_BUT_OPEN
    ensures VolumeOk(d', lay') && TableOk(d', lay', fds)
    ensures Files(d', lay') == FilesAfter(d, lay, s, e, FileBytes(d', lay', s))
    ensures OthersKept(d, lay, d', lay', s) && IsSlot(d', lay', s) && EntryOf(d', s) == e
  {
    hide DiskOk, FatOk, EndMarked, NamesOk, FilesOk, EntryFits, Linked, TableOk, EntryOf, Files, FilesAfter, FileBytes,
      IsEndMarker;
    ChangedVolumeOk(d, lay, d', lay', s, e);
    UntouchedTableOk(d, lay, fds, d', lay', s, e);
    ChangedFiles(d, lay, d', lay', s, e);
  }

  /** Clearing the chain of a file touches that file only. */
  lemma ClearTouches(d: Disk, lay: Layout, s: Slot)
    requires DiskOk(d) && FatOk(d.fat, lay) && s in lay.chains
    ensures TouchesOnly(d, lay, d.(fat := Cleared(d.fat, lay.chains[s])), WithoutFile(lay, s), s)
  {
    hide FatOk;
    ClearedOk(d.fat, lay, s);
  }

  // ---- giving up the blocks of a file ----

  ghost function ReleasedDisk(d: Disk, lay: Layout, s: Slot): Disk
  {
    d.(fat := Cleared(d.fat, ChainOf(lay, s)))
  }

  ghost function ReleasedLayout(lay: Layout, s: Slot): Layout
  {
    if s in lay.chains then WithoutFile(lay, s) else lay
  }

  lemma ReleasedTouches(d: Disk, lay: Layout, s: Slot)
    requires DiskOk(d) && FatOk(d.fat, lay)
    ensures TouchesOnly(d, lay, ReleasedDisk(d, lay, s), ReleasedLayout(lay, s), s)
    ensures FreeBlocks(ReleasedDisk(d, lay, s).fat) == FreeBlocks(d.fat) + Elements(ChainOf(lay, s))
  {
    if s in lay.chains {
      ClearTouches(d, lay, s);
      hide FreeBlocks;
      ClearedOk(d.fat, lay, s);
    } else {
      hide FatOk, FreeBlocks;
      assert Cleared(d.fat, []) == d.fat;
    }
  }

  /** Truncating or deleting: the blocks go, the entry becomes one that owns none. */
  lemma ReleasedChange(d: Disk, lay: Layout, s: Slot, e: Entry)
    requires VolumeOk(d, lay) && IsSlot(d, lay, s) && !IsEndMarker(d, s)
    requires Mark(e) != END_OF_DIRECTORY && (IsOwning(e) ==> e.firstBlock == 0 && e.size == 0)
    ensures s.block < |d.data| && 64 * s.idx + 64 <= |d.data[s.block]|
    ensures ChangesOnly(d, lay, WithEntry(ReleasedDisk(d, lay, s), s, e), ReleasedLayout(lay, s), s, e)
    ensures Linked(ReleasedLayout(lay, s), s, e, d.bs)
  {
    hide DiskOk, FatOk, EndMarked, NamesOk, FilesOk, EntryOf, TouchesOnly, ChangesOnly, IsEndMarker;
    ReleasedTouches(d, lay, s);
    StoredChange(d, lay, ReleasedDisk(d, lay, s), ReleasedLayout(lay, s), s, e);
    assert d.bs > 0 by { BlockSizePositive(d); }
    BlocksForBounds(0, d.bs);
  }

  lemma BlockSizePositive(d: Disk)
    requires DiskOk(d)
    ensures d.bs > 0
  {
  }

  /** An open file: where it is, and that nobody else has it open. */
  lemma OpenFile(d: Disk, lay: Layout, fds: seq<FdEntry>, f: int)
    requires VolumeOk(d, lay) && TableOk(d, lay, fds) && IsOpen(fds, f)
    ensures var s := fds[f].slot;
            && IsSlot(d, lay, s) && !IsEndMarker(d, s) && fds[f].entry == Some(EntryOf(d, s)) && IsOwning(EntryOf(d, s))
            && s.block < |d.data| && 64 * s.idx + 64 <= |d.data[s.block]|
            && (IsLive(EntryOf(d, s)) ==> IsValidFilename(NameOf(d, s)))
    ensures forall g :: IsOpen(fds, g) && fds[g].slot == fds[f].slot ==> g == f
  {
  }

  /** The same name may stay where it is. */
  lemma SameNameFits(d: Disk, lay: Layout, s: Slot, e: Entry)
    requires NamesOk(d, lay) && IsLiveSlot(d, lay, s) && e.name == EntryOf(d, s).name
    ensures EntryFits(d, lay, s, e)
  {
  }

  lemma SlotLinked(d: Disk, lay: Layout, s: Slot)
    requires VolumeOk(d, lay) && IsSlot(d, lay, s)
    ensures d.bs > 0 && Linked(lay, s, EntryOf(d, s), d.bs)
  {
  }

  lemma EmptyFile(d: Disk, lay: Layout, s: Slot)
    requires VolumeOk(d, lay) && IsSlot(d, lay, s) && IsOwning(EntryOf(d, s)) && EntryOf(d, s).size == 0
    ensures FileBytes(d, lay, s) == [] && ChainOf(lay, s) == []
    ensures IsLiveSlot(d, lay, s) ==> Files(d, lay) == Files(d, lay)[NameOf(d, s) := []]
  {
    hide EntryOf, DiskOk, FatOk, EndMarked, FilesOk, NamesOk, Files;
    SlotLinked(d, lay, s);
    BlocksForBounds(0, d.bs);
    if IsLiveSlot(d, lay, s) {
      FileAt(d, lay, s);
    }
  }

  lemma ReopenedTableOk(d: Disk, lay: Layout, fds: seq<FdEntry>, f: int, x: FdEntry)
    requires TableOk(d, lay, fds) && 3 <= f < |fds|
    requires forall g :: IsOpen(fds, g) && fds[g].slot == x.slot ==> g == f
    requires IsOpen(fds, f) ==> fds[f].slot == x.slot
    requires x.refs > 0 && IsSlot(d, lay, x.slot) && x.entry == Some(EntryOf(d, x.slot)) && IsOwning(EntryOf(d, x.slot))
    ensures TableOk(d, lay, fds[f := x])
  {
    hide EntryOf;
    ChangedTableOk(d, lay, fds, d, lay, f, x, x.slot, EntryOf(d, x.slot));
  }

  /** A table entry that is not in use does not matter. */
  lemma UnusedTableOk(d: Disk, lay: Layout, fds: seq<FdEntry>, f: int, x: FdEntry)
    requires TableOk(d, lay, fds) && 3 <= f < |fds| && !IsOpen(fds, f) && x.refs == 0 && IsIdleOrOpen(x)
    ensures TableOk(d, lay, fds[f := x])
    ensures forall g :: IsOpen(fds[f := x], g) <==> IsOpen(fds, g)
    ensures forall s :: IsOpenSlot(fds[f := x], s) <==> IsOpenSlot(fds, s)
  {
    hide EntryOf;
    assert forall g :: IsOpen(fds[f := x], g) <==> IsOpen(fds, g);
    forall s | IsOpenSlot(fds, s)
      ensures IsOpenSlot(fds[f := x], s)
    {
      var g :| IsOpen(fds, g) && fds[g].slot == s;
      assert IsOpen(fds[f := x], g);
    }
  }

  /** Opening for writing: the file is empty afterwards and its blocks are free. */
  lemma Truncated(d: Disk, lay: Layout, fds: seq<FdEntry>, f: int, x: FdEntry, s: Slot, e: Entry)
    requires VolumeOk(d, lay) && TableOk(d, lay, fds) && 3 <= f < |fds|
    requires forall g :: IsOpen(fds, g) && fds[g].slot == s ==> g == f
    requires IsOpen(fds, f) ==> fds[f].slot == s
    requires IsLiveSlot(d, lay, s) && e.name == EntryOf(d, s).name && e.size == 0 && e.firstBlock == 0
    requires x.refs > 0 && x.slot == s && x.entry == Some(e)
    ensures s.block < |d.data| && 64 * s.idx + 64 <= |d.data[s.block]|
    ensures var d' := WithEntry(ReleasedDisk(d, lay, s), s, e); var lay' := ReleasedLayout(lay, s);
            && VolumeOk(d', lay') && TableOk(d', lay', fds[f := x])
            && OthersKept(d, lay, d', lay', s)
            && IsLiveSlot(d', lay', s) && EntryOf(d', s) == e && NameOf(d', s) == NameOf(d, s)
            && FileBytes(d', lay', s) == [] && ChainOf(lay', s) == []
            && Files(d', lay') == Files(d, lay)[NameOf(d, s) := []]
            && FreeBlocks(d'.fat) == FreeBlocks(d.fat) + Elements(ChainOf(lay, s))
  {
    hide EntryOf, DiskOk, FatOk, EndMarked, FilesOk, NamesOk, TableOk, ChangesOnly, Files, FileBytes, OthersKept,
      EntryFits, Linked, FreeBlocks;
    NotBlank(d, s);
    ReleasedChange(d, lay, s, e);
    ReleasedTouches(d, lay, s);
    SameNameFits(d, lay, s, e);
    var d' := WithEntry(ReleasedDisk(d, lay, s), s, e);
    var lay' := ReleasedLayout(lay, s);
    OpenFileChanged(d, lay, fds, d', lay', f, x, s, e);
    EmptyFile(d', lay', s);
    FileAt(d, lay, s);
  }

  lemma NotBlank(d: Disk, s: Slot)
    ensures IsOwning(EntryOf(d, s)) ==> !IsEndMarker(d, s)
  {
  }

  lemma LayoutOf(d: Disk, lay: Layout)
    requires VolumeOk(d, lay)
    ensures DiskOk(d) && FatOk(d.fat, lay) && EndMarked(d, lay) && NamesOk(d, lay)
  {
  }

  // ---- new files ----

  function NewEntry(fname: CString, now: U64): (e: Entry)
    requires IsValidFilename(fname)
    ensures StringOf(e.name) == fname && IsLive(e) && e == RawEntry(e.name, 0, 0, 1, 6, now, Zeros(16))
    ensures forall i :: |fname| <= i < 32 ==> e.name[i] == 0
  {
    StrCpyReadsBack(Zeros(32), fname);
    var e := RawEntry(StrCpy(Zeros(32), fname), 0, 0, 1, 6, now, Zeros(16));
    ValidNamesAreLive(e, fname);
    e
  }

  /** A new entry in a place that was free belongs to an empty file. */
  lemma Created(d: Disk, lay: Layout, fds: seq<FdEntry>, d': Disk, lay': Layout, f: int, x: FdEntry, s: Slot,
                fname: CString, now: U64)
    requires VolumeOk(d, lay) && TableOk(d, lay, fds) && IsValidFilename(fname) && !HasName(d, lay, fname)
    requires IsSlot(d, lay, s) && Mark(EntryOf(d, s)) < DELETED_BUT_OPEN
    requires ChangesOnly(d, lay, d', lay', s, NewEntry(fname, now)) && lay'.chains == lay.chains
    requires 3 <= f < |fds| && !IsOpen(fds, f) && x.refs == 0 && IsIdleOrOpen(x)
    ensures VolumeOk(d', lay') && TableOk(d', lay', fds[f := x])
    ensures OthersKept(d, lay, d', lay', s)
    ensures IsLiveSlot(d', lay', s) && EntryOf(d', s) == NewEntry(fname, now) && NameOf(d', s) == fname
    ensures FileBytes(d', lay', s) == [] && Files(d', lay') == Files(d, lay)[fname := []]
    ensures !IsOpenSlot(fds[f := x], s) && s !in lay'.chains
  {
    var e := NewEntry(fname, now);
    NotOpenHere(d, lay, fds, s);
    hide EntryOf, DiskOk, FatOk, EndMarked, FilesOk, NamesOk, TableOk, ChangesOnly, Files, FileBytes, OthersKept,
      NewEntry;
    SlotLinked(d, lay, s);
    BlocksForBounds(0, d.bs);
    assert Linked(lay', s, e, d.bs);
    OpenFileChanged(d, lay, fds, d', lay', f, x, s, e);
    EmptyFile(d', lay', s);
  }

  /** Nobody has a place open that no file owns. */
  lemma NotOpenHere(d: Disk, lay: Layout, fds: seq<FdEntry>, s: Slot)
    requires TableOk(d, lay, fds) && Mark(EntryOf(d, s)) < DELETED_BUT_OPEN
    ensures !IsOpenSlot(fds, s)
  {
  }

  /** An open file whose slot was overwritten is no longer the one on disk. */
  lemma OverwrittenIsIncoherent(d: Disk, lay: Layout, fds: seq<FdEntry>, d': Disk, fds': seq<FdEntry>, s: Slot)
    requires TableOk(d, lay, fds) && IsSlot(d, lay, s) && Mark(EntryOf(d, s)) == DELETED_BUT_OPEN
    requires IsLive(EntryOf(d', s))
    requires forall g :: IsOpen(fds, g) ==> g < |fds'| && fds'[g] == fds[g]
    ensures forall l :: !TableOk(d', l, fds')
  {
  }

  /** The name of an open file is in the directory, and in one place only. */
  lemma OpenByName(d: Disk, lay: Layout, fds: seq<FdEntry>, f: int, fname: CString)
    requires VolumeOk(d, lay) && TableOk(d, lay, fds) && IsOpen(fds, f)
    requires IsLive(fds[f].entry.value) && IsNamed(fds[f].entry.value, fname)
    ensures IsOpenFile(d, lay, fds, fname, f)
    ensures IsLiveSlot(d, lay, fds[f].slot) && NameOf(d, fds[f].slot) == fname && HasName(d, lay, fname)
    ensures fds[f].entry == Some(EntryOf(d, fds[f].slot))
    ensures forall g :: IsOpen(fds, g) && fds[g].slot == fds[f].slot ==> g == f
  {
  }

  /** A name that the table does not know is not open. */
  lemma NotOpenByName(d: Disk, lay: Layout, fds: seq<FdEntry>, s: Slot, fname: CString)
    requires TableOk(d, lay, fds) && IsLiveSlot(d, lay, s) && NameOf(d, s) == fname
    requires forall g :: IsOpen(fds, g) && fds[g].entry.Some? && IsLive(fds[g].entry.value) ==>
               !IsNamed(fds[g].entry.value, fname)
    ensures !IsOpenSlot(fds, s)
  {
  }

  /** The file of this name is open, as number `g`. */
  ghost predicate IsOpenFile(d: Disk, lay: Layout, fds: seq<FdEntry>, fname: CString, g: int)
  {
    IsOpen(fds, g) && IsLiveSlot(d, lay, fds[g].slot) && NameOf(d, fds[g].slot) == fname
  }

  /** The same, by the cached entry. */
  predicate IsOpenNamed(fds: seq<FdEntry>, fname: CString, g: int)
  {
    IsOpen(fds, g) && fds[g].entry.Some? && IsLive(fds[g].entry.value) && IsNamed(fds[g].entry.value, fname)
  }

  lemma OpenNamedIff(d: Disk, lay: Layout, fds: seq<FdEntry>, fname: CString)
    requires TableOk(d, lay, fds)
    ensures forall g :: IsOpenNamed(fds, fname, g) <==> IsOpenFile(d, lay, fds, fname, g)
  {
    hide EntryOf;
    assert forall g :: IsOpen(fds, g) ==> Coherent(d, lay, fds[g]);
  }

  lemma OpenNamedExists(d: Disk, lay: Layout, fds: seq<FdEntry>, fname: CString)
    requires TableOk(d, lay, fds)
    ensures forall g :: IsOpenNamed(fds, fname, g) ==> HasName(d, lay, fname)
  {
    hide TableOk, IsOpenNamed, EntryOf;
    OpenNamedIff(d, lay, fds, fname);
  }

  lemma OpenNamedUnique(d: Disk, lay: Layout, fds: seq<FdEntry>, fname: CString, f: int)
    requires VolumeOk(d, lay) && TableOk(d, lay, fds) && IsOpenNamed(fds, fname, f)
    ensures forall g :: IsOpenNamed(fds, fname, g) ==> g == f
  {
    hide VolumeOk, TableOk, IsOpenFile, IsOpenNamed;
    OpenNamedIff(d, lay, fds, fname);
    OpenFileUnique(d, lay, fds, fname, f);
  }

  lemma ValidLength(n: CString)
    requires IsValidFilename(n)
    ensures |n| < 32
  {
  }

  /** The table entry of an open file that has been deleted. */
  function Unlinked(x: FdEntry): FdEntry
    requires x.entry.Some?
  {
    x.(entry := Some(Marked(x.entry.value, DELETED_BUT_OPEN)))
  }

  /** The table entry of an open file that has been given another name. */
  function Renamed(x: FdEntry, n: CString): FdEntry
    requires x.entry.Some? && |n| < 32
  {
    x.(entry := Some(x.entry.value.(name := StrCpy(x.entry.value.name, n))))
  }

  lemma NoneOpenByName(d: Disk, lay: Layout, fds: seq<FdEntry>, fname: CString)
    requires TableOk(d, lay, fds)
    requires forall g :: IsOpen(fds, g) && fds[g].entry.Some? && IsLive(fds[g].entry.value) ==>
               !IsNamed(fds[g].entry.value, fname)
    ensures forall g :: !IsOpenFile(d, lay, fds, fname, g)
  {
    hide EntryOf;
    assert forall g :: IsOpen(fds, g) ==> Coherent(d, lay, fds[g]);
  }

  lemma OpenFileUnique(d: Disk, lay: Layout, fds: seq<FdEntry>, fname: CString, f: int)
    requires VolumeOk(d, lay) && TableOk(d, lay, fds) && IsOpenFile(d, lay, fds, fname, f)
    ensures HasName(d, lay, fname) && SlotNamed(d, lay, fname) == fds[f].slot
    ensures forall g :: IsOpenFile(d, lay, fds, fname, g) ==> g == f
  {
    hide EntryOf, DiskOk, FatOk, EndMarked, FilesOk;
  }

  lemma OpenEntries(d: Disk, lay: Layout, fds: seq<FdEntry>)
    requires TableOk(d, lay, fds)
    ensures |fds| == GLOBAL_FD_TABLE_SIZE && forall g :: IsOpen(fds, g) ==> fds[g].entry.Some?
  {
  }

  lemma NamedHere(d: Disk, lay: Layout, s: Slot, fname: CString)
    requires IsLiveSlot(d, lay, s) && NameOf(d, s) == fname
    ensures HasName(d, lay, fname)
  {
  }

  lemma OthersKeptRefl(d: Disk, lay: Layout, s: Slot)
    ensures OthersKept(d, lay, d, lay, s)
  {
  }

  // ---- permissions ----

  /** The name in slot `s`, if there is one. */
  ghost function NameIn(d: Disk, lay: Layout, s: Slot): set<CString>
  {
    if IsLiveSlot(d, lay, s) then {NameOf(d, s)} else {}
  }

  lemma PermKept(d: Disk, lay: Layout, d': Disk, lay': Layout, s: Slot, n: CString)
    requires NamesOk(d, lay) && NamesOk(d', lay') && OthersKept(d, lay, d', lay', s)
    requires n in Perms(d, lay) && n !in NameIn(d, lay, s)
    ensures n in Perms(d', lay') && Perms(d', lay')[n] == Perms(d, lay)[n]
  {
    hide EntryOf, Perms, FileBytes;
    PermExists(d, lay, n);
    var t := SlotNamed(d, lay, n);
    assert !IsEndMarker(d, t);
    PermAt(d, lay, t);
    PermAt(d', lay', t);
  }

  /** A change to the file in slot `s`, which may get or lose its name, leaves all other permissions. */
  lemma PermsAfter(d: Disk, lay: Layout, d': Disk, lay': Layout, s: Slot)
    requires NamesOk(d, lay) && NamesOk(d', lay') && OthersKept(d, lay, d', lay', s)
    requires Files(d', lay').Keys == Files(d, lay).Keys - NameIn(d, lay, s) + NameIn(d', lay', s)
    ensures Perms(d', lay') == if IsLiveSlot(d', lay', s)
                               then (Perms(d, lay) - NameIn(d, lay, s))[NameOf(d', s) := EntryOf(d', s).perm]
                               else Perms(d, lay) - NameIn(d, lay, s)
  {
    hide EntryOf, Perms, Files, NamesOk, OthersKept, HasName, IsLiveSlot, NameOf;
    var now := if IsLiveSlot(d', lay', s) then (Perms(d, lay) - NameIn(d, lay, s))[NameOf(d', s) := EntryOf(d', s).perm]
               else Perms(d, lay) - NameIn(d, lay, s);
    forall n
      ensures n in Perms(d', lay') <==> n in now
      ensures n in now ==> Perms(d', lay')[n] == now[n]
    {
      PermExists(d, lay, n);
      PermExists(d', lay', n);
      FileExists(d, lay, n);
      FileExists(d', lay', n);
      if n in NameIn(d', lay', s) {
        PermAt(d', lay', s);
      } else if n in now {
        PermKept(d, lay, d', lay', s, n);
      }
    }
    assert Perms(d', lay').Keys == now.Keys;
  }

  lemma UnlinkedPerms(d: Disk, lay: Layout, d': Disk, lay': Layout, s: Slot, n: CString)
    requires VolumeOk(d, lay) && VolumeOk(d', lay') && IsLiveSlot(d, lay, s) && NameOf(d, s) == n
    requires OthersKept(d, lay, d', lay', s) && !IsLive(EntryOf(d', s)) && Files(d', lay') == Files(d, lay) - {n}
    ensures Perms(d', lay') == Perms(d, lay) - {n}
  {
    hide DiskOk, FatOk, EndMarked, NamesOk, FilesOk, EntryOf, Files, Perms, OthersKept;
    PermsAfter(d, lay, d', lay', s);
  }

  lemma RenamedPerms(d: Disk, lay: Layout, d': Disk, s: Slot, e: Entry)
    requires VolumeOk(d, lay) && VolumeOk(d', lay) && IsLiveSlot(d, lay, s) && IsLiveSlot(d', lay, s)
    requires EntryOf(d', s) == e && e.perm == EntryOf(d, s).perm
    requires OthersKept(d, lay, d', lay, s) && Files(d', lay).Keys ==
               Files(d, lay).Keys - {NameOf(d, s)} + {NameOf(d', s)}
    ensures NameOf(d, s) in Perms(d, lay)
    ensures Perms(d', lay) == (Perms(d, lay) - {NameOf(d, s)})[NameOf(d', s) := Perms(d, lay)[NameOf(d, s)]]
  {
    hide DiskOk, FatOk, EndMarked, NamesOk, FilesOk, EntryOf, Files, Perms, OthersKept;
    PermsAfter(d, lay, d', lay, s);
    PermAt(d, lay, s);
  }

  lemma NoBlocksOf(lay: Layout, s: Slot)
    ensures s !in lay.chains ==> Elements(ChainOf(lay, s)) == {}
  {
  }

  lemma OthersKeptTrans(d: Disk, lay: Layout, d1: Disk, lay1: Layout, d2: Disk, lay2: Layout, s: Slot)
    requires OthersKept(d, lay, d1, lay1, s) && OthersKept(d1, lay1, d2, lay2, s)
    ensures OthersKept(d, lay, d2, lay2, s)
  {
  }

  /** What the place for a new entry held before. */
  lemma FirstReusableMark(d: Disk, lay: Layout, s: Slot)
    requires IsFirstReusable(d, lay, s)
    ensures IsSlot(d, lay, s)
    ensures WouldReuseOpenSlot(d, lay) <==> Mark(EntryOf(d, s)) == DELETED_BUT_OPEN
    ensures !WouldReuseOpenSlot(d, lay) ==> Mark(EntryOf(d, s)) < DELETED_BUT_OPEN
  {
  }

  // ---- entries that keep their file ----

  lemma KeptBytes(d: Disk, lay: Layout, s: Slot, e: Entry)
    requires DiskOk(d) && FatOk(d.fat, lay) && IsSlot(d, lay, s) && e.size == EntryOf(d, s).size
    ensures s.block < |d.data| && 64 * s.idx + 64 <= |d.data[s.block]|
    ensures FileBytes(WithEntry(d, s, e), lay, s) == FileBytes(d, lay, s)
  {
    SlotInRange(d, lay, s);
    WithEntryReads(d, lay, s, e, s);
    var c := ChainOf(lay, s);
    ChainHasBlocks(d, lay, s);
    if s in lay.chains {
      assert Owns(lay, File(s), c);
    }
    hide FatOk, EntryOf;
    FlattenFrame(d.data, WithEntry(d, s, e).data, d.bs, c);
  }

  /** Rewriting the entry of an open file without touching its blocks: renaming, or deleting it. */
  lemma Rewritten(d: Disk, lay: Layout, fds: seq<FdEntry>, f: int, x: FdEntry, s: Slot, e: Entry)
    requires VolumeOk(d, lay) && TableOk(d, lay, fds) && IsOpen(fds, f) && fds[f].slot == s
    requires IsOwning(e) && e.size == EntryOf(d, s).size && e.firstBlock == EntryOf(d, s).firstBlock
    requires EntryFits(d, lay, s, e)
    requires x.refs > 0 && x.slot == s && x.entry == Some(e)
    ensures s.block < |d.data| && 64 * s.idx + 64 <= |d.data[s.block]|
    ensures var d' := WithEntry(d, s, e);
            && VolumeOk(d', lay) && TableOk(d', lay, fds[f := x]) && OthersKept(d, lay, d', lay, s)
            && IsSlot(d', lay, s) && EntryOf(d', s) == e
            && FileBytes(d', lay, s) == FileBytes(d, lay, s)
            && Files(d', lay) == FilesAfter(d, lay, s, e, FileBytes(d, lay, s))
  {
    hide EntryOf, DiskOk, FatOk, EndMarked, FilesOk, NamesOk, TableOk, ChangesOnly, Files, FileBytes, OthersKept,
      EntryFits, FilesAfter;
    OpenFile(d, lay, fds, f);
    assert Mark(e) != END_OF_DIRECTORY;
    KeptStoredChange(d, lay, s, e);
    KeptBytes(d, lay, s, e);
    SlotLinked(d, lay, s);
    OpenFileChanged(d, lay, fds, WithEntry(d, s, e), lay, f, x, s, e);
  }

  function Marked(e: Entry, mark: Byte): (r: Entry)
    ensures Mark(r) == mark && r == e.(name := r.name) && r.name[1..] == e.name[1..]
  {
    e.(name := e.name[0 := mark])
  }

  /** Deleting a file that nobody has open, or closing a deleted one: its blocks are free again. */
  lemma Deleted(d: Disk, lay: Layout, s: Slot, e: Entry)
    requires VolumeOk(d, lay) && IsSlot(d, lay, s) && !IsEndMarker(d, s) && Mark(e) == DELETED
    ensures s.block < |d.data| && 64 * s.idx + 64 <= |d.data[s.block]|
    ensures ChangesOnly(d, lay, WithEntry(ReleasedDisk(d, lay, s), s, e), ReleasedLayout(lay, s), s, e)
    ensures Linked(ReleasedLayout(lay, s), s, e, d.bs) && EntryFits(d, lay, s, e)
    ensures FreeBlocks(ReleasedDisk(d, lay, s).fat) == FreeBlocks(d.fat) + Elements(ChainOf(lay, s))
  {
    hide EntryOf, DiskOk, FatOk, EndMarked, FilesOk, NamesOk, ChangesOnly, FreeBlocks, Linked, IsEndMarker;
    ReleasedChange(d, lay, s, e);
    ReleasedTouches(d, lay, s);
  }

  // ---- closing ----

  lemma SharedTableOk(d: Disk, lay: Layout, fds: seq<FdEntry>, f: int, x: FdEntry)
    requires TableOk(d, lay, fds) && IsOpen(fds, f) && x.refs > 0 && x.slot == fds[f].slot && x.entry == fds[f].entry
    ensures TableOk(d, lay, fds[f := x])
  {
    hide EntryOf;
    assert Coherent(d, lay, fds[f]);
    ReopenedTableOk(d, lay, fds, f, x);
  }

  /** The mode of an entry does not matter for the table. */
  lemma ModeTableOk(d: Disk, lay: Layout, fds: seq<FdEntry>, f: nat, mode: Mode)
    requires f < |fds|
    ensures TableOk(d, lay, fds[f := fds[f].(mode := mode)]) <==> TableOk(d, lay, fds)
  {
    hide TableOk;
    var fds' := fds[f := fds[f].(mode := mode)];
    assert fds'[f := fds'[f].(mode := fds[f].mode)] == fds;
    if TableOk(d, lay, fds) {
      ModeKept(d, lay, fds, f, mode);
    }
    if TableOk(d, lay, fds') {
      ModeKept(d, lay, fds', f, fds[f].mode);
    }
  }

  lemma ModeKept(d: Disk, lay: Layout, fds: seq<FdEntry>, f: nat, mode: Mode)
    requires f < |fds| && TableOk(d, lay, fds)
    ensures TableOk(d, lay, fds[f := fds[f].(mode := mode)])
  {
    hide EntryOf, IsSlot;
    var fds' := fds[f := fds[f].(mode := mode)];
    assert forall g :: IsOpen(fds', g) <==> IsOpen(fds, g);
    forall g | IsOpen(fds', g) ensures Coherent(d, lay, fds'[g]) {
      assert Coherent(d, lay, fds[g]);
    }
    forall g | 3 <= g < |fds'| ensures IsIdleOrOpen(fds'[g]) {
      assert IsIdleOrOpen(fds[g]);
    }
    forall s | IsOpenSlot(fds, s) ensures IsOpenSlot(fds', s) {
      var g :| IsOpen(fds, g) && fds[g].slot == s;
      assert IsOpen(fds', g) && fds'[g].slot == s;
    }
  }

  lemma IdleEntries(d: Disk, lay: Layout, fds: seq<FdEntry>, f: int)
    requires TableOk(d, lay, fds) && 3 <= f < |fds|
    ensures IsIdleOrOpen(fds[f])
  {
  }

  lemma IdleTableOk(d: Disk, lay: Layout, fds: seq<FdEntry>, f: int, x: FdEntry)
    requires TableOk(d, lay, fds) && 3 <= f < |fds| && x.refs == 0 && x.entry.None?
    requires IsOpen(fds, f) ==> fds[f].entry.Some? && IsLive(fds[f].entry.value)
    ensures TableOk(d, lay, fds[f := x])
  {
    hide EntryOf;
    if IsOpen(fds, f) {
      assert Coherent(d, lay, fds[f]);
      ChangedTableOk(d, lay, fds, d, lay, f, x, fds[f].slot, EntryOf(d, fds[f].slot));
    } else {
      UnusedTableOk(d, lay, fds, f, x);
    }
  }

  /** A slot that shows no name before and after changes nothing that callers see. */
  lemma NoNameChanged(d: Disk, lay: Layout, s: Slot, e: Entry, bytes: seq<Byte>)
    requires !IsLive(EntryOf(d, s)) && !IsLive(e)
    ensures FilesAfter(d, lay, s, e, bytes) == Files(d, lay)
  {
  }

  lemma LinkedBlocks(d: Disk, lay: Layout, s: Slot)
    requires VolumeOk(d, lay) && IsSlot(d, lay, s) && IsOwning(EntryOf(d, s))
    ensures EntryOf(d, s).firstBlock != 0 <==> s in lay.chains
    ensures s in lay.chains ==> lay.chains[s] != [] && lay.chains[s][0] == EntryOf(d, s).firstBlock
  {
  }

  // ---- deleting ----

  lemma NamelessFits(d: Disk, lay: Layout, s: Slot, e: Entry)
    requires Mark(e) != END_OF_DIRECTORY && !IsLive(e)
    ensures EntryFits(d, lay, s, e)
  {
  }

  lemma NameDropped(d: Disk, lay: Layout, s: Slot, e: Entry, bytes: seq<Byte>)
    requires IsLiveSlot(d, lay, s) && !IsLive(e)
    ensures FilesAfter(d, lay, s, e, bytes) == Files(d, lay) - {NameOf(d, s)}
  {
  }

  lemma NameIsHere(d: Disk, lay: Layout, s: Slot, fname: CString)
    requires VolumeOk(d, lay) && IsLiveSlot(d, lay, s) && NameOf(d, s) == fname
    ensures HasName(d, lay, fname) && SlotNamed(d, lay, fname) == s
  {
  }

  // ---- renaming ----

  lemma NewNameFits(d: Disk, lay: Layout, s: Slot, e: Entry, dest: CString)
    requires IsValidFilename(dest) && !HasName(d, lay, dest) && e.name == StrCpy(e.name, dest)
    ensures StringOf(e.name) == dest && IsLive(e) && EntryFits(d, lay, s, e)
  {
    hide EntryOf;
    StrCpyReadsBack(e.name, dest);
    ValidNamesAreLive(e, dest);
  }

  /** Readers of other open files see no difference. */
  lemma OpenBytesKept(d: Disk, lay: Layout, fds: seq<FdEntry>, d': Disk, lay': Layout, s: Slot)
    requires TableOk(d, lay, fds) && OthersKept(d, lay, d', lay', s)
    ensures forall g :: IsOpen(fds, g) && fds[g].slot != s ==>
              FileBytes(d', lay', fds[g].slot) == FileBytes(d, lay, fds[g].slot)
  {
  }

  lemma ChainIn(d: Disk, lay: Layout, s: Slot)
    requires VolumeOk(d, lay) && s in lay.chains
    ensures IsChain(d.fat, lay.chains[s])
  {
  }

  lemma BlockSizeOf(d: Disk, lay: Layout)
    requires VolumeOk(d, lay)
    ensures 256 <= d.bs <= 4096
  {
  }

  lemma NoOpenSlotReused(d: Disk, lay: Layout, fds: seq<FdEntry>)
    requires TableOk(d, lay, fds)
    requires forall f :: 3 <= f < |fds| && fds[f].refs > 0 && fds[f].entry.Some? ==>
               Mark(fds[f].entry.value) != DELETED_BUT_OPEN
    ensures !WouldReuseOpenSlot(d, lay)
  {
  }

  lemma LiveOpenFile(d: Disk, lay: Layout, fds: seq<FdEntry>, f: int)
    requires VolumeOk(d, lay) && TableOk(d, lay, fds) && IsOpen(fds, f)
    ensures fds[f].entry.Some?
    ensures IsLive(fds[f].entry.value) ==>
              NameOf(d, fds[f].slot) in Files(d, lay) &&
                Files(d, lay)[NameOf(d, fds[f].slot)] == FileBytes(d, lay, fds[f].slot)
  {
    hide EntryOf, Files, FileBytes, FatOk, EndMarked, FilesOk, NamesOk, NameOf;
    assert Coherent(d, lay, fds[f]);
    if IsLive(fds[f].entry.value) {
      FileAt(d, lay, fds[f].slot);
    }
  }

}
