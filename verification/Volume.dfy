/**
 A mounted PennFAT volume as a value: block links, data blocks, the layout of the
 directory and the global table of open files. `VolumeOk` is the invariant that every
 file operation keeps; the lemmas say what changing one directory slot does to it.
 */
module Volume {
  import opened Options
  import opened Words
  import opened DirectoryEntries
  import opened FatChains
  import opened BlockContents

  const GLOBAL_FD_TABLE_SIZE := 4096

  datatype Mode = Read | Write | Append

  /** An entry of the global table; `entry` is the in-memory copy of a directory entry. */
  datatype FdEntry = FdEntry(refs: nat, entry: Option<Entry>, slot: Slot, mode: Mode, offset: U32)

  /** Data block `b` is `data[b]`; block numbers start at 1. */
  datatype Disk = Disk(bs: nat, fat: seq<U16>, data: seq<seq<Byte>>)

  predicate IsBlockSize(bs: nat)
  {
    bs == 256 || bs == 512 || bs == 1024 || bs == 2048 || bs == 4096
  }

  ghost predicate DiskOk(d: Disk)
  {
    && IsBlockSize(d.bs)
    && |d.data| == |d.fat|
    && forall b: nat :: IsBlock(d.fat, b) ==> |d.data[b]| == d.bs
  }

  // ---- the directory ----

  ghost predicate IsSlot(d: Disk, lay: Layout, s: Slot)
  {
    s.block in lay.root && 64 * s.idx + 64 <= d.bs
  }

  const BLANK: Entry := RawEntry(Zeros(32), 0, 0, 0, 0, 0, Zeros(16))

  ghost function EntryOf(d: Disk, s: Slot): Entry
  {
    if s.block < |d.data| && 64 * s.idx + 64 <= |d.data[s.block]| then EntryAt(d.data[s.block], s.idx) else BLANK
  }

  ghost predicate IsLiveSlot(d: Disk, lay: Layout, s: Slot)
  {
    IsSlot(d, lay, s) && IsLive(EntryOf(d, s))
  }

  ghost function NameOf(d: Disk, s: Slot): CString
  {
    StringOf(EntryOf(d, s).name)
  }

  ghost function LastBlock(lay: Layout): nat
    requires lay.root != []
  {
    lay.root[|lay.root| - 1]
  }

  /** Everything before the end marker is a real entry, nothing from it on is. */
  ghost predicate EndMarked(d: Disk, lay: Layout)
  {
    && lay.root != []
    && 64 * lay.end + 64 <= d.bs
    && forall s :: IsSlot(d, lay, s) ==> (IsEndMarker(d, s) <==> IsPastEnd(lay, s))
  }

  ghost predicate IsEndMarker(d: Disk, s: Slot)
  {
    Mark(EntryOf(d, s)) == END_OF_DIRECTORY
  }

  ghost predicate IsPastEnd(lay: Layout, s: Slot)
    requires lay.root != []
  {
    s.block == LastBlock(lay) && s.idx >= lay.end
  }

  ghost predicate NamesOk(d: Disk, lay: Layout)
  {
    && (forall s :: IsLiveSlot(d, lay, s) ==> IsValidFilename(NameOf(d, s)))
    && (forall s, t :: IsLiveSlot(d, lay, s) && IsLiveSlot(d, lay, t) && NameOf(d, s) == NameOf(d, t) ==> s == t)
  }

  // ---- files ----

  ghost function ChainOf(lay: Layout, s: Slot): seq<nat>
  {
    if s in lay.chains then lay.chains[s] else []
  }

  /** The entry of a slot and the chain that the layout gives it fit together. */
  ghost predicate Linked(lay: Layout, s: Slot, e: Entry, bs: nat)
    requires bs > 0
  {
    && (s in lay.chains <==> IsOwning(e) && e.firstBlock != 0)
    && (s in lay.chains ==> lay.chains[s] != [] && lay.chains[s][0] == e.firstBlock)
    && (IsOwning(e) ==> |ChainOf(lay, s)| == BlocksFor(e.size, bs))
  }

  ghost predicate FilesOk(d: Disk, lay: Layout)
    requires d.bs > 0
  {
    && (forall s :: s in lay.chains ==> IsSlot(d, lay, s))
    && (forall s :: IsSlot(d, lay, s) ==> Linked(lay, s, EntryOf(d, s), d.bs))
  }

  ghost predicate VolumeOk(d: Disk, lay: Layout)
  {
    DiskOk(d) && FatOk(d.fat, lay) && EndMarked(d, lay) && NamesOk(d, lay) && FilesOk(d, lay)
  }

  /** The first `size` bytes of a chain. */
  ghost function BytesOf(d: Disk, c: seq<nat>, size: nat): seq<Byte>
  {
    if HasBlocks(d.data, d.bs, c) && size <= |c| * d.bs then Flatten(d.data, d.bs, c)[..size] else []
  }

  ghost function FileBytes(d: Disk, lay: Layout, s: Slot): seq<Byte>
  {
    BytesOf(d, ChainOf(lay, s), EntryOf(d, s).size)
  }

  // ---- the open files ----

  predicate IsOpen(fds: seq<FdEntry>, f: int)
  {
    3 <= f < |fds| && fds[f].refs > 0
  }

  /** The cached entry is the one on disk, and it has not been released. */
  ghost predicate Coherent(d: Disk, lay: Layout, f: FdEntry)
  {
    && IsSlot(d, lay, f.slot)
    && f.entry == Some(EntryOf(d, f.slot))
    && IsOwning(f.entry.value)
  }

  ghost predicate TableOk(d: Disk, lay: Layout, fds: seq<FdEntry>)
  {
    && |fds| == GLOBAL_FD_TABLE_SIZE
    && (forall f :: IsOpen(fds, f) ==> Coherent(d, lay, fds[f]))
    && (forall f, g :: IsOpen(fds, f) && IsOpen(fds, g) && fds[f].slot == fds[g].slot ==> f == g)
    && (forall s :: IsSlot(d, lay, s) && Mark(EntryOf(d, s)) == DELETED_BUT_OPEN ==> IsOpenSlot(fds, s))
    && (forall f :: 3 <= f < |fds| ==> IsIdleOrOpen(fds[f]))
  }

  /** A table entry that is not in use holds no entry, or one left behind by a refused open. */
  predicate IsIdleOrOpen(f: FdEntry)
  {
    f.refs == 0 && f.entry.Some? ==> IsLive(f.entry.value)
  }

  ghost predicate IsOpenSlot(fds: seq<FdEntry>, s: Slot)
  {
    exists f :: IsOpen(fds, f) && fds[f].slot == s
  }

  // ---- the names and contents that callers see ----

  ghost predicate HasName(d: Disk, lay: Layout, n: CString)
  {
    exists s :: IsLiveSlot(d, lay, s) && NameOf(d, s) == n
  }

  ghost function SlotNamed(d: Disk, lay: Layout, n: CString): (s: Slot)
    requires HasName(d, lay, n)
    ensures IsLiveSlot(d, lay, s) && NameOf(d, s) == n
  {
    var s :| IsLiveSlot(d, lay, s) && NameOf(d, s) == n;
    s
  }

  ghost function Names(d: Disk, lay: Layout): set<CString>
  {
    set b, i: nat | b in lay.root && 0 <= i < d.bs && IsLiveSlot(d, lay, Slot(b, i)) :: NameOf(d, Slot(b, i))
  }

  /** The directory as callers see it: the contents of every file, by name. */
  ghost function Files(d: Disk, lay: Layout): map<CString, seq<Byte>>
  {
    map n | n in Names(d, lay) && HasName(d, lay, n) :: FileBytes(d, lay, SlotNamed(d, lay, n))
  }

  /** The permissions of every file that has a name. */
  ghost function Perms(d: Disk, lay: Layout): map<CString, Byte>
  {
    map n | n in Names(d, lay) && HasName(d, lay, n) :: EntryOf(d, SlotNamed(d, lay, n)).perm
  }

  lemma FileAt(d: Disk, lay: Layout, s: Slot)
    requires NamesOk(d, lay) && IsLiveSlot(d, lay, s)
    ensures NameOf(d, s) in Files(d, lay)
    ensures Files(d, lay)[NameOf(d, s)] == FileBytes(d, lay, s)
  {
  }

  lemma FileExists(d: Disk, lay: Layout, n: CString)
    ensures n in Files(d, lay) <==> HasName(d, lay, n)
  {
  }

  lemma PermAt(d: Disk, lay: Layout, s: Slot)
    requires NamesOk(d, lay) && IsLiveSlot(d, lay, s)
    ensures NameOf(d, s) in Perms(d, lay)
    ensures Perms(d, lay)[NameOf(d, s)] == EntryOf(d, s).perm
  {
  }

  lemma PermExists(d: Disk, lay: Layout, n: CString)
    ensures n in Perms(d, lay) <==> HasName(d, lay, n)
    ensures HasName(d, lay, n) ==> Perms(d, lay)[n] == EntryOf(d, SlotNamed(d, lay, n)).perm
  {
  }

  // ---- changing one slot ----

  /** `write_root_dir_entry` */
  function WithEntry(d: Disk, s: Slot, e: Entry): (r: Disk)
    requires s.block < |d.data| && 64 * s.idx + 64 <= |d.data[s.block]|
    ensures r.bs == d.bs && r.fat == d.fat && |r.data| == |d.data|
  {
    d.(data := d.data[s.block := PutEntry(d.data[s.block], s.idx, e)])
  }

  lemma SlotInRange(d: Disk, lay: Layout, s: Slot)
    requires DiskOk(d) && FatOk(d.fat, lay) && IsSlot(d, lay, s)
    ensures IsBlock(d.fat, s.block) && s.block < |d.data|
    ensures |d.data[s.block]| == d.bs && 64 * s.idx + 64 <= |d.data[s.block]|
    ensures lay.owner[s.block] == Directory
  {
  }

  lemma WithEntryReads(d: Disk, lay: Layout, s: Slot, e: Entry, t: Slot)
    requires DiskOk(d) && FatOk(d.fat, lay) && IsSlot(d, lay, s) && IsSlot(d, lay, t)
    ensures s.block < |d.data| && 64 * s.idx + 64 <= |d.data[s.block]|
    ensures EntryOf(WithEntry(d, s, e), t) == if t == s then e else EntryOf(d, t)
  {
    SlotInRange(d, lay, s);
    SlotInRange(d, lay, t);
    if t.block == s.block {
      PutEntryAt(d.data[s.block], s.idx, e, t.idx);
    }
  }

  ghost predicate SameBlocks(d: Disk, d': Disk, c: seq<nat>)
  {
    forall i :: 0 <= i < |c| && c[i] < |d.data| ==> c[i] < |d'.data| && d'.data[c[i]] == d.data[c[i]]
  }

  /**
   The directory is the same but for slot `s`, whose entry becomes `e`. Places that hold
   no entry before or after are of no interest.
   */
  ghost predicate SlotBecomes(d: Disk, lay: Layout, d': Disk, lay': Layout, s: Slot, e: Entry)
  {
    && d'.bs == d.bs && IsSlot(d', lay', s) && EntryOf(d', s) == e
    && (forall t :: IsSlot(d, lay, t) ==> IsSlot(d', lay', t))
    && (forall t :: IsSlot(d', lay', t) && t != s ==> IsKept(d, lay, d', t) || IsStillBlank(d, lay, d', t))
  }

  ghost predicate IsKept(d: Disk, lay: Layout, d': Disk, t: Slot)
  {
    IsSlot(d, lay, t) && EntryOf(d', t) == EntryOf(d, t)
  }

  ghost predicate IsStillBlank(d: Disk, lay: Layout, d': Disk, t: Slot)
  {
    IsEndMarker(d', t) && (IsSlot(d, lay, t) ==> IsEndMarker(d, t))
  }

  ghost predicate SameChains(lay: Layout, lay': Layout, s: Slot)
  {
    forall t :: t != s ==> (t in lay'.chains <==> t in lay.chains) && ChainOf(lay', t) == ChainOf(lay, t)
  }

  /**
   What an operation on the file in slot `s` does to the volume: its entry becomes `e`,
   its chain the one of `lay'`, and every other file keeps its entry and its blocks.
   */
  ghost predicate ChangesOnly(d: Disk, lay: Layout, d': Disk, lay': Layout, s: Slot, e: Entry)
  {
    && DiskOk(d') && |d'.fat| == |d.fat| && FatOk(d'.fat, lay') && EndMarked(d', lay')
    && SlotBecomes(d, lay, d', lay', s, e)
    && SameChains(lay, lay', s)
    && (forall t :: t != s && t in lay.chains ==> SameBlocks(d, d', lay.chains[t]))
  }

  /** The entry may be stored there: it is no end marker and its name clashes with none. */
  ghost predicate EntryFits(d: Disk, lay: Layout, s: Slot, e: Entry)
  {
    && Mark(e) != END_OF_DIRECTORY
    && (IsLive(e) ==> IsValidFilename(StringOf(e.name)))
    && (IsLive(e) ==> forall t :: IsLiveSlot(d, lay, t) && NameOf(d, t) == StringOf(e.name) ==> t == s)
  }

  /** Overwriting an entry that is not an end marker moves no end marker. */
  lemma ChangedEndMarked(d: Disk, lay: Layout, d': Disk, lay': Layout, s: Slot, e: Entry)
    requires EndMarked(d, lay) && IsSlot(d, lay, s) && !IsEndMarker(d, s)
    requires SlotBecomes(d, lay, d', lay', s, e) && Mark(e) != END_OF_DIRECTORY
    requires lay'.root == lay.root && lay'.end == lay.end
    ensures EndMarked(d', lay')
  {
    hide EntryOf;
    forall t | IsSlot(d', lay', t)
      ensures IsEndMarker(d', t) <==> IsPastEnd(lay', t)
    {
      assert IsSlot(d, lay, t);
    }
  }

  lemma ChangedNamesOk(d: Disk, lay: Layout, d': Disk, lay': Layout, s: Slot, e: Entry)
    requires NamesOk(d, lay)
    requires SlotBecomes(d, lay, d', lay', s, e) && EntryFits(d, lay, s, e)
    ensures NamesOk(d', lay')
  {
    hide EntryOf;
    forall t | IsLiveSlot(d', lay', t)
      ensures t == s || (IsLiveSlot(d, lay, t) && NameOf(d', t) == NameOf(d, t))
      ensures t == s ==> IsLive(e) && NameOf(d', t) == StringOf(e.name)
    {
    }
  }

  lemma ChangedFilesOk(d: Disk, lay: Layout, d': Disk, lay': Layout, s: Slot, e: Entry)
    requires d.bs > 0 && FilesOk(d, lay)
    requires SlotBecomes(d, lay, d', lay', s, e) && SameChains(lay, lay', s) && Linked(lay', s, e, d.bs)
    ensures FilesOk(d', lay')
  {
    hide EntryOf;
    forall t | IsSlot(d', lay', t)
      ensures Linked(lay', t, EntryOf(d', t), d'.bs)
    {
      if IsSlot(d, lay, t) {
        assert Linked(lay, t, EntryOf(d, t), d.bs);
      }
    }
    forall t | t in lay'.chains
      ensures IsSlot(d', lay', t)
    {
      assert t == s || t in lay.chains;
    }
  }

  lemma ChangedFileBytes(d: Disk, lay: Layout, d': Disk, lay': Layout, s: Slot, e: Entry, t: Slot)
    requires DiskOk(d) && FatOk(d.fat, lay) && ChangesOnly(d, lay, d', lay', s, e)
    requires t != s && IsSlot(d, lay, t) && !IsEndMarker(d, t)
    ensures EntryOf(d', t) == EntryOf(d, t)
    ensures FileBytes(d', lay', t) == FileBytes(d, lay, t)
  {
    hide EntryOf, FatOk, EndMarked;
    var c := ChainOf(lay, t);
    ChainHasBlocks(d, lay, t);
    assert IsSlot(d', lay', t);
    assert SameBlocks(d, d', c) by { assert c == [] || t in lay.chains; }
    FlattenFrame(d.data, d'.data, d.bs, c);
  }

  /** Changing one slot and its chain keeps the volume consistent and every other file as it was. */
  lemma ChangedVolumeOk(d: Disk, lay: Layout, d': Disk, lay': Layout, s: Slot, e: Entry)
    requires VolumeOk(d, lay) && ChangesOnly(d, lay, d', lay', s, e)
    requires EntryFits(d, lay, s, e) && Linked(lay', s, e, d.bs)
    ensures VolumeOk(d', lay')
    ensures forall t :: t != s && IsSlot(d, lay, t) && !IsEndMarker(d, t) ==>
              EntryOf(d', t) == EntryOf(d, t) && FileBytes(d', lay', t) == FileBytes(d, lay, t)
  {
    ChangedNamesOk(d, lay, d', lay', s, e);
    ChangedFilesOk(d, lay, d', lay', s, e);
    forall t | t != s && IsSlot(d, lay, t) && !IsEndMarker(d, t)
      ensures EntryOf(d', t) == EntryOf(d, t) && FileBytes(d', lay', t) == FileBytes(d, lay, t)
    {
      ChangedFileBytes(d, lay, d', lay', s, e, t);
    }
  }

  lemma ChainHasBlocks(d: Disk, lay: Layout, s: Slot)
    requires DiskOk(d) && FatOk(d.fat, lay)
    ensures HasBlocks(d.data, d.bs, ChainOf(lay, s))
  {
  }

  ghost predicate IsNamedElsewhere(d: Disk, lay: Layout, s: Slot, n: CString)
  {
    exists t :: t != s && IsLiveSlot(d, lay, t) && NameOf(d, t) == n
  }

  lemma LiveSlotsKept(d: Disk, lay: Layout, d': Disk, lay': Layout, s: Slot, e: Entry, t: Slot)
    requires SlotBecomes(d, lay, d', lay', s, e) && t != s
    ensures IsLiveSlot(d', lay', t) <==> IsLiveSlot(d, lay, t)
    ensures IsLiveSlot(d, lay, t) ==> EntryOf(d', t) == EntryOf(d, t) && NameOf(d', t) == NameOf(d, t)
  {
  }

  lemma ChangedNames(d: Disk, lay: Layout, d': Disk, lay': Layout, s: Slot, e: Entry, n: CString)
    requires SlotBecomes(d, lay, d', lay', s, e)
    ensures HasName(d', lay', n) <==> IsNamedElsewhere(d, lay, s, n) || (IsLive(e) && StringOf(e.name) == n)
  {
    if HasName(d', lay', n) {
      var t := SlotNamed(d', lay', n);
      if t != s {
        LiveSlotsKept(d, lay, d', lay', s, e, t);
      }
    }
    hide EntryOf;
    if IsLive(e) && StringOf(e.name) == n {
      assert IsLiveSlot(d', lay', s) && NameOf(d', s) == n;
    }
    if IsNamedElsewhere(d, lay, s, n) {
      var t :| t != s && IsLiveSlot(d, lay, t) && NameOf(d, t) == n;
      LiveSlotsKept(d, lay, d', lay', s, e, t);
      assert IsLiveSlot(d', lay', t) && NameOf(d', t) == n;
    }
  }

  /** The directory that callers see after slot `s` became `e` with contents `bytes`. */
  ghost function FilesAfter(d: Disk, lay: Layout, s: Slot, e: Entry, bytes: seq<Byte>): map<CString, seq<Byte>>
  {
    var others := if IsLiveSlot(d, lay, s) then Files(d, lay) - {NameOf(d, s)} else Files(d, lay);
    if IsLive(e) then others[StringOf(e.name) := bytes] else others
  }

  lemma NamedElsewhere(d: Disk, lay: Layout, s: Slot, e: Entry, bytes: seq<Byte>, n: CString)
    requires NamesOk(d, lay)
    ensures n in FilesAfter(d, lay, s, e, bytes) <==>
              IsNamedElsewhere(d, lay, s, n) || (IsLive(e) && StringOf(e.name) == n)
    ensures n in FilesAfter(d, lay, s, e, bytes) && !(IsLive(e) && StringOf(e.name) == n) ==>
              n in Files(d, lay) && FilesAfter(d, lay, s, e, bytes)[n] == Files(d, lay)[n]
  {
    FileExists(d, lay, n);
    hide EntryOf, FileBytes, Files;
    if HasName(d, lay, n) {
      var t := SlotNamed(d, lay, n);
      if t != s {
        assert IsNamedElsewhere(d, lay, s, n);
      }
    }
  }

  lemma ChangedName(d: Disk, lay: Layout, d': Disk, lay': Layout, s: Slot, e: Entry, n: CString)
    requires NamesOk(d, lay) && NamesOk(d', lay') && SlotBecomes(d, lay, d', lay', s, e)
    requires forall t :: t != s && IsSlot(d, lay, t) && !IsEndMarker(d, t) ==>
               EntryOf(d', t) == EntryOf(d, t) && FileBytes(d', lay', t) == FileBytes(d, lay, t)
    ensures var after := FilesAfter(d, lay, s, e, FileBytes(d', lay', s));
            && (n in Files(d', lay') <==> n in after)
            && (n in after ==> Files(d', lay')[n] == after[n])
  {
    FileExists(d', lay', n);
    NamedElsewhere(d, lay, s, e, FileBytes(d', lay', s), n);
    ChangedNames(d, lay, d', lay', s, e, n);
    if IsLive(e) && StringOf(e.name) == n {
      FileAt(d', lay', s);
    } else if HasName(d', lay', n) {
      var t := SlotNamed(d', lay', n);
      FileAt(d', lay', t);
      LiveSlotsKept(d, lay, d', lay', s, e, t);
      FileAt(d, lay, t);
    }
  }

  lemma ChangedFiles(d: Disk, lay: Layout, d': Disk, lay': Layout, s: Slot, e: Entry)
    requires NamesOk(d, lay) && NamesOk(d', lay') && SlotBecomes(d, lay, d', lay', s, e)
    requires forall t :: t != s && IsSlot(d, lay, t) && !IsEndMarker(d, t) ==>
               EntryOf(d', t) == EntryOf(d, t) && FileBytes(d', lay', t) == FileBytes(d, lay, t)
    ensures Files(d', lay') == FilesAfter(d, lay, s, e, FileBytes(d', lay', s))
  {
    var after := FilesAfter(d, lay, s, e, FileBytes(d', lay', s));
    forall n: CString
      ensures n in Files(d', lay') <==> n in after
      ensures n in after ==> Files(d', lay')[n] == after[n]
    {
      ChangedName(d, lay, d', lay', s, e, n);
    }
    hide Files, FilesAfter, NamesOk, SlotBecomes, EntryOf, FileBytes, IsSlot;
    assert Files(d', lay').Keys == after.Keys;
  }

  // ---- how the operations change a slot ----

  /** Everything but the file in slot `s` and the free blocks is on `d1` as on `d`. */
  ghost predicate TouchesOnly(d: Disk, lay: Layout, d1: Disk, lay1: Layout, s: Slot)
  {
    && DiskOk(d1) && d1.bs == d.bs && |d1.fat| == |d.fat| && FatOk(d1.fat, lay1)
    && lay1.root == lay.root && lay1.end == lay.end && SameChains(lay, lay1, s)
    && SameBlocks(d, d1, lay.root)
    && (forall t :: t != s && t in lay.chains ==> SameBlocks(d, d1, lay.chains[t]))
  }

  lemma SameEntry(d: Disk, lay: Layout, d1: Disk, t: Slot)
    requires DiskOk(d) && FatOk(d.fat, lay) && IsSlot(d, lay, t) && SameBlocks(d, d1, lay.root)
    ensures EntryOf(d1, t) == EntryOf(d, t)
  {
  }

  lemma StoredSlot(d: Disk, lay: Layout, d1: Disk, lay1: Layout, s: Slot, e: Entry)
    requires DiskOk(d) && FatOk(d.fat, lay) && IsSlot(d, lay, s) && TouchesOnly(d, lay, d1, lay1, s)
    ensures s.block < |d1.data| && 64 * s.idx + 64 <= |d1.data[s.block]|
    ensures SlotBecomes(d, lay, WithEntry(d1, s, e), lay1, s, e)
  {
    SlotInRange(d1, lay1, s);
    var d' := WithEntry(d1, s, e);
    WithEntryReads(d1, lay1, s, e, s);
    forall t | IsSlot(d', lay1, t) && t != s
      ensures IsKept(d, lay, d', t)
    {
      WithEntryReads(d1, lay1, s, e, t);
      SameEntry(d, lay, d1, t);
    }
  }

  lemma StoredBlocks(d: Disk, lay: Layout, d1: Disk, lay1: Layout, s: Slot, e: Entry, c: seq<nat>, o: Owner)
    requires s.block < |d1.data| && 64 * s.idx + 64 <= |d1.data[s.block]|
    requires SameBlocks(d, d1, c) && Owns(lay1, o, c) && o != Directory
    requires s.block < |lay1.owner| && lay1.owner[s.block] == Directory
    ensures SameBlocks(d, WithEntry(d1, s, e), c)
  {
  }

  lemma StoredChange(d: Disk, lay: Layout, d1: Disk, lay1: Layout, s: Slot, e: Entry)
    requires VolumeOk(d, lay) && IsSlot(d, lay, s) && !IsEndMarker(d, s) && TouchesOnly(d, lay, d1, lay1, s)
    requires Mark(e) != END_OF_DIRECTORY
    ensures s.block < |d1.data| && 64 * s.idx + 64 <= |d1.data[s.block]|
    ensures ChangesOnly(d, lay, WithEntry(d1, s, e), lay1, s, e)
  {
    StoredSlot(d, lay, d1, lay1, s, e);
    SlotInRange(d1, lay1, s);
    var d' := WithEntry(d1, s, e);
    ChangedEndMarked(d, lay, d', lay1, s, e);
    forall t | t != s && t in lay.chains
      ensures SameBlocks(d, d', lay.chains[t])
    {
      assert ChainOf(lay1, t) == ChainOf(lay, t);
      StoredBlocks(d, lay, d1, lay1, s, e, lay.chains[t], File(t));
    }
    assert DiskOk(d');
  }
}
