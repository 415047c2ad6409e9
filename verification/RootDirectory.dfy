/** The root directory: how it is searched, and how it grows by an entry or by a block. */
module RootDirectory {
  import opened Words
  import opened DirectoryEntries
  import opened FatChains
  import opened BlockContents
  import opened Volume

  // ---- a new entry at the end of the directory ----

  ghost function EndSlot(lay: Layout): Slot
    requires lay.root != []
  {
    Slot(LastBlock(lay), lay.end)
  }

  ghost function NextSlot(lay: Layout): Slot
    requires lay.root != []
  {
    Slot(LastBlock(lay), lay.end + 1)
  }

  lemma EndIsSlot(d: Disk, lay: Layout)
    requires DiskOk(d) && FatOk(d.fat, lay) && EndMarked(d, lay)
    ensures IsSlot(d, lay, EndSlot(lay)) && IsEndMarker(d, EndSlot(lay))
    ensures IsBlock(d.fat, LastBlock(lay)) && |d.data[LastBlock(lay)]| == d.bs
    ensures lay.owner[LastBlock(lay)] == Directory
  {
  }

  ghost function AppendedDisk(d: Disk, lay: Layout, e: Entry): Disk
    requires DiskOk(d) && FatOk(d.fat, lay) && EndMarked(d, lay) && 64 * lay.end + 128 <= d.bs
  {
    EndIsSlot(d, lay);
    WithEntry(WithEntry(d, NextSlot(lay), BLANK), EndSlot(lay), e)
  }

  lemma AppendedReads(d: Disk, lay: Layout, e: Entry, t: Slot)
    requires DiskOk(d) && FatOk(d.fat, lay) && EndMarked(d, lay) && 64 * lay.end + 128 <= d.bs
    requires IsSlot(d, lay, t)
    ensures EntryOf(AppendedDisk(d, lay, e), t)
         == if t == EndSlot(lay) then e else if t == NextSlot(lay) then BLANK else EntryOf(d, t)
  {
    EndIsSlot(d, lay);
    var d1 := WithEntry(d, NextSlot(lay), BLANK);
    WithEntryReads(d, lay, NextSlot(lay), BLANK, t);
    WithEntryReads(d1, lay, EndSlot(lay), e, t);
  }

  lemma AppendedSlot(d: Disk, lay: Layout, e: Entry, t: Slot)
    requires DiskOk(d) && FatOk(d.fat, lay) && EndMarked(d, lay) && 64 * lay.end + 128 <= d.bs
    requires IsSlot(d, lay, t) && Mark(e) != END_OF_DIRECTORY
    ensures var d' := AppendedDisk(d, lay, e);
            && (IsEndMarker(d', t) <==> IsPastEnd(lay.(end := lay.end + 1), t))
            && (t != EndSlot(lay) ==> IsKept(d, lay, d', t) || IsStillBlank(d, lay, d', t))
  {
    AppendedReads(d, lay, e, t);
    hide EntryOf, DiskOk, FatOk, AppendedDisk;
    assert t == EndSlot(lay) <==> t.block == LastBlock(lay) && t.idx == lay.end;
    assert t == NextSlot(lay) <==> t.block == LastBlock(lay) && t.idx == lay.end + 1;
    assert IsEndMarker(d, t) <==> IsPastEnd(lay, t);
  }

  lemma AppendedBlocks(d: Disk, lay: Layout, e: Entry)
    requires DiskOk(d) && FatOk(d.fat, lay) && EndMarked(d, lay) && 64 * lay.end + 128 <= d.bs
    ensures var d' := AppendedDisk(d, lay, e);
            && DiskOk(d') && d'.bs == d.bs && d'.fat == d.fat && FatOk(d.fat, lay.(end := lay.end + 1))
            && forall t :: t in lay.chains ==> SameBlocks(d, d', lay.chains[t])
  {
    EndIsSlot(d, lay);
    var d' := AppendedDisk(d, lay, e);
    forall t | t in lay.chains
      ensures SameBlocks(d, d', lay.chains[t])
    {
      assert Owns(lay, File(t), lay.chains[t]);
    }
  }

  lemma AppendedSlots(d: Disk, lay: Layout, e: Entry)
    requires DiskOk(d) && FatOk(d.fat, lay) && EndMarked(d, lay) && 64 * lay.end + 128 <= d.bs
    requires Mark(e) != END_OF_DIRECTORY
    ensures var d' := AppendedDisk(d, lay, e); var lay' := lay.(end := lay.end + 1);
            EndMarked(d', lay') && SlotBecomes(d, lay, d', lay', EndSlot(lay), e)
  {
    EndIsSlot(d, lay);
    AppendedReads(d, lay, e, EndSlot(lay));
    var d' := AppendedDisk(d, lay, e);
    var lay' := lay.(end := lay.end + 1);
    assert d'.bs == d.bs;
    hide EntryOf, DiskOk, FatOk, AppendedDisk, IsEndMarker, IsPastEnd, IsKept, IsStillBlank;
    forall t | IsSlot(d', lay', t)
      ensures IsEndMarker(d', t) <==> IsPastEnd(lay', t)
      ensures t != EndSlot(lay) ==> IsKept(d, lay, d', t) || IsStillBlank(d, lay, d', t)
    {
      AppendedSlot(d, lay, e, t);
    }
  }

  /** Room in the last root block: the end marker moves up by one. */
  lemma AppendedInBlock(d: Disk, lay: Layout, e: Entry)
    requires VolumeOk(d, lay) && 64 * lay.end + 128 <= d.bs && Mark(e) != END_OF_DIRECTORY
    ensures ChangesOnly(d, lay, AppendedDisk(d, lay, e), lay.(end := lay.end + 1), EndSlot(lay), e)
  {
    hide DiskOk, FatOk, EndMarked, AppendedDisk, FilesOk, NamesOk, SlotBecomes, SameBlocks, EntryOf;
    AppendedBlocks(d, lay, e);
    AppendedSlots(d, lay, e);
  }

  // ---- a new root block ----

  ghost function GrownDisk(d: Disk, lay: Layout, b: nat): Disk
    requires DiskOk(d) && FatOk(d.fat, lay) && b in FreeBlocks(d.fat)
  {
    Disk(d.bs, d.fat[LastBlock(lay) := b][b := END_OF_FILE], d.data[b := Zeros(d.bs)])
  }

  lemma BlankZeros(block: seq<Byte>, i: nat)
    requires 64 * i + 64 <= |block| && forall k :: 0 <= k < |block| ==> block[k] == 0
    ensures Mark(EntryAt(block, i)) == END_OF_DIRECTORY
  {
  }

  lemma GrownOk(d: Disk, lay: Layout, b: nat)
    requires DiskOk(d) && FatOk(d.fat, lay) && b in FreeBlocks(d.fat)
    ensures var d1 := GrownDisk(d, lay, b); var lay' := WithNextRootBlock(lay, b);
            && DiskOk(d1) && d1.bs == d.bs && |d1.fat| == |d.fat| && FatOk(d1.fat, lay')
            && b !in lay.root && SameBlocks(d, d1, lay.root)
            && forall t :: t in lay.chains ==> SameBlocks(d, d1, lay.chains[t])
  {
    NextRootBlockOk(d.fat, lay, b);
    FreeNotInChain(d.fat, lay.root, b);
    var d1 := GrownDisk(d, lay, b);
    forall t | t in lay.chains
      ensures SameBlocks(d, d1, lay.chains[t])
    {
      FreeNotInChain(d.fat, lay.chains[t], b);
    }
  }

  ghost function GrownAndStored(d: Disk, lay: Layout, b: nat, e: Entry): Disk
    requires DiskOk(d) && FatOk(d.fat, lay) && EndMarked(d, lay) && b in FreeBlocks(d.fat)
  {
    EndIsSlot(d, lay);
    FreeNotInChain(d.fat, lay.root, b);
    assert LastBlock(lay) in lay.root;
    WithEntry(GrownDisk(d, lay, b), EndSlot(lay), e)
  }

  lemma GrownReads(d: Disk, lay: Layout, b: nat, e: Entry, t: Slot)
    requires DiskOk(d) && FatOk(d.fat, lay) && EndMarked(d, lay) && b in FreeBlocks(d.fat)
    requires IsSlot(d, WithNextRootBlock(lay, b), t)
    ensures var d' := GrownAndStored(d, lay, b, e);
            if t.block == b then IsEndMarker(d', t) && !IsSlot(d, lay, t)
            else IsSlot(d, lay, t) && EntryOf(d', t) == if t == EndSlot(lay) then e else EntryOf(d, t)
  {
    EndIsSlot(d, lay);
    GrownOk(d, lay, b);
    var d1 := GrownDisk(d, lay, b);
    var lay' := WithNextRootBlock(lay, b);
    assert LastBlock(lay) in lay.root;
    WithEntryReads(d1, lay', EndSlot(lay), e, t);
    if t.block == b {
      BlankZeros(Zeros(d.bs), t.idx);
    } else {
      assert t.block in lay.root;
      SameEntry(d, lay, d1, t);
    }
  }

  lemma GrownSlot(d: Disk, lay: Layout, b: nat, e: Entry, t: Slot)
    requires DiskOk(d) && FatOk(d.fat, lay) && EndMarked(d, lay) && b in FreeBlocks(d.fat)
    requires 64 * lay.end + 128 > d.bs && Mark(e) != END_OF_DIRECTORY
    requires IsSlot(d, WithNextRootBlock(lay, b), t)
    ensures var d' := GrownAndStored(d, lay, b, e);
            && (IsEndMarker(d', t) <==> IsPastEnd(WithNextRootBlock(lay, b), t))
            && (t != EndSlot(lay) ==> IsKept(d, lay, d', t) || IsStillBlank(d, lay, d', t))
  {
    GrownReads(d, lay, b, e, t);
    hide EntryOf, DiskOk, FatOk, GrownAndStored;
    if t.block != b {
      assert IsEndMarker(d, t) <==> IsPastEnd(lay, t);
    }
  }

  lemma GrownBlocks(d: Disk, lay: Layout, b: nat, e: Entry)
    requires DiskOk(d) && FatOk(d.fat, lay) && EndMarked(d, lay) && b in FreeBlocks(d.fat)
    ensures var d' := GrownAndStored(d, lay, b, e); var lay' := WithNextRootBlock(lay, b);
            && DiskOk(d') && d'.bs == d.bs && |d'.fat| == |d.fat| && FatOk(d'.fat, lay')
            && forall t :: t in lay.chains ==> SameBlocks(d, d', lay.chains[t])
  {
    EndIsSlot(d, lay);
    GrownOk(d, lay, b);
    var d1 := GrownDisk(d, lay, b);
    forall t | t in lay.chains
      ensures SameBlocks(d, GrownAndStored(d, lay, b, e), lay.chains[t])
    {
      assert Owns(lay, File(t), lay.chains[t]);
      assert SameBlocks(d, d1, lay.chains[t]);
    }
  }

  lemma GrownSlots(d: Disk, lay: Layout, b: nat, e: Entry)
    requires DiskOk(d) && FatOk(d.fat, lay) && EndMarked(d, lay) && b in FreeBlocks(d.fat)
    requires 64 * lay.end + 128 > d.bs && Mark(e) != END_OF_DIRECTORY
    ensures var d' := GrownAndStored(d, lay, b, e); var lay' := WithNextRootBlock(lay, b);
            EndMarked(d', lay') && SlotBecomes(d, lay, d', lay', EndSlot(lay), e)
  {
    EndIsSlot(d, lay);
    var d' := GrownAndStored(d, lay, b, e);
    var lay' := WithNextRootBlock(lay, b);
    FreeNotInChain(d.fat, lay.root, b);
    assert LastBlock(lay) in lay.root && IsSlot(d, lay', EndSlot(lay));
    GrownReads(d, lay, b, e, EndSlot(lay));
    assert d'.bs == d.bs && IsBlockSize(d.bs);
    hide EntryOf, DiskOk, FatOk, GrownAndStored, IsEndMarker, IsPastEnd, IsKept, IsStillBlank;
    forall t | IsSlot(d', lay', t)
      ensures IsEndMarker(d', t) <==> IsPastEnd(lay', t)
      ensures t != EndSlot(lay) ==> IsKept(d, lay, d', t) || IsStillBlank(d, lay, d', t)
    {
      GrownSlot(d, lay, b, e, t);
    }
  }

  /** No room in the last root block: a zeroed block is linked and starts with the end marker. */
  lemma GrownSpace(d: Disk, lay: Layout, b: nat, e: Entry)
    requires VolumeOk(d, lay) && b in FreeBlocks(d.fat)
    ensures |FreeBlocks(GrownAndStored(d, lay, b, e).fat)| == |FreeBlocks(d.fat)| - 1
  {
    hide DiskOk, EndMarked, FilesOk, NamesOk, EntryOf, FreeBlocks;
    NextRootBlockOk(d.fat, lay, b);
  }

  lemma AppendedWithNewBlock(d: Disk, lay: Layout, b: nat, e: Entry)
    requires VolumeOk(d, lay) && b in FreeBlocks(d.fat)
    requires 64 * lay.end + 128 > d.bs && Mark(e) != END_OF_DIRECTORY
    ensures ChangesOnly(d, lay, GrownAndStored(d, lay, b, e), WithNextRootBlock(lay, b), EndSlot(lay), e)
  {
    hide DiskOk, FatOk, EndMarked, GrownAndStored, FilesOk, NamesOk, SlotBecomes, SameBlocks, FreeBlocks, EntryOf;
    GrownBlocks(d, lay, b, e);
    GrownSlots(d, lay, b, e);
  }

  // ---- searching the directory ----

  /** Directory order: along the root chain, then by index. */
  ghost predicate IsBefore(lay: Layout, t: Slot, s: Slot)
  {
    || (t.block == s.block && t.idx < s.idx)
    || (exists i, j :: 0 <= i < j < |lay.root| && lay.root[i] == t.block && lay.root[j] == s.block)
  }

  /** The place that the next new entry goes to: the first one that shows no name. */
  ghost predicate IsFirstReusable(d: Disk, lay: Layout, s: Slot)
  {
    && IsSlot(d, lay, s) && !IsLive(EntryOf(d, s))
    && forall t :: IsSlot(d, lay, t) && IsBefore(lay, t, s) ==> IsLive(EntryOf(d, t))
  }

  /** The next new entry would overwrite that of a file deleted but still open. */
  ghost predicate WouldReuseOpenSlot(d: Disk, lay: Layout)
  {
    exists s :: IsFirstReusable(d, lay, s) && Mark(EntryOf(d, s)) == DELETED_BUT_OPEN
  }

  /** Every place shows a name, and the end marker has the last place of the last block. */
  ghost predicate IsFullDirectory(d: Disk, lay: Layout)
  {
    lay.root != [] && IsFirstReusable(d, lay, EndSlot(lay)) && 64 * lay.end + 128 > d.bs
  }

  /** A new entry would need one more root block, and there is none. */
  ghost predicate HasNoPlace(d: Disk, lay: Layout)
  {
    IsFullDirectory(d, lay) && FreeBlocks(d.fat) == {}
  }

  /** There is only one first place. */
  lemma FirstReusableUnique(d: Disk, lay: Layout, s: Slot, t: Slot)
    requires IsFirstReusable(d, lay, s) && IsFirstReusable(d, lay, t)
    ensures s == t
  {
    hide EntryOf;
    var i :| 0 <= i < |lay.root| && lay.root[i] == s.block;
    var j :| 0 <= j < |lay.root| && lay.root[j] == t.block;
    assert !IsBefore(lay, s, t) && !IsBefore(lay, t, s);
  }

  /** The first place is the end marker at the end of its block exactly if the directory is full. */
  lemma FullIff(d: Disk, lay: Layout, s: Slot)
    requires VolumeOk(d, lay) && IsFirstReusable(d, lay, s)
    ensures lay.root != []
    ensures IsFullDirectory(d, lay) <==> s == EndSlot(lay) && 64 * s.idx + 128 > d.bs
    ensures s == EndSlot(lay) ==> IsEndMarker(d, s)
  {
    assert lay.root != [] && IsEndMarker(d, EndSlot(lay)) by { EndIsSlot(d, lay); }
    hide VolumeOk, IsFirstReusable, EntryOf;
    if IsFullDirectory(d, lay) {
      FirstReusableUnique(d, lay, s, EndSlot(lay));
    }
  }

  /** A valid file name never begins with one of the marks. */
  lemma ValidNamesAreLive(e: Entry, n: CString)
    requires StringOf(e.name) == n && IsValidFilename(n)
    ensures IsLive(e)
  {
  }

  /** Directory order again, by position in the root chain. */
  ghost predicate IsSeen(lay: Layout, j: nat, i: nat, t: Slot)
  {
    || (exists k :: 0 <= k < j && k < |lay.root| && lay.root[k] == t.block)
    || (j < |lay.root| && t.block == lay.root[j] && t.idx < i)
  }

  /** The first `j` root blocks and the first `i` slots of the next do not show `fname`. */
  ghost predicate NotAmong(d: Disk, lay: Layout, fname: CString, j: nat, i: nat)
  {
    forall t :: IsSlot(d, lay, t) && IsSeen(lay, j, i, t) ==> NameOf(d, t) != fname
  }

  /** The first `j` root blocks and the first `i` slots of the next all show a name. */
  ghost predicate AllLive(d: Disk, lay: Layout, j: nat, i: nat)
  {
    forall t :: IsSlot(d, lay, t) && IsSeen(lay, j, i, t) ==> IsLive(EntryOf(d, t))
  }

  lemma SlotRead(d: Disk, lay: Layout, j: nat, i: nat)
    requires VolumeOk(d, lay) && j < |lay.root| && i < d.bs / 64
    ensures var b := lay.root[j];
            && IsSlot(d, lay, Slot(b, i)) && b < |d.data| && 64 * i + 64 <= |d.data[b]|
            && EntryOf(d, Slot(b, i)) == EntryAt(d.data[b], i)
  {
  }

  /** A root block without end marker is not the last one. */
  lemma NextRootBlock(d: Disk, lay: Layout, j: nat)
    requires VolumeOk(d, lay) && j < |lay.root|
    requires forall k :: 0 <= k < d.bs / 64 ==> !IsEndMarker(d, Slot(lay.root[j], k))
    ensures j + 1 < |lay.root| && lay.root[j] < |d.fat| && d.fat[lay.root[j]] == lay.root[j + 1]
  {
    EndIsSlot(d, lay);
    assert lay.root[j] != LastBlock(lay);
  }

  lemma SeenBeforeEnd(d: Disk, lay: Layout, j: nat, i: nat, t: Slot)
    requires VolumeOk(d, lay) && j < |lay.root| && i < d.bs / 64 && IsEndMarker(d, Slot(lay.root[j], i))
    requires IsSlot(d, lay, t)
    ensures lay.root[j] == LastBlock(lay) && lay.end <= i
    ensures IsSeen(lay, j, i, t) || (NameOf(d, t) == [] && !IsLive(EntryOf(d, t)))
  {
  }

  lemma NotFound(d: Disk, lay: Layout, fname: CString, j: nat, i: nat)
    requires VolumeOk(d, lay) && j < |lay.root| && i < d.bs / 64 && IsEndMarker(d, Slot(lay.root[j], i))
    requires fname != [] && NotAmong(d, lay, fname, j, i)
    ensures !HasName(d, lay, fname)
  {
  }

  lemma NotAmongNext(d: Disk, lay: Layout, fname: CString, j: nat, i: nat)
    requires j < |lay.root| && NotAmong(d, lay, fname, j, i)
    ensures NameOf(d, Slot(lay.root[j], i)) != fname ==> NotAmong(d, lay, fname, j, i + 1)
    ensures i >= d.bs / 64 ==> NotAmong(d, lay, fname, j + 1, 0)
  {
  }

  lemma AllLiveNext(d: Disk, lay: Layout, j: nat, i: nat)
    requires j < |lay.root| && AllLive(d, lay, j, i)
    ensures IsLive(EntryOf(d, Slot(lay.root[j], i))) ==> AllLive(d, lay, j, i + 1)
    ensures i >= d.bs / 64 ==> AllLive(d, lay, j + 1, 0)
  {
  }

  /** The first slot without a name is where the search for room stops. */
  lemma FoundReusable(d: Disk, lay: Layout, j: nat, i: nat)
    requires VolumeOk(d, lay) && j < |lay.root| && i < d.bs / 64 && AllLive(d, lay, j, i)
    requires !IsLive(EntryOf(d, Slot(lay.root[j], i)))
    ensures IsFirstReusable(d, lay, Slot(lay.root[j], i))
    ensures IsEndMarker(d, Slot(lay.root[j], i)) ==> Slot(lay.root[j], i) == EndSlot(lay)
  {
    var s := Slot(lay.root[j], i);
    SlotRead(d, lay, j, i);
    forall t | IsSlot(d, lay, t) && IsBefore(lay, t, s)
      ensures IsLive(EntryOf(d, t))
    {
      SeenIsBefore(d.fat, lay, j, i, t);
    }
    if IsEndMarker(d, s) {
      SeenBeforeEnd(d, lay, j, i, EndSlot(lay));
      EndIsSlot(d, lay);
      var end := EndSlot(lay);
      assert i <= lay.end || IsSeen(lay, j, i, end);
    }
  }

  lemma SeenIsBefore(fat: seq<U16>, lay: Layout, j: nat, i: nat, t: Slot)
    requires IsChain(fat, lay.root) && j < |lay.root| && IsBefore(lay, t, Slot(lay.root[j], i))
    ensures IsSeen(lay, j, i, t)
  {
  }

  lemma NoneSeen(d: Disk, lay: Layout, fname: CString)
    ensures NotAmong(d, lay, fname, 0, 0) && AllLive(d, lay, 0, 0)
  {
  }

  /** Where a new entry goes, in numbers. */
  lemma ReusableInRange(d: Disk, lay: Layout, s: Slot)
    requires VolumeOk(d, lay) && IsFirstReusable(d, lay, s)
    ensures IsSlot(d, lay, s) && IsBlockSize(d.bs) && lay.root != []
    ensures s.block < |d.data| == |d.fat| == |lay.owner| && |d.data[s.block]| == d.bs && 64 * s.idx + 64 <= d.bs
    ensures s.idx != d.bs / 64 - 1 <==> 64 * s.idx + 128 <= d.bs
    ensures forall b :: b in FreeBlocks(d.fat) ==> b < |d.fat| && b != s.block
  {
    SlotInRange(d, lay, s);
    forall b | b in FreeBlocks(d.fat)
      ensures b != s.block
    {
      FreeNotInChain(d.fat, lay.root, b);
    }
  }

  /** Overwriting one entry and nothing else. */
  lemma KeptStoredChange(d: Disk, lay: Layout, s: Slot, e: Entry)
    requires VolumeOk(d, lay) && IsSlot(d, lay, s) && !IsEndMarker(d, s) && Mark(e) != END_OF_DIRECTORY
    ensures s.block < |d.data| && 64 * s.idx + 64 <= |d.data[s.block]|
    ensures ChangesOnly(d, lay, WithEntry(d, s, e), lay, s, e)
  {
    hide ChangesOnly, EntryOf;
    StoredChange(d, lay, d, lay, s, e);
  }
}
