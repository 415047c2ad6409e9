/** How the space of a volume shows in its files: blocks released, and directories that are full. */
module DirectorySpace {
  import opened Words
  import opened DirectoryEntries
  import opened FatChains
  import opened BlockContents
  import opened Volume
  import opened RootDirectory
  import opened Writing
  import opened SpaceAccounting

  /** Releasing the blocks of a file gives as many as its size needs. */
  lemma ReleasedSpace(d: Disk, lay: Layout, s: Slot)
    requires VolumeOk(d, lay) && IsSlot(d, lay, s) && IsOwning(EntryOf(d, s))
    ensures d.bs > 0
    ensures |FreeBlocks(d.fat) + Elements(ChainOf(lay, s))| ==
            |FreeBlocks(d.fat)| + BlocksFor(|FileBytes(d, lay, s)|, d.bs)
  {
    assert d.bs > 0 && FatOk(d.fat, lay) && |ChainOf(lay, s)| == BlocksFor(EntryOf(d, s).size, d.bs) by {
      hide EntryOf, FatOk, EndMarked, NamesOk;
      assert Linked(lay, s, EntryOf(d, s), d.bs);
    }
    hide VolumeOk, EntryOf, BlocksFor, FileBytes;
    FileSize(d, lay, s);
    if s in lay.chains {
      ChainsDisjoint(d.fat, lay, s, s);
      LayoutSeparates(d.fat, lay);
      ElementsSize(lay.chains[s]);
    } else {
      assert Elements(ChainOf(lay, s)) == {};
      assert FreeBlocks(d.fat) + {} == FreeBlocks(d.fat);
    }
  }

  // ---- the places of a directory ----

  ghost function Places(root: seq<nat>, k: nat): set<Slot>
  {
    set b, i: nat | b in root && 0 <= i < k :: Slot(b, i)
  }

  lemma {:induction false} PlacesOfBlock(b: nat, k: nat)
    ensures |Places([b], k)| == k
  {
    if k == 0 {
      assert Places([b], 0) == {};
    } else {
      PlacesOfBlock(b, k - 1);
      assert Places([b], k) == Places([b], k - 1) + {Slot(b, k - 1)};
    }
  }

  lemma NoPlaces(k: nat)
    ensures Places([], k) == {}
  {
  }

  lemma PlacesOfMore(root: seq<nat>, b: nat, k: nat)
    requires b !in root
    ensures |Places(root + [b], k)| == |Places(root, k)| + k
  {
    PlacesOfBlock(b, k);
    assert Places(root + [b], k) == Places(root, k) + Places([b], k);
  }

  lemma {:induction false} PlacesCount(root: seq<nat>, k: nat)
    requires forall i, j :: 0 <= i < j < |root| ==> root[i] != root[j]
    ensures |Places(root, k)| == |root| * k
  {
    hide Places;
    if root == [] {
      NoPlaces(k);
    } else {
      var n := |root| - 1;
      PlacesCount(root[..n], k);
      PlacesOfMore(root[..n], root[n], k);
      assert root == root[..n] + [root[n]];
      assert |root| * k == n * k + k;
    }
  }

  lemma SlotIsPlace(d: Disk, lay: Layout, s: Slot)
    ensures IsSlot(d, lay, s) <==> s in Places(lay.root, d.bs / 64)
  {
  }

  ghost function LivePlaces(d: Disk, lay: Layout): set<Slot>
  {
    set s | s in Places(lay.root, d.bs / 64) && IsLive(EntryOf(d, s))
  }

  ghost function NamesAt(d: Disk, places: set<Slot>): set<CString>
  {
    set s | s in places :: NameOf(d, s)
  }

  lemma NoNames(d: Disk)
    ensures NamesAt(d, {}) == {}
  {
  }

  lemma NamesOfMore(d: Disk, lay: Layout, places: set<Slot>, s: Slot)
    requires NamesOk(d, lay) && s !in places && forall t :: t in places + {s} ==> IsLiveSlot(d, lay, t)
    ensures |NamesAt(d, places + {s})| == |NamesAt(d, places)| + 1
  {
    hide IsLiveSlot, NameOf;
    assert NamesAt(d, places + {s}) == NamesAt(d, places) + {NameOf(d, s)};
    assert s in places + {s};
    assert forall t :: t in places ==> t in places + {s} && NameOf(d, t) != NameOf(d, s);
  }

  lemma {:induction false} NamesCount(d: Disk, lay: Layout, places: set<Slot>)
    requires NamesOk(d, lay) && forall s :: s in places ==> IsLiveSlot(d, lay, s)
    ensures |NamesAt(d, places)| == |places|
  {
    hide IsLiveSlot, NamesOk, NamesAt;
    if places == {} {
      NoNames(d);
    } else {
      var s :| s in places;
      NamesCount(d, lay, places - {s});
      assert places == places - {s} + {s};
      NamesOfMore(d, lay, places - {s}, s);
    }
  }

  /** There are as many files as places that show a name. */
  lemma FilesCount(d: Disk, lay: Layout)
    requires NamesOk(d, lay)
    ensures |Files(d, lay)| == |LivePlaces(d, lay)|
  {
    hide EntryOf, Files, NamesOk, FileBytes, NameOf;
    var live := LivePlaces(d, lay);
    forall s
      ensures s in live <==> IsLiveSlot(d, lay, s)
    {
      SlotIsPlace(d, lay, s);
    }
    forall n
      ensures n in Files(d, lay) <==> n in NamesAt(d, live)
    {
      FileExists(d, lay, n);
    }
    NamesCount(d, lay, live);
    assert Files(d, lay).Keys == NamesAt(d, live);
  }

  lemma SubsetOfSameSize<T>(a: set<T>, b: set<T>)
    requires a <= b && |a| == |b|
    ensures a == b
  {
    assert |b - a| == |b| - |a|;
  }

  lemma NextIsBlank(d: Disk, lay: Layout)
    requires EndMarked(d, lay)
    ensures NextSlot(lay) !in LivePlaces(d, lay)
  {
    hide EntryOf;
    SlotIsPlace(d, lay, NextSlot(lay));
    assert IsSlot(d, lay, NextSlot(lay)) ==> IsEndMarker(d, NextSlot(lay));
  }

  lemma AllNamedIsFull(d: Disk, lay: Layout)
    requires DiskOk(d) && FatOk(d.fat, lay) && EndMarked(d, lay)
    requires LivePlaces(d, lay) == Places(lay.root, d.bs / 64) - {EndSlot(lay)}
    ensures IsFullDirectory(d, lay)
  {
    hide EntryOf, DiskOk;
    EndIsSlot(d, lay);
    SlotIsPlace(d, lay, NextSlot(lay));
    NextIsBlank(d, lay);
    forall t | IsSlot(d, lay, t) && IsBefore(lay, t, EndSlot(lay))
      ensures IsLive(EntryOf(d, t))
    {
      SlotIsPlace(d, lay, t);
      assert t in LivePlaces(d, lay);
    }
  }

  lemma FullIsAllNamed(d: Disk, lay: Layout)
    requires DiskOk(d) && FatOk(d.fat, lay) && EndMarked(d, lay) && IsFullDirectory(d, lay)
    ensures LivePlaces(d, lay) == Places(lay.root, d.bs / 64) - {EndSlot(lay)}
  {
    hide EntryOf, FatOk, DiskOk;
    EndIsSlot(d, lay);
    var last := |lay.root| - 1;
    forall s | s in Places(lay.root, d.bs / 64) && s != EndSlot(lay)
      ensures IsLive(EntryOf(d, s))
    {
      SlotIsPlace(d, lay, s);
      var i :| 0 <= i < |lay.root| && lay.root[i] == s.block;
      assert i == last || (0 <= i < last && lay.root[last] == EndSlot(lay).block);
      assert IsBefore(lay, s, EndSlot(lay));
    }
  }

  /** A directory is full exactly if its files and the end marker take all its places. */
  lemma FullIffCounted(d: Disk, lay: Layout)
    requires VolumeOk(d, lay)
    ensures IsFullDirectory(d, lay) <==> |Files(d, lay)| + 1 == |lay.root| * (d.bs / 64)
  {
    hide EntryOf, IsFullDirectory, Files, FilesOk;
    EndIsSlot(d, lay);
    SlotIsPlace(d, lay, EndSlot(lay));
    FilesCount(d, lay);
    PlacesCount(lay.root, d.bs / 64);
    var all, live := Places(lay.root, d.bs / 64), LivePlaces(d, lay);
    assert live <= all - {EndSlot(lay)} && |all - {EndSlot(lay)}| == |all| - 1;
    if IsFullDirectory(d, lay) {
      FullIsAllNamed(d, lay);
    }
    if |live| == |all| - 1 {
      SubsetOfSameSize(live, all - {EndSlot(lay)});
      AllNamedIsFull(d, lay);
    }
  }
}
