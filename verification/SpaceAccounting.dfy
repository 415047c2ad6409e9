/** Every block is free, part of the directory, or part of exactly one file; nothing is lost. */
module SpaceAccounting {
  import opened Words
  import opened FatChains

  lemma {:induction false} SizeBound(s: set<nat>, n: nat)
    requires forall x :: x in s ==> 1 <= x <= n
    ensures |s| <= n
  {
    if n > 0 {
      SizeBound(s - {n}, n - 1);
    }
  }

  lemma {:induction false} ElementsSize(c: seq<nat>)
    requires forall i, j :: 0 <= i < j < |c| ==> c[i] != c[j]
    ensures |Elements(c)| == |c|
  {
    if c != [] {
      var c' := c[..|c| - 1];
      ElementsSize(c');
      assert c == c' + [c[|c| - 1]];
      assert Elements(c) == Elements(c') + {c[|c| - 1]};
    }
  }

  /** No file has more blocks than there are numbers for blocks. */
  lemma ChainLength(fat: seq<U16>, lay: Layout, s: Slot)
    requires FatOk(fat, lay) && s in lay.chains
    ensures |lay.chains[s]| <= 0xFFFE
  {
    var c := lay.chains[s];
    ElementsSize(c);
    assert forall b :: b in Elements(c) ==> IsBlock(fat, b);
    SizeBound(Elements(c), 0xFFFE);
  }

  /** The blocks of all files together. */
  ghost function Owned(chains: map<Slot, seq<nat>>): set<nat>
  {
    set s, b | s in chains && b in chains[s] :: b
  }

  ghost function AnyOf(chains: map<Slot, seq<nat>>): (s: Slot)
    requires chains != map[]
    ensures s in chains
  {
    var s :| s in chains;
    s
  }

  ghost function TotalLength(chains: map<Slot, seq<nat>>): nat
  {
    if chains == map[] then 0 else |chains[AnyOf(chains)]| + TotalLength(chains - {AnyOf(chains)})
  }

  ghost predicate AreSeparate(chains: map<Slot, seq<nat>>)
  {
    && (forall s :: s in chains ==> forall i, j :: 0 <= i < j < |chains[s]| ==> chains[s][i] != chains[s][j])
    && (forall s, t :: s in chains && t in chains && s != t ==> Elements(chains[s]) !! Elements(chains[t]))
  }

  lemma {:induction false} OwnedSize(chains: map<Slot, seq<nat>>)
    requires AreSeparate(chains)
    ensures |Owned(chains)| == TotalLength(chains)
  {
    if chains == map[] {
      assert Owned(chains) == {};
    } else {
      var s := AnyOf(chains);
      SeparateRest(chains, s);
      OwnedSize(chains - {s});
      ElementsSize(chains[s]);
    }
  }

  lemma SeparateRest(chains: map<Slot, seq<nat>>, s: Slot)
    requires AreSeparate(chains) && s in chains
    ensures AreSeparate(chains - {s})
    ensures Owned(chains) == Owned(chains - {s}) + Elements(chains[s]) && Owned(chains - {s}) !! Elements(chains[s])
  {
    var rest := chains - {s};
    forall b | b in Owned(rest)
      ensures b !in Elements(chains[s]) && b in Owned(chains)
    {
      var t :| t in rest && b in rest[t];
      assert b in Elements(chains[t]);
    }
    forall b | b in Owned(chains)
      ensures b in Owned(rest) || b in Elements(chains[s])
    {
      var t :| t in chains && b in chains[t];
      assert t != s ==> t in rest && b in rest[t];
    }
  }

  lemma {:induction false} RangeSize(r: set<nat>, n: nat)
    requires forall b :: b in r <==> 1 <= b < n
    ensures |r| == if n == 0 then 0 else n - 1
  {
    if n > 1 {
      RangeSize(r - {n - 1}, n - 1);
    }
  }

  lemma LayoutSeparates(fat: seq<U16>, lay: Layout)
    requires FatOk(fat, lay)
    ensures AreSeparate(lay.chains)
    ensures forall b :: b in Owned(lay.chains) ==> IsBlock(fat, b) && b !in lay.root && b !in FreeBlocks(fat)
  {
    forall s, t | s in lay.chains && t in lay.chains && s != t
      ensures Elements(lay.chains[s]) !! Elements(lay.chains[t])
    {
      ChainsDisjoint(fat, lay, s, t);
    }
    forall s, b | s in lay.chains && b in lay.chains[s]
      ensures IsBlock(fat, b) && b !in lay.root && b !in FreeBlocks(fat)
    {
      ChainsDisjoint(fat, lay, s, s);
      ChainBlocksUsed(fat, lay.chains[s], b);
      assert b in Elements(lay.chains[s]);
    }
  }

  /** The free blocks, the blocks of the directory and those of the files add up to all blocks. */
  lemma SpaceIsConserved(fat: seq<U16>, lay: Layout)
    requires FatOk(fat, lay)
    ensures |FreeBlocks(fat)| + |lay.root| + TotalLength(lay.chains) == Limit(fat) - 1
  {
    LayoutSeparates(fat, lay);
    OwnedSize(lay.chains);
    ElementsSize(lay.root);
    var free, root, owned := FreeBlocks(fat), Elements(lay.root), Owned(lay.chains);
    var all := free + root + owned;
    forall b: nat
      ensures b in all <==> 1 <= b < Limit(fat)
    {
      if IsBlock(fat, b) {
        assert OwnerOk(fat, lay, b);
      }
      if b in lay.root {
        ChainBlocksUsed(fat, lay.root, b);
      }
    }
    forall b | b in root
      ensures b !in free && b !in owned
    {
      ChainBlocksUsed(fat, lay.root, b);
    }
    RangeSize(all, Limit(fat));
    assert |free + root| == |free| + |root|;
    assert IsBlock(fat, lay.root[0]);
  }
}
