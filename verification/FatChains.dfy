/**
 The block-link array of PennFAT. A file is a chain of blocks: each entry holds the
 number of the next block, 0xFFFF ends a chain, 0 marks a free block. A `Layout`
 records who owns which block; `FatOk` ties it to the array in both directions, so
 chains are acyclic, pairwise disjoint and leave no used block unaccounted for.
 */
module FatChains {
  import opened Words

  const END_OF_FILE: U16 := 0xFFFF

  /** A place in the directory: a root block and an index into it. */
  datatype Slot = Slot(block: nat, idx: nat)

  datatype Owner = Nobody | Directory | File(slot: Slot)

  datatype Layout = Layout(
    root: seq<nat>,              // the chain of the root directory
    chains: map<Slot, seq<nat>>, // the chain of each file that has one
    owner: seq<Owner>,           // per block
    end: nat)                    // index of the end marker in the last root block

  /** Blocks are numbered from 1; 0xFFFF can never be the number of a block. */
  function Limit(fat: seq<U16>): (r: nat)
    ensures r <= |fat| && r <= END_OF_FILE
  {
    if |fat| < 0xFFFF then |fat| else 0xFFFF
  }

  predicate IsBlock(fat: seq<U16>, b: nat)
  {
    1 <= b < Limit(fat)
  }

  ghost predicate IsChain(fat: seq<U16>, c: seq<nat>)
  {
    && c != []
    && (forall i :: 0 <= i < |c| ==> IsBlock(fat, c[i]))
    && (forall i, j :: 0 <= i < j < |c| ==> c[i] != c[j])
    && (forall i :: 0 <= i < |c| - 1 ==> fat[c[i]] == c[i + 1])
    && fat[c[|c| - 1]] == END_OF_FILE
  }

  ghost predicate OwnerOk(fat: seq<U16>, lay: Layout, b: nat)
    requires b < |fat| == |lay.owner|
  {
    match lay.owner[b]
    case Nobody => fat[b] == 0
    case Directory => b in lay.root
    case File(s) => s in lay.chains && b in lay.chains[s]
  }

  ghost predicate Owns(lay: Layout, o: Owner, c: seq<nat>)
  {
    forall i :: 0 <= i < |c| ==> c[i] < |lay.owner| && lay.owner[c[i]] == o
  }

  ghost predicate FatOk(fat: seq<U16>, lay: Layout)
  {
    && |lay.owner| == |fat|
    && IsChain(fat, lay.root) && lay.root[0] == 1 && Owns(lay, Directory, lay.root)
    && (forall s :: s in lay.chains ==> IsChain(fat, lay.chains[s]) && Owns(lay, File(s), lay.chains[s]))
    && (forall b :: IsBlock(fat, b) ==> OwnerOk(fat, lay, b))
  }

  function FreeBlocks(fat: seq<U16>): set<nat>
  {
    set b: nat | 1 <= b < Limit(fat) && fat[b] == 0
  }

  ghost function Elements(c: seq<nat>): set<nat>
  {
    set b | b in c
  }

  /** Distinct chains share no block, and no chain holds a free one. */
  lemma ChainsDisjoint(fat: seq<U16>, lay: Layout, s: Slot, t: Slot)
    requires FatOk(fat, lay) && s in lay.chains && t in lay.chains
    ensures s != t ==> Elements(lay.chains[s]) !! Elements(lay.chains[t])
    ensures Elements(lay.chains[s]) !! Elements(lay.root)
    ensures Elements(lay.chains[s]) !! FreeBlocks(fat)
    ensures Elements(lay.root) !! FreeBlocks(fat)
  {
    if b :| b in lay.chains[s] && b in FreeBlocks(fat) {
      ChainBlocksUsed(fat, lay.chains[s], b);
    }
    if b :| b in lay.root && b in FreeBlocks(fat) {
      ChainBlocksUsed(fat, lay.root, b);
    }
  }

  lemma ChainBlocksUsed(fat: seq<U16>, c: seq<nat>, b: nat)
    requires IsChain(fat, c) && b in c
    ensures IsBlock(fat, b) && fat[b] != 0
  {
    var i :| 0 <= i < |c| && c[i] == b;
    if i < |c| - 1 {
      assert IsBlock(fat, c[i + 1]);
    }
  }

  // ---- clear_fat_file ----

  function Cleared(fat: seq<U16>, c: seq<nat>): (r: seq<U16>)
    ensures |r| == |fat|
  {
    seq(|fat|, b requires 0 <= b < |fat| => if b in c then 0 else fat[b])
  }

  ghost function WithoutFile(lay: Layout, s: Slot): Layout
    requires s in lay.chains
  {
    lay.(chains := lay.chains - {s},
         owner := seq(|lay.owner|, b requires 0 <= b < |lay.owner| =>
                        if b in lay.chains[s] then Nobody else lay.owner[b]))
  }

  lemma ChainFrame(fat: seq<U16>, fat': seq<U16>, c: seq<nat>)
    requires IsChain(fat, c) && |fat'| == |fat|
    requires forall i :: 0 <= i < |c| ==> fat'[c[i]] == fat[c[i]]
    ensures IsChain(fat', c)
  {
  }

  lemma ClearedKeeps(fat: seq<U16>, lay: Layout, s: Slot, o: Owner, c: seq<nat>)
    requires s in lay.chains && Owns(lay, File(s), lay.chains[s])
    requires IsChain(fat, c) && Owns(lay, o, c) && o != File(s) && |lay.owner| == |fat|
    ensures IsChain(Cleared(fat, lay.chains[s]), c) && Owns(WithoutFile(lay, s), o, c)
  {
  }

  lemma ClearedOwner(fat: seq<U16>, lay: Layout, s: Slot, b: nat)
    requires s in lay.chains && Owns(lay, File(s), lay.chains[s]) && |lay.owner| == |fat|
    requires b < |fat| && OwnerOk(fat, lay, b)
    ensures OwnerOk(Cleared(fat, lay.chains[s]), WithoutFile(lay, s), b)
  {
  }

  /** Clearing a file frees its blocks, exactly those, and keeps every other chain. */
  lemma ClearedOk(fat: seq<U16>, lay: Layout, s: Slot)
    requires FatOk(fat, lay) && s in lay.chains
    ensures FatOk(Cleared(fat, lay.chains[s]), WithoutFile(lay, s))
    ensures FreeBlocks(Cleared(fat, lay.chains[s])) == FreeBlocks(fat) + Elements(lay.chains[s])
  {
    var fat' := Cleared(fat, lay.chains[s]);
    var lay' := WithoutFile(lay, s);
    ClearedKeeps(fat, lay, s, Directory, lay.root);
    forall t | t in lay'.chains
      ensures IsChain(fat', lay'.chains[t]) && Owns(lay', File(t), lay'.chains[t])
    {
      ClearedKeeps(fat, lay, s, File(t), lay.chains[t]);
    }
    forall b | IsBlock(fat', b)
      ensures OwnerOk(fat', lay', b)
    {
      ClearedOwner(fat, lay, s, b);
    }
    ClearedFrees(fat, lay.chains[s]);
  }

  lemma ClearedFrees(fat: seq<U16>, c: seq<nat>)
    requires IsChain(fat, c)
    ensures FreeBlocks(Cleared(fat, c)) == FreeBlocks(fat) + Elements(c)
  {
    var fat' := Cleared(fat, c);
    forall b: nat
      ensures b in FreeBlocks(fat') <==> b in FreeBlocks(fat) || b in c
    {
      if b in c {
        ChainBlocksUsed(fat, c, b);
      }
      if IsBlock(fat, b) {
        assert fat'[b] == if b in c then 0 else fat[b];
      }
    }
  }

  // ---- a free block becomes the first or the next block of a file ----

  ghost function WithFirstBlock(lay: Layout, s: Slot, b: nat): Layout
    requires b < |lay.owner|
  {
    lay.(chains := lay.chains[s := [b]], owner := lay.owner[b := File(s)])
  }

  ghost function WithNextBlock(lay: Layout, s: Slot, b: nat): Layout
    requires s in lay.chains && b < |lay.owner|
  {
    lay.(chains := lay.chains[s := lay.chains[s] + [b]], owner := lay.owner[b := File(s)])
  }

  ghost function WithNextRootBlock(lay: Layout, b: nat): Layout
    requires b < |lay.owner|
  {
    lay.(root := lay.root + [b], owner := lay.owner[b := Directory], end := 0)
  }

  lemma TakenFromFree(fat: seq<U16>, fat': seq<U16>, b: nat)
    requires b in FreeBlocks(fat) && |fat'| == |fat| && fat'[b] != 0
    requires forall x :: 0 <= x < |fat| && x != b ==> (fat'[x] == 0 <==> fat[x] == 0)
    ensures FreeBlocks(fat') == FreeBlocks(fat) - {b}
    ensures |FreeBlocks(fat')| == |FreeBlocks(fat)| - 1
  {
  }

  lemma FreeNotInChain(fat: seq<U16>, c: seq<nat>, b: nat)
    requires IsChain(fat, c) && b in FreeBlocks(fat)
    ensures b !in c
  {
    if b in c {
      ChainBlocksUsed(fat, c, b);
    }
  }

  /** Giving the free block `b` to `o`, relinking at most blocks of `o`, leaves other chains alone. */
  lemma GivenKeeps(fat: seq<U16>, fat': seq<U16>, lay: Layout, lay': Layout, b: nat, o: Owner, p: Owner, c: seq<nat>)
    requires |lay.owner| == |fat| == |fat'| && b in FreeBlocks(fat) && lay'.owner == lay.owner[b := o]
    requires forall x :: 0 <= x < |fat| && x != b && lay.owner[x] != o ==> fat'[x] == fat[x]
    requires IsChain(fat, c) && Owns(lay, p, c) && p != o
    ensures IsChain(fat', c) && Owns(lay', p, c)
  {
    FreeNotInChain(fat, c, b);
    ChainFrame(fat, fat', c);
  }

  lemma FirstBlockOwners(fat: seq<U16>, lay: Layout, s: Slot, b: nat, x: nat)
    requires FatOk(fat, lay) && s !in lay.chains && b in FreeBlocks(fat) && IsBlock(fat, x)
    ensures OwnerOk(fat[b := END_OF_FILE], WithFirstBlock(lay, s, b), x)
  {
  }

  lemma FirstBlockOk(fat: seq<U16>, lay: Layout, s: Slot, b: nat)
    requires FatOk(fat, lay) && s !in lay.chains && b in FreeBlocks(fat)
    ensures FatOk(fat[b := END_OF_FILE], WithFirstBlock(lay, s, b))
    ensures FreeBlocks(fat[b := END_OF_FILE]) == FreeBlocks(fat) - {b}
    ensures |FreeBlocks(fat[b := END_OF_FILE])| == |FreeBlocks(fat)| - 1
  {
    var fat' := fat[b := END_OF_FILE];
    var lay' := WithFirstBlock(lay, s, b);
    hide OwnerOk;
    GivenKeeps(fat, fat', lay, lay', b, File(s), Directory, lay.root);
    forall t | t in lay'.chains
      ensures IsChain(fat', lay'.chains[t]) && Owns(lay', File(t), lay'.chains[t])
    {
      if t != s {
        GivenKeeps(fat, fat', lay, lay', b, File(s), File(t), lay.chains[t]);
      }
    }
    forall x | IsBlock(fat', x)
      ensures OwnerOk(fat', lay', x)
    {
      FirstBlockOwners(fat, lay, s, b, x);
    }
    TakenFromFree(fat, fat', b);
  }

  lemma LastLinked(fat: seq<U16>, c: seq<nat>, b: nat)
    requires IsChain(fat, c) && b in FreeBlocks(fat)
    ensures b !in c
    ensures IsChain(fat[c[|c| - 1] := b][b := END_OF_FILE], c + [b])
  {
    FreeNotInChain(fat, c, b);
  }

  lemma LastLinkedFree(fat: seq<U16>, c: seq<nat>, b: nat)
    requires IsChain(fat, c) && b in FreeBlocks(fat)
    ensures var fat' := fat[c[|c| - 1] := b][b := END_OF_FILE];
            FreeBlocks(fat') == FreeBlocks(fat) - {b} && |FreeBlocks(fat')| == |FreeBlocks(fat)| - 1
  {
    TakenFromFree(fat, fat[c[|c| - 1] := b][b := END_OF_FILE], b);
  }

  lemma NextBlockOwners(fat: seq<U16>, lay: Layout, s: Slot, b: nat, x: nat)
    requires FatOk(fat, lay) && s in lay.chains && b in FreeBlocks(fat) && IsBlock(fat, x)
    ensures var last := lay.chains[s][|lay.chains[s]| - 1];
            OwnerOk(fat[last := b][b := END_OF_FILE], WithNextBlock(lay, s, b), x)
  {
  }

  lemma NextBlockChain(fat: seq<U16>, lay: Layout, s: Slot, b: nat, o: Owner, c: seq<nat>)
    requires s in lay.chains && IsChain(fat, lay.chains[s]) && Owns(lay, File(s), lay.chains[s])
    requires |lay.owner| == |fat| && b in FreeBlocks(fat)
    requires IsChain(fat, c) && Owns(lay, o, c) && o != File(s)
    ensures var last := lay.chains[s][|lay.chains[s]| - 1];
            var fat' := fat[last := b][b := END_OF_FILE];
            var lay' := WithNextBlock(lay, s, b);
            && IsChain(fat', c) && Owns(lay', o, c)
            && IsChain(fat', lay'.chains[s]) && Owns(lay', File(s), lay'.chains[s])
  {
    var own := lay.chains[s];
    var last := own[|own| - 1];
    var fat' := fat[last := b][b := END_OF_FILE];
    LastLinked(fat, own, b);
    assert lay.owner[last] == File(s);
    GivenKeeps(fat, fat', lay, WithNextBlock(lay, s, b), b, File(s), o, c);
  }

  lemma NextBlockOk(fat: seq<U16>, lay: Layout, s: Slot, b: nat)
    requires FatOk(fat, lay) && s in lay.chains && b in FreeBlocks(fat)
    ensures var last := lay.chains[s][|lay.chains[s]| - 1];
            var fat' := fat[last := b][b := END_OF_FILE];
            && FatOk(fat', WithNextBlock(lay, s, b))
            && FreeBlocks(fat') == FreeBlocks(fat) - {b}
            && |FreeBlocks(fat')| == |FreeBlocks(fat)| - 1
  {
    var c := lay.chains[s];
    var last := c[|c| - 1];
    var fat' := fat[last := b][b := END_OF_FILE];
    var lay' := WithNextBlock(lay, s, b);
    LastLinkedFree(fat, c, b);
    hide IsChain, Owns, OwnerOk, FreeBlocks;
    NextBlockChain(fat, lay, s, b, Directory, lay.root);
    forall t | t in lay'.chains
      ensures IsChain(fat', lay'.chains[t]) && Owns(lay', File(t), lay'.chains[t])
    {
      if t != s {
        NextBlockChain(fat, lay, s, b, File(t), lay.chains[t]);
      }
    }
    forall x | IsBlock(fat', x)
      ensures OwnerOk(fat', lay', x)
    {
      NextBlockOwners(fat, lay, s, b, x);
    }
  }

  lemma NextRootBlockOk(fat: seq<U16>, lay: Layout, b: nat)
    requires FatOk(fat, lay) && b in FreeBlocks(fat)
    ensures var last := lay.root[|lay.root| - 1];
            var fat' := fat[last := b][b := END_OF_FILE];
            && FatOk(fat', WithNextRootBlock(lay, b))
            && FreeBlocks(fat') == FreeBlocks(fat) - {b}
            && |FreeBlocks(fat')| == |FreeBlocks(fat)| - 1
  {
    var c := lay.root;
    var last := c[|c| - 1];
    var fat' := fat[last := b][b := END_OF_FILE];
    var lay' := WithNextRootBlock(lay, b);
    LastLinked(fat, c, b);
    forall t | t in lay'.chains
      ensures IsChain(fat', lay'.chains[t]) && Owns(lay', File(t), lay'.chains[t])
    {
      GivenKeeps(fat, fat', lay, lay', b, Directory, File(t), lay.chains[t]);
    }
    forall x | IsBlock(fat', x)
      ensures OwnerOk(fat', lay', x)
    {
      assert OwnerOk(fat, lay, x);
    }
    LastLinkedFree(fat, c, b);
  }
}
