/** What writing does to a volume while it is under way. */
module Writing {
  import opened Options
  import opened Words
  import opened DirectoryEntries
  import opened FatChains
  import opened BlockContents
  import opened Volume
  import opened RootDirectory
  import opened VolumeSteps

  ghost function Last(lay: Layout, s: Slot): nat
    requires s in lay.chains && lay.chains[s] != []
  {
    lay.chains[s][|lay.chains[s]| - 1]
  }

  /** The disk with the chain that ends in `b` closed. */
  ghost function Closed(d: Disk, b: nat): Disk
    requires b < |d.fat|
  {
    d.(fat := d.fat[b := END_OF_FILE])
  }

  /** The bytes in all the blocks of the file in slot `s`. */
  ghost function Blocks(d: Disk, lay: Layout, s: Slot): seq<Byte>
  {
    BytesOf(d, ChainOf(lay, s), |ChainOf(lay, s)| * d.bs)
  }

  lemma TouchFirst(d0: Disk, lay0: Layout, d: Disk, lay: Layout, s: Slot, b: nat)
    requires TouchesOnly(d0, lay0, d, lay, s) && s !in lay.chains && b in FreeBlocks(d.fat)
    ensures TouchesOnly(d0, lay0, Closed(d, b), WithFirstBlock(lay, s, b), s)
    ensures |FreeBlocks(Closed(d, b).fat)| == |FreeBlocks(d.fat)| - 1
    ensures Last(WithFirstBlock(lay, s, b), s) == b
  {
    hide FatOk;
    FirstBlockOk(d.fat, lay, s, b);
  }

  lemma NextInRange(fat: seq<U16>, lay: Layout, s: Slot, b: nat)
    requires FatOk(fat, lay) && s in lay.chains && b in FreeBlocks(fat)
    ensures lay.chains[s] != [] && Last(lay, s) < |fat| == |lay.owner| && b < |fat| && b < END_OF_FILE &&
            b != Last(lay, s)
  {
  }

  lemma TouchNext(d0: Disk, lay0: Layout, d: Disk, lay: Layout, s: Slot, b: nat)
    requires TouchesOnly(d0, lay0, d, lay, s) && s in lay.chains && b in FreeBlocks(d.fat)
    ensures lay.chains[s] != [] && Last(lay, s) < |d.fat| == |lay.owner| && b < |d.fat| && b < END_OF_FILE &&
            b != Last(lay, s)
    ensures TouchesOnly(d0, lay0, Closed(d.(fat := d.fat[Last(lay, s) := b]), b), WithNextBlock(lay, s, b), s)
    ensures |FreeBlocks(d.fat[Last(lay, s) := b][b := END_OF_FILE])| == |FreeBlocks(d.fat)| - 1
  {
    hide FatOk, FreeBlocks;
    NextInRange(d.fat, lay, s, b);
    NextBlockOk(d.fat, lay, s, b);
  }

  lemma TouchData(d0: Disk, lay0: Layout, d: Disk, lay: Layout, s: Slot, b: nat, block: seq<Byte>)
    requires TouchesOnly(d0, lay0, d, lay, s) && s in lay.chains && b in lay.chains[s] && |block| == d.bs
    ensures b < |d.data| && |d.data[b]| == d.bs
    ensures TouchesOnly(d0, lay0, d.(data := d.data[b := block]), lay, s)
  {
    var i :| 0 <= i < |lay.chains[s]| && lay.chains[s][i] == b;
    assert IsBlock(d.fat, b) && lay.owner[b] == File(s);
    var d' := d.(data := d.data[b := block]);
    TouchedOther(d0, d, lay, s, b, block, lay.root, Directory);
    forall t | t != s && t in lay0.chains
      ensures SameBlocks(d0, d', lay0.chains[t])
    {
      assert ChainOf(lay, t) == ChainOf(lay0, t);
      TouchedOther(d0, d, lay, s, b, block, lay.chains[t], File(t));
    }
  }

  lemma TouchedOther(d0: Disk, d: Disk, lay: Layout, s: Slot, b: nat, block: seq<Byte>, c: seq<nat>, o: Owner)
    requires SameBlocks(d0, d, c) && Owns(lay, o, c) && o != File(s)
    requires b < |d.data| && b < |lay.owner| && lay.owner[b] == File(s)
    ensures SameBlocks(d0, d.(data := d.data[b := block]), c)
  {
  }

  lemma ChainFacts(d: Disk, lay: Layout, s: Slot)
    requires DiskOk(d) && FatOk(d.fat, lay) && s in lay.chains
    ensures var c := lay.chains[s];
            && c != [] && HasBlocks(d.data, d.bs, c) && d.bs > 0
            && (forall i, j :: 0 <= i < j < |c| ==> c[i] != c[j])
            && (forall i :: 0 <= i < |c| ==> IsBlock(d.fat, c[i]) && c[i] < |d.data| && |d.data[c[i]]| == d.bs)
            && (forall i :: 0 <= i < |c| - 1 ==> d.fat[c[i]] == c[i + 1])
            && d.fat[c[|c| - 1]] == END_OF_FILE
    ensures Blocks(d, lay, s) == Flatten(d.data, d.bs, lay.chains[s])
  {
  }

  // ---- reading ----

  /** What reading `n` bytes from `offset` on yields. */
  function ReadSlice(bytes: seq<Byte>, offset: nat, n: int): (r: seq<Byte>)
    ensures n >= 0 ==> |r| <= n
  {
    if n <= 0 || offset >= |bytes| then []
    else if offset + n <= |bytes| then bytes[offset..offset + n] else bytes[offset..]
  }

  /** A read returns the bytes from the offset on, as many as were asked for or as there are. */
  lemma ReadSliceIs(bytes: seq<Byte>, offset: nat, n: int)
    ensures var r := ReadSlice(bytes, offset, n);
            && |r| == (if n <= 0 || offset >= |bytes| then 0 else if n < |bytes| - offset then n else |bytes| - offset)
            && forall i :: 0 <= i < |r| ==> r[i] == bytes[offset + i]
  {
  }

  lemma FileSize(d: Disk, lay: Layout, s: Slot)
    requires VolumeOk(d, lay) && IsSlot(d, lay, s) && IsOwning(EntryOf(d, s))
    ensures var c := ChainOf(lay, s); var size := EntryOf(d, s).size;
            && HasBlocks(d.data, d.bs, c) && size <= |c| * d.bs < size + d.bs
            && FileBytes(d, lay, s) == Flatten(d.data, d.bs, c)[..size]
            && |FileBytes(d, lay, s)| == size
  {
    hide EntryOf, EndMarked, NamesOk, FilesOk, FatOk;
    SlotLinked(d, lay, s);
    ChainHasBlocks(d, lay, s);
    BlocksForBounds(EntryOf(d, s).size, d.bs);
  }

  /** Reading on from byte `oib` of block `j`: `m` more bytes of the file. */
  lemma ReadStep(data: seq<seq<Byte>>, bs: nat, c: seq<nat>, start: nat, j: nat, oib: nat, m: nat, got: seq<Byte>)
    requires HasBlocks(data, bs, c) && j < |c| && oib + m <= bs && start <= Capacity(j, bs) + oib
    requires Capacity(j, bs) + oib <= Capacity(|c|, bs) && got == Flatten(data, bs, c)[start..Capacity(j, bs) + oib]
    ensures c[j] < |data| && |data[c[j]]| == bs && Capacity(j, bs) + oib + m <= Capacity(|c|, bs)
    ensures got + data[c[j]][oib..oib + m] == Flatten(data, bs, c)[start..Capacity(j, bs) + oib + m]
  {
    FlattenSlice(data, bs, c, j, oib, oib + m);
  }

  lemma FlattenLength(data: seq<seq<Byte>>, bs: nat, c: seq<nat>)
    requires HasBlocks(data, bs, c)
    ensures |Flatten(data, bs, c)| == Capacity(|c|, bs)
  {
  }

  lemma ChainStep(fat: seq<U16>, c: seq<nat>, k: nat)
    requires IsChain(fat, c) && k < |c|
    ensures IsBlock(fat, c[k]) && fat[c[k]] == if k + 1 < |c| then c[k + 1] else END_OF_FILE
  {
  }

  lemma BlockIndex(pos: nat, j: nat, n: nat, bs: nat)
    requires Capacity(j, bs) <= pos < Capacity(n, bs)
    ensures j < n && Capacity(j, bs) + bs == Capacity(j + 1, bs)
  {
  }

  lemma ReadSliceOfPrefix(all: seq<Byte>, size: nat, offset: nat, n: int)
    requires offset < size <= |all|
    ensures var m := if n < size - offset then n else size - offset;
            ReadSlice(all[..size], offset, n) == if m <= 0 then [] else all[offset..offset + m]
  {
  }

  lemma BlockAt(data: seq<seq<Byte>>, bs: nat, c: seq<nat>, k: nat)
    requires HasBlocks(data, bs, c) && k < |c|
    ensures c[k] < |data| && |data[c[k]]| == bs
  {
  }

  // ---- growing a chain ----

  lemma ClosedAlready(d0: Disk, lay0: Layout, d: Disk, lay: Layout, s: Slot)
    requires TouchesOnly(d0, lay0, d, lay, s) && s in lay.chains && lay.chains[s] != []
    ensures Last(lay, s) < |d.fat| && Last(lay, s) < END_OF_FILE && d.fat[Last(lay, s)] == END_OF_FILE &&
            Closed(d, Last(lay, s)) == d
    ensures d.fat[Last(lay, s) := END_OF_FILE] == d.fat
  {
    assert IsChain(d.fat, lay.chains[s]);
  }

  lemma NoneFree(d: Disk, b: nat)
    requires b < |d.fat| && d.fat[b] != 0
    ensures FreeBlocks(d.fat[b := END_OF_FILE]) == FreeBlocks(d.fat)
  {
    assert forall x :: 0 <= x < |d.fat| ==> (d.fat[b := END_OF_FILE][x] == 0 <==> d.fat[x] == 0);
  }

  /** Linking the free block `b` behind the last block of a file, with new contents. */
  lemma Linking(d0: Disk, lay0: Layout, d: Disk, lay: Layout, s: Slot, b: nat, block: seq<Byte>)
    requires TouchesOnly(d0, lay0, d, lay, s) && s in lay.chains && b in FreeBlocks(d.fat) && |block| == d.bs
    ensures lay.chains[s] != [] && Last(lay, s) < |d.fat| == |lay.owner| && b < |d.fat| == |d.data| &&
            b < END_OF_FILE && b != Last(lay, s)
    ensures var lay' := WithNextBlock(lay, s, b);
            var d' := Disk(d.bs, d.fat[Last(lay, s) := b][b := END_OF_FILE], d.data[b := block]);
            && TouchesOnly(d0, lay0, d', lay', s) && Last(lay', s) == b
            && Blocks(d', lay', s) == Blocks(d, lay, s) + block
            && |FreeBlocks(d'.fat)| == |FreeBlocks(d.fat)| - 1
  {
    hide FreeBlocks, FatOk, SameBlocks, Flatten;
    TouchNext(d0, lay0, d, lay, s, b);
    var lay' := WithNextBlock(lay, s, b);
    var d1 := Closed(d.(fat := d.fat[Last(lay, s) := b]), b);
    TouchData(d0, lay0, d1, lay', s, b, block);
    LinkedContents(d, Disk(d.bs, d1.fat, d.data[b := block]), lay, s, b, block);
  }

  lemma LinkedContents(d: Disk, d': Disk, lay: Layout, s: Slot, b: nat, block: seq<Byte>)
    requires DiskOk(d) && FatOk(d.fat, lay) && s in lay.chains && b in FreeBlocks(d.fat) && |block| == d.bs
    requires b < |d.data| && b < |lay.owner| && d'.bs == d.bs && d'.data == d.data[b := block]
    ensures Blocks(d', WithNextBlock(lay, s, b), s) == Blocks(d, lay, s) + block
  {
    ChainFacts(d, lay, s);
    assert IsChain(d.fat, lay.chains[s]);
    FreeNotInChain(d.fat, lay.chains[s], b);
    var c := lay.chains[s];
    hide FatOk, IsChain, FreeBlocks, Flatten;
    FlattenFrame(d.data, d'.data, d.bs, c);
    FlattenAppend(d'.data, d.bs, c, b);
  }

  /** One round of the gap loop that finds a fresh block: it is linked and zeroed, not yet marked. */
  lemma GapLinked(d0: Disk, lay0: Layout, d: Disk, lay: Layout, s: Slot, prev: nat, b: nat)
    requires s in lay.chains && lay.chains[s] != [] && prev == Last(lay, s) && prev < |d.fat| && d.fat[prev] != 0
    requires TouchesOnly(d0, lay0, Closed(d, prev), lay, s) && b in FreeBlocks(d.fat)
    ensures b != prev && b < |d.fat| == |d.data| == |lay.owner| && b < END_OF_FILE
    ensures var lay' := WithNextBlock(lay, s, b);
            var d' := Disk(d.bs, d.fat[prev := b], d.data[b := Zeros(d.bs)]);
            && TouchesOnly(d0, lay0, Closed(d', b), lay', s) && Last(lay', s) == b
            && Blocks(d', lay', s) == Blocks(d, lay, s) + Zeros(d.bs)
            && |FreeBlocks(d'.fat[b := END_OF_FILE])| == |FreeBlocks(d.fat[prev := END_OF_FILE])| - 1
  {
    hide FreeBlocks, TouchesOnly;
    NoneFree(d, prev);
    Linking(d0, lay0, Closed(d, prev), lay, s, b, Zeros(d.bs));
    assert d.fat[prev := END_OF_FILE][prev := b][b := END_OF_FILE] == d.fat[prev := b][b := END_OF_FILE];
  }

  lemma ZerosGrow(b: seq<Byte>, n: nat, bs: nat)
    ensures b + Zeros(Capacity(n, bs)) + Zeros(bs) == b + Zeros(Capacity(n + 1, bs))
  {
  }

  lemma BlocksOf(d: Disk, d': Disk, lay: Layout, s: Slot)
    requires d'.bs == d.bs
    ensures d'.data == d.data ==> Blocks(d', lay, s) == Blocks(d, lay, s)
  {
  }

  // ---- writing into the last block ----

  lemma BlocksLength(d: Disk, lay: Layout, s: Slot)
    requires DiskOk(d) && FatOk(d.fat, lay) && s in lay.chains
    ensures |Blocks(d, lay, s)| == |lay.chains[s]| * d.bs == Capacity(|lay.chains[s]|, d.bs) && d.bs > 0
    ensures lay.chains[s] != []
    ensures (|lay.chains[s]| - 1) * d.bs + d.bs == |lay.chains[s]| * d.bs
  {
  }

  /** The place of the last block's bytes in the whole file. */
  ghost function LastStart(bs: nat, lay: Layout, s: Slot): int
  {
    (|ChainOf(lay, s)| - 1) * bs
  }

  /** The bytes of all blocks but the last. */
  ghost function Front(d: Disk, lay: Layout, s: Slot): seq<Byte>
    requires s in lay.chains && lay.chains[s] != []
  {
    BytesOf(d, lay.chains[s][..|lay.chains[s]| - 1], (|lay.chains[s]| - 1) * d.bs)
  }

  lemma LastReplaced(d: Disk, lay: Layout, s: Slot, block: seq<Byte>)
    requires DiskOk(d) && FatOk(d.fat, lay) && s in lay.chains && lay.chains[s] != [] && |block| == d.bs
    ensures Last(lay, s) < |d.data| && |d.data[Last(lay, s)]| == d.bs
    ensures |Front(d, lay, s)| == LastStart(d.bs, lay, s)
    ensures Blocks(d.(data := d.data[Last(lay, s) := block]), lay, s) == Front(d, lay, s) + block
  {
    hide FatOk, DiskOk, Flatten, HasBlocks, BytesOf, Front, Blocks;
    ChainFacts(d, lay, s);
    FrontIsFlat(d, lay, s);
    FlattenLast(d.data, d.bs, lay.chains[s], block);
    BlocksAreFlat(d.(data := d.data[Last(lay, s) := block]), lay, s);
  }

  lemma FrontIsFlat(d: Disk, lay: Layout, s: Slot)
    requires s in lay.chains && lay.chains[s] != [] && HasBlocks(d.data, d.bs, lay.chains[s])
    ensures HasBlocks(d.data, d.bs, lay.chains[s][..|lay.chains[s]| - 1])
    ensures Front(d, lay, s) == Flatten(d.data, d.bs, lay.chains[s][..|lay.chains[s]| - 1])
    ensures |Front(d, lay, s)| == LastStart(d.bs, lay, s)
  {
  }

  lemma LastSplit(d: Disk, lay: Layout, s: Slot)
    requires DiskOk(d) && FatOk(d.fat, lay) && s in lay.chains && lay.chains[s] != []
    ensures Last(lay, s) < |d.data| && |d.data[Last(lay, s)]| == d.bs
    ensures |Front(d, lay, s)| == LastStart(d.bs, lay, s) && |Blocks(d, lay, s)| == LastStart(d.bs, lay, s) + d.bs
    ensures Blocks(d, lay, s) == Front(d, lay, s) + d.data[Last(lay, s)]
  {
  }

  lemma LastBlockRewritten(d: Disk, lay: Layout, s: Slot, buf: seq<Byte>, at: nat, piece: seq<Byte>)
    requires DiskOk(d) && FatOk(d.fat, lay) && s in lay.chains && lay.chains[s] != []
    requires |buf| == d.bs && at + |piece| <= d.bs && buf[at..at + |piece|] == piece
    requires Last(lay, s) < |d.data| && |d.data[Last(lay, s)]| == d.bs && buf[..at] == d.data[Last(lay, s)][..at]
    ensures var d' := d.(data := d.data[Last(lay, s) := buf]);
            var p := LastStart(d.bs, lay, s);
            && 0 <= p + at + |piece| <= |Blocks(d', lay, s)| && p + at <= |Blocks(d, lay, s)|
            && Blocks(d', lay, s)[..p + at + |piece|] == Blocks(d, lay, s)[..p + at] + piece
  {
    hide DiskOk, FatOk, Blocks, Front, LastStart;
    LastReplaced(d, lay, s, buf);
    LastSplit(d, lay, s);
    PieceReplaced(Front(d, lay, s), d.data[Last(lay, s)], buf, at, piece);
  }

  lemma BlocksAreFlat(d: Disk, lay: Layout, s: Slot)
    requires s in lay.chains && HasBlocks(d.data, d.bs, lay.chains[s])
    ensures Blocks(d, lay, s) == Flatten(d.data, d.bs, lay.chains[s])
  {
  }

  lemma PieceReplaced(front: seq<Byte>, block: seq<Byte>, buf: seq<Byte>, at: nat, piece: seq<Byte>)
    requires |buf| == |block| && at + |piece| <= |block| && buf[..at] == block[..at] && buf[at..at + |piece|] == piece
    ensures (front + buf)[..|front| + at + |piece|] == (front + block)[..|front| + at] + piece
  {
  }

  // ---- running on over new blocks ----

  /** How many bytes fit into that many blocks. */
  function Capacity(blocks: nat, bs: nat): nat
  {
    blocks * bs
  }

  /** A further block: the file, full so far, goes on in the free block `b`. */
  lemma RunOn(d0: Disk, lay0: Layout, d: Disk, lay: Layout, s: Slot, b: nat)
    requires TouchesOnly(d0, lay0, d, lay, s) && s in lay.chains && b in FreeBlocks(d.fat)
    ensures lay.chains[s] != [] && Last(lay, s) < |d.fat| == |lay.owner| && b < |d.fat| && b < END_OF_FILE &&
            b != Last(lay, s)
    ensures var lay' := WithNextBlock(lay, s, b);
            var d' := d.(fat := d.fat[Last(lay, s) := b]);
            && TouchesOnly(d0, lay0, Closed(d', b), lay', s) && Last(lay', s) == b
            && |Blocks(d, lay, s)| == LastStart(d.bs, lay', s) <= |Blocks(d', lay', s)|
            && Blocks(d', lay', s)[..|Blocks(d, lay, s)|] == Blocks(d, lay, s)
            && |lay'.chains[s]| == |lay.chains[s]| + 1
            && |FreeBlocks(d'.fat[b := END_OF_FILE])| == |FreeBlocks(d.fat)| - 1
  {
    hide FatOk, FreeBlocks;
    NextInRange(d.fat, lay, s, b);
    RunOnContents(d, lay, s, b);
    hide TouchesOnly, Blocks;
    BlocksLength(d, lay, s);
    TouchNext(d0, lay0, d, lay, s, b);
    BlocksOf(d, d.(fat := d.fat[Last(lay, s) := b]), WithNextBlock(lay, s, b), s);
  }

  lemma RunOnContents(d: Disk, lay: Layout, s: Slot, b: nat)
    requires DiskOk(d) && FatOk(d.fat, lay) && s in lay.chains && b in FreeBlocks(d.fat) && b < |lay.owner|
    ensures |Blocks(d, lay, s)| <= |Blocks(d, WithNextBlock(lay, s, b), s)|
    ensures Blocks(d, WithNextBlock(lay, s, b), s)[..|Blocks(d, lay, s)|] == Blocks(d, lay, s)
  {
    ChainFacts(d, lay, s);
    assert IsBlock(d.fat, b);
    var c := lay.chains[s];
    hide FatOk, IsChain, FreeBlocks, Flatten, DiskOk;
    FlattenAppend(d.data, d.bs, c, b);
    BlocksAreFlat(d, WithNextBlock(lay, s, b), s);
  }

  lemma CapacityMonotone(a: nat, b: nat, bs: nat)
    requires a <= b
    ensures a * bs <= b * bs
  {
  }

  /** The last block is neither empty nor overfull, so the chain is as long as it has to be. */
  lemma ChainFitsSize(blocks: nat, size: nat, bs: nat)
    requires bs > 0 && (blocks - 1) * bs < size <= (blocks - 1) * bs + bs
    ensures BlocksFor(size, bs) == blocks && size <= blocks * bs
  {
    assert (blocks - 1) * bs + bs == blocks * bs;
    BlocksForUnique(size, blocks, bs);
  }

  /** The index of the block that holds a position. */
  function IndexOf(pos: nat, bs: nat): nat
    requires bs > 0
  {
    pos / bs
  }

  /** Behind the end of a file there are no blocks left to follow. */
  lemma NoBlocksAhead(offset: nat, n: nat, bs: nat)
    requires bs > 0
    ensures IndexOf(offset, bs) <= IndexOf(offset + n, bs)
  {
    DivMod(offset, bs);
    DivMod(offset + n, bs);
    if (offset + n) / bs < offset / bs {
      MulMonotone((offset + n) / bs, offset / bs, bs);
    }
  }

  lemma BlocksTouched(d0: Disk, lay0: Layout, d: Disk, d': Disk, lay: Layout, s: Slot)
    requires TouchesOnly(d0, lay0, d, lay, s) && s in lay.chains && d'.bs == d.bs && d'.data == d.data
    ensures |Blocks(d', lay, s)| == |lay.chains[s]| * d.bs && LastStart(d.bs, lay, s) + d.bs == |lay.chains[s]| * d.bs
    ensures LastStart(d.bs, lay, s) >= 0
  {
    BlocksLength(d, lay, s);
    BlocksOf(d, d', lay, s);
  }

  /** After a piece went into the last block, the chain is as long as the size needs. */
  lemma Filled(d0: Disk, lay0: Layout, d: Disk, d': Disk, lay: Layout, s: Slot, size: nat, total: nat)
    requires TouchesOnly(d0, lay0, d, lay, s) && s in lay.chains && d'.bs == d.bs && d'.data == d.data
    requires LastStart(d.bs, lay, s) < size <= LastStart(d.bs, lay, s) + d.bs && |lay.chains[s]| <= total
    ensures |Blocks(d', lay, s)| == LastStart(d.bs, lay, s) + d.bs == |lay.chains[s]| * d.bs <= Capacity(total, d.bs)
    ensures |lay.chains[s]| == total ==> LastStart(d.bs, lay, s) + d.bs == Capacity(total, d.bs)
    ensures |lay.chains[s]| == BlocksFor(size, d.bs)
  {
    BlocksTouched(d0, lay0, d, d', lay, s);
    BlocksLength(d, lay, s);
    hide TouchesOnly, Blocks;
    ChainFitsSize(|lay.chains[s]|, size, d.bs);
    CapacityMonotone(|lay.chains[s]|, total, d.bs);
  }

  lemma LastIsIn(lay: Layout, s: Slot)
    requires s in lay.chains && lay.chains[s] != []
    ensures Last(lay, s) in lay.chains[s]
  {
  }

  // ---- a whole write ----

  lemma ResizePrefix(old_: seq<Byte>, p: nat, q: nat)
    requires p <= q
    ensures Resize(old_, q)[..p] == Resize(old_, p)
  {
  }

  lemma ResizeGrow(old_: seq<Byte>, q: nat, n: nat)
    requires |old_| <= q
    ensures Resize(old_, q) + Zeros(n) == Resize(old_, q + n)
  {
  }

  /** The walk zeroes the last block behind the end of the file. */
  lemma ZeroedTail(d: Disk, lay: Layout, s: Slot, size: nat)
    requires DiskOk(d) && FatOk(d.fat, lay) && s in lay.chains && lay.chains[s] != []
    requires LastStart(d.bs, lay, s) <= size <= LastStart(d.bs, lay, s) + d.bs
    requires Last(lay, s) < |d.data| && |d.data[Last(lay, s)]| == d.bs
    ensures size <= |Blocks(d, lay, s)|
    ensures var block := Resize(d.data[Last(lay, s)][..size - LastStart(d.bs, lay, s)], d.bs);
            Blocks(d.(data := d.data[Last(lay, s) := block]), lay, s) ==
              Resize(Blocks(d, lay, s)[..size], |Blocks(d, lay, s)|)
  {
    hide DiskOk, FatOk, Blocks, Front, LastStart, Resize;
    var at := size - LastStart(d.bs, lay, s);
    LastReplaced(d, lay, s, Resize(d.data[Last(lay, s)][..at], d.bs));
    LastSplit(d, lay, s);
    TailZeroed(Front(d, lay, s), d.data[Last(lay, s)], at);
  }

  lemma TailZeroed(front: seq<Byte>, block: seq<Byte>, at: nat)
    requires at <= |block|
    ensures front + Resize(block[..at], |block|) == Resize((front + block)[..|front| + at], |front| + |block|)
  {
  }

  lemma FileIsBlocks(d: Disk, lay: Layout, s: Slot, size: nat)
    requires s in lay.chains && EntryOf(d, s).size == size <= |Blocks(d, lay, s)|
    ensures FileBytes(d, lay, s) == Blocks(d, lay, s)[..size]
  {
  }

  /** The last step of a write: the entry with the new size is stored. */
  lemma Written(d: Disk, lay: Layout, fds: seq<FdEntry>, d1: Disk, lay1: Layout, f: int, x: FdEntry, s: Slot,
                e: Entry, bytes: seq<Byte>)
    requires VolumeOk(d, lay) && TableOk(d, lay, fds) && IsOpen(fds, f) && fds[f].slot == s
    requires TouchesOnly(d, lay, d1, lay1, s) && s in lay1.chains
    requires e.name == EntryOf(d, s).name && e.size == |bytes| > 0 && |lay1.chains[s]| == BlocksFor(e.size, d.bs)
    requires lay1.chains[s] != [] && e.firstBlock == lay1.chains[s][0] != 0
    requires |bytes| <= |Blocks(d1, lay1, s)| && Blocks(d1, lay1, s)[..|bytes|] == bytes
    requires x.refs > 0 && x.slot == s && x.entry == Some(e)
    ensures s.block < |d1.data| && 64 * s.idx + 64 <= |d1.data[s.block]|
    ensures var d' := WithEntry(d1, s, e);
            && VolumeOk(d', lay1) && TableOk(d', lay1, fds[f := x]) && OthersKept(d, lay, d', lay1, s)
            && IsSlot(d', lay1, s) && EntryOf(d', s) == e && FileBytes(d', lay1, s) == bytes
            && Files(d', lay1) == if IsLive(e) then Files(d, lay)[NameOf(d, s) := bytes] else Files(d, lay)
  {
    hide EntryOf, DiskOk, FatOk, EndMarked, FilesOk, NamesOk, TableOk, ChangesOnly, Files, FileBytes, OthersKept,
      EntryFits, TouchesOnly, Blocks, BlocksFor, FilesAfter;
    OpenFile(d, lay, fds, f);
    StoredChange(d, lay, d1, lay1, s, e);
    if IsLive(e) {
      SameNameFits(d, lay, s, e);
    } else {
      NamelessFits(d, lay, s, e);
    }
    BlockSizeOf(d, lay);
    var d' := WithEntry(d1, s, e);
    OpenFileChanged(d, lay, fds, d', lay1, f, x, s, e);
    StoredBlocksKept(d, lay, d1, lay1, s, e);
    FileIsBlocks(d', lay1, s, |bytes|);
    RewrittenFiles(d, lay, s, e, bytes);
  }

  lemma StoredBlocksKept(d: Disk, lay: Layout, d1: Disk, lay1: Layout, s: Slot, e: Entry)
    requires TouchesOnly(d, lay, d1, lay1, s) && IsSlot(d, lay, s) && s in lay1.chains
    ensures s.block < |d1.data| && 64 * s.idx + 64 <= |d1.data[s.block]|
    ensures Blocks(WithEntry(d1, s, e), lay1, s) == Blocks(d1, lay1, s)
  {
    SlotInRange(d1, lay1, s);
    ChainHasBlocks(d1, lay1, s);
    assert Owns(lay1, File(s), lay1.chains[s]);
    hide FatOk, DiskOk;
    FlattenFrame(d1.data, WithEntry(d1, s, e).data, d1.bs, lay1.chains[s]);
  }

  lemma RewrittenFiles(d: Disk, lay: Layout, s: Slot, e: Entry, bytes: seq<Byte>)
    requires IsSlot(d, lay, s) && e.name == EntryOf(d, s).name
    ensures FilesAfter(d, lay, s, e, bytes) == if IsLive(e) then Files(d, lay)[NameOf(d, s) := bytes] else Files(d, lay)
  {
  }

  lemma LayoutInRange(d0: Disk, lay0: Layout, d: Disk, lay: Layout, s: Slot)
    requires TouchesOnly(d0, lay0, d, lay, s)
    ensures |lay.owner| == |d.fat| == |d.data| && |d.fat| >= 1
  {
  }

  lemma ChainTouched(d: Disk, lay: Layout, s: Slot)
    requires DiskOk(d) && FatOk(d.fat, lay) && s in lay.chains
    ensures IsChain(d.fat, lay.chains[s]) && HasBlocks(d.data, d.bs, lay.chains[s])
    ensures (|lay.chains[s]| - 1) * d.bs + d.bs == |lay.chains[s]| * d.bs
  {
  }

  lemma ResizePrefixOf(bytes: seq<Byte>, size: nat, all: seq<Byte>)
    requires size == |bytes|
    ensures forall n: nat :: size <= n && all == Resize(bytes, n) ==> size <= |all| && all[..size] == bytes
  {
  }

  lemma StartOf(bs: nat, lay: Layout, s: Slot)
    requires s in lay.chains
    ensures LastStart(bs, lay, s) == (|lay.chains[s]| - 1) * bs
  {
  }

  // ---- when no layout fits ----

  lemma LinkAt(fat: seq<U16>, c: seq<nat>, i: nat)
    requires IsChain(fat, c) && i < |c|
    ensures IsBlock(fat, c[i]) && (fat[c[i]] == END_OF_FILE <==> i + 1 == |c|)
    ensures i + 1 < |c| ==> fat[c[i]] == c[i + 1]
  {
    assert i + 1 < |c| ==> IsBlock(fat, c[i + 1]);
  }

  /** The links of the table determine a chain. */
  lemma ChainUnique(fat: seq<U16>, c: seq<nat>, c': seq<nat>)
    requires IsChain(fat, c) && IsChain(fat, c') && c[0] == c'[0]
    ensures c == c'
  {
    var i := 0;
    LinkAt(fat, c, 0);
    LinkAt(fat, c', 0);
    while i + 1 < |c|
      invariant 0 <= i < |c| && i < |c'| && forall j :: 0 <= j <= i ==> c[j] == c'[j]
      invariant IsBlock(fat, c[i]) && (i + 1 == |c| <==> i + 1 == |c'|)
    {
      LinkAt(fat, c, i);
      LinkAt(fat, c', i);
      i := i + 1;
      LinkAt(fat, c, i);
      LinkAt(fat, c', i);
    }
  }

  /** A file whose links make a chain that does not fit its size: there is no layout at all for this volume. */
  lemma NoLayoutFits(d: Disk, root: seq<nat>, s: Slot, c: seq<nat>)
    requires d.bs > 0 && IsChain(d.fat, root) && root[0] == 1 && IsChain(d.fat, c)
    requires s.block in root && 64 * s.idx + 64 <= d.bs && IsOwning(EntryOf(d, s)) && EntryOf(d, s).firstBlock == c[0]
    requires |c| != BlocksFor(EntryOf(d, s).size, d.bs)
    ensures forall l :: !VolumeOk(d, l)
  {
    hide EntryOf, EndMarked, NamesOk, DiskOk, BlocksFor, OwnerOk;
    forall l ensures !VolumeOk(d, l) {
      if VolumeOk(d, l) {
        ChainUnique(d.fat, root, l.root);
        SlotLinked(d, l, s);
        assert IsBlock(d.fat, c[0]);
        ChainUnique(d.fat, c, l.chains[s]);
      }
    }
  }

  lemma SameEntryAfter(d: Disk, lay: Layout, d1: Disk, lay1: Layout, s: Slot)
    requires VolumeOk(d, lay) && IsSlot(d, lay, s) && TouchesOnly(d, lay, d1, lay1, s)
    ensures EntryOf(d1, s) == EntryOf(d, s)
  {
  }

  lemma StoredEntry(d: Disk, lay: Layout, d1: Disk, lay1: Layout, s: Slot, e: Entry)
    requires IsSlot(d, lay, s) && TouchesOnly(d, lay, d1, lay1, s)
    ensures s.block < |d1.data| && 64 * s.idx + 64 <= |d1.data[s.block]|
    ensures var d' := WithEntry(d1, s, e);
            d'.bs == d.bs && d'.fat == d1.fat && FatOk(d'.fat, lay1) && IsSlot(d', lay1, s) && EntryOf(d', s) == e
  {
    SlotInRange(d1, lay1, s);
    hide FatOk, DiskOk, SameChains, SameBlocks;
    PutEntryAt(d1.data[s.block], s.idx, e, s.idx);
  }

  /** A cached entry that is not the one on disk. */
  lemma StaleEntry(d: Disk, fds: seq<FdEntry>, f: int)
    requires IsOpen(fds, f) && fds[f].entry != Some(EntryOf(d, fds[f].slot))
    ensures forall l :: !TableOk(d, l, fds)
  {
  }

  // ---- where a write may start ----

  /** The number of blocks that a write finds or makes before it looks for its place. */
  function BlocksAtStart(size: nat, bs: nat): nat
    requires bs > 0
  {
    if BlocksFor(size, bs) == 0 then 1 else BlocksFor(size, bs)
  }

  /** The offset is not before the last block of the file. */
  predicate StartsInLastBlock(size: nat, offset: nat, bs: nat)
    requires bs > 0
  {
    BlocksFor(size, bs) <= IndexOf(offset, bs) + 1
  }

  /** The offset lies in the last block of the file or in the one behind it. */
  predicate IsTailWrite(size: nat, offset: nat, bs: nat)
    requires bs > 0
  {
    StartsInLastBlock(size, offset, bs) && IndexOf(offset, bs) <= BlocksAtStart(size, bs)
  }

  /** The offset lies behind that. */
  predicate IsFarWrite(size: nat, offset: nat, bs: nat)
    requires bs > 0
  {
    IndexOf(offset, bs) > BlocksAtStart(size, bs)
  }

  lemma TailOrFar(size: nat, offset: nat, bs: nat)
    requires bs > 0
    ensures IsFarWrite(size, offset, bs) <==> StartsInLastBlock(size, offset, bs) && !IsTailWrite(size, offset, bs)
  {
  }

  /** The numbers of a write are those that the code computes: only those of a far write may not fit. */
  lemma NumbersFit(size: nat, offset: nat, n: nat, bs: nat)
    requires 0 < bs <= 4096 && BlocksFor(size, bs) <= 0xFFFE && n < 0x8000_0000
    requires IsFarWrite(size, offset, bs) ==> IndexOf(offset + n, bs) + 1 < 0x1_0000
    ensures offset + n < 0x1_0000_0000 && IndexOf(offset, bs) + 1 < 0x1_0000
  {
    hide BlocksFor, IndexOf;
    NoBlocksAhead(offset, n, bs);
    BelowNext(offset, bs);
    BelowNext(offset + n, bs);
  }

  lemma BelowNext(offset: nat, bs: nat)
    requires 0 < bs <= 4096
    ensures offset < (IndexOf(offset, bs) + 1) * 4096
  {
    DivMod(offset, bs);
    assert (offset / bs) * bs <= (offset / bs) * 4096;
  }

  /** The index, in the chain that results, of the block that a write copies into first. */
  function LandingIndex(blocks: nat, target: nat): nat
    requires blocks > 0
  {
    if target < blocks then target else blocks - 1 + (target - blocks + 1) / 2
  }

  /**
   The block that `k_write` copies into is the one that holds the offset exactly if the
   offset lies in the last block or in the one behind it.
   */
  lemma LandsOnItsBlock(blocks: nat, offset: nat, bs: nat)
    requires bs > 0 && blocks > 0
    ensures LandingIndex(blocks, IndexOf(offset, bs) + 1) == IndexOf(offset, bs) <==>
              blocks - 1 <= IndexOf(offset, bs) <= blocks
  {
  }

  /** Where a write puts its first byte. */
  function LandingAt(size: nat, offset: nat, bs: nat): nat
    requires bs > 0
  {
    LandingIndex(BlocksAtStart(size, bs), IndexOf(offset, bs) + 1) * bs + offset % bs
  }

  /** A write starts at its offset exactly if that is in the last block or in the one behind it. */
  lemma LandsAtOffset(size: nat, offset: nat, bs: nat)
    requires bs > 0
    ensures LandingAt(size, offset, bs) == offset <==> IsTailWrite(size, offset, bs)
    ensures !StartsInLastBlock(size, offset, bs) ==> LandingAt(size, offset, bs) == offset + bs
    ensures StartsInLastBlock(size, offset, bs) && !IsTailWrite(size, offset, bs) ==>
              LandingAt(size, offset, bs) + bs <= offset
  {
    DivMod(offset, bs);
    var i, k := IndexOf(offset, bs), BlocksAtStart(size, bs);
    var j := LandingIndex(k, i + 1);
    LandsOnItsBlock(k, offset, bs);
    if j < i {
      MulMonotone(j, i, bs);
    }
    assert (i + 1) * bs == i * bs + bs;
  }

  /** How many bytes fit on the volume from there on. */
  function Room(size: nat, offset: nat, free: nat, bs: nat): int
    requires bs > 0
  {
    Capacity(BlocksFor(size, bs) + free, bs) - LandingAt(size, offset, bs)
  }

  /** There is room exactly if the blocks reach as far as the one that is written first. */
  lemma RoomIffReached(size: nat, offset: nat, free: nat, bs: nat)
    requires bs > 0
    ensures Room(size, offset, free, bs) > 0 <==>
            LandingIndex(BlocksAtStart(size, bs), IndexOf(offset, bs) + 1) < BlocksFor(size, bs) + free
  {
    DivMod(offset, bs);
    var j, n := LandingIndex(BlocksAtStart(size, bs), IndexOf(offset, bs) + 1), BlocksFor(size, bs) + free;
    hide BlocksFor, LandingIndex, IndexOf;
    if j < n {
      MulMonotone(j, n, bs);
    } else {
      CapacityMonotone(n, j, bs);
    }
  }

  /**
   The writes that keep a volume consistent, among those whose numbers are in range. A write
   before the last block is one only if it runs out of blocks, which is an error. A write
   behind it needs room at its offset, unless no block is free: then nothing happens.
   */
  predicate IsSafeWrite(size: nat, offset: nat, n: nat, free: nat, bs: nat)
    requires bs > 0
  {
    if StartsInLastBlock(size, offset, bs)
    then free == 0 || (IsTailWrite(size, offset, bs) && Room(size, offset, free, bs) > 0)
    else LandingAt(size, offset, bs) + n > Capacity(BlocksFor(size, bs), bs)
  }

  lemma SafeIff(size: nat, offset: nat, n: nat, free: nat, bs: nat)
    requires bs > 0
    ensures StartsInLastBlock(size, offset, bs) && n > 0 ==>
              (IsSafeWrite(size, offset, n, free, bs) <==>
               if Room(size, offset, free, bs) > 0 then IsTailWrite(size, offset, bs) else free == 0)
    ensures !StartsInLastBlock(size, offset, bs) ==>
              (IsSafeWrite(size, offset, n, free, bs) <==> n > Room(size, offset, 0, bs))
    ensures IsTailWrite(size, offset, bs) ==> StartsInLastBlock(size, offset, bs)
  {
    RoomIffReached(size, offset, free, bs);
    LandsOnItsBlock(BlocksAtStart(size, bs), offset, bs);
    hide Capacity, LandingAt;
  }

  lemma SameData(d: Disk, d': Disk, s: Slot)
    requires d.data == d'.data
    ensures EntryOf(d, s) == EntryOf(d', s)
  {
  }

  lemma ShortChain(p: nat, offset: nat, n: nat, bs: nat)
    requires bs > 0 && p + bs <= offset && n > 0
    ensures BlocksFor(p + n, bs) < BlocksFor(offset + n, bs)
  {
    BlocksForBounds(p + n, bs);
    BlocksForBounds(offset + n, bs);
    if BlocksFor(offset + n, bs) <= BlocksFor(p + n, bs) {
      CapacityMonotone(BlocksFor(offset + n, bs), BlocksFor(p + n, bs), bs);
    }
  }

  /** A file before a write: its bytes and its blocks. */
  lemma BeforeWrite(d: Disk, lay: Layout, s: Slot)
    requires VolumeOk(d, lay) && s in lay.chains && IsSlot(d, lay, s) && IsOwning(EntryOf(d, s))
    ensures var size := EntryOf(d, s).size;
            && |lay.chains[s]| == BlocksFor(size, d.bs) > 0
            && LastStart(d.bs, lay, s) <= size <= LastStart(d.bs, lay, s) + d.bs
            && size <= |Blocks(d, lay, s)| && Blocks(d, lay, s)[..size] == FileBytes(d, lay, s)
            && |FileBytes(d, lay, s)| == size
  {
    hide EntryOf, EndMarked, NamesOk, FilesOk, FatOk;
    SlotLinked(d, lay, s);
    FileSize(d, lay, s);
    LayoutOf(d, lay);
    BlocksLength(d, lay, s);
    FileIsBlocks(d, lay, s, EntryOf(d, s).size);
  }

  lemma BeforeFirstWrite(d0: Disk, lay0: Layout, d: Disk, lay: Layout, s: Slot)
    requires VolumeOk(d0, lay0) && s !in lay0.chains && IsSlot(d0, lay0, s) && IsOwning(EntryOf(d0, s))
    requires TouchesOnly(d0, lay0, d, lay, s) && s in lay.chains && |lay.chains[s]| == 1
    ensures EntryOf(d0, s).size == 0 && FileBytes(d0, lay0, s) == [] && BlocksFor(0, d.bs) == 0
    ensures LastStart(d.bs, lay, s) == 0 && |Blocks(d, lay, s)| == d.bs
  {
    hide EntryOf, EndMarked, NamesOk, FilesOk, FatOk;
    SlotLinked(d0, lay0, s);
    BlocksForBounds(EntryOf(d0, s).size, d0.bs);
    BlocksForBounds(0, d0.bs);
    EmptyFile(d0, lay0, s);
    BlocksLength(d, lay, s);
  }

  /** The state before a write, in the terms of the steps of a write. */
  lemma BeforeSteps(d: Disk, lay: Layout, s: Slot)
    requires VolumeOk(d, lay) && IsSlot(d, lay, s) && IsOwning(EntryOf(d, s))
    ensures var e := EntryOf(d, s);
            && d.bs > 0 && TouchesOnly(d, lay, d, lay, s) && |ChainOf(lay, s)| == BlocksFor(e.size, d.bs)
            && (e.firstBlock != 0 <==> s in lay.chains) && e.firstBlock < 0x1_0000
            && (s in lay.chains ==> lay.chains[s] != [] && lay.chains[s][0] == e.firstBlock)
  {
  }

  lemma ZerosPrefix(n: nat, m: nat)
    requires n <= m
    ensures Zeros(m)[..n] == Zeros(n)
  {
  }

  /** A volume on which only bytes in the blocks of one file have changed. */
  lemma TouchedOk(d: Disk, lay: Layout, fds: seq<FdEntry>, d1: Disk, s: Slot)
    requires VolumeOk(d, lay) && TableOk(d, lay, fds) && IsSlot(d, lay, s) && IsOwning(EntryOf(d, s)) && s in lay.chains
    requires TouchesOnly(d, lay, d1, lay, s) && EntryOf(d, s).size <= |Blocks(d1, lay, s)|
    ensures VolumeOk(d1, lay) && TableOk(d1, lay, fds) && OthersKept(d, lay, d1, lay, s)
    ensures FileBytes(d1, lay, s) == Blocks(d1, lay, s)[..EntryOf(d, s).size]
    ensures Files(d1, lay) == if IsLive(EntryOf(d, s)) then Files(d, lay)[NameOf(d, s) := FileBytes(d1, lay, s)]
              else Files(d, lay)
  {
    hide EntryOf, FilesOk, FatOk, SameBlocks, Files, FileBytes, Blocks, NamesOk, EndMarked, TableOk;
    assert forall t :: IsSlot(d, lay, t) ==> EntryOf(d1, t) == EntryOf(d, t) by {
      forall t | IsSlot(d, lay, t) ensures EntryOf(d1, t) == EntryOf(d, t) { SameEntry(d, lay, d1, t); }
    }
    FileIsBlocks(d1, lay, s, EntryOf(d, s).size);
    TouchedChange(d, lay, d1, s);
    SlotLinked(d, lay, s);
    CurrentEntryFits(d, lay, s);
    ChangedVolumeOk(d, lay, d1, lay, s, EntryOf(d, s));
    ChangedFiles(d, lay, d1, lay, s, EntryOf(d, s));
    RewrittenFiles(d, lay, s, EntryOf(d, s), FileBytes(d1, lay, s));
    SameTableOk(d, lay, fds, d1);
  }

  lemma SameBytesSameFiles(d: Disk, lay: Layout, s: Slot)
    requires VolumeOk(d, lay) && IsLiveSlot(d, lay, s)
    ensures Files(d, lay)[NameOf(d, s) := FileBytes(d, lay, s)] == Files(d, lay)
  {
    hide EntryOf, Files, FileBytes, NamesOk, FatOk, EndMarked, FilesOk, DiskOk;
    FileAt(d, lay, s);
  }

  /** A write that stored nothing: the entry in memory has changed, or nothing that counts has. */
  lemma NothingWritten(d: Disk, lay: Layout, fds: seq<FdEntry>, d1: Disk, lay1: Layout, fds': seq<FdEntry>, f: int,
                       x: FdEntry, s: Slot)
    requires VolumeOk(d, lay) && TableOk(d, lay, fds) && IsOpen(fds, f) && fds[f].slot == s == x.slot && x.refs > 0 &&
             fds' == fds[f := x]
    requires TouchesOnly(d, lay, d1, lay1, s)
    ensures x.entry != fds[f].entry ==> forall l :: !TableOk(d1, l, fds')
    ensures x == fds[f] && lay1 == lay && (s !in lay.chains ==> d1 == d)
            && (s in lay.chains ==>
                EntryOf(d, s).size <= |Blocks(d1, lay, s)| &&
                  Blocks(d1, lay, s)[..EntryOf(d, s).size] == FileBytes(d, lay, s)) ==>
              && VolumeOk(d1, lay) && TableOk(d1, lay, fds') && OthersKept(d, lay, d1, lay, s)
              && FileBytes(d1, lay, s) == FileBytes(d, lay, s) && Files(d1, lay) == Files(d, lay)
  {
    hide VolumeOk, TableOk, EntryOf, IsSlot, TouchesOnly, Blocks, FileBytes, Files, OthersKept;
    OpenFile(d, lay, fds, f);
    if x.entry != fds[f].entry {
      SameEntryAfter(d, lay, d1, lay1, s);
      StaleEntry(d1, fds', f);
    } else if x == fds[f] && lay1 == lay {
      assert fds' == fds;
      OthersKeptRefl(d, lay, s);
      if s in lay.chains && EntryOf(d, s).size <= |Blocks(d1, lay, s)| &&
        Blocks(d1, lay, s)[..EntryOf(d, s).size] == FileBytes(d, lay, s) {
        TouchedOk(d, lay, fds, d1, s);
        if IsLive(EntryOf(d, s)) {
          SameBytesSameFiles(d, lay, s);
        }
      }
    }
  }

  /** All free blocks have gone to a file that did not grow: there is no layout any more. */
  lemma NeverWritten(d: Disk, lay: Layout, fds: seq<FdEntry>, d1: Disk, lay1: Layout, f: int, s: Slot)
    requires VolumeOk(d, lay) && TableOk(d, lay, fds) && IsOpen(fds, f) && fds[f].slot == s
    requires TouchesOnly(d, lay, d1, lay1, s) && s in lay1.chains && lay1.chains[s] != []
    requires lay1.chains[s][0] == EntryOf(d, s).firstBlock && d.bs > 0 &&
             |lay1.chains[s]| > BlocksFor(EntryOf(d, s).size, d.bs)
    ensures forall l :: !VolumeOk(d1, l)
  {
    hide VolumeOk, TableOk, EntryOf, BlocksFor, SameChains, SameBlocks, DiskOk;
    OpenFile(d, lay, fds, f);
    SameEntryAfter(d, lay, d1, lay1, s);
    NoLayoutFits(d1, lay1.root, s, lay1.chains[s]);
  }

  // ---- writing before the last block ----

  /** A piece of one of the blocks of a file is overwritten. */
  lemma TouchPiece(d0: Disk, lay: Layout, d: Disk, s: Slot, k: nat, at: nat, piece: seq<Byte>)
    requires TouchesOnly(d0, lay, d, lay, s) && s in lay.chains && k < |lay.chains[s]| && at + |piece| <= d.bs
    ensures var b := lay.chains[s][k];
            && b < |d.data| && |d.data[b]| == d.bs && Capacity(k, d.bs) + d.bs <= |Blocks(d, lay, s)|
            && var d' := d.(data := d.data[b := d.data[b][..at] + piece + d.data[b][at + |piece|..]]);
               var f, p := Blocks(d, lay, s), Capacity(k, d.bs) + at;
               TouchesOnly(d0, lay, d', lay, s) && Blocks(d', lay, s) == f[..p] + piece + f[p + |piece|..]
  {
    hide TouchesOnly, Flatten, FatOk, IsChain, DiskOk, Blocks;
    var c := lay.chains[s];
    assert DiskOk(d) && FatOk(d.fat, lay) by { TouchedFacts(d0, lay, d, lay, s); }
    ChainFacts(d, lay, s);
    FlattenPiece(d.data, d.bs, c, k, at, piece);
    var block := d.data[c[k]][..at] + piece + d.data[c[k]][at + |piece|..];
    TouchData(d0, lay, d, lay, s, c[k], block);
    BlocksAreFlat(d.(data := d.data[c[k] := block]), lay, s);
  }

  lemma TouchedFacts(d0: Disk, lay0: Layout, d: Disk, lay: Layout, s: Slot)
    requires TouchesOnly(d0, lay0, d, lay, s)
    ensures DiskOk(d) && FatOk(d.fat, lay) && d.bs == d0.bs && |d.fat| == |d0.fat| && lay.root == lay0.root
  {
  }

  /** The bytes before `p`, `n` bytes of `str`, and the rest: so far, and after one more piece. */
  lemma PieceAdded(all: seq<Byte>, str: seq<Byte>, p: nat, n: nat, m: nat)
    requires n + m <= |str| && p + n + m <= |all|
    ensures var f := all[..p] + str[..n] + all[p + n..];
            f[..p + n] + str[n..n + m] + f[p + n + m..] == all[..p] + str[..n + m] + all[p + n + m..]
  {
    assert str[..n + m] == str[..n] + str[n..n + m];
  }

  /** A chain that ends early. */
  lemma CutChain(fat: seq<U16>, c: seq<nat>, k: nat, other: seq<nat>)
    requires IsChain(fat, c) && IsChain(fat, other) && k < |c| && c[k] !in other
    ensures c[k] < |fat| && IsChain(fat[c[k] := END_OF_FILE], c[..k + 1]) && IsChain(fat[c[k] := END_OF_FILE], other)
  {
    ChainFrame(fat, fat[c[k] := END_OF_FILE], other);
  }

  lemma LinkOf(fat: seq<U16>, lay: Layout, s: Slot, k: nat)
    requires FatOk(fat, lay) && s in lay.chains && k < |lay.chains[s]|
    ensures var c := lay.chains[s];
            && c[k] < |fat| && c[k] != END_OF_FILE
            && if k + 1 < |c| then fat[c[k]] == c[k + 1] != END_OF_FILE else fat[c[k]] == END_OF_FILE
  {
    LinkAt(fat, lay.chains[s], k);
    assert k + 1 < |lay.chains[s]| ==> IsBlock(fat, lay.chains[s][k + 1]);
  }

  lemma InCapacity(k: nat, n: nat, bs: nat)
    requires k < n
    ensures Capacity(k, bs) + bs == Capacity(k + 1, bs) <= Capacity(n, bs)
  {
    MulMonotone(k, n, bs);
  }

  /** An early write is always one block ahead of its place in the file. */
  lemma OneBlockAhead(offset: nat, n: nat, k: nat, at: nat, bs: nat)
    requires bs > 0 && at < bs && k > 0 && offset + bs + n == Capacity(k, bs) + at
    ensures IndexOf(offset + n, bs) + 1 == k
  {
    assert (k - 1) * bs + bs == k * bs;
    DivUnique(offset + n, k - 1, at, bs);
  }

  lemma InRoot(d: Disk, lay: Layout, s: Slot)
    requires IsSlot(d, lay, s)
    ensures s.block in lay.root && 64 * s.idx + 64 <= d.bs
  {
  }

  lemma NotInRoot(fat: seq<U16>, lay: Layout, s: Slot, k: nat)
    requires FatOk(fat, lay) && s in lay.chains && k < |lay.chains[s]|
    ensures lay.chains[s][k] !in lay.root && IsChain(fat, lay.chains[s]) && IsChain(fat, lay.root) && lay.root[0] == 1
  {
  }

  /** The chain that an early write leaves is one block longer than its size needs. */
  lemma OneBlockMore(end: nat, k: nat, bs: nat)
    requires bs > 0 && end >= bs && Capacity(k, bs) < end <= Capacity(k, bs) + bs
    ensures BlocksFor(end - bs, bs) == k
  {
    BlocksForUnique(end - bs, k, bs);
  }

  /** What a file of these bytes holds once its blocks from `at` on are full of other bytes. */
  function Overlaid(bytes: seq<Byte>, at: nat, str: seq<Byte>): seq<Byte>
    requires |bytes| <= at + |str|
  {
    if at >= |bytes| then bytes else bytes[..at] + str[..|bytes| - at]
  }

  lemma OverlaidPrefix(all: seq<Byte>, size: nat, p: nat, str: seq<Byte>)
    requires size <= |all| && p <= |all| && |all| - p <= |str|
    ensures (all[..p] + str[..|all| - p])[..size] == Overlaid(all[..size], p, str)
  {
  }

  /** A write that overwrote the file to the end of its last block and then failed. */
  lemma RanOut(d: Disk, lay: Layout, fds: seq<FdEntry>, d1: Disk, f: int, p: nat, str: seq<Byte>)
    requires VolumeOk(d, lay) && TableOk(d, lay, fds) && IsOpen(fds, f) && fds[f].slot in lay.chains
    requires TouchesOnly(d, lay, d1, lay, fds[f].slot)
    requires var all := Blocks(d, lay, fds[f].slot);
             p <= |all| && |all| - p <= |str| && Blocks(d1, lay, fds[f].slot) == all[..p] + str[..|all| - p]
    ensures VolumeOk(d1, lay) && TableOk(d1, lay, fds) && OthersKept(d, lay, d1, lay, fds[f].slot)
    ensures var s := fds[f].slot;
            && |FileBytes(d, lay, s)| <= p + |str| && FileBytes(d1, lay, s) == Overlaid(FileBytes(d, lay, s), p, str)
            && Files(d1, lay) == if IsLive(EntryOf(d, s)) then Files(d, lay)[NameOf(d, s) := FileBytes(d1, lay, s)]
              else Files(d, lay)
  {
    hide VolumeOk, TableOk, TouchesOnly, Blocks, FileBytes, EntryOf, IsSlot, Files, OthersKept, NameOf, Overlaid,
      BlocksFor, LastStart;
    var s := fds[f].slot;
    OpenFile(d, lay, fds, f);
    BeforeWrite(d, lay, s);
    OverlaidPrefix(Blocks(d, lay, s), EntryOf(d, s).size, p, str);
    TouchedOk(d, lay, fds, d1, s);
  }

  lemma TouchedChange(d: Disk, lay: Layout, d1: Disk, s: Slot)
    requires VolumeOk(d, lay) && IsSlot(d, lay, s) && TouchesOnly(d, lay, d1, lay, s)
    requires forall t :: IsSlot(d, lay, t) ==> EntryOf(d1, t) == EntryOf(d, t)
    ensures ChangesOnly(d, lay, d1, lay, s, EntryOf(d, s))
  {
  }

  lemma CurrentEntryFits(d: Disk, lay: Layout, s: Slot)
    requires VolumeOk(d, lay) && IsSlot(d, lay, s) && IsOwning(EntryOf(d, s))
    ensures EntryFits(d, lay, s, EntryOf(d, s))
  {
    hide EntryOf, FilesOk, FatOk, DiskOk, EndMarked, IsValidFilename;
    if IsLive(EntryOf(d, s)) {
      SameNameFits(d, lay, s, EntryOf(d, s));
    }
  }

  lemma SameTableOk(d: Disk, lay: Layout, fds: seq<FdEntry>, d1: Disk)
    requires TableOk(d, lay, fds) && d1.bs == d.bs
    requires forall t :: IsSlot(d, lay, t) ==> EntryOf(d1, t) == EntryOf(d, t)
    ensures TableOk(d1, lay, fds)
  {
  }

  /** A write at the end of a file is always safe. */
  lemma AppendIsTail(size: nat, free: nat, bs: nat)
    requires bs > 0
    ensures IsTailWrite(size, size, bs) && StartsInLastBlock(size, size, bs)
    ensures Room(size, size, free, bs) == Capacity(BlocksFor(size, bs) + free, bs) - size >= 0
    ensures Room(size, size, free, bs) == 0 ==> free == 0
    ensures forall n :: IsSafeWrite(size, size, n, free, bs)
  {
    BlocksForBounds(size, bs);
    DivMod(size, bs);
    var q, k := IndexOf(size, bs), BlocksFor(size, bs);
    if k > q + 1 {
      MulMonotone(q + 1, k, bs);
    }
    if q > BlocksAtStart(size, bs) {
      MulMonotone(BlocksAtStart(size, bs), q, bs);
    }
    assert IsTailWrite(size, size, bs);
    LandsAtOffset(size, size, bs);
    CapacityMonotone(k, k + free, bs);
    if free > 0 {
      MulMonotone(k, k + free, bs);
    }
    hide LandingAt, IsTailWrite;
  }
}
