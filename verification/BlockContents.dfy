/** The bytes that a chain of blocks holds. */
module BlockContents {
  import opened Words

  ghost predicate HasBlocks(data: seq<seq<Byte>>, bs: nat, c: seq<nat>)
  {
    forall i :: 0 <= i < |c| ==> c[i] < |data| && |data[c[i]]| == bs
  }

  /** The blocks of a chain, one after the other. */
  ghost function Flatten(data: seq<seq<Byte>>, bs: nat, c: seq<nat>): (r: seq<Byte>)
    requires HasBlocks(data, bs, c)
    ensures |r| == |c| * bs
  {
    if c == [] then [] else
      assert (|c| - 1) * bs + bs == |c| * bs;
      Flatten(data, bs, c[..|c| - 1]) + data[c[|c| - 1]]
  }

  /** How many blocks a file of this size takes. */
  function BlocksFor(size: nat, bs: nat): nat
    requires bs > 0
  {
    (size + bs - 1) / bs
  }

  /** `bytes` cut to `n` bytes, or continued with zeros up to there. */
  function Resize(bytes: seq<Byte>, n: nat): (r: seq<Byte>)
    ensures |r| == n
  {
    if n <= |bytes| then bytes[..n] else bytes + Zeros(n - |bytes|)
  }

  /** What was there stays as far as it is kept, and the rest is zero. */
  lemma ResizeIs(bytes: seq<Byte>, n: nat, i: nat)
    requires i < n
    ensures Resize(bytes, n)[i] == if i < |bytes| then bytes[i] else 0
  {
  }

  lemma DivMod(x: nat, bs: nat)
    requires bs > 0
    ensures x == (x / bs) * bs + x % bs && x % bs < bs
  {
  }

  lemma MulMonotone(a: nat, b: nat, bs: nat)
    requires a < b
    ensures a * bs + bs <= b * bs
  {
    assert (b - a - 1) * bs >= 0;
    assert b * bs == a * bs + bs + (b - a - 1) * bs;
  }

  /** A multiple and a remainder below the divisor determine the quotient. */
  lemma DivUnique(x: nat, q: nat, r: nat, bs: nat)
    requires bs > 0 && x == q * bs + r && r < bs
    ensures x / bs == q && x % bs == r
  {
    DivMod(x, bs);
    if x / bs < q {
      MulMonotone(x / bs, q, bs);
    } else if x / bs > q {
      MulMonotone(q, x / bs, bs);
    }
  }

  lemma BlocksForUnique(size: nat, k: nat, bs: nat)
    requires bs > 0 && size <= k * bs < size + bs
    ensures BlocksFor(size, bs) == k
  {
    DivUnique(size + bs - 1, k, size + bs - 1 - k * bs, bs);
  }

  lemma BlocksForBounds(size: nat, bs: nat)
    requires bs > 0
    ensures size <= BlocksFor(size, bs) * bs < size + bs
    ensures size == 0 <==> BlocksFor(size, bs) == 0
  {
  }

  lemma {:induction false} FlattenFrame(data: seq<seq<Byte>>, data': seq<seq<Byte>>, bs: nat, c: seq<nat>)
    requires HasBlocks(data, bs, c) && |data'| == |data|
    requires forall i :: 0 <= i < |c| ==> data'[c[i]] == data[c[i]]
    ensures HasBlocks(data', bs, c) && Flatten(data', bs, c) == Flatten(data, bs, c)
  {
    if c != [] {
      FlattenFrame(data, data', bs, c[..|c| - 1]);
    }
  }

  lemma FlattenAppend(data: seq<seq<Byte>>, bs: nat, c: seq<nat>, b: nat)
    requires HasBlocks(data, bs, c) && b < |data| && |data[b]| == bs
    ensures HasBlocks(data, bs, c + [b])
    ensures Flatten(data, bs, c + [b]) == Flatten(data, bs, c) + data[b]
  {
  }

  /** Rewriting the last block of a chain without repeats leaves the ones before it. */
  lemma FlattenLast(data: seq<seq<Byte>>, bs: nat, c: seq<nat>, block: seq<Byte>)
    requires HasBlocks(data, bs, c) && c != [] && |block| == bs
    requires forall i, j :: 0 <= i < j < |c| ==> c[i] != c[j]
    ensures var data' := data[c[|c| - 1] := block];
            && HasBlocks(data', bs, c)
            && Flatten(data', bs, c) == Flatten(data, bs, c[..|c| - 1]) + block
  {
    var data' := data[c[|c| - 1] := block];
    FlattenFrame(data, data', bs, c[..|c| - 1]);
  }

  /** Bytes `lo..hi` of the `j`th block sit at `j * bs + lo` of the whole. */
  lemma {:induction false} FlattenSlice(data: seq<seq<Byte>>, bs: nat, c: seq<nat>, j: nat, lo: nat, hi: nat)
    requires HasBlocks(data, bs, c) && j < |c| && lo <= hi <= bs
    ensures j * bs + hi <= |c| * bs
    ensures Flatten(data, bs, c)[j * bs + lo..j * bs + hi] == data[c[j]][lo..hi]
  {
    var front := c[..|c| - 1];
    assert (|c| - 1) * bs + bs == |c| * bs;
    if j < |c| - 1 {
      FlattenSlice(data, bs, front, j, lo, hi);
      assert Flatten(data, bs, c)[j * bs + lo..j * bs + hi]
          == Flatten(data, bs, front)[j * bs + lo..j * bs + hi];
    }
  }

  /** Rewriting one block of a chain without repeats leaves the other ones. */
  lemma {:induction false} FlattenReplace(data: seq<seq<Byte>>, bs: nat, c: seq<nat>, k: nat, block: seq<Byte>)
    requires HasBlocks(data, bs, c) && k < |c| && |block| == bs
    requires forall i, j :: 0 <= i < j < |c| ==> c[i] != c[j]
    ensures HasBlocks(data[c[k] := block], bs, c) && k * bs + bs <= |c| * bs
    ensures var f := Flatten(data, bs, c);
            Flatten(data[c[k] := block], bs, c) == f[..k * bs] + block + f[k * bs + bs..]
  {
    var data' := data[c[k] := block];
    var n := |c| - 1;
    var front := c[..n];
    MulMonotone(k, |c|, bs);
    assert n * bs + bs == |c| * bs;
    if k == n {
      FlattenLast(data, bs, c, block);
    } else {
      FlattenReplace(data, bs, front, k, block);
      assert data'[c[n]] == data[c[n]];
      MulMonotone(k, n, bs);
      InFront(Flatten(data, bs, front), data[c[n]], k * bs, k * bs + bs);
    }
  }

  lemma InFront(front: seq<Byte>, last: seq<Byte>, lo: nat, hi: nat)
    requires lo <= hi <= |front|
    ensures (front + last)[..lo] == front[..lo] && (front + last)[hi..] == front[hi..] + last
  {
  }

  /** The same for a piece of a block. */
  lemma FlattenPiece(data: seq<seq<Byte>>, bs: nat, c: seq<nat>, k: nat, at: nat, piece: seq<Byte>)
    requires HasBlocks(data, bs, c) && k < |c| && at + |piece| <= bs
    requires forall i, j :: 0 <= i < j < |c| ==> c[i] != c[j]
    ensures c[k] < |data| && |data[c[k]]| == bs && k * bs + bs <= |c| * bs
    ensures var f, p := Flatten(data, bs, c), k * bs + at;
            var data' := data[c[k] := data[c[k]][..at] + piece + data[c[k]][at + |piece|..]];
            HasBlocks(data', bs, c) && Flatten(data', bs, c) == f[..p] + piece + f[p + |piece|..]
  {
    var block, f := data[c[k]], Flatten(data, bs, c);
    FlattenSlice(data, bs, c, k, 0, bs);
    hide Flatten;
    FlattenReplace(data, bs, c, k, block[..at] + piece + block[at + |piece|..]);
    PieceOf(f, block, k * bs, at, piece);
  }

  lemma PieceOf(f: seq<Byte>, block: seq<Byte>, p: nat, at: nat, piece: seq<Byte>)
    requires p + |block| <= |f| && f[p..p + |block|] == block && at + |piece| <= |block|
    ensures f[..p] + (block[..at] + piece + block[at + |piece|..]) + f[p + |block|..] ==
            f[..p + at] + piece + f[p + at + |piece|..]
  {
    assert block[..at] == f[p..p + at] && block[at + |piece|..] == f[p + at + |piece|..p + |block|];
    assert f[..p] + f[p..p + at] == f[..p + at];
    assert f[p + at + |piece|..p + |block|] + f[p + |block|..] == f[p + at + |piece|..];
  }
}
