/** Fixed-width little-endian integers, as the image stores them. */
module Words {

  type Byte = x: nat | x < 0x100
  type U16 = x: nat | x < 0x1_0000
  type U32 = x: nat | x < 0x1_0000_0000
  type Int32 = x: int | -0x8000_0000 <= x < 0x8000_0000
  type U64 = x: nat | x < 0x1_0000_0000_0000_0000

  /** The number of values a field of `width` bytes can hold. */
  function Range(width: nat): (r: nat)
    ensures r > 0
  {
    if width == 0 then 1 else 256 * Range(width - 1)
  }

  function ToBytes(n: nat, width: nat): (s: seq<Byte>)
    ensures |s| == width
  {
    if width == 0 then [] else [n % 256] + ToBytes(n / 256, width - 1)
  }

  function FromBytes(s: seq<Byte>): nat
  {
    if s == [] then 0 else s[0] + 256 * FromBytes(s[1..])
  }

  lemma {:induction false} BytesRoundTrip(n: nat, width: nat)
    requires n < Range(width)
    ensures FromBytes(ToBytes(n, width)) == n
  {
    if width > 0 {
      BytesRoundTrip(n / 256, width - 1);
      assert ToBytes(n, width)[1..] == ToBytes(n / 256, width - 1);
    }
  }

  lemma {:induction false} FromBytesBound(s: seq<Byte>)
    ensures FromBytes(s) < Range(|s|)
  {
    if s != [] {
      FromBytesBound(s[1..]);
    }
  }

  /** Little-endian: byte `i` counts 256 to the power of `i`. */
  lemma {:induction false} ByteAt(n: nat, width: nat, i: nat)
    requires i < width
    ensures ToBytes(n, width)[i] == n / Range(i) % 256
  {
    if i > 0 {
      ByteAt(n / 256, width - 1, i - 1);
      DivTwice(n, Range(i - 1));
    }
  }

  lemma DivTwice(n: nat, m: nat)
    requires m > 0
    ensures n / 256 / m == n / (256 * m)
  {
    var q, r := n / 256, n % 256;
    var a, b := q / m, q % m;
    assert n == 256 * (a * m + b) + r;
    assert 256 * (a * m + b) + r == a * (256 * m) + (256 * b + r);
    assert 256 * b + r < 256 * m;
    QuotientIs(n, a, 256 * b + r, 256 * m);
  }

  lemma QuotientIs(n: nat, q: nat, r: nat, d: nat)
    requires d > 0 && n == q * d + r && r < d
    ensures n / d == q
  {
    var p := n / d;
    assert n == p * d + n % d;
    if p < q {
      NextMultiple(p, q, d);
    } else if p > q {
      NextMultiple(q, p, d);
    }
  }

  lemma NextMultiple(p: nat, q: nat, d: nat)
    requires p < q
    ensures p * d + d <= q * d
  {
    assert (q - p - 1) * d >= 0;
    assert q * d == p * d + d + (q - p - 1) * d;
  }

  lemma RangeValues()
    ensures Range(2) == 0x1_0000 && Range(4) == 0x1_0000_0000 && Range(8) == 0x1_0000_0000_0000_0000
  {
  }

  function Zeros(n: nat): (s: seq<Byte>)
    ensures |s| == n && forall i :: 0 <= i < n ==> s[i] == 0
  {
    seq(n, _ => 0)
  }
}

/**
 The 64-byte directory entries of PennFAT, their layout inside a block, and the C
 strings they hold.
 */
module DirectoryEntries {
  import opened Words

  const ENTRY_SIZE := 64
  const MAX_FILENAME_SIZE := 31

  datatype RawEntry = RawEntry(
    name: seq<Byte>,
    size: U32,
    firstBlock: U16,
    kind: Byte,
    perm: Byte,
    mtime: U64,
    padding: seq<Byte>)

  type Entry = e: RawEntry | |e.name| == 32 && |e.padding| == 16
    witness RawEntry(Zeros(32), 0, 0, 0, 0, 0, Zeros(16))

  function Encode(e: Entry): (s: seq<Byte>)
    ensures |s| == ENTRY_SIZE
  {
    e.name + ToBytes(e.size, 4) + ToBytes(e.firstBlock, 2) + [e.kind] + [e.perm]
    + ToBytes(e.mtime, 8) + e.padding
  }

  function Decode(s: seq<Byte>): (e: Entry)
    requires |s| == ENTRY_SIZE
    ensures e.name == s[..32]
  {
    RangeValues();
    FromBytesBound(s[32..36]);
    FromBytesBound(s[36..38]);
    FromBytesBound(s[40..48]);
    RawEntry(s[..32], FromBytes(s[32..36]), FromBytes(s[36..38]), s[38], s[39],
             FromBytes(s[40..48]), s[48..])
  }

  /** What is written into a slot of the directory is read back from it. */
  lemma EntryRoundTrip(e: Entry)
    ensures Decode(Encode(e)) == e
  {
    var s := Encode(e);
    RangeValues();
    BytesRoundTrip(e.size, 4);
    BytesRoundTrip(e.firstBlock, 2);
    BytesRoundTrip(e.mtime, 8);
    assert s[..32] == e.name;
    assert s[32..36] == ToBytes(e.size, 4);
    assert s[36..38] == ToBytes(e.firstBlock, 2);
    assert s[40..48] == ToBytes(e.mtime, 8);
    assert s[48..] == e.padding;
  }

  /** Where each field lies in the 64 bytes. */
  lemma EntryLayout(e: Entry, i: nat)
    ensures var s := Encode(e);
            && s[..32] == e.name && s[38] == e.kind && s[39] == e.perm && s[48..64] == e.padding
            && (i < 4 ==> s[32 + i] == e.size / Range(i) % 256)
            && (i < 2 ==> s[36 + i] == e.firstBlock / Range(i) % 256)
            && (i < 8 ==> s[40 + i] == e.mtime / Range(i) % 256)
  {
    hide Range, ToBytes;
    var s := Encode(e);
    assert s[..32] == e.name && s[48..64] == e.padding;
    assert s[32..36] == ToBytes(e.size, 4) && s[36..38] == ToBytes(e.firstBlock, 2) && s[40..48] == ToBytes(e.mtime, 8);
    if i < 8 {
      ByteAt(e.mtime, 8, i);
    }
    if i < 4 {
      ByteAt(e.size, 4, i);
    }
    if i < 2 {
      ByteAt(e.firstBlock, 2, i);
    }
  }

  /** `dir_entry_buf[i]` */
  function EntryAt(block: seq<Byte>, i: nat): (e: Entry)
    requires 64 * i + 64 <= |block|
    ensures e.name == block[64 * i..64 * i + 32]
  {
    assert block[64 * i..64 * i + 64][..32] == block[64 * i..64 * i + 32];
    Decode(block[64 * i..64 * i + 64])
  }

  /** `dir_entry_buf[i] = e` */
  function PutEntry(block: seq<Byte>, i: nat, e: Entry): (b: seq<Byte>)
    requires 64 * i + 64 <= |block|
    ensures |b| == |block|
  {
    block[..64 * i] + Encode(e) + block[64 * i + 64..]
  }

  /** Storing one slot of a block changes that slot only. */
  lemma PutEntryAt(block: seq<Byte>, i: nat, e: Entry, j: nat)
    requires 64 * i + 64 <= |block| && 64 * j + 64 <= |block|
    ensures EntryAt(PutEntry(block, i, e), j) == if i == j then e else EntryAt(block, j)
  {
    var b := PutEntry(block, i, e);
    if i == j {
      assert b[64 * j..64 * j + 64] == Encode(e);
      EntryRoundTrip(e);
    } else {
      assert b[64 * j..64 * j + 64] == block[64 * j..64 * j + 64];
    }
  }

  // ---- C strings ----

  type CString = s: seq<Byte> | 0 !in s

  /** The string that `strcmp` sees in a character array. */
  function StringOf(name: seq<Byte>): (s: CString)
    ensures |s| <= |name| && s == name[..|s|]
    ensures |s| < |name| ==> name[|s|] == 0
  {
    if name == [] || name[0] == 0 then [] else
      var rest := StringOf(name[1..]);
      assert ([name[0]] + rest) == name[..1 + |rest|];
      [name[0]] + rest
  }

  /** `strcpy`: the string and its terminator; what lies behind them stays. */
  function StrCpy(name: seq<Byte>, s: CString): (r: seq<Byte>)
    requires |s| < |name|
    ensures |r| == |name|
  {
    s + [0] + name[|s| + 1..]
  }

  lemma {:induction false} StringOfPrefix(name: seq<Byte>, s: CString)
    requires |s| < |name| && name[..|s|] == s && name[|s|] == 0
    ensures StringOf(name) == s
  {
  }

  /**
   A copied name reads as itself, and if it is valid its field shows none of the marks; what lay behind its
   end stays.
   */
  lemma StrCpyReadsBack(name: seq<Byte>, s: CString)
    requires |s| < |name|
    ensures StringOf(StrCpy(name, s)) == s
    ensures StrCpy(name, s)[|s|] == 0 && forall i :: |s| < i < |name| ==> StrCpy(name, s)[i] == name[i]
    ensures IsValidFilename(s) ==> StrCpy(name, s)[0] > DELETED_BUT_OPEN
  {
    StringOfPrefix(StrCpy(name, s), s);
  }

  predicate InFilenameCharset(c: Byte)
  {
    'a' as int <= c <= 'z' as int || 'A' as int <= c <= 'Z' as int || '0' as int <= c <= '9' as int
    || c == '.' as int || c == '_' as int || c == '-' as int
  }

  /** `is_valid_filename`: one to 31 characters of the POSIX portable filename set. */
  predicate IsValidFilename(s: CString)
  {
    1 <= |s| <= MAX_FILENAME_SIZE && forall i :: 0 <= i < |s| ==> InFilenameCharset(s[i])
  }

  /** The character numbers of names: digits, letters, hyphen, dot and underscore; from 1 to 31 of them. */
  lemma FilenamesAre(s: CString)
    ensures IsValidFilename(s) <==>
            0 < |s| < 32 && forall i :: 0 <= i < |s| ==>
              48 <= s[i] < 58 || 65 <= s[i] < 91 || 97 <= s[i] < 123 || s[i] in {45, 46, 95}
  {
  }

  // ---- the marks that the first byte of a name carries ----

  const END_OF_DIRECTORY: Byte := 0
  const DELETED: Byte := 1
  const DELETED_BUT_OPEN: Byte := 2

  function Mark(e: Entry): Byte { e.name[0] }

  /** A name the directory shows. */
  predicate IsLive(e: Entry) { Mark(e) > DELETED_BUT_OPEN }

  /** An entry that still owns the blocks of its file. */
  predicate IsOwning(e: Entry) { Mark(e) >= DELETED_BUT_OPEN }

  predicate IsNamed(e: Entry, s: CString) { StringOf(e.name) == s }
}
