/**
 Any interleaving of reads and appends by any number of processes. Their descriptors may share the
 entries of the global table; every one has its own offset.
 */
module StreamRuns {
  import opened Options
  import opened Words
  import opened DirectoryEntries
  import opened FatChains
  import opened BlockContents
  import opened Volume
  import opened VolumeSteps
  import opened Writing
  import opened PennFat
  import opened Streams

  /** A call of process number `p` through its descriptor `fd`. */
  datatype Call =
    | ReadFrom(p: nat, fd: nat, n: int)
    | AppendTo(p: nat, fd: nat, bytes: seq<Byte>)

  /** The descriptors of all processes, and what the open files hold. */
  datatype State = State(tables: seq<seq<ProcessFd>>, texts: map<int, seq<Byte>>)

  // ---- what the calls do ----

  ghost predicate HasFd(tables: seq<seq<ProcessFd>>, p: int, fd: int)
  {
    0 <= p < |tables| && 0 <= fd < |tables[p]|
  }

  /** The offset of one descriptor moves on by `k`, and nothing else happens. */
  ghost predicate IsAdvanced(tables: seq<seq<ProcessFd>>, tables': seq<seq<ProcessFd>>, p: nat, fd: nat, k: nat)
  {
    && HasFd(tables, p, fd) && HasFd(tables', p, fd)
    && tables' == tables[p := tables[p][fd := tables'[p][fd]]]
    && tables'[p][fd] == tables[p][fd].(offset := tables'[p][fd].offset)
    && tables'[p][fd].offset == tables[p][fd].offset + k
  }

  ghost predicate Leads(st: State, c: Call, r: nat, buf: seq<Byte>, st': State)
  {
    && IsAdvanced(st.tables, st'.tables, c.p, c.fd, r)
    && var x := st.tables[c.p][c.fd];
       && x.globalFd in st.texts
       && match c
          case ReadFrom(_, _, n) =>
            r == |buf| && buf == ReadSlice(st.texts[x.globalFd], x.offset, n) && st'.texts == st.texts
          case AppendTo(_, _, bytes) =>
            && r <= |bytes| && buf == []
            && st'.texts == st.texts[x.globalFd := st.texts[x.globalFd] + bytes[..r]]
  }

  ghost predicate IsStreamRun(trace: seq<State>, calls: seq<Call>, results: seq<(nat, seq<Byte>)>)
  {
    && |trace| == |results| + 1 && |results| <= |calls|
    && forall i :: 0 <= i < |results| ==> Leads(trace[i], calls[i], results[i].0, results[i].1, trace[i + 1])
  }

  // ---- what follows ----

  lemma {:induction false} FdKept(trace: seq<State>, calls: seq<Call>, results: seq<(nat, seq<Byte>)>, p: nat, fd: nat,
                                  i: nat)
    requires IsStreamRun(trace, calls, results) && i < |trace| && HasFd(trace[0].tables, p, fd)
    ensures HasFd(trace[i].tables, p, fd)
    ensures var x, y := trace[0].tables[p][fd], trace[i].tables[p][fd]; y == x.(offset := y.offset)
  {
    if i > 0 {
      FdKept(trace, calls, results, p, fd, i - 1);
      assert Leads(trace[i - 1], calls[i - 1], results[i - 1].0, results[i - 1].1, trace[i]);
    }
  }

  /** The call goes to the file that is open as `g`. */
  ghost predicate GoesTo(tables: seq<seq<ProcessFd>>, c: Call, g: int)
  {
    HasFd(tables, c.p, c.fd) && tables[c.p][c.fd].globalFd == g
  }

  /** What the appends to `g` stored, one after the other, whoever made them. */
  ghost function Stored(tables: seq<seq<ProcessFd>>, calls: seq<Call>, results: seq<(nat, seq<Byte>)>,
                        g: int): seq<Byte>
    requires |results| <= |calls|
    decreases |results|
  {
    if results == [] then []
    else
      var n := |results| - 1;
      Stored(tables, calls, results[..n], g) +
      if calls[n].AppendTo? && GoesTo(tables, calls[n], g) && results[n].0 <= |calls[n].bytes|
      then calls[n].bytes[..results[n].0] else []
  }

  /** What the reads of `p` through `fd` returned, one after the other. */
  ghost function Got(calls: seq<Call>, results: seq<(nat, seq<Byte>)>, p: nat, fd: nat): seq<Byte>
    requires |results| <= |calls|
    decreases |results|
  {
    if results == [] then []
    else
      var n := |results| - 1;
      Got(calls, results[..n], p, fd) +
      if calls[n].ReadFrom? && calls[n].p == p && calls[n].fd == fd then results[n].1 else []
  }

  /**
   In every interleaving an open file grows by what was stored through any descriptor of any
   process, in the order of the calls, and nothing is lost or overwritten.
   */
  lemma {:induction false} AppendsFollow(trace: seq<State>, calls: seq<Call>, results: seq<(nat, seq<Byte>)>, g: int)
    requires IsStreamRun(trace, calls, results) && g in trace[0].texts
    ensures var n := |results|;
            && g in trace[n].texts
            && trace[n].texts[g] == trace[0].texts[g] + Stored(trace[0].tables, calls, results, g)
    decreases |results|
  {
    if results != [] {
      var n := |results| - 1;
      var c := calls[n];
      AppendsFollow(trace[..n + 1], calls, results[..n], g);
      assert Leads(trace[n], c, results[n].0, results[n].1, trace[n + 1]);
      SameShape(trace, calls, results, n);
      FdKept(trace, calls, results, c.p, c.fd, n);
    }
  }

  lemma {:induction false} SameShape(trace: seq<State>, calls: seq<Call>, results: seq<(nat, seq<Byte>)>, i: nat)
    requires IsStreamRun(trace, calls, results) && i < |trace|
    ensures forall p, fd :: HasFd(trace[0].tables, p, fd) <==> HasFd(trace[i].tables, p, fd)
  {
    if i > 0 {
      SameShape(trace, calls, results, i - 1);
      assert Leads(trace[i - 1], calls[i - 1], results[i - 1].0, results[i - 1].1, trace[i]);
    }
  }

  /**
   In every interleaving, what a process reads through a descriptor that it does not append
   through is the contiguous piece of the file, as it is in the end, between its old offset and
   its new one, whatever happens in between through other descriptors.
   */
  lemma {:induction false} ReaderStreams(trace: seq<State>, calls: seq<Call>, results: seq<(nat, seq<Byte>)>, p: nat,
                                         fd: nat)
    requires IsStreamRun(trace, calls, results) && HasFd(trace[0].tables, p, fd)
    requires trace[0].tables[p][fd].globalFd in trace[0].texts
    requires forall i :: 0 <= i < |results| && calls[i].AppendTo? ==> calls[i].p != p || calls[i].fd != fd
    ensures HasFd(trace[|results|].tables, p, fd)
    ensures var x, y := trace[0].tables[p][fd], trace[|results|].tables[p][fd];
            && y == x.(offset := y.offset) && y.globalFd in trace[|results|].texts
            && IsPiece(trace[|results|].texts[y.globalFd], x.offset, y.offset, Got(calls, results, p, fd))
    decreases |results|
  {
    hide IsPiece, ReadSlice;
    if results == [] {
      NoPiece(trace[0].texts[trace[0].tables[p][fd].globalFd], trace[0].tables[p][fd].offset);
    } else {
      var n := |results| - 1;
      ReaderStreams(trace[..n + 1], calls, results[..n], p, fd);
      var c, st := calls[n], trace[n];
      assert Leads(st, c, results[n].0, results[n].1, trace[n + 1]);
      var x, y, g := trace[0].tables[p][fd], st.tables[p][fd], st.tables[p][fd].globalFd;
      assert c.p != p || c.fd != fd ==> trace[n + 1].tables[p][fd] == y;
      if c.AppendTo? {
        assert Got(calls, results, p, fd) == Got(calls, results[..n], p, fd);
        PieceOfMore(st.texts[g], trace[n + 1].texts[g], x.offset, y.offset, Got(calls, results[..n], p, fd));
      } else if c.p == p && c.fd == fd {
        PieceReadOn(st.texts[g], x.offset, y.offset, Got(calls, results[..n], p, fd), c.n);
      } else {
        assert Got(calls, results, p, fd) == Got(calls, results[..n], p, fd);
      }
    }
  }

  /** `bytes` is what a text holds between two offsets; the same offset twice may lie behind the text. */
  ghost predicate IsPiece(text: seq<Byte>, from: nat, to: nat, bytes: seq<Byte>)
  {
    if from == to then bytes == [] else from <= to <= |text| && bytes == text[from..to]
  }

  lemma NoPiece(text: seq<Byte>, from: nat)
    ensures IsPiece(text, from, from, [])
  {
  }

  lemma PieceOfMore(text: seq<Byte>, text': seq<Byte>, from: nat, to: nat, bytes: seq<Byte>)
    requires IsPiece(text, from, to, bytes) && text <= text'
    ensures IsPiece(text', from, to, bytes)
  {
  }

  lemma PieceReadOn(text: seq<Byte>, from: nat, to: nat, bytes: seq<Byte>, n: int)
    requires IsPiece(text, from, to, bytes)
    ensures IsPiece(text, from, to + |ReadSlice(text, to, n)|, bytes + ReadSlice(text, to, n))
  {
  }

  // ---- the calls of the processes ----

  ghost function Tables(ps: seq<Process>): set<object>
  {
    set p | p in ps :: p.table
  }

  /** Every process has a table of its own. */
  ghost predicate AreSeparate(ps: seq<Process>)
  {
    && (forall i :: 0 <= i < |ps| ==> ps[i].table.Length == PROCESS_FD_TABLE_SIZE)
    && (forall i, j :: 0 <= i < j < |ps| ==> ps[i].table != ps[j].table)
  }

  ghost function TablesOf(ps: seq<Process>): (tables: seq<seq<ProcessFd>>)
    reads Tables(ps)
    ensures |tables| == |ps| && forall i :: 0 <= i < |ps| ==> tables[i] == ps[i].table[..]
  {
    if ps == [] then [] else TablesOf(ps[..|ps| - 1]) + [ps[|ps| - 1].table[..]]
  }

  ghost function TextsOf(d: Disk, lay: Layout, fds: seq<FdEntry>): map<int, seq<Byte>>
  {
    map g | 0 <= g < |fds| && IsOpen(fds, g) :: FileBytes(d, lay, fds[g].slot)
  }

  ghost function StateOf(fs: FileSystem, ps: seq<Process>): State
    reads Tables(ps), fs, fs.fat, fs.data, fs.fds
  {
    State(TablesOf(ps), TextsOf(fs.D(), fs.lay, fs.fds[..]))
  }

  /** How many bytes are to be appended. */
  ghost function Total(calls: seq<Call>): nat
  {
    if calls == [] then 0 else (if calls[0].AppendTo? then |calls[0].bytes| else 0) + Total(calls[1..])
  }

  /** The file that the descriptor is open on may be read. */
  ghost predicate CanRead(x: ProcessFd, fds: seq<FdEntry>)
  {
    && x.inUse && IsOpen(fds, x.globalFd) && x.offset < 0x8000_0000
    && fds[x.globalFd].entry.Some? && fds[x.globalFd].entry.value.perm >= 4
  }

  /** It may be written too, the descriptor is in append mode, and `n` more bytes keep sizes and offsets in range. */
  ghost predicate CanAppend(x: ProcessFd, fds: seq<FdEntry>, n: nat)
  {
    && CanRead(x, fds) && x.mode == Append && fds[x.globalFd].entry.value.perm >= 5
    && fds[x.globalFd].entry.value.size + n < 0x8000_0000 && x.offset + n < 0x8000_0000
  }

  ghost predicate IsReady(tables: seq<seq<ProcessFd>>, fds: seq<FdEntry>, c: Call, n: nat)
  {
    && HasFd(tables, c.p, c.fd)
    && if c.ReadFrom? then CanRead(tables[c.p][c.fd], fds) else CanAppend(tables[c.p][c.fd], fds, n)
  }

  /** The calls from the `i`-th on can be made. */
  ghost predicate AreReady(tables: seq<seq<ProcessFd>>, fds: seq<FdEntry>, calls: seq<Call>, i: nat)
    requires i <= |calls|
  {
    forall j :: i <= j < |calls| ==> IsReady(tables, fds, calls[j], Total(calls[i..]))
  }

  /** The same files are open with the same permissions, and that of `g` has grown by `k` bytes. */
  ghost predicate HasGrown(fds: seq<FdEntry>, fds': seq<FdEntry>, g: int, k: nat)
  {
    && (forall h :: IsOpen(fds', h) <==> IsOpen(fds, h))
    && forall h :: IsOpen(fds, h) && fds[h].entry.Some? ==>
         && fds'[h].entry.Some? && fds'[h].entry.value.perm == fds[h].entry.value.perm
         && fds'[h].entry.value.size == fds[h].entry.value.size + if h == g then k else 0
  }

  /** One call leaves the others ready: offsets move on by what was read or stored only. */
  lemma OthersReady(tables: seq<seq<ProcessFd>>, fds: seq<FdEntry>, tables': seq<seq<ProcessFd>>, fds': seq<FdEntry>,
                    c: Call, e: Call, k: nat, n: nat)
    requires IsReady(tables, fds, c, n) && IsReady(tables, fds, e, n) && IsAdvanced(tables, tables', c.p, c.fd, k)
    requires var g := tables[c.p][c.fd].globalFd; HasGrown(fds, fds', g, if c.AppendTo? then k else 0)
    requires if c.AppendTo? then k <= |c.bytes| <= n
             else k == 0 || tables'[c.p][c.fd].offset <= fds[tables[c.p][c.fd].globalFd].entry.value.size
    requires forall g :: IsOpen(fds, g) && fds[g].entry.Some? ==> fds[g].entry.value.size < 0x8000_0000
    ensures IsReady(tables', fds', e, n - if c.AppendTo? then |c.bytes| else 0)
  {
  }

  lemma OpenSizes(d: Disk, lay: Layout, fds: seq<FdEntry>, g: int)
    requires VolumeOk(d, lay) && TableOk(d, lay, fds) && IsOpen(fds, g)
    ensures fds[g].entry.Some? && fds[g].entry.value.size < 0x8000_0000
    ensures |FileBytes(d, lay, fds[g].slot)| == fds[g].entry.value.size
  {
    hide VolumeOk, TableOk, EntryOf, FileBytes, BlocksFor;
    BlockSizeOf(d, lay);
    OpenFile(d, lay, fds, g);
    FileSize(d, lay, fds[g].slot);
    SizeInRange(d, lay, fds[g].slot);
    BlocksForBounds(fds[g].entry.value.size, d.bs);
    SmallProduct(BlocksFor(fds[g].entry.value.size, d.bs), d.bs);
  }

  lemma SmallProduct(n: nat, bs: nat)
    requires n <= 0xFFFE && bs <= 4096
    ensures n * bs <= 0xFFFE * 4096
  {
    assert n * bs <= n * 4096;
  }

  /** The same files, with other offsets and modes. */
  lemma SameTexts(d: Disk, lay: Layout, fds: seq<FdEntry>, fds': seq<FdEntry>)
    requires |fds'| == |fds| && forall g :: 0 <= g < |fds| ==>
               fds'[g] == fds[g].(offset := fds'[g].offset, mode := fds'[g].mode)
    ensures TextsOf(d, lay, fds') == TextsOf(d, lay, fds)
    ensures forall g: nat :: HasGrown(fds, fds', g, 0)
  {
    hide FileBytes;
    assert forall g :: IsOpen(fds', g) <==> IsOpen(fds, g);
  }

  /** The file of one entry has grown, and all others are as before. */
  lemma OneText(d: Disk, lay: Layout, fds: seq<FdEntry>, d': Disk, lay': Layout, fds': seq<FdEntry>, g: int)
    requires TableOk(d, lay, fds) && IsOpen(fds, g) && OthersKept(d, lay, d', lay', fds[g].slot)
    requires |fds'| == |fds| && fds' == fds[g := fds'[g]] && fds'[g].slot == fds[g].slot && fds'[g].refs == fds[g].refs
    ensures TextsOf(d', lay', fds') == TextsOf(d, lay, fds)[g := FileBytes(d', lay', fds[g].slot)]
  {
    hide TableOk, OthersKept, FileBytes;
    OnlyOpen(d, lay, fds, g);
    OpenBytesKept(d, lay, fds, d', lay', fds[g].slot);
    forall h
      ensures IsOpen(fds', h) <==> IsOpen(fds, h)
      ensures IsOpen(fds, h) && h != g ==>
                FileBytes(d', lay', fds'[h].slot) == FileBytes(d, lay, fds[h].slot)
    {
    }
  }

  lemma OnlyOpen(d: Disk, lay: Layout, fds: seq<FdEntry>, g: int)
    requires TableOk(d, lay, fds) && IsOpen(fds, g)
    ensures forall h :: IsOpen(fds, h) && fds[h].slot == fds[g].slot ==> h == g
  {
  }

  lemma OneTable(tables: seq<seq<ProcessFd>>, tables': seq<seq<ProcessFd>>, p: nat, fd: nat, k: nat)
    requires HasFd(tables, p, fd) && |tables'| == |tables| && |tables'[p]| == |tables[p]|
    requires forall i :: 0 <= i < |tables| && i != p ==> tables'[i] == tables[i]
    requires tables'[p] == tables[p][fd := tables'[p][fd]]
    requires tables'[p][fd] == tables[p][fd].(offset := tables'[p][fd].offset)
    requires tables'[p][fd].offset == tables[p][fd].offset + k
    ensures IsAdvanced(tables, tables', p, fd, k)
  {
  }

  method PerformRead(fs: FileSystem, ps: seq<Process>, c: Call) returns (r: nat, buf: seq<Byte>)
    requires fs.Valid() && AreSeparate(ps) && c.ReadFrom? && IsReady(TablesOf(ps), fs.fds[..], c, 0)
    modifies Tables(ps), fs.fds
    ensures fs.Valid() && Leads(old(StateOf(fs, ps)), c, r, buf, StateOf(fs, ps))
    ensures var x := old(TablesOf(ps))[c.p][c.fd];
            && HasGrown(old(fs.fds[..]), fs.fds[..], x.globalFd, 0)
            && (r > 0 ==> x.offset + r <= old(fs.fds[..])[x.globalFd].entry.value.size)
  {
    hide VolumeOk, TableOk, FileBytes, HasGrown;
    ghost var d, l, t, tables := fs.D(), fs.lay, fs.fds[..], TablesOf(ps);
    var process := ps[c.p];
    OpenSizes(d, l, t, process.table[c.fd].globalFd);
    r, buf := process.SRead(fs, c.fd, c.n);
    SameTexts(d, l, t, fs.fds[..]);
    OneTable(tables, TablesOf(ps), c.p, c.fd, r);
  }

  method PerformAppend(fs: FileSystem, ps: seq<Process>, c: Call, now: U64) returns (r: nat, overrun: bool)
    requires fs.Valid() && AreSeparate(ps) && c.AppendTo? && IsReady(TablesOf(ps), fs.fds[..], c, |c.bytes|)
    modifies Tables(ps), fs`lay, fs.fat, fs.data, fs.fds
    ensures overrun ==> !ScanStaysInside(fs.fat.Length)
    ensures !overrun ==> fs.Valid() && Leads(old(StateOf(fs, ps)), c, r, [], StateOf(fs, ps))
    ensures !overrun ==> HasGrown(old(fs.fds[..]), fs.fds[..], old(TablesOf(ps))[c.p][c.fd].globalFd, r)
  {
    hide VolumeOk, TableOk, FileBytes, OthersKept, ScanStaysInside, TextsOf;
    ghost var d, l, t, tables := fs.D(), fs.lay, fs.fds[..], TablesOf(ps);
    var process := ps[c.p];
    ghost var g := process.table[c.fd].globalFd;
    TextOfOpen(d, l, t, g);
    r, overrun := process.AppendOne(fs, c.fd, c.bytes, now);
    if !overrun {
      OneText(d, l, t, fs.D(), fs.lay, fs.fds[..], g);
      OneTable(tables, TablesOf(ps), c.p, c.fd, r);
    }
  }

  lemma TextOfOpen(d: Disk, lay: Layout, fds: seq<FdEntry>, g: int)
    requires IsOpen(fds, g)
    ensures g in TextsOf(d, lay, fds) && TextsOf(d, lay, fds)[g] == FileBytes(d, lay, fds[g].slot)
  {
  }

  method PerformOne(fs: FileSystem, ps: seq<Process>, c: Call, now: U64)
    returns (r: nat, buf: seq<Byte>, overrun: bool)
    requires fs.Valid() && AreSeparate(ps)
    requires IsReady(TablesOf(ps), fs.fds[..], c, if c.AppendTo? then |c.bytes| else 0)
    modifies Tables(ps), fs`lay, fs.fat, fs.data, fs.fds
    ensures overrun ==> c.AppendTo? && !ScanStaysInside(fs.fat.Length)
    ensures !overrun ==> fs.Valid() && Leads(old(StateOf(fs, ps)), c, r, buf, StateOf(fs, ps))
    ensures !overrun ==>
              var x := old(TablesOf(ps))[c.p][c.fd];
              && HasGrown(old(fs.fds[..]), fs.fds[..], x.globalFd, if c.AppendTo? then r else 0)
              && (c.ReadFrom? && r > 0 ==> x.offset + r <= old(fs.fds[..])[x.globalFd].entry.value.size)
  {
    hide VolumeOk, TableOk, FileBytes, HasGrown, Leads, TextsOf, TablesOf, ScanStaysInside;
    buf, overrun := [], false;
    if c.ReadFrom? {
      r, buf := PerformRead(fs, ps, c);
    } else {
      r, overrun := PerformAppend(fs, ps, c, now);
    }
  }

  lemma TotalStep(calls: seq<Call>, i: nat)
    requires i < |calls|
    ensures Total(calls[i..]) == (if calls[i].AppendTo? then |calls[i].bytes| else 0) + Total(calls[i + 1..])
  {
    assert calls[i..][1..] == calls[i + 1..];
  }

  lemma StillReady(tables: seq<seq<ProcessFd>>, fds: seq<FdEntry>, tables': seq<seq<ProcessFd>>, fds': seq<FdEntry>,
                   calls: seq<Call>, i: nat, k: nat)
    requires i < |calls| && AreReady(tables, fds, calls, i)
    requires var c := calls[i];
             && IsAdvanced(tables, tables', c.p, c.fd, k) && (c.AppendTo? ==> k <= |c.bytes|)
             && var g := tables[c.p][c.fd].globalFd;
                && HasGrown(fds, fds', g, if c.AppendTo? then k else 0) && IsOpen(fds, g) && fds[g].entry.Some?
                && (c.ReadFrom? && k > 0 ==> tables'[c.p][c.fd].offset <= fds[g].entry.value.size)
    requires forall g :: IsOpen(fds, g) && fds[g].entry.Some? ==> fds[g].entry.value.size < 0x8000_0000
    ensures AreReady(tables', fds', calls, i + 1)
  {
    hide IsReady, IsAdvanced, HasGrown;
    TotalStep(calls, i);
    forall j | i + 1 <= j < |calls|
      ensures IsReady(tables', fds', calls[j], Total(calls[i + 1..]))
    {
      OthersReady(tables, fds, tables', fds', calls[i], calls[j], k, Total(calls[i..]));
    }
  }

  /**
   The calls, one after the other, as the processes make them in this order: their results, and how
   the descriptors and the open files change. They end early only if an append finds the volume
   full and leaves the table of blocks in its search.
   */
  method Perform(fs: FileSystem, ps: seq<Process>, calls: seq<Call>, now: U64)
    returns (results: seq<(nat, seq<Byte>)>, overrun: bool, ghost trace: seq<State>)
    requires fs.Valid() && AreSeparate(ps) && AreReady(TablesOf(ps), fs.fds[..], calls, 0)
    modifies Tables(ps), fs`lay, fs.fat, fs.data, fs.fds
    ensures IsStreamRun(trace, calls, results) && trace[0] == old(StateOf(fs, ps))
    ensures !overrun ==> fs.Valid() && |results| == |calls| && trace[|results|] == StateOf(fs, ps)
    ensures overrun ==> |results| < |calls| && calls[|results|].AppendTo? && !ScanStaysInside(fs.fat.Length)
  {
    hide VolumeOk, TableOk, FileBytes, Leads, AreReady, HasGrown, TextsOf, TablesOf, ScanStaysInside;
    results, overrun, trace := [], false, [StateOf(fs, ps)];
    var i := 0;
    while i < |calls|
      invariant 0 <= i == |results| <= |calls| && !overrun && IsStreamRun(trace, calls, results)
      invariant trace[0] == old(StateOf(fs, ps)) && trace[i] == StateOf(fs, ps)
      invariant fs.Valid() && AreReady(TablesOf(ps), fs.fds[..], calls, i)
    {
      ghost var tables, t := TablesOf(ps), fs.fds[..];
      FirstReady(tables, t, calls, i);
      forall g | IsOpen(t, g)
        ensures t[g].entry.Some? && t[g].entry.value.size < 0x8000_0000
      {
        OpenSizes(fs.D(), fs.lay, t, g);
      }
      var r, buf;
      r, buf, overrun := PerformOne(fs, ps, calls[i], now);
      if overrun {
        return;
      }
      LeadsOn(trace[i], calls[i], r, buf, StateOf(fs, ps));
      StillReady(tables, t, TablesOf(ps), fs.fds[..], calls, i, r);
      results, trace := results + [(r, buf)], trace + [StateOf(fs, ps)];
      i := i + 1;
    }
  }

  lemma FirstReady(tables: seq<seq<ProcessFd>>, fds: seq<FdEntry>, calls: seq<Call>, i: nat)
    requires i < |calls| && AreReady(tables, fds, calls, i)
    ensures IsReady(tables, fds, calls[i], if calls[i].AppendTo? then |calls[i].bytes| else 0)
  {
    TotalStep(calls, i);
  }

  lemma LeadsOn(st: State, c: Call, r: nat, buf: seq<Byte>, st': State)
    requires Leads(st, c, r, buf, st')
    ensures IsAdvanced(st.tables, st'.tables, c.p, c.fd, r) && (c.AppendTo? ==> r <= |c.bytes|)
  {
  }
}
