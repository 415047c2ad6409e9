/** The two-pass parser of the shell: it checks and counts, then fills memory of exactly that size. */
module ShellParser {
  import opened Options
  import opened ShellGrammar

  // ---- cursors ----

  method SkipWord(s: string, cur: nat) returns (r: nat)
    requires cur <= |s|
    ensures cur <= r <= |s| && r == cur + WordLength(s[cur..])
  {
    r := cur;
    while r < |s| && IsWordChar(s[r])
      invariant cur <= r <= |s| && WordLength(s[cur..]) == r - cur + WordLength(s[r..])
    {
      assert s[r..][1..] == s[r + 1..];
      r := r + 1;
    }
  }

  method SkipSpace(s: string, cur: nat) returns (r: nat)
    requires cur <= |s|
    ensures cur <= r <= |s| && (r < |s| ==> !IsSpace(s[r])) && Tokens(s[r..]) == Tokens(s[cur..])
  {
    r := cur;
    while r < |s| && IsSpace(s[r])
      invariant cur <= r <= |s| && Tokens(s[r..]) == Tokens(s[cur..])
    {
      assert s[r..][1..] == s[r + 1..];
      r := r + 1;
    }
  }

  /** The token at a cursor that is not on a space. */
  lemma TokenAt(s: string, cur: nat)
    requires cur < |s| && !IsSpace(s[cur])
    ensures s[cur] == '<' ==> Tokens(s[cur..]) == [Less] + Tokens(s[cur + 1..])
    ensures s[cur] == '|' ==> Tokens(s[cur..]) == [Bar] + Tokens(s[cur + 1..])
    ensures s[cur] == '&' ==> Tokens(s[cur..]) == [Amp] + Tokens(s[cur + 1..])
    ensures s[cur] == '>' ==>
              if cur + 1 < |s| && s[cur + 1] == '>' then Tokens(s[cur..]) == [GreatGreat] + Tokens(s[cur + 2..])
              else Tokens(s[cur..]) == [Great] + Tokens(s[cur + 1..])
    ensures IsWordChar(s[cur]) ==>
              var n := WordLength(s[cur..]);
              n > 0 && cur + n <= |s| && Tokens(s[cur..]) == [Word(s[cur..cur + n])] + Tokens(s[cur + n..])
  {
    var t := s[cur..];
    assert t[1..] == s[cur + 1..];
    assert |t| > 1 ==> t[2..] == s[cur + 2..];
    var n := WordLength(t);
    assert t[..n] == s[cur..cur + n] && t[n..] == s[cur + n..];
  }

  /** Behind a redirection sign: there is a file name exactly if there is a word. */
  lemma NameAt(s: string, cur: nat)
    requires cur <= |s| && (cur < |s| ==> !IsSpace(s[cur]))
    ensures var n := WordLength(s[cur..]);
            && cur + n <= |s|
            && (n > 0 <==> Tokens(s[cur..]) != [] && Tokens(s[cur..])[0].Word?)
            && (n > 0 ==> Tokens(s[cur..]) == [Word(s[cur..cur + n])] + Tokens(s[cur + n..]))
  {
    if cur < |s| {
      TokenAt(s, cur);
    }
  }

  // ---- the first pass ----

  function ArgCount(stages: seq<seq<string>>): nat
  {
    if stages == [] then 0 else ArgCount(stages[..|stages| - 1]) + |stages[|stages| - 1]|
  }

  /** What the first pass has counted. */
  datatype Counts = Counts(strings: nat, pipes: nat, hasTokenLast: bool, hasInput: bool, hasOutput: bool, append: bool)

  ghost predicate Counted(k: Counts, st: Scan)
  {
    && k.strings == ArgCount(st.stages) + |st.current| && k.pipes == |st.stages|
    && k.hasTokenLast == (st.current != []) && k.hasInput == st.input.Some? && k.hasOutput == st.output.Some?
    && k.append == (st.output.Some? && st.output.value.append)
    && (st.stages != [] ==> ArgCount(st.stages) > 0)
  }

  /** Reading on: what is left at the cursor leads to the same result as the whole line. */
  ghost predicate LeadsTo(s: string, cur: nat, st: Scan, background: bool)
    requires cur <= |s|
  {
    Read(st, Tokens(s[cur..]), background) == Read(START, Tokens(s), background)
  }

  /** A redirection: its name is read, or there is none. */
  method CheckName(s: string, cur: nat) returns (next: nat, ok: bool, ghost name: string)
    requires cur <= |s|
    ensures cur <= next <= |s|
    ensures ok <==> Tokens(s[cur..]) != [] && Tokens(s[cur..])[0].Word?
    ensures ok ==> cur < next && Tokens(s[cur..]) == [Word(name)] + Tokens(s[next..])
  {
    hide Tokens, WordLength;
    var from := SkipSpace(s, cur);
    NameAt(s, from);
    next := SkipWord(s, from);
    ok := next > from;
    name := s[from..next];
  }

  lemma ReadOther(st: Scan, token: Token, rest: seq<Token>, background: bool)
    ensures token.Amp? ==> Read(st, [token] + rest, background) == Err(UNEXPECTED_AMPERSAND)
    ensures token.Bar? ==>
              Read(st, [token] + rest, background) == (if st.output.Some? then Err(UNEXPECTED_FILE_OUTPUT)
                                                       else if st.current == [] then Err(UNEXPECTED_PIPELINE)
                                                       else Read(Eaten(st, Pipe), rest, background))
    ensures token.Word? ==> Read(st, [token] + rest, background) == Read(Eaten(st, Arg(token.text)), rest, background)
  {
  }

  lemma ReadInput(st: Scan, rest: seq<Token>, background: bool)
    ensures Read(st, [Less] + rest, background) ==
            if st.stages != [] || st.input.Some? then Err(UNEXPECTED_FILE_INPUT)
            else if rest == [] || !rest[0].Word? then Err(EXPECT_INPUT_FILENAME)
            else Read(Eaten(st, From(rest[0].text)), rest[1..], background)
  {
    var t := [Less] + rest;
    assert rest != [] ==> t[1] == rest[0] && t[2..] == rest[1..];
  }

  lemma ReadOutput(st: Scan, append: bool, rest: seq<Token>, background: bool)
    ensures Read(st, [if append then GreatGreat else Great] + rest, background) ==
            if st.output.Some? then Err(UNEXPECTED_FILE_OUTPUT)
            else if rest == [] || !rest[0].Word? then Err(EXPECT_OUTPUT_FILENAME)
            else Read(Eaten(st, Into(rest[0].text, append)), rest[1..], background)
  {
    var t := [if append then GreatGreat else Great] + rest;
    assert rest != [] ==> t[1] == rest[0] && t[2..] == rest[1..];
  }

  /** A round of the first pass on an input sign. */
  method CheckInput(s: string, cur: nat, k: Counts, background: bool, ghost st: Scan)
    returns (next: nat, k': Counts, err: nat, ghost st': Scan)
    requires cur < |s| && s[cur] == '<' && Counted(k, st) && LeadsTo(s, cur, st, background)
    ensures err != 0 ==> Read(START, Tokens(s), background) == Err(err)
    ensures err == 0 ==> cur < next <= |s| && Counted(k', st') && LeadsTo(s, next, st', background)
  {
    hide Tokens, WordLength, Read, ArgCount;
    next, k', err, st' := cur, k, 0, st;
    TokenAt(s, cur);
    ReadInput(st, Tokens(s[cur + 1..]), background);
    if k.pipes > 0 || k.hasInput {
      err := UNEXPECTED_FILE_INPUT;
      return;
    }
    var ok;
    ghost var name;
    next, ok, name := CheckName(s, cur + 1);
    if !ok {
      err := EXPECT_INPUT_FILENAME;
      return;
    }
    k', st' := k.(hasInput := true), Eaten(st, From(name));
  }

  /** A round of the first pass on an output sign. */
  method CheckOutput(s: string, cur: nat, k: Counts, background: bool, ghost st: Scan)
    returns (next: nat, k': Counts, err: nat, ghost st': Scan)
    requires cur < |s| && s[cur] == '>' && Counted(k, st) && LeadsTo(s, cur, st, background)
    ensures err != 0 ==> Read(START, Tokens(s), background) == Err(err)
    ensures err == 0 ==> cur < next <= |s| && Counted(k', st') && LeadsTo(s, next, st', background)
  {
    hide Tokens, WordLength, Read, ArgCount;
    next, k', err, st' := cur, k, 0, st;
    TokenAt(s, cur);
    var append := cur + 1 < |s| && s[cur + 1] == '>';
    var from := if append then cur + 2 else cur + 1;
    ReadOutput(st, append, Tokens(s[from..]), background);
    if k.hasOutput {
      err := UNEXPECTED_FILE_OUTPUT;
      return;
    }
    var ok;
    ghost var name;
    next, ok, name := CheckName(s, from);
    if !ok {
      err := EXPECT_OUTPUT_FILENAME;
      return;
    }
    k', st' := k.(hasOutput := true, append := append), Eaten(st, Into(name, append));
  }

  /** One round of the first pass. */
  method CheckToken(s: string, cur: nat, k: Counts, background: bool, ghost st: Scan)
    returns (next: nat, k': Counts, err: nat, ghost st': Scan)
    requires cur < |s| && !IsSpace(s[cur]) && Counted(k, st) && LeadsTo(s, cur, st, background)
    ensures err != 0 ==> Read(START, Tokens(s), background) == Err(err)
    ensures err == 0 ==> cur < next <= |s| && Counted(k', st') && LeadsTo(s, next, st', background)
  {
    hide Tokens, WordLength, Read, ArgCount;
    next, k', err, st' := cur, k, 0, st;
    if s[cur] == '<' {
      next, k', err, st' := CheckInput(s, cur, k, background, st);
      return;
    }
    if s[cur] == '>' {
      next, k', err, st' := CheckOutput(s, cur, k, background, st);
      return;
    }
    TokenAt(s, cur);
    if s[cur] == '&' {
      ReadOther(st, Amp, Tokens(s[cur + 1..]), background);
      err := UNEXPECTED_AMPERSAND;
    } else if s[cur] == '|' {
      ReadOther(st, Bar, Tokens(s[cur + 1..]), background);
      if k.hasOutput {
        err := UNEXPECTED_FILE_OUTPUT;
        return;
      }
      if !k.hasTokenLast {
        err := UNEXPECTED_PIPELINE;
        return;
      }
      next, k', st' := cur + 1, k.(hasTokenLast := false, pipes := k.pipes + 1), Eaten(st, Pipe);
      CountedOn(k, st, "");
    } else {
      next := SkipWord(s, cur);
      ReadOther(st, Word(s[cur..next]), Tokens(s[next..]), background);
      k', st' := k.(hasTokenLast := true, strings := k.strings + 1), Eaten(st, Arg(s[cur..next]));
      CountedOn(k, st, s[cur..next]);
    }
  }

  lemma CountedOn(k: Counts, st: Scan, w: string)
    requires Counted(k, st)
    ensures Counted(k.(hasTokenLast := true, strings := k.strings + 1), Eaten(st, Arg(w)))
    ensures st.current != [] ==> Counted(k.(hasTokenLast := false, pipes := k.pipes + 1), Eaten(st, Pipe))
  {
  }

  /** The first pass: the result of the line, or what a command needs. */
  method Check(s: string, background: bool) returns (err: nat, k: Counts)
    requires s != [] ==> !IsSpace(s[0])
    ensures err != 0 ==> Read(START, Tokens(s), background) == Err(err)
    ensures err == 0 ==> Read(START, Tokens(s), background).Ok?
    ensures err == 0 ==> var c := Read(START, Tokens(s), background).command;
                         && (c.stages == [] <==> k.strings == 0) && k.strings == ArgCount(c.stages)
                         && (if c.stages == [] then c == Command([], None, None, false) else c.background == background)
                         && (c.stages != [] ==> k.pipes + 1 == |c.stages|)
                         && k.append == (c.output.Some? && c.output.value.append)
  {
    ghost var st := START;
    var cur := 0;
    k, err := Counts(0, 0, false, false, false, false), 0;
    assert s[0..] == s;
    while cur < |s|
      invariant cur <= |s| && (cur < |s| ==> !IsSpace(s[cur])) && Counted(k, st) && LeadsTo(s, cur, st, background) &&
                err == 0
      decreases |s| - cur
    {
      var next;
      next, k, err, st := CheckToken(s, cur, k, background, st);
      if err != 0 {
        return;
      }
      cur := SkipSpace(s, next);
    }
    assert s[cur..] == [];
    assert Read(START, Tokens(s), background) == Finish(st, background);
    if k.strings == 0 {
      if background || k.hasInput || k.hasOutput {
        err := EXPECT_COMMANDS;
      }
      return;
    }
    if !k.hasTokenLast {
      err := UNEXPECTED_PIPELINE;
      return;
    }
    var c := Read(START, Tokens(s), background).command;
    assert c.stages[..|c.stages| - 1] == st.stages;
  }

  // ---- the memory of a parsed command ----

  /** Pointers are indices: `commands` points into `arguments`, and `arguments` into `text`. */
  datatype Memory = Memory(commands: seq<nat>, arguments: seq<Option<nat>>, text: seq<char>, input: Option<nat>,
                           output: Option<nat>)

  /** A string that starts at `p` and ends with its terminator before `free`. */
  predicate IsStringAt(text: seq<char>, p: nat, w: string, free: nat)
  {
    p + |w| < free <= |text| && text[p..p + |w|] == w && text[p + |w|] == '\0'
  }

  /** Where the arguments of stage `k` start: every stage has one more entry than arguments. */
  function Offset(stages: seq<seq<string>>, k: nat): nat
    requires k <= |stages|
  {
    if k == 0 then 0 else Offset(stages, k - 1) + |stages[k - 1]| + 1
  }

  ghost predicate ArePointers(entries: seq<Option<nat>>, ws: seq<string>, text: seq<char>, free: nat)
  {
    |entries| == |ws| && forall a :: 0 <= a < |ws| ==>
      entries[a].Some? && IsStringAt(text, entries[a].value, ws[a], free)
  }

  ghost predicate HasArgs(m: Memory, i: nat, ws: seq<string>, free: nat)
  {
    i + |ws| <= |m.arguments| && ArePointers(m.arguments[i..i + |ws|], ws, m.text, free)
  }

  /** The entries of stage `k`, up to and including the null pointer. */
  ghost predicate HasStage(m: Memory, stages: seq<seq<string>>, k: nat, free: nat)
    requires k < |stages|
  {
    var i := Offset(stages, k);
    k < |m.commands| && m.commands[k] == i && HasArgs(m, i, stages[k], free) && i + |stages[k]| < |m.arguments| &&
      m.arguments[i + |stages[k]|] == None
  }

  ghost predicate HasFile(m: Memory, p: Option<nat>, file: Option<string>, free: nat)
  {
    (p.Some? <==> file.Some?) && (file.Some? ==> IsStringAt(m.text, p.value, file.value, free))
  }

  function FileOf(o: Option<Output>): Option<string>
  {
    if o.Some? then Some(o.value.file) else None
  }

  /** The memory holds a command, and nothing but the command. */
  ghost predicate Holds(m: Memory, c: Command)
  {
    && |m.commands| == |c.stages| && |m.arguments| == ArgCount(c.stages) + |c.stages|
    && (forall k :: 0 <= k < |c.stages| ==> HasStage(m, c.stages, k, |m.text|))
    && HasFile(m, m.input, c.input, |m.text|) && HasFile(m, m.output, FileOf(c.output), |m.text|)
  }

  /** The memory while the second pass is under way: everything up to `free` is final. */
  ghost predicate Stores(m: Memory, st: Scan, free: nat)
  {
    var n := |st.stages|;
    && n < |m.commands| && m.commands[n] == Offset(st.stages, n)
    && (forall k :: 0 <= k < n ==> HasStage(m, st.stages, k, free))
    && HasArgs(m, Offset(st.stages, n), st.current, free)
    && HasFile(m, m.input, st.input, free) && HasFile(m, m.output, FileOf(st.output), free)
  }

  /** The rest of the text is still the line. */
  ghost predicate IsCopy(m: Memory, s: string, free: nat)
  {
    |m.text| == |s| + 1 && forall i :: free <= i < |s| ==> m.text[i] == s[i]
  }

  lemma {:induction false} OffsetPrefix(a: seq<seq<string>>, b: seq<seq<string>>, k: nat)
    requires k <= |a| && a <= b
    ensures Offset(a, k) == Offset(b, k)
    decreases k
  {
    if k > 0 {
      OffsetPrefix(a, b, k - 1);
    }
  }

  lemma {:induction false} OffsetTotal(stages: seq<seq<string>>)
    ensures Offset(stages, |stages|) == ArgCount(stages) + |stages|
  {
    if stages != [] {
      var n := |stages| - 1;
      OffsetTotal(stages[..n]);
      OffsetPrefix(stages[..n], stages, n);
    }
  }

  lemma {:induction false} OffsetMonotone(stages: seq<seq<string>>, j: nat, k: nat)
    requires j <= k <= |stages|
    ensures Offset(stages, j) <= Offset(stages, k)
    decreases k - j
  {
    if j < k {
      OffsetMonotone(stages, j, k - 1);
    }
  }

  /** Strings that stay as they are when the text or its final part changes. */
  ghost predicate KeepsStrings(text: seq<char>, free: nat, text': seq<char>, free': nat)
  {
    forall p: nat, w :: IsStringAt(text, p, w, free) ==> IsStringAt(text', p, w, free')
  }

  lemma TextKept(text: seq<char>, e: nat, free: nat)
    requires free <= e < |text|
    ensures KeepsStrings(text, free, text[e := '\0'], e + 1)
  {
  }

  lemma FreeGrows(text: seq<char>, free: nat)
    requires free <= |text|
    ensures KeepsStrings(text, free, text, |text|)
  {
  }

  lemma ArgsKept(m: Memory, m': Memory, i: nat, ws: seq<string>, free: nat, free': nat)
    requires HasArgs(m, i, ws, free) && KeepsStrings(m.text, free, m'.text, free')
    requires |m'.arguments| == |m.arguments| && m'.arguments[i..i + |ws|] == m.arguments[i..i + |ws|]
    ensures HasArgs(m', i, ws, free')
  {
  }

  lemma SameSlices<T>(a: seq<T>, b: seq<T>, i: nat, lo: nat, hi: nat)
    requires lo <= hi < i <= |a| == |b| && a[..i] == b[..i]
    ensures a[lo..hi] == b[lo..hi] && a[hi] == b[hi]
  {
  }

  lemma StageKept(m: Memory, m': Memory, a: seq<seq<string>>, b: seq<seq<string>>, k: nat, free: nat, free': nat,
                  i: nat)
    requires k < |a| && a <= b && HasStage(m, a, k, free) && KeepsStrings(m.text, free, m'.text, free')
    requires |m'.arguments| == |m.arguments| && |m'.commands| == |m.commands| && m'.commands[k] == m.commands[k]
    requires Offset(a, |a|) <= i <= |m.arguments| && m'.arguments[..i] == m.arguments[..i]
    ensures HasStage(m', b, k, free')
  {
    hide IsStringAt, HasArgs, KeepsStrings;
    OffsetPrefix(a, b, k);
    OffsetMonotone(a, k + 1, |a|);
    var o, n := Offset(a, k), |a[k]|;
    assert o + n < i;
    SameSlices(m.arguments, m'.arguments, i, o, o + n);
    ArgsKept(m, m', o, a[k], free, free');
  }

  /** A new terminator behind everything stored so far leaves it as it is. */
  lemma Terminated(m: Memory, e: nat, st: Scan, free: nat)
    requires Stores(m, st, free) && free <= e < |m.text|
    ensures Stores(m.(text := m.text[e := '\0']), st, e + 1)
  {
    var m' := m.(text := m.text[e := '\0']);
    hide IsStringAt, ArePointers;
    TextKept(m.text, e, free);
    var n, free' := |st.stages|, e + 1;
    ArgsKept(m, m', Offset(st.stages, n), st.current, free, free');
    forall k | 0 <= k < n
      ensures HasStage(m', st.stages, k, free')
    {
      StageKept(m, m', st.stages, st.stages, k, free, free', Offset(st.stages, n));
    }
  }

  /** The word between `b` and `e` of the line, once it has been terminated. */
  lemma WordStored(m: Memory, s: string, b: nat, e: nat, free: nat)
    requires IsCopy(m, s, free) && free <= b <= e <= |s|
    ensures IsStringAt(m.text[e := '\0'], b, s[b..e], e + 1)
  {
  }

  lemma ArgStored(m: Memory, st: Scan, b: nat, w: string, free: nat)
    requires Stores(m, st, free) && IsStringAt(m.text, b, w, free)
    requires Offset(st.stages, |st.stages|) + |st.current| < |m.arguments|
    ensures var i := Offset(st.stages, |st.stages|) + |st.current|;
            Stores(m.(arguments := m.arguments[i := Some(b)]), st.(current := st.current + [w]), free)
  {
    hide IsStringAt;
    var n, o := |st.stages|, Offset(st.stages, |st.stages|);
    var i := o + |st.current|;
    var m' := m.(arguments := m.arguments[i := Some(b)]);
    assert KeepsStrings(m.text, free, m'.text, free);
    assert m'.arguments[o..i + 1] == m.arguments[o..i] + [Some(b)];
    assert m'.arguments[..i] == m.arguments[..i];
    forall k | 0 <= k < n
      ensures HasStage(m', st.stages, k, free)
    {
      StageKept(m, m', st.stages, st.stages, k, free, free, i);
    }
  }

  lemma FileStored(m: Memory, st: Scan, b: nat, w: string, append: bool, free: nat)
    requires Stores(m, st, free) && IsStringAt(m.text, b, w, free)
    ensures Stores(m.(input := Some(b)), Eaten(st, From(w)), free)
    ensures Stores(m.(output := Some(b)), Eaten(st, Into(w, append)), free)
  {
    hide IsStringAt, ArePointers;
    forall k | 0 <= k < |st.stages|
      ensures HasStage(m.(input := Some(b)), st.stages, k, free) && HasStage(m.(output := Some(b)), st.stages, k, free)
    {
      assert HasStage(m, st.stages, k, free);
    }
  }

  lemma StageStored(m: Memory, st: Scan, free: nat)
    requires Stores(m, st, free) && |st.stages| + 1 < |m.commands|
    requires Offset(st.stages, |st.stages|) + |st.current| < |m.arguments|
    ensures var n := |st.stages|; var i := Offset(st.stages, n) + |st.current|;
            Stores(m.(arguments := m.arguments[i := None], commands := m.commands[n + 1 := i + 1]),
                   st.(stages := st.stages + [st.current], current := []), free)
  {
    hide IsStringAt, ArePointers;
    var n := |st.stages|;
    var o := Offset(st.stages, n);
    var i := o + |st.current|;
    var m' := m.(arguments := m.arguments[i := None], commands := m.commands[n + 1 := i + 1]);
    var stages := st.stages + [st.current];
    OffsetPrefix(st.stages, stages, n);
    assert KeepsStrings(m.text, free, m'.text, free);
    assert m'.arguments[..i] == m.arguments[..i] && m'.arguments[o..i] == m.arguments[o..i];
    ArgsKept(m, m', o, st.current, free, free);
    NoArgs(m', i + 1, free);
    forall k | 0 <= k < n + 1
      ensures HasStage(m', stages, k, free)
    {
      if k < n {
        StageKept(m, m', st.stages, stages, k, free, free, i);
      }
    }
  }

  lemma NoArgs(m: Memory, i: nat, free: nat)
    requires i <= |m.arguments|
    ensures HasArgs(m, i, [], free)
  {
  }

  /** The end of the second pass: the last null pointer is stored. */
  lemma AllStored(m: Memory, st: Scan, free: nat, c: Command)
    requires Stores(m, st, free) && free <= |m.text| && st.current != [] && Finish(st, c.background) == Ok(c)
    requires |m.commands| == |c.stages| && |m.arguments| == ArgCount(c.stages) + |c.stages|
    ensures var i := Offset(st.stages, |st.stages|) + |st.current|;
            i < |m.arguments| && Holds(m.(arguments := m.arguments[i := None]), c)
  {
    hide IsStringAt, ArePointers;
    var n := |st.stages|;
    var o := Offset(st.stages, n);
    var i := o + |st.current|;
    assert c.stages == st.stages + [st.current];
    OffsetPrefix(st.stages, c.stages, n);
    OffsetTotal(c.stages);
    var m' := m.(arguments := m.arguments[i := None]);
    FreeGrows(m.text, free);
    assert m'.arguments[..i] == m.arguments[..i] && m'.arguments[o..i] == m.arguments[o..i];
    ArgsKept(m, m', o, st.current, free, |m.text|);
    forall k | 0 <= k < n + 1
      ensures HasStage(m', c.stages, k, |m.text|)
    {
      if k < n {
        StageKept(m, m', st.stages, c.stages, k, free, |m.text|, i);
      }
    }
  }

  // ---- the second pass ----

  lemma NextPiece(st: Scan, tokens: seq<Token>, background: bool)
    requires tokens != [] && Read(st, tokens, background).Ok?
    ensures PiecesOf(tokens) != []
    ensures var p := PiecesOf(tokens)[0];
            |Phrase(p)| <= |tokens| && Read(st, tokens, background) ==
              Read(Eaten(st, p), tokens[|Phrase(p)|..], background)
  {
  }

  lemma NothingLeft(st: Scan, background: bool)
    ensures Read(st, [], background) == Finish(st, background)
  {
  }

  /** The result of a line extends what has been read of it. */
  lemma {:induction false} ReadExtends(st: Scan, tokens: seq<Token>, background: bool)
    requires Read(st, tokens, background).Ok? && Read(st, tokens, background).command.stages != []
    ensures var stages := Read(st, tokens, background).command.stages;
            |st.stages| < |stages| && st.stages == stages[..|st.stages|] && st.current <= stages[|st.stages|]
    decreases |tokens|
  {
    hide Read, PiecesOf;
    if tokens == [] {
      NothingLeft(st, background);
    } else {
      NextPiece(st, tokens, background);
      var p := PiecesOf(tokens)[0];
      ReadExtends(Eaten(st, p), tokens[|Phrase(p)|..], background);
    }
  }

  /** There is room in memory for what is read next. */
  lemma HasRoom(st: Scan, tokens: seq<Token>, background: bool, c: Command)
    requires Read(st, tokens, background) == Ok(c) && c.stages != []
    ensures |st.stages| < |c.stages| && Offset(st.stages, |st.stages|) + |st.current| < ArgCount(c.stages) + |c.stages|
  {
    hide Read;
    ReadExtends(st, tokens, background);
    var n := |st.stages|;
    OffsetPrefix(st.stages, c.stages, n);
    OffsetMonotone(c.stages, n + 1, |c.stages|);
    OffsetTotal(c.stages);
  }

  lemma {:induction false} OutputStays(st: Scan, tokens: seq<Token>, background: bool)
    requires Read(st, tokens, background).Ok? && st.output.Some?
    ensures Read(st, tokens, background).command.output == st.output
    decreases |tokens|
  {
    hide Read, PiecesOf;
    if tokens == [] {
      NothingLeft(st, background);
    } else {
      NextPiece(st, tokens, background);
      var p := PiecesOf(tokens)[0];
      SecondOutput(st, tokens, background);
      OutputStays(Eaten(st, p), tokens[|Phrase(p)|..], background);
    }
  }

  lemma SecondOutput(st: Scan, tokens: seq<Token>, background: bool)
    requires tokens != [] && Read(st, tokens, background).Ok? && st.output.Some?
    ensures PiecesOf(tokens) != [] && !PiecesOf(tokens)[0].Into?
  {
  }

  class ParsedCommand {
    const commands: array<nat>
    const arguments: array<Option<nat>>
    const text: array<char>
    var input: Option<nat>
    var output: Option<nat>
    const append: bool
    const background: bool

    ghost function M(): Memory
      reads this, commands, arguments, text
    {
      Memory(commands[..], arguments[..], text[..], input, output)
    }

    /** Memory of the size that the first pass has counted, with a copy of the line. */
    constructor (s: string, numCommands: nat, totalStrings: nat, append: bool, background: bool)
      ensures fresh(commands) && fresh(arguments) && fresh(text) && this.append == append &&
              this.background == background
      ensures commands.Length == numCommands && arguments.Length == totalStrings + numCommands && IsCopy(M(), s, 0)
      ensures input == None && output == None
    {
      commands := new nat[numCommands](_ => 0);
      arguments := new Option<nat>[totalStrings + numCommands](_ => None);
      text := new char[|s| + 1](i requires 0 <= i => if i < |s| then s[i] else ' ');
      input, output := None, None;
      this.append, this.background := append, background;
    }

    /** The second pass has reached `cur`. */
    ghost predicate IsFilling(s: string, cur: nat, st: Scan, c: Command, free: nat)
      reads this, commands, arguments, text
    {
      && cur <= |s| && c.stages != [] && c.background == background
      && append == (c.output.Some? && c.output.value.append)
      && |M().commands| == |c.stages| && |M().arguments| == ArgCount(c.stages) + |c.stages|
      && Read(st, Tokens(s[cur..]), background) == Ok(c)
      && Stores(M(), st, free) && IsCopy(M(), s, free) && free <= cur + 1
      && (free == cur + 1 && cur < |s| ==> !IsWordChar(s[cur]))
    }

    /** Finds the word at the cursor, behind space, and terminates it. */
    method TakeWord(s: string, cur: nat, ghost st: Scan, ghost free: nat) returns (b: nat, next: nat)
      requires cur <= |s| && Stores(M(), st, free) && IsCopy(M(), s, free) && free <= cur + 1
      requires free == cur + 1 && cur < |s| ==> !IsWordChar(s[cur])
      requires Tokens(s[cur..]) != [] && Tokens(s[cur..])[0].Word?
      modifies text
      ensures cur <= b < next <= |s| && Tokens(s[cur..]) == [Word(s[b..next])] + Tokens(s[next..])
      ensures Stores(M(), st, next + 1) && IsCopy(M(), s, next + 1) && (next < |s| ==> !IsWordChar(s[next]))
      ensures IsStringAt(M().text, b, s[b..next], next + 1) && M() == old(M()).(text := M().text)
    {
      hide Tokens, WordLength, Stores, IsStringAt;
      b := SkipSpace(s, cur);
      NameAt(s, b);
      next := SkipWord(s, b);
      WordStops(s, b);
      ghost var m := M();
      Terminated(m, next, st, free);
      WordStored(m, s, b, next, free);
      text[next] := '\0';
      assert M() == m.(text := m.text[next := '\0']);
    }

    /** A round of the second pass on a redirection. */
    method FillFile(s: string, cur: nat, ghost st: Scan, ghost c: Command, ghost free: nat)
      returns (next: nat, ghost st': Scan)
      requires IsFilling(s, cur, st, c, free) && cur < |s| && (s[cur] == '<' || s[cur] == '>')
      modifies text, `input, `output
      ensures cur < next <= |s| && IsFilling(s, next, st', c, next + 1) && st'.stages == st.stages &&
              st'.current == st.current
    {
      hide Tokens, WordLength, Read, IsStringAt, ArePointers, ArgCount, Offset, Stores, IsCopy;
      TokenAt(s, cur);
      if s[cur] == '<' {
        ReadInput(st, Tokens(s[cur + 1..]), background);
        var b;
        b, next := TakeWord(s, cur + 1, st, free);
        st' := Eaten(st, From(s[b..next]));
        FileStored(M(), st, b, s[b..next], false, next + 1);
        ghost var m := M();
        input := Some(b);
        assert M() == m.(input := Some(b));
        CopyKept(m, M(), s, next + 1);
      } else {
        ghost var lookahead := cur + 1 < |s| && s[cur + 1] == '>';
        ghost var rest := Tokens(s[if lookahead then cur + 2 else cur + 1..]);
        ReadOutput(st, lookahead, rest, background);
        OutputStays(Eaten(st, Into(rest[0].text, lookahead)), rest[1..], background);
        assert append == lookahead;
        var from := if append then cur + 2 else cur + 1;
        var b;
        b, next := TakeWord(s, from, st, free);
        st' := Eaten(st, Into(s[b..next], append));
        FileStored(M(), st, b, s[b..next], append, next + 1);
        ghost var m := M();
        output := Some(b);
        assert M() == m.(output := Some(b));
        CopyKept(m, M(), s, next + 1);
      }
    }

    /** A round of the second pass. */
    method FillToken(s: string, cur: nat, argv: nat, cmd: nat, ghost st: Scan, ghost c: Command, ghost free: nat)
      returns (next: nat, argv': nat, cmd': nat, ghost st': Scan, ghost free': nat)
      requires IsFilling(s, cur, st, c, free) && cur < |s| && !IsSpace(s[cur])
      requires cmd == |st.stages| && argv == Offset(st.stages, |st.stages|) + |st.current|
      modifies text, commands, arguments, `input, `output
      ensures cur < next <= |s| && IsFilling(s, next, st', c, free')
      ensures cmd' == |st'.stages| && argv' == Offset(st'.stages, |st'.stages|) + |st'.current|
    {
      hide Tokens, WordLength, Read, IsStringAt, ArePointers, ArgCount, Stores, IsCopy;
      argv', cmd' := argv, cmd;
      if s[cur] == '<' || s[cur] == '>' {
        next, st' := FillFile(s, cur, st, c, free);
        free' := next + 1;
        return;
      }
      TokenAt(s, cur);
      HasRoom(st, Tokens(s[cur..]), background, c);
      ReadOther(st, Amp, Tokens(s[cur + 1..]), background);
      if s[cur] == '|' {
        ReadOther(st, Bar, Tokens(s[cur + 1..]), background);
        next, st', free' := cur + 1, Eaten(st, Pipe), free;
        HasRoom(st', Tokens(s[cur + 1..]), background, c);
        StageStored(M(), st, free);
        ghost var m := M();
        arguments[argv] := None;
        argv', cmd' := argv + 1, cmd + 1;
        commands[cmd'] := argv';
        assert M() == m.(arguments := m.arguments[argv := None], commands := m.commands[cmd + 1 := argv + 1]);
        OffsetPrefix(st.stages, st'.stages, |st.stages|);
        CopyKept(m, M(), s, free);
      } else {
        var b;
        b, next := TakeWord(s, cur, st, free);
        ReadOther(st, Word(s[b..next]), Tokens(s[next..]), background);
        st', free' := Eaten(st, Arg(s[b..next])), next + 1;
        ArgStored(M(), st, b, s[b..next], next + 1);
        ghost var m := M();
        arguments[argv] := Some(b);
        argv' := argv + 1;
        assert M() == m.(arguments := m.arguments[argv := Some(b)]);
        CopyKept(m, M(), s, next + 1);
      }
    }

    /** The second pass: the memory is filled, exactly and to the end. */
    method Fill(s: string, ghost c: Command)
      requires c.stages != [] && c.background == background && append == (c.output.Some? && c.output.value.append)
      requires commands.Length == |c.stages| && arguments.Length == ArgCount(c.stages) + |c.stages|
      requires Read(START, Tokens(s), background) == Ok(c) && IsCopy(M(), s, 0) && input == None && output == None
      requires s != [] ==> !IsSpace(s[0])
      modifies text, commands, arguments, `input, `output
      ensures Holds(M(), c)
    {
      hide Tokens, Read, ArgCount, IsStringAt, ArePointers, IsCopy;
      ghost var m := M();
      commands[0] := 0;
      CopyKept(m, M(), s, 0);
      StartStored(M());
      var cur, argv, cmd := 0, 0, 0;
      ghost var st, free := START, 0;
      assert s[0..] == s;
      while cur < |s|
        invariant IsFilling(s, cur, st, c, free) && (cur < |s| ==> !IsSpace(s[cur]))
        invariant cmd == |st.stages| && argv == Offset(st.stages, |st.stages|) + |st.current|
        decreases |s| - cur
      {
        hide Stores, Offset;
        var next;
        next, argv, cmd, st, free := FillToken(s, cur, argv, cmd, st, c, free);
        cur := SkipSpace(s, next);
      }
      assert s[cur..] == [];
      NoTokens();
      NothingLeft(st, background);
      m := M();
      AllStored(m, st, free, c);
      arguments[argv] := None;
      assert M() == m.(arguments := m.arguments[argv := None]);
    }
  }

  lemma StartStored(m: Memory)
    requires m.commands != [] && m.commands[0] == 0 && m.input == None && m.output == None
    ensures Stores(m, START, 0)
  {
  }

  lemma CopyKept(m: Memory, m': Memory, s: string, free: nat)
    requires IsCopy(m, s, free) && m'.text == m.text
    ensures IsCopy(m', s, free)
  {
  }

  lemma WordStops(s: string, b: nat)
    requires b <= |s|
    ensures var e := b + WordLength(s[b..]); e <= |s| && (e < |s| ==> !IsWordChar(s[e]))
  {
  }

  // ---- parse_command ----

  /** The end of the line without its comment. */
  method FindEnd(line: string) returns (end: nat)
    ensures end <= |line| && line[..end] == Uncommented(line)
    ensures '#' !in line[..end] && (end < |line| ==> line[end] == '#')
  {
    end := 0;
    while end < |line| && line[end] != '#'
      invariant end <= |line| && '#' !in line[..end] && Uncommented(line) == line[..end] + Uncommented(line[end..])
    {
      assert line[end..][1..] == line[end + 1..];
      end := end + 1;
    }
  }

  method TrimStart(s: string) returns (start: nat)
    ensures start <= |s| && s[start..] == TrimLeft(s) && (start < |s| ==> !IsSpace(s[start]))
    ensures forall i :: 0 <= i < start ==> IsSpace(s[i])
  {
    start := 0;
    while start < |s| && IsSpace(s[start])
      invariant start <= |s| && TrimLeft(s) == TrimLeft(s[start..]) && forall i :: 0 <= i < start ==> IsSpace(s[i])
    {
      assert s[start..][1..] == s[start + 1..];
      start := start + 1;
    }
  }

  method TrimEnd(s: string, start: nat) returns (end: nat)
    requires start <= |s|
    ensures start <= end <= |s| && s[start..end] == TrimRight(s[start..])
    ensures (start < end ==> !IsSpace(s[end - 1])) && forall i :: end <= i < |s| ==> IsSpace(s[i])
  {
    end := |s|;
    assert s[start..end] == s[start..];
    while start < end && IsSpace(s[end - 1])
      invariant start <= end <= |s| && TrimRight(s[start..]) == TrimRight(s[start..end])
      invariant forall i :: end <= i < |s| ==> IsSpace(s[i])
    {
      assert s[start..end][..end - start - 1] == s[start..end - 1];
      end := end - 1;
    }
  }

  /** The whole parser: an error code, or 0 and memory that holds the command. */
  method ParseCommand(line: string) returns (code: nat, pc: ParsedCommand?)
    ensures Parse(line).Err? ==> code == Parse(line).code && pc == null
    ensures Parse(line).Ok? ==> code == 0 && pc != null && Holds(pc.M(), Parse(line).command)
    ensures Parse(line).Ok? ==> pc.background == Parse(line).command.background
    ensures Parse(line).Ok? ==>
              pc.append == (Parse(line).command.output.Some? && Parse(line).command.output.value.append)
  {
    hide Tokens, Read;
    var end := FindEnd(line);
    var text := line[..end];
    var start := TrimStart(text);
    end := TrimEnd(text, start);
    var s := text[start..end];
    if s == [] {
      pc := new ParsedCommand([], 0, 0, false, false);
      return 0, pc;
    }
    var background := s[|s| - 1] == '&';
    if background {
      s := s[..|s| - 1];
    }
    var k;
    code, k := Check(s, background);
    if code != 0 {
      return code, null;
    }
    if k.strings == 0 {
      pc := new ParsedCommand([], 0, 0, false, false);
      return 0, pc;
    }
    pc := new ParsedCommand(s, k.pipes + 1, k.strings, k.append, background);
    pc.Fill(s, Parse(line).command);
  }
}
