/** Printing a command and parsing it again. */
module ShellPrinter {
  import opened Options
  import opened ShellGrammar

  // ---- print_parsed_command ----

  function PrintedArgs(args: seq<string>): string
  {
    if args == [] then "" else args[0] + " " + PrintedArgs(args[1..])
  }

  function InputText(c: Command, i: nat): string
  {
    if i == 0 && c.input.Some? then "< " + c.input.value + " " else ""
  }

  function OutputText(c: Command, i: nat): string
  {
    if i != |c.stages| - 1 then "| "
    else if c.output.Some? then (if c.output.value.append then ">> " else "> ") + c.output.value.file + " "
    else ""
  }

  function PrintedFrom(c: Command, i: nat): string
    decreases |c.stages| - i
  {
    if i >= |c.stages| then ""
    else
      PrintedArgs(c.stages[i]) + InputText(c, i) + OutputText(c, i) + PrintedFrom(c, i + 1)
  }

  function Printed(c: Command): string
  {
    PrintedFrom(c, 0) + (if c.background then "&" else "") + "\n"
  }

  // ---- what can be printed ----

  predicate IsWord(w: string)
  {
    w != [] && forall i :: 0 <= i < |w| ==> IsWordChar(w[i]) && w[i] != '#'
  }

  predicate AreWords(ws: seq<string>)
  {
    forall i :: 0 <= i < |ws| ==> IsWord(ws[i])
  }

  /** An empty line, or stages of words with files that are words. */
  predicate IsPrintable(c: Command)
  {
    if c.stages == [] then c == Command([], None, None, false)
    else
      && (forall k :: 0 <= k < |c.stages| ==> c.stages[k] != [] && AreWords(c.stages[k]))
      && (c.input.Some? ==> IsWord(c.input.value)) && (c.output.Some? ==> IsWord(c.output.value.file))
  }

  // ---- the phrases of a command ----

  function ArgPieces(args: seq<string>): seq<Piece>
  {
    if args == [] then [] else [Arg(args[0])] + ArgPieces(args[1..])
  }

  function Files(c: Command, i: nat): seq<Piece>
    requires i < |c.stages|
  {
    (if i == 0 && c.input.Some? then [From(c.input.value)] else [])
    + if i < |c.stages| - 1 then [Pipe]
      else if c.output.Some? then [Into(c.output.value.file, c.output.value.append)] else []
  }

  function PiecesFrom(c: Command, i: nat): seq<Piece>
    decreases |c.stages| - i
  {
    if i >= |c.stages| then [] else ArgPieces(c.stages[i]) + Files(c, i) + PiecesFrom(c, i + 1)
  }

  function Text(p: Piece): string
  {
    match p
    case Arg(w) => w + " "
    case From(w) => "< " + w + " "
    case Into(w, append) => (if append then ">> " else "> ") + w + " "
    case Pipe => "| "
  }

  /** Every part is followed by one space. */
  lemma TextIs(w: string)
    ensures Text(Arg(w)) == w + " " && Text(Pipe) == "| " && Text(From(w)) == "< " + w + " "
    ensures Text(Into(w, false)) == "> " + w + " " && Text(Into(w, true)) == ">> " + w + " "
  {
  }

  function Texts(ps: seq<Piece>): string
  {
    if ps == [] then "" else Text(ps[0]) + Texts(ps[1..])
  }

  lemma {:induction false} TextsConcat(a: seq<Piece>, b: seq<Piece>)
    ensures Texts(a + b) == Texts(a) + Texts(b)
  {
    if a == [] {
      assert a + b == b;
    } else {
      assert (a + b)[1..] == a[1..] + b;
      TextsConcat(a[1..], b);
    }
  }

  lemma {:induction false} PrintedArgsIsText(args: seq<string>)
    ensures Texts(ArgPieces(args)) == PrintedArgs(args)
  {
    if args != [] {
      PrintedArgsIsText(args[1..]);
      assert ArgPieces(args)[1..] == ArgPieces(args[1..]);
    }
  }

  /** A printed command: its parts in order, the ampersand of a background command, and the end of the line. */
  lemma PrintedIs(c: Command)
    ensures Printed(c) == Texts(PiecesFrom(c, 0)) + (if c.background then "&" else "") + "\n"
  {
    PrintedIsText(c, 0);
  }

  lemma {:induction false} PrintedIsText(c: Command, i: nat)
    ensures PrintedFrom(c, i) == Texts(PiecesFrom(c, i))
    decreases |c.stages| - i
  {
    hide Texts, Files, ArgPieces, PrintedArgs;
    if i < |c.stages| {
      PrintedArgsIsText(c.stages[i]);
      PrintedIsText(c, i + 1);
      TextsConcat(ArgPieces(c.stages[i]) + Files(c, i), PiecesFrom(c, i + 1));
      TextsConcat(ArgPieces(c.stages[i]), Files(c, i));
      FilesText(c, i);
      var a, x, y := PrintedArgs(c.stages[i]), InputText(c, i), OutputText(c, i);
      assert a + (x + y) == a + x + y;
    } else {
      NoText();
    }
  }

  lemma NoText()
    ensures Texts([]) == ""
  {
  }

  lemma FilesText(c: Command, i: nat)
    requires i < |c.stages|
    ensures Texts(Files(c, i)) == InputText(c, i) + OutputText(c, i)
  {
    var a := if i == 0 && c.input.Some? then [From(c.input.value)] else [];
    var b := if i < |c.stages| - 1 then [Pipe] else if c.output.Some?
      then [Into(c.output.value.file, c.output.value.append)] else [];
    TextsConcat(a, b);
    NoText();
  }

  // ---- tokens of printed text ----

  predicate IsWordPiece(p: Piece)
  {
    p.Pipe? || IsWord(p.word)
  }

  lemma {:induction false} WordEnds(w: string, rest: string)
    requires forall i :: 0 <= i < |w| ==> IsWordChar(w[i])
    requires rest != [] && !IsWordChar(rest[0])
    ensures WordLength(w + rest) == |w|
  {
    if w == [] {
      assert w + rest == rest;
    } else {
      assert (w + rest)[1..] == w[1..] + rest;
      WordEnds(w[1..], rest);
    }
  }

  lemma WordToken(w: string, rest: string)
    requires IsWord(w)
    ensures Tokens(w + " " + rest) == [Word(w)] + Tokens(rest)
  {
    var s := w + " " + rest;
    assert s == w + (" " + rest);
    WordEnds(w, " " + rest);
    assert s[0] == w[0];
    assert s[..|w|] == w && s[|w|..] == " " + rest;
    assert (" " + rest)[1..] == rest;
  }

  lemma SignToken(sign: string, rest: string)
    requires sign == "<" || sign == ">" || sign == ">>" || sign == "|"
    ensures Tokens(sign + " " + rest) == [if sign == "<" then Less else if sign == ">" then Great else if sign == ">>"
                                          then GreatGreat else Bar] + Tokens(rest)
  {
  }

  lemma RedirectTokens(sign: string, w: string, rest: string)
    requires (sign == "<" || sign == ">" || sign == ">>") && IsWord(w)
    ensures Tokens(sign + " " + w + " " + rest) ==
              [if sign == "<" then Less else if sign == ">" then Great else GreatGreat, Word(w)] + Tokens(rest)
  {
    hide Tokens, IsWord;
    WordToken(w, rest);
    SignToken(sign, w + " " + rest);
    assert sign + " " + w + " " + rest == sign + " " + (w + " " + rest);
  }

  lemma TextTokens(p: Piece, rest: string)
    requires IsWordPiece(p)
    ensures Tokens(Text(p) + rest) == Phrase(p) + Tokens(rest)
  {
    hide Tokens, IsWord;
    match p
    case Pipe =>
      SignToken("|", rest);
      assert Text(p) == "|" + " ";
    case Arg(w) =>
      WordToken(w, rest);
    case From(w) =>
      RedirectTokens("<", w, rest);
      assert Text(p) == "<" + " " + w + " ";
    case Into(w, append) =>
      RedirectTokens(if append then ">>" else ">", w, rest);
      assert Text(p) == (if append then ">>" else ">") + " " + w + " ";
  }

  lemma {:induction false} TextsTokens(ps: seq<Piece>)
    requires forall i :: 0 <= i < |ps| ==> IsWordPiece(ps[i])
    ensures Tokens(Texts(ps)) == Phrases(ps)
  {
    if ps != [] {
      TextsTokens(ps[1..]);
      TextTokens(ps[0], Texts(ps[1..]));
    }
  }

  // ---- reading the phrases of a command ----

  lemma {:induction false} ReadArgs(st: Scan, args: seq<string>, rest: seq<Piece>, background: bool)
    ensures Read(st, Phrases(ArgPieces(args) + rest), background) ==
              Read(st.(current := st.current + args), Phrases(rest), background)
    decreases |args|
  {
    hide Read, Phrases;
    if args == [] {
      assert ArgPieces(args) + rest == rest && st.current + args == st.current;
    } else {
      assert ArgPieces(args) + rest == [Arg(args[0])] + (ArgPieces(args[1..]) + rest);
      ReadStep(st, Arg(args[0]), ArgPieces(args[1..]) + rest, background);
      ReadArgs(st.(current := st.current + [args[0]]), args[1..], rest, background);
      assert st.current + [args[0]] + args[1..] == st.current + args;
    }
  }

  lemma ReadNothing(st: Scan, background: bool)
    ensures Read(st, Phrases([]), background) == Finish(st, background)
  {
  }

  /** What follows the arguments of a stage. */
  lemma ReadFiles(c: Command, i: nat, st: Scan, rest: seq<Piece>)
    requires i < |c.stages| && st.current != [] && st.output == None &&
             (i == 0 ==> st.stages == [] && st.input == None) && (i > 0 ==> st.input == c.input)
    ensures var st' := st.(input := c.input);
            Read(st, Phrases(Files(c, i) + rest), c.background) ==
            Read(if i < |c.stages| - 1 then Eaten(st', Pipe) else st'.(output := c.output), Phrases(rest), c.background)
  {
    hide Read, Phrases;
    var tail := (if i < |c.stages| - 1 then [Pipe] else if c.output.Some?
                 then [Into(c.output.value.file, c.output.value.append)] else []) + rest;
    var st' := st.(input := c.input);
    if i == 0 && c.input.Some? {
      assert Files(c, i) + rest == [From(c.input.value)] + tail;
      ReadStep(st, From(c.input.value), tail, c.background);
    } else {
      assert Files(c, i) + rest == tail;
    }
    if i < |c.stages| - 1 {
      ReadStep(st', Pipe, rest, c.background);
    } else if c.output.Some? {
      ReadStep(st', Into(c.output.value.file, c.output.value.append), rest, c.background);
    } else {
      assert tail == rest;
    }
  }

  lemma {:induction false} ReadCommand(c: Command, i: nat)
    requires i < |c.stages| && forall k :: 0 <= k < |c.stages| ==> c.stages[k] != []
    ensures Read(Scan(c.stages[..i], [], if i > 0 then c.input else None, None), Phrases(PiecesFrom(c, i)),
                 c.background) == Ok(c)
    decreases |c.stages| - i
  {
    hide Read, Phrases, ArgPieces, Files;
    var st := Scan(c.stages[..i], [], if i > 0 then c.input else None, None);
    var rest := PiecesFrom(c, i + 1);
    assert ArgPieces(c.stages[i]) + (Files(c, i) + rest) == PiecesFrom(c, i);
    ReadArgs(st, c.stages[i], Files(c, i) + rest, c.background);
    assert [] + c.stages[i] == c.stages[i];
    ReadFiles(c, i, st.(current := c.stages[i]), rest);
    if i == |c.stages| - 1 {
      ReadNothing(st.(current := c.stages[i], input := c.input, output := c.output), c.background);
      assert c.stages[..i] + [c.stages[i]] == c.stages;
    } else {
      assert c.stages[..i] + [c.stages[i]] == c.stages[..i + 1];
      ReadCommand(c, i + 1);
    }
  }

  // ---- whole lines ----

  predicate IsFree(s: string, sign: char)
  {
    forall i :: 0 <= i < |s| ==> s[i] != sign
  }

  lemma {:induction false} TextsFree(ps: seq<Piece>)
    requires forall i :: 0 <= i < |ps| ==> IsWordPiece(ps[i])
    ensures IsFree(Texts(ps), '#') && IsFree(Texts(ps), '&')
  {
    if ps != [] {
      TextsFree(ps[1..]);
      assert IsWordPiece(ps[0]);
      assert IsFree(Text(ps[0]), '#') && IsFree(Text(ps[0]), '&');
    }
  }

  lemma {:induction false} UncommentedFree(s: string)
    requires IsFree(s, '#')
    ensures Uncommented(s) == s
  {
    if s != [] {
      UncommentedFree(s[1..]);
    }
  }

  lemma {:induction false} WordLengthSpaceEnd(s: string, c: char)
    requires IsSpace(c)
    ensures WordLength(s + [c]) == WordLength(s)
  {
    if s != [] {
      assert (s + [c])[1..] == s[1..] + [c];
      WordLengthSpaceEnd(s[1..], c);
    } else {
      assert s + [c] == [c];
    }
  }

  /** Space at the end of a line does not matter. */
  lemma {:induction false} TokensSpaceEnd(s: string, c: char)
    requires IsSpace(c)
    ensures Tokens(s + [c]) == Tokens(s)
    decreases |s|
  {
    var t := s + [c];
    if s == [] {
      assert t == [c] && t[1..] == [];
    } else {
      var n := if IsSpace(s[0]) || s[0] == '<' || s[0] == '|' || s[0] == '&' then 1
               else if s[0] == '>' then (if |s| > 1 && s[1] == '>' then 2 else 1)
               else WordLength(s);
      WordLengthSpaceEnd(s, c);
      assert t[0] == s[0] && t[n..] == s[n..] + [c] && t[..n] == s[..n];
      TokensSpaceEnd(s[n..], c);
    }
  }

  lemma {:induction false} TrimRightTokens(s: string)
    ensures Tokens(TrimRight(s)) == Tokens(s)
    ensures TrimRight(s) <= s
    decreases |s|
  {
    if s != [] && IsSpace(s[|s| - 1]) {
      var t := s[..|s| - 1];
      assert s == t + [s[|s| - 1]];
      TokensSpaceEnd(t, s[|s| - 1]);
      TrimRightTokens(t);
    }
  }

  lemma PiecesAreWords(c: Command, i: nat)
    requires IsPrintable(c)
    ensures forall j :: 0 <= j < |PiecesFrom(c, i)| ==> IsWordPiece(PiecesFrom(c, i)[j])
    decreases |c.stages| - i
  {
    if i < |c.stages| {
      PiecesAreWords(c, i + 1);
      ArgsAreWords(c.stages[i]);
    }
  }

  lemma {:induction false} ArgsAreWords(args: seq<string>)
    requires AreWords(args)
    ensures forall j :: 0 <= j < |ArgPieces(args)| ==> IsWordPiece(ArgPieces(args)[j])
  {
    if args != [] {
      ArgsAreWords(args[1..]);
    }
  }

  /** A printed command starts with the first character of a word. */
  lemma PrintedStarts(c: Command)
    requires IsPrintable(c) && c.stages != []
    ensures PrintedFrom(c, 0) != [] && !IsSpace(PrintedFrom(c, 0)[0])
  {
  }

  lemma BodyParses(c: Command)
    requires IsPrintable(c) && c.stages != []
    ensures var body := PrintedFrom(c, 0);
            IsFree(body, '#') && IsFree(body, '&') && Read(START, Tokens(body), c.background) == Ok(c)
  {
    hide Tokens, Read, PrintedFrom, IsFree;
    PrintedIsText(c, 0);
    PiecesAreWords(c, 0);
    TextsFree(PiecesFrom(c, 0));
    TextsTokens(PiecesFrom(c, 0));
    assert c.stages[..0] == [];
    ReadCommand(c, 0);
  }

  /** Parsing what has been printed gives the command back. */
  lemma PrintThenParse(c: Command)
    requires IsPrintable(c)
    ensures Parse(Printed(c)) == Ok(c)
  {
    hide Tokens, Read;
    if c.stages == [] {
      EmptyLine();
    } else {
      BodyParses(c);
      PrintedStarts(c);
      var body, line := PrintedFrom(c, 0), Printed(c);
      hide PrintedFrom;
      UncommentedFree(line);
      assert TrimLeft(line) == line;
      if c.background {
        TrimmedAmpersand(body, line);
        assert (body + "&")[..|body|] == body;
      } else {
        TrimRightTokens(line);
        TokensSpaceEnd(body, '\n');
        assert line == body + ['\n'];
        TrimRightStarts(line);
        var t := TrimRight(line);
        assert t[|t| - 1] == line[|t| - 1];
      }
    }
  }

  lemma TrimmedAmpersand(body: string, line: string)
    requires line == body + "&\n"
    ensures TrimRight(line) == body + "&"
  {
    assert line[..|line| - 1] == body + "&";
    assert TrimRight(line) == TrimRight(body + "&") == body + "&";
  }

  lemma EmptyLine()
    ensures Parse("\n") == Ok(Command([], None, None, false)) && Printed(Command([], None, None, false)) == "\n"
  {
  }

  lemma {:induction false} TrimRightStarts(s: string)
    requires s != [] && !IsSpace(s[0])
    ensures TrimRight(s) != []
    decreases |s|
  {
    if IsSpace(s[|s| - 1]) {
      TrimRightStarts(s[..|s| - 1]);
    }
  }

  // ---- the canonical form ----

  predicate AreWordTokens(tokens: seq<Token>)
  {
    forall i :: 0 <= i < |tokens| ==> tokens[i].Word? ==> IsWord(tokens[i].text)
  }

  lemma {:induction false} TokensAreWords(s: string)
    requires IsFree(s, '#')
    ensures AreWordTokens(Tokens(s))
    decreases |s|
  {
    if s != [] {
      var n := if IsSpace(s[0]) || s[0] == '<' || s[0] == '|' || s[0] == '&' then 1
               else if s[0] == '>' then (if |s| > 1 && s[1] == '>' then 2 else 1)
               else WordLength(s);
      TokensAreWords(s[n..]);
    }
  }

  /** Everything read so far can be printed. */
  predicate IsWordScan(st: Scan)
  {
    && (forall k :: 0 <= k < |st.stages| ==> st.stages[k] != [] && AreWords(st.stages[k])) && AreWords(st.current)
    && (st.input.Some? ==> IsWord(st.input.value)) && (st.output.Some? ==> IsWord(st.output.value.file))
  }

  lemma {:induction false} ReadIsPrintable(st: Scan, tokens: seq<Token>, background: bool)
    requires IsWordScan(st) && AreWordTokens(tokens) && Read(st, tokens, background).Ok?
    ensures IsPrintable(Read(st, tokens, background).command)
    decreases |tokens|
  {
    hide IsWord;
    if tokens != [] {
      var p := PiecesOf(tokens)[0];
      var n := |Phrase(p)|;
      assert tokens[0] == Phrase(p)[0] && (n == 2 ==> tokens[1] == Phrase(p)[1]);
      ReadIsPrintable(Eaten(st, p), tokens[n..], background);
    }
  }

  lemma {:induction false} UncommentedIsFree(s: string)
    ensures IsFree(Uncommented(s), '#')
  {
    if s != [] && s[0] != '#' {
      UncommentedIsFree(s[1..]);
    }
  }

  lemma {:induction false} TrimLeftIsFree(s: string)
    requires IsFree(s, '#')
    ensures IsFree(TrimLeft(s), '#')
  {
    if s != [] && IsSpace(s[0]) {
      TrimLeftIsFree(s[1..]);
    }
  }

  /** What is parsed can be printed, and its printed form is parsed to the same command. */
  lemma ParseThenPrint(line: string)
    requires Parse(line).Ok?
    ensures IsPrintable(Parse(line).command) && Parse(Printed(Parse(line).command)) == Parse(line)
  {
    hide Tokens, Read, IsWord, IsPrintable, Printed;
    UncommentedIsFree(line);
    TrimLeftIsFree(Uncommented(line));
    TrimRightTokens(TrimLeft(Uncommented(line)));
    var s := TrimRight(TrimLeft(Uncommented(line)));
    assert IsFree(s, '#');
    if s == [] {
      EmptyIsPrintable();
    } else if s[|s| - 1] == '&' {
      TokensAreWords(s[..|s| - 1]);
      ReadIsPrintable(START, Tokens(s[..|s| - 1]), true);
    } else {
      TokensAreWords(s);
      ReadIsPrintable(START, Tokens(s), false);
    }
    PrintThenParse(Parse(line).command);
  }

  lemma EmptyIsPrintable()
    ensures IsPrintable(Command([], None, None, false))
  {
  }
}
