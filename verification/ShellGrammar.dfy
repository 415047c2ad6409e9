/** The language of the shell's command lines, the meaning of a line, and how a command is printed. */
module ShellGrammar {
  import opened Options

  datatype Output = Output(file: string, append: bool)

  /** A parsed command line; without stages it is an empty line. */
  datatype Command = Command(stages: seq<seq<string>>, input: Option<string>, output: Option<Output>, background: bool)

  datatype Parsed = Ok(command: Command) | Err(code: nat)

  // The error codes of src/shell/parser.h
  const UNEXPECTED_FILE_INPUT := 1
  const UNEXPECTED_FILE_OUTPUT := 2
  const UNEXPECTED_PIPELINE := 3
  const UNEXPECTED_AMPERSAND := 4
  const EXPECT_INPUT_FILENAME := 5
  const EXPECT_OUTPUT_FILENAME := 6
  const EXPECT_COMMANDS := 7

  // ---- characters and tokens ----

  predicate IsSpace(c: char)
  {
    c == ' ' || '\t' <= c <= '\r'
  }

  predicate IsWordChar(c: char)
  {
    c != '<' && c != '>' && c != '|' && c != '&' && !IsSpace(c)
  }

  datatype Token = Word(text: string) | Less | Great | GreatGreat | Bar | Amp

  /** The length of the word at the start of `s`. */
  function WordLength(s: string): (n: nat)
    ensures n <= |s| && (forall i :: 0 <= i < n ==> IsWordChar(s[i])) && (n < |s| ==> !IsWordChar(s[n]))
  {
    if s == [] || !IsWordChar(s[0]) then 0 else 1 + WordLength(s[1..])
  }

  function Tokens(s: string): seq<Token>
    decreases |s|
  {
    if s == [] then []
    else if IsSpace(s[0]) then Tokens(s[1..])
    else if s[0] == '<' then [Less] + Tokens(s[1..])
    else if s[0] == '>' then
      if |s| > 1 && s[1] == '>' then [GreatGreat] + Tokens(s[2..]) else [Great] + Tokens(s[1..])
    else if s[0] == '|' then [Bar] + Tokens(s[1..])
    else if s[0] == '&' then [Amp] + Tokens(s[1..])
    else [Word(s[..WordLength(s)])] + Tokens(s[WordLength(s)..])
  }

  // ---- the meaning of a token sequence ----

  /** What has been read so far: complete stages, the stage under way, the files. */
  datatype Scan = Scan(stages: seq<seq<string>>, current: seq<string>, input: Option<string>, output: Option<Output>)

  const START := Scan([], [], None, None)

  function Finish(st: Scan, background: bool): Parsed
  {
    if st.stages == [] && st.current == [] then
      if background || st.input.Some? || st.output.Some? then Err(EXPECT_COMMANDS)
        else Ok(Command([], None, None, false))
    else if st.current == [] then Err(UNEXPECTED_PIPELINE)
    else Ok(Command(st.stages + [st.current], st.input, st.output, background))
  }

  function Read(st: Scan, tokens: seq<Token>, background: bool): Parsed
    decreases |tokens|
  {
    if tokens == [] then Finish(st, background)
    else
      var named := |tokens| > 1 && tokens[1].Word?;
      match tokens[0]
      case Amp => Err(UNEXPECTED_AMPERSAND)
      case Less =>
        if st.stages != [] || st.input.Some? then Err(UNEXPECTED_FILE_INPUT)
        else if !named then Err(EXPECT_INPUT_FILENAME)
        else Read(st.(input := Some(tokens[1].text)), tokens[2..], background)
      case Great =>
        if st.output.Some? then Err(UNEXPECTED_FILE_OUTPUT)
        else if !named then Err(EXPECT_OUTPUT_FILENAME)
        else Read(st.(output := Some(Output(tokens[1].text, false))), tokens[2..], background)
      case GreatGreat =>
        if st.output.Some? then Err(UNEXPECTED_FILE_OUTPUT)
        else if !named then Err(EXPECT_OUTPUT_FILENAME)
        else Read(st.(output := Some(Output(tokens[1].text, true))), tokens[2..], background)
      case Bar =>
        if st.output.Some? then Err(UNEXPECTED_FILE_OUTPUT)
        else if st.current == [] then Err(UNEXPECTED_PIPELINE)
        else Read(st.(stages := st.stages + [st.current], current := []), tokens[1..], background)
      case Word(w) => Read(st.(current := st.current + [w]), tokens[1..], background)
  }

  // ---- lines ----

  /** The line up to the comment sign. */
  function Uncommented(s: string): string
  {
    if s == [] || s[0] == '#' then [] else [s[0]] + Uncommented(s[1..])
  }

  function TrimLeft(s: string): string
  {
    if s == [] || !IsSpace(s[0]) then s else TrimLeft(s[1..])
  }

  function TrimRight(s: string): string
  {
    if s == [] || !IsSpace(s[|s| - 1]) then s else TrimRight(s[..|s| - 1])
  }

  function ParseBody(s: string): Parsed
  {
    if s == [] then Ok(Command([], None, None, false))
    else if s[|s| - 1] == '&' then Read(START, Tokens(s[..|s| - 1]), true)
    else Read(START, Tokens(s), false)
  }

  function Parse(line: string): Parsed
  {
    ParseBody(TrimRight(TrimLeft(Uncommented(line))))
  }

  // ---- the grammar ----

  /** The phrases of a command line. */
  datatype Piece = Arg(word: string) | From(word: string) | Into(word: string, append: bool) | Pipe

  function Phrase(p: Piece): seq<Token>
  {
    match p
    case Arg(w) => [Word(w)]
    case From(w) => [Less, Word(w)]
    case Into(w, append) => [if append then GreatGreat else Great, Word(w)]
    case Pipe => [Bar]
  }

  function Phrases(ps: seq<Piece>): seq<Token>
  {
    if ps == [] then [] else Phrase(ps[0]) + Phrases(ps[1..])
  }

  /** The stages of a pipeline. */
  function Split(ps: seq<Piece>): (r: seq<seq<Piece>>)
    ensures r != []
  {
    if ps == [] then [[]]
    else
      var n := |ps| - 1;
      var r := Split(ps[..n]);
      if ps[n].Pipe? then r + [[]] else r[|r| - 1 := r[|r| - 1] + [ps[n]]]
  }

  function Args(stage: seq<Piece>): seq<string>
  {
    if stage == [] then []
    else
      var n := |stage| - 1;
      Args(stage[..n]) + if stage[n].Arg? then [stage[n].word] else []
  }

  function AllArgs(stages: seq<seq<Piece>>): (r: seq<seq<string>>)
    ensures |r| == |stages|
  {
    seq(|stages|, i requires 0 <= i < |stages| => Args(stages[i]))
  }

  function InputOf(ps: seq<Piece>): Option<string>
  {
    if ps == [] then None
    else
      var n := |ps| - 1;
      if ps[n].From? then Some(ps[n].word) else InputOf(ps[..n])
  }

  function OutputOf(ps: seq<Piece>): Option<Output>
  {
    if ps == [] then None
    else
      var n := |ps| - 1;
      if ps[n].Into? then Some(Output(ps[n].word, ps[n].append)) else OutputOf(ps[..n])
  }

  /**
   `b` may come somewhere behind `a`: one input file and that in the first stage, one output file
   and that in the last.
   */
  predicate IsCompatible(a: Piece, b: Piece)
  {
    !(b.From? && (a.From? || a.Pipe?)) && !(a.Into? && (b.Into? || b.Pipe?))
  }

  ghost predicate AreCompatible(ps: seq<Piece>)
  {
    forall i, j :: 0 <= i < j < |ps| ==> IsCompatible(ps[i], ps[j])
  }

  /** A command line: every stage has an argument. */
  ghost predicate IsSentence(ps: seq<Piece>)
  {
    AreCompatible(ps) && forall k :: 0 <= k < |Split(ps)| ==> Args(Split(ps)[k]) != []
  }

  function Meaning(ps: seq<Piece>, background: bool): Command
  {
    Command(AllArgs(Split(ps)), InputOf(ps), OutputOf(ps), background)
  }

  /** What the reader knows after some phrases. */
  function StateOf(ps: seq<Piece>): Scan
  {
    var r := AllArgs(Split(ps));
    Scan(r[..|r| - 1], r[|r| - 1], InputOf(ps), OutputOf(ps))
  }

  /** The start of a sentence: every stage but the last one has an argument. */
  ghost predicate IsStart(ps: seq<Piece>)
  {
    AreCompatible(ps) && forall k :: 0 <= k < |Split(ps)| - 1 ==> Args(Split(ps)[k]) != []
  }

  function Eaten(st: Scan, p: Piece): Scan
  {
    match p
    case Arg(w) => st.(current := st.current + [w])
    case From(w) => st.(input := Some(w))
    case Into(w, append) => st.(output := Some(Output(w, append)))
    case Pipe => st.(stages := st.stages + [st.current], current := [])
  }

  lemma StateStep(ps: seq<Piece>, p: Piece)
    ensures StateOf(ps + [p]) == Eaten(StateOf(ps), p)
  {
    var qs := ps + [p];
    assert qs[..|ps|] == ps && qs[|ps|] == p;
    var r := Split(ps);
    var last := r[|r| - 1];
    if p.Pipe? {
      assert Split(qs) == r + [[]];
      assert AllArgs(Split(qs)) == AllArgs(r) + [[]];
    } else {
      assert Split(qs) == r[|r| - 1 := last + [p]];
      assert (last + [p])[..|last|] == last;
      assert Args(last + [p]) == Args(last) + if p.Arg? then [p.word] else [];
      assert AllArgs(Split(qs)) == AllArgs(r)[|r| - 1 := Args(last + [p])];
    }
  }

  /** When the reader accepts the next phrase. */
  predicate IsReadable(st: Scan, p: Piece)
  {
    match p
    case Arg(_) => true
    case From(_) => st.stages == [] && st.input.None?
    case Into(_, _) => st.output.None?
    case Pipe => st.output.None? && st.current != []
  }

  lemma ReadStep(st: Scan, p: Piece, rest: seq<Piece>, background: bool)
    ensures IsReadable(st, p) ==>
              Read(st, Phrases([p] + rest), background) == Read(Eaten(st, p), Phrases(rest), background)
    ensures !IsReadable(st, p) ==> Read(st, Phrases([p] + rest), background).Err?
  {
  }

  lemma {:induction false} SplitFacts(ps: seq<Piece>)
    ensures InputOf(ps).None? <==> forall i :: 0 <= i < |ps| ==> !ps[i].From?
    ensures OutputOf(ps).None? <==> forall i :: 0 <= i < |ps| ==> !ps[i].Into?
    ensures |Split(ps)| == 1 <==> forall i :: 0 <= i < |ps| ==> !ps[i].Pipe?
    decreases |ps|
  {
    if ps != [] {
      SplitFacts(ps[..|ps| - 1]);
    }
  }

  /** The stages before the last one stay as they are when the line goes on. */
  lemma {:induction false} SplitPrefix(ps: seq<Piece>, rest: seq<Piece>)
    ensures |Split(ps)| <= |Split(ps + rest)|
    ensures forall k :: 0 <= k < |Split(ps)| - 1 ==> Split(ps + rest)[k] == Split(ps)[k]
    decreases |rest|
  {
    if rest == [] {
      assert ps + rest == ps;
    } else {
      var n := |rest| - 1;
      SplitPrefix(ps, rest[..n]);
      var qs := ps + rest;
      assert qs[..|qs| - 1] == ps + rest[..n];
    }
  }

  lemma PrefixIsStart(ps: seq<Piece>, rest: seq<Piece>)
    requires IsSentence(ps + rest) || IsStart(ps + rest)
    ensures IsStart(ps)
  {
    SplitPrefix(ps, rest);
    var qs := ps + rest;
    forall i, j | 0 <= i < j < |ps|
      ensures IsCompatible(ps[i], ps[j])
    {
      assert qs[i] == ps[i] && qs[j] == ps[j];
    }
    forall k | 0 <= k < |Split(ps)| - 1
      ensures Args(Split(ps)[k]) != []
    {
      assert Split(qs)[k] == Split(ps)[k];
    }
  }

  /** The reader accepts the next phrase exactly if the line so far is still the start of a sentence. */
  lemma ReadableIsStart(ps: seq<Piece>, p: Piece)
    requires IsStart(ps)
    ensures IsReadable(StateOf(ps), p) <==> IsStart(ps + [p])
  {
    SplitFacts(ps);
    var qs := ps + [p];
    assert qs[..|ps|] == ps;
    CompatibleStep(ps, p);
    var r := Split(ps);
    assert Split(qs) == if p.Pipe? then r + [[]] else r[|r| - 1 := r[|r| - 1] + [p]];
    if p.Pipe? {
      assert Split(qs)[|r| - 1] == r[|r| - 1];
    }
  }

  lemma StartGoesOn(ps: seq<Piece>)
    requires IsStart(ps)
    ensures IsSentence(ps + [Arg("a")])
  {
    var p := Arg("a");
    var qs, r := ps + [p], Split(ps);
    assert qs[..|ps|] == ps;
    CompatibleStep(ps, p);
    var last := r[|r| - 1];
    assert Split(qs) == r[|r| - 1 := last + [p]];
    assert (last + [p])[..|last|] == last;
    assert Args(last + [p]) == Args(last) + ["a"];
  }

  /** A start is what some sentence starts with. */
  lemma StartIffSentence(ps: seq<Piece>)
    ensures IsStart(ps) <==> exists rest :: IsSentence(ps + rest)
  {
    if IsStart(ps) {
      StartGoesOn(ps);
    }
    if rest :| IsSentence(ps + rest) {
      PrefixIsStart(ps, rest);
    }
  }

  /** The reader accepts the next phrase exactly if some sentence starts that way. */
  lemma ReadableIffSentence(ps: seq<Piece>, p: Piece)
    requires IsStart(ps)
    ensures IsReadable(StateOf(ps), p) <==> exists rest :: IsSentence(ps + [p] + rest)
  {
    hide IsStart, IsSentence, IsReadable;
    ReadableIsStart(ps, p);
    StartIffSentence(ps + [p]);
  }

  lemma CompatibleStep(ps: seq<Piece>, p: Piece)
    requires AreCompatible(ps)
    ensures AreCompatible(ps + [p]) <==> forall i :: 0 <= i < |ps| ==> IsCompatible(ps[i], p)
  {
    var qs := ps + [p];
    assert forall i :: 0 <= i < |ps| ==> qs[i] == ps[i];
    if AreCompatible(qs) {
      forall i | 0 <= i < |ps|
        ensures IsCompatible(ps[i], p)
      {
        assert IsCompatible(qs[i], qs[|ps|]);
      }
    }
  }

  /** Reading on from the start of a sentence. */
  lemma {:induction false} ReadPieces(ps: seq<Piece>, rest: seq<Piece>, background: bool)
    requires IsStart(ps)
    ensures var r := Read(StateOf(ps), Phrases(rest), background);
            if IsSentence(ps + rest) then r == Ok(Meaning(ps + rest, background))
              else r.Err? || r == Ok(Command([], None, None, false))
    decreases |rest|
  {
    if rest == [] {
      assert ps + rest == ps;
      ReadEnd(ps, background);
    } else {
      var p := rest[0];
      assert rest == [p] + rest[1..];
      assert ps + rest == ps + [p] + rest[1..];
      ReadStep(StateOf(ps), p, rest[1..], background);
      ReadableIsStart(ps, p);
      if IsStart(ps + [p]) {
        StateStep(ps, p);
        ReadPieces(ps + [p], rest[1..], background);
      } else if IsSentence(ps + rest) {
        PrefixIsStart(ps + [p], rest[1..]);
      }
    }
  }

  lemma ReadEnd(ps: seq<Piece>, background: bool)
    requires IsStart(ps)
    ensures var r := Read(StateOf(ps), [], background);
            if IsSentence(ps) then r == Ok(Meaning(ps, background))
              else r.Err? || r == Ok(Command([], None, None, false))
  {
  }

  /** The phrases of a token sequence; tokens that fit into none are dropped. */
  function PiecesOf(tokens: seq<Token>): seq<Piece>
    decreases |tokens|
  {
    if tokens == [] then []
    else
      var named := |tokens| > 1 && tokens[1].Word?;
      match tokens[0]
      case Word(w) => [Arg(w)] + PiecesOf(tokens[1..])
      case Bar => [Pipe] + PiecesOf(tokens[1..])
      case Less => if named then [From(tokens[1].text)] + PiecesOf(tokens[2..]) else PiecesOf(tokens[1..])
      case Great => if named then [Into(tokens[1].text, false)] + PiecesOf(tokens[2..]) else PiecesOf(tokens[1..])
      case GreatGreat => if named then [Into(tokens[1].text, true)] + PiecesOf(tokens[2..]) else PiecesOf(tokens[1..])
      case Amp => PiecesOf(tokens[1..])
  }

  lemma {:induction false} AcceptedIsPhrases(st: Scan, tokens: seq<Token>, background: bool)
    requires Read(st, tokens, background).Ok?
    ensures Phrases(PiecesOf(tokens)) == tokens
    decreases |tokens|
  {
    if tokens != [] {
      var p := PiecesOf(tokens)[0];
      var n := |Phrase(p)|;
      assert tokens == Phrase(p) + tokens[n..];
      assert PiecesOf(tokens)[1..] == PiecesOf(tokens[n..]);
      AcceptedIsPhrases(Eaten(st, p), tokens[n..], background);
    }
  }

  /**
   A token sequence is accepted as a command if and only if it consists of phrases that make
   a sentence, and the command is what the sentence means.
   */
  lemma GrammarIsRead(tokens: seq<Token>, background: bool)
    ensures var r := Read(START, tokens, background);
            && ((r.Ok? && r.command.stages != []) <==> exists ps :: Phrases(ps) == tokens && IsSentence(ps))
            && (forall ps :: Phrases(ps) == tokens && IsSentence(ps) ==> r == Ok(Meaning(ps, background)))
  {
    var r := Read(START, tokens, background);
    assert StateOf([]) == START && IsStart([]);
    forall ps | Phrases(ps) == tokens
      ensures if IsSentence(ps) then r == Ok(Meaning(ps, background))
                else r.Err? || r == Ok(Command([], None, None, false))
    {
      assert [] + ps == ps;
      ReadPieces([], ps, background);
    }
    if r.Ok? {
      AcceptedIsPhrases(START, tokens, background);
    }
  }

  /** What is left of a line when comment and surrounding space are gone. */
  function Body(line: string): string
  {
    TrimRight(TrimLeft(Uncommented(line)))
  }

  /** The tokens of a line without the final ampersand, which makes the command a background one. */
  function BodyTokens(line: string): (seq<Token>, bool)
  {
    var s := Body(line);
    if s != [] && s[|s| - 1] == '&' then (Tokens(s[..|s| - 1]), true) else (Tokens(s), false)
  }

  /** A line is a command if and only if its tokens are the phrases of a sentence, and the command is its meaning. */
  lemma LineIsParsed(line: string)
    ensures var (tokens, background) := BodyTokens(line);
            && ((Parse(line).Ok? && Parse(line).command.stages != []) <==>
                exists ps :: Phrases(ps) == tokens && IsSentence(ps))
            && (forall ps :: Phrases(ps) == tokens && IsSentence(ps) ==> Parse(line) == Ok(Meaning(ps, background)))
  {
    hide Read, Tokens, IsSentence, Meaning, Phrases, Uncommented, TrimLeft, TrimRight;
    var (tokens, background) := BodyTokens(line);
    GrammarIsRead(tokens, background);
    if Body(line) == [] {
      NoTokens();
      NoEmptySentence();
    }
  }

  lemma NoTokens()
    ensures Tokens([]) == []
  {
  }

  lemma NoEmptySentence()
    ensures forall ps :: Phrases(ps) == [] ==> !IsSentence(ps)
  {
    assert Split([]) == [[]] && Args([]) == [];
    assert Args(Split([])[0]) == [];
    assert forall ps :: ps != [] ==> Phrase(ps[0]) != [] && Phrases(ps) != [];
    assert !IsSentence([]);
  }
}
