/**
 What the parser makes of any line of text: comments and surrounding space do not count, which tokens a
 text consists of, and which error is reported for what is no command.
 */
module ShellLines {
  import opened Options
  import opened ShellGrammar

  // ---- comments and space ----

  /** What is kept of a line ends where the first comment sign stands. */
  lemma {:induction false} CommentIsCut(line: string, i: nat)
    requires i <= |line| && '#' !in line[..i] && (i < |line| ==> line[i] == '#')
    ensures Uncommented(line) == line[..i]
  {
    if i > 0 {
      assert line[0] == line[..i][0] && line[1..][..i - 1] == line[..i][1..];
      CommentIsCut(line[1..], i - 1);
    }
  }

  /** A comment says nothing. */
  lemma CommentIsIgnored(a: string, b: string)
    requires '#' !in a
    ensures Parse(a + "#" + b) == Parse(a)
  {
    assert (a + "#" + b)[..|a|] == a && a[..|a|] == a;
    CommentIsCut(a + "#" + b, |a|);
    CommentIsCut(a, |a|);
  }

  /** The six characters that are space, and those that end a word. */
  lemma SpaceIs(c: char)
    ensures IsSpace(c) <==> c in {' ', '\t', '\n', 11 as char, 12 as char, '\r'}
    ensures IsWordChar(c) <==> c !in {'<', '>', '|', '&', ' ', '\t', '\n', 11 as char, 12 as char, '\r'}
  {
  }

  predicate AreSpaces(s: string)
  {
    forall i :: 0 <= i < |s| ==> IsSpace(s[i])
  }

  /** A text that neither starts nor ends with space. */
  predicate IsTrim(s: string)
  {
    s != [] ==> !IsSpace(s[0]) && !IsSpace(s[|s| - 1])
  }

  lemma {:induction false} LeftSpace(sp: string, s: string)
    requires AreSpaces(sp) && (s != [] ==> !IsSpace(s[0]))
    ensures TrimLeft(sp + s) == s
  {
    if sp == [] {
      assert sp + s == s;
    } else {
      assert (sp + s)[1..] == sp[1..] + s;
      LeftSpace(sp[1..], s);
    }
  }

  lemma {:induction false} RightSpace(s: string, sp: string)
    requires AreSpaces(sp) && (s != [] ==> !IsSpace(s[|s| - 1]))
    ensures TrimRight(s + sp) == s
  {
    if sp == [] {
      assert s + sp == s;
    } else {
      var n := |sp| - 1;
      assert (s + sp)[..|s + sp| - 1] == s + sp[..n];
      RightSpace(s, sp[..n]);
    }
  }

  /**
   A line is read by what stands between its surrounding space and its comment: as a command in the
   background if that ends in an ampersand, which is no token then, and else as it is.
   */
  lemma LineIsBody(a: string, t: string, b: string, comment: string)
    requires AreSpaces(a) && IsTrim(t) && AreSpaces(b) && '#' !in t && (comment == [] || comment[0] == '#')
    ensures Parse(a + t + b + comment) ==
            if t == [] then Ok(Command([], None, None, false))
            else if t[|t| - 1] == '&' then Read(START, Tokens(t[..|t| - 1]), true)
            else Read(START, Tokens(t), false)
  {
    hide TrimLeft, TrimRight, Uncommented, Tokens, Read;
    var line, kept := a + t + b + comment, a + t + b;
    assert '#' !in kept;
    assert line[..|kept|] == kept;
    CommentIsCut(line, |kept|);
    if t == [] {
      assert kept == (a + b) + [];
      LeftSpace(a + b, []);
      RightSpace([], []);
      assert [] + [] == "";
    } else {
      assert kept == a + (t + b);
      LeftSpace(a, t + b);
      RightSpace(t, b);
    }
  }

  // ---- tokens ----

  /** No token reaches across this place. */
  predicate IsBreak(a: string, b: string)
  {
    a != [] && b != [] ==>
      var c, d := a[|a| - 1], b[0]; !(IsWordChar(c) && IsWordChar(d)) && !(c == '>' && d == '>')
  }

  lemma WordLengthAcross(a: string, b: string)
    requires IsBreak(a, b) && a != [] && IsWordChar(a[0])
    ensures WordLength(a + b) == WordLength(a)
  {
    var n := WordLength(a);
    assert forall i :: 0 <= i < |a| ==> (a + b)[i] == a[i];
    assert b != [] ==> (a + b)[|a|] == b[0];
    LongestWord(a + b, n);
  }

  lemma {:induction false} LongestWord(s: string, n: nat)
    requires n <= |s| && (forall i :: 0 <= i < n ==> IsWordChar(s[i])) && (n < |s| ==> !IsWordChar(s[n]))
    ensures WordLength(s) == n
  {
    if n > 0 {
      LongestWord(s[1..], n - 1);
    }
  }

  /** How much of a text its first token or space takes, and the token. */
  function HeadLength(s: string): (n: nat)
    requires s != []
    ensures 0 < n <= |s|
  {
    if IsWordChar(s[0]) then WordLength(s) else if |s| > 1 && s[0] == '>' && s[1] == '>' then 2 else 1
  }

  function Head(s: string): seq<Token>
    requires s != []
  {
    if IsSpace(s[0]) then []
    else if s[0] == '<' then [Less]
    else if s[0] == '>' then [if HeadLength(s) == 2 then GreatGreat else Great]
    else if s[0] == '|' then [Bar]
    else if s[0] == '&' then [Amp]
    else [Word(s[..HeadLength(s)])]
  }

  lemma TokensStep(s: string)
    requires s != []
    ensures Tokens(s) == Head(s) + Tokens(s[HeadLength(s)..])
  {
    hide WordLength;
  }

  lemma HeadAcross(a: string, b: string)
    requires IsBreak(a, b) && a != []
    ensures HeadLength(a + b) == HeadLength(a) && Head(a + b) == Head(a)
    ensures (a + b)[HeadLength(a)..] == a[HeadLength(a)..] + b && IsBreak(a[HeadLength(a)..], b)
  {
    hide WordLength;
    assert (a + b)[0] == a[0] && (|a| > 1 ==> (a + b)[1] == a[1]) && (|a| == 1 && b != [] ==> (a + b)[1] == b[0]);
    if IsWordChar(a[0]) {
      WordLengthAcross(a, b);
      assert (a + b)[..WordLength(a)] == a[..WordLength(a)];
    }
  }

  /** The tokens of two texts that meet at a break. */
  lemma {:induction false} TokensSplit(a: string, b: string)
    requires IsBreak(a, b)
    ensures Tokens(a + b) == Tokens(a) + Tokens(b)
    decreases |a|
  {
    hide Tokens, Head, IsBreak;
    if a == [] {
      NoTokens();
      assert a + b == b;
    } else {
      TokensStep(a);
      TokensStep(a + b);
      HeadAcross(a, b);
      TokensSplit(a[HeadLength(a)..], b);
    }
  }

  /** Space separates tokens and is none itself. */
  lemma SpaceSeparates(a: string, sp: char, b: string)
    requires IsSpace(sp)
    ensures Tokens(a + [sp] + b) == Tokens(a) + Tokens(b)
  {
    assert a + [sp] + b == a + ([sp] + b);
    TokensSplit(a, [sp] + b);
    assert ([sp] + b)[1..] == b;
  }

  /** A word by itself is one token. */
  lemma WordIsToken(w: string)
    requires w != [] && forall i :: 0 <= i < |w| ==> IsWordChar(w[i])
    ensures Tokens(w) == [Word(w)]
  {
    LongestWord(w, |w|);
    assert w[..|w|] == w && w[|w|..] == [];
  }

  /** The signs are tokens wherever they stand, with or without space around them. */
  lemma SignsAreTokens(a: string, b: string)
    ensures Tokens(a + "<" + b) == Tokens(a) + [Less] + Tokens(b)
    ensures Tokens(a + "|" + b) == Tokens(a) + [Bar] + Tokens(b)
    ensures Tokens(a + "&" + b) == Tokens(a) + [Amp] + Tokens(b)
    ensures (a == [] || a[|a| - 1] != '>') && (b == [] || b[0] != '>') ==>
              Tokens(a + ">" + b) == Tokens(a) + [Great] + Tokens(b)
    ensures a == [] || a[|a| - 1] != '>' ==> Tokens(a + ">>" + b) == Tokens(a) + [GreatGreat] + Tokens(b)
  {
    SignIsToken(a, "<", b);
    SignIsToken(a, "|", b);
    SignIsToken(a, "&", b);
    if a == [] || a[|a| - 1] != '>' {
      SignIsToken(a, ">", b);
      SignIsToken(a, ">>", b);
    }
  }

  lemma SignIsToken(a: string, sign: string, b: string)
    requires sign in {"<", "|", "&", ">", ">>"} && (sign[0] == '>' ==> a == [] || a[|a| - 1] != '>')
    ensures sign != ">" || b == [] || b[0] != '>' ==>
              Tokens(a + sign + b) == Tokens(a) + (match sign[0] case '<' => [Less] case '|' => [Bar] case '&' => [Amp]
                                                   case _ => if |sign| == 2 then [GreatGreat] else [Great]) + Tokens(b)
  {
    assert a + sign + b == a + (sign + b);
    TokensSplit(a, sign + b);
    assert (sign + b)[|sign|..] == b && (sign + b)[0] == sign[0];
    assert |sign| == 2 ==> (sign + b)[1] == '>';
    assert |sign| == 1 && b != [] ==> (sign + b)[1] == b[0];
  }

  // ---- errors ----

  predicate HasInput(ps: seq<Piece>)
  {
    exists i :: 0 <= i < |ps| && ps[i].From?
  }

  predicate HasOutput(ps: seq<Piece>)
  {
    exists i :: 0 <= i < |ps| && ps[i].Into?
  }

  predicate HasPipe(ps: seq<Piece>)
  {
    exists i :: 0 <= i < |ps| && ps[i].Pipe?
  }

  /** No argument stands behind the last pipe. */
  predicate LacksArgument(ps: seq<Piece>)
  {
    forall i :: 0 <= i < |ps| && ps[i].Arg? ==> exists j :: i < j < |ps| && ps[j].Pipe?
  }

  /** After the start `ps` of a command line the tokens `rest` cannot go on, and the error says why. */
  predicate IsOffence(ps: seq<Piece>, rest: seq<Token>, background: bool, code: nat)
  {
    var named := |rest| > 1 && rest[1].Word?;
    if rest == [] then
      if HasPipe(ps) then LacksArgument(ps) && code == 3
      else LacksArgument(ps) && (ps != [] || background) && code == 7
    else
      match rest[0]
      case Word(_) => false
      case Amp => code == 4
      case Less => if HasInput(ps) || HasPipe(ps) then code == 1 else !named && code == 5
      case Great => if HasOutput(ps) then code == 2 else !named && code == 6
      case GreatGreat => if HasOutput(ps) then code == 2 else !named && code == 6
      case Bar => if HasOutput(ps) then code == 2 else LacksArgument(ps) && code == 3
  }

  lemma {:induction false} LacksIsEmpty(ps: seq<Piece>)
    ensures LacksArgument(ps) <==> StateOf(ps).current == []
    decreases |ps|
  {
    hide Split, AllArgs, Args, InputOf, OutputOf;
    if ps == [] {
      StartState();
    } else {
      var n := |ps| - 1;
      var qs := ps[..n];
      assert ps == qs + [ps[n]];
      StateStep(qs, ps[n]);
      LacksIsEmpty(qs);
      LacksStep(qs, ps[n]);
    }
  }

  lemma StartState()
    ensures StateOf([]) == START && IsStart([])
  {
  }

  lemma LacksStep(ps: seq<Piece>, p: Piece)
    ensures LacksArgument(ps + [p]) <==> p.Pipe? || (!p.Arg? && LacksArgument(ps))
  {
    var qs := ps + [p];
    assert forall i :: 0 <= i < |ps| ==> qs[i] == ps[i];
    assert qs[|ps|] == p;
    if p.Arg? {
      assert !LacksArgument(qs);
    } else if p.Pipe? {
      assert LacksArgument(qs);
    } else if LacksArgument(qs) {
      forall i | 0 <= i < |ps| && ps[i].Arg?
        ensures exists j :: i < j < |ps| && ps[j].Pipe?
      {
        var j :| i < j < |qs| && qs[j].Pipe?;
        assert ps[j].Pipe?;
      }
    } else {
      var i :| 0 <= i < |ps| && ps[i].Arg? && !(exists j :: i < j < |ps| && ps[j].Pipe?);
      assert qs[i].Arg? && !(exists j :: i < j < |qs| && qs[j].Pipe?);
    }
  }

  /** What the reader knows of the start of a command line. */
  lemma KnownOf(ps: seq<Piece>)
    ensures StateOf(ps).input.Some? <==> HasInput(ps)
    ensures StateOf(ps).output.Some? <==> HasOutput(ps)
    ensures StateOf(ps).stages != [] <==> HasPipe(ps)
    ensures StateOf(ps).current == [] <==> LacksArgument(ps)
  {
    SplitFacts(ps);
    LacksIsEmpty(ps);
  }

  lemma {:induction false} ReadOn(ps: seq<Piece>, rest: seq<Token>, background: bool)
    requires IsStart(ps)
    ensures Read(START, Phrases(ps) + rest, background) == Read(StateOf(ps), rest, background)
    decreases |ps|
  {
    hide IsStart, StateOf, IsReadable;
    if ps == [] {
      StartState();
      assert Phrases(ps) + rest == rest;
    } else {
      var n := |ps| - 1;
      var qs, p := ps[..n], ps[n];
      assert ps == qs + [p];
      PrefixIsStart(qs, [p]);
      PhrasesEnd(qs, p);
      assert Phrases(ps) + rest == Phrases(qs) + (Phrase(p) + rest);
      ReadOn(qs, Phrase(p) + rest, background);
      ReadableIsStart(qs, p);
      StateStep(qs, p);
      ReadPhrase(StateOf(qs), p, rest, background);
    }
  }

  lemma {:induction false} PhrasesEnd(ps: seq<Piece>, p: Piece)
    ensures Phrases(ps + [p]) == Phrases(ps) + Phrase(p)
  {
    if ps == [] {
      assert ps + [p] == [p] && Phrases([p]) == Phrase(p) + [];
    } else {
      assert (ps + [p])[1..] == ps[1..] + [p];
      PhrasesEnd(ps[1..], p);
    }
  }

  lemma ReadPhrase(st: Scan, p: Piece, rest: seq<Token>, background: bool)
    requires IsReadable(st, p)
    ensures Read(st, Phrase(p) + rest, background) == Read(Eaten(st, p), rest, background)
  {
    var tokens := Phrase(p) + rest;
    assert tokens[|Phrase(p)|..] == rest && tokens[0] == Phrase(p)[0];
    assert |Phrase(p)| == 2 ==> tokens[1] == Phrase(p)[1];
  }

  /** Each error is reported where it is due. */
  lemma OffenceIsReported(ps: seq<Piece>, rest: seq<Token>, background: bool, code: nat)
    requires IsStart(ps) && IsOffence(ps, rest, background, code)
    ensures Read(START, Phrases(ps) + rest, background) == Err(code)
  {
    hide IsStart, Split, AllArgs, Args, InputOf, OutputOf, HasInput, HasOutput, HasPipe, LacksArgument;
    ReadOn(ps, rest, background);
    KnownOf(ps);
    if rest == [] && !HasPipe(ps) && ps != [] {
      OnlyFiles(ps);
    }
  }

  /** A line of one stage that lacks an argument and is not empty names a file. */
  lemma OnlyFiles(ps: seq<Piece>)
    requires ps != [] && LacksArgument(ps) && !HasPipe(ps)
    ensures HasInput(ps) || HasOutput(ps)
  {
    assert !ps[0].Pipe? && !ps[0].Arg?;
  }

  /** The phrase that the tokens start with. */
  function PieceAt(tokens: seq<Token>): (p: Option<Piece>)
    ensures p.Some? ==> |Phrase(p.value)| <= |tokens| && tokens == Phrase(p.value) + tokens[|Phrase(p.value)|..]
  {
    if tokens == [] || tokens[0].Amp? then None
    else if tokens[0].Word? then Some(Arg(tokens[0].text))
    else if tokens[0].Bar? then Some(Pipe)
    else if |tokens| < 2 || !tokens[1].Word? then None
    else
      var w := tokens[1].text;
      match tokens[0]
      case Less => Some(From(w))
      case Great => Some(Into(w, false))
      case _ => Some(Into(w, true))
  }

  lemma StuckIsOffence(ps: seq<Piece>, tokens: seq<Token>, background: bool)
    requires Read(StateOf(ps), tokens, background).Err?
    requires var p := PieceAt(tokens); p.Some? ==> !IsReadable(StateOf(ps), p.value)
    ensures IsOffence(ps, tokens, background, Read(StateOf(ps), tokens, background).code)
  {
    hide StateOf, HasInput, HasOutput, HasPipe, LacksArgument;
    KnownOf(ps);
    SomeGiven(ps);
  }

  /** And no other error is: a line that is rejected goes wrong in one of these ways. */
  lemma {:induction false} RejectedIsOffence(ps: seq<Piece>, tokens: seq<Token>, background: bool)
    returns (qs: seq<Piece>, rest: seq<Token>)
    requires IsStart(ps) && Read(StateOf(ps), tokens, background).Err?
    ensures Phrases(qs) + rest == Phrases(ps) + tokens && IsStart(qs)
    ensures IsOffence(qs, rest, background, Read(StateOf(ps), tokens, background).code)
    decreases |tokens|
  {
    hide IsStart, StateOf, IsOffence, Read, IsReadable, PieceAt, Phrases;
    var head := PieceAt(tokens);
    if head.Some? && IsReadable(StateOf(ps), head.value) {
      var p := head.value;
      var n := |Phrase(p)|;
      ReadableIsStart(ps, p);
      StateStep(ps, p);
      ReadPhrase(StateOf(ps), p, tokens[n..], background);
      qs, rest := RejectedIsOffence(ps + [p], tokens[n..], background);
      PhrasesEnd(ps, p);
    } else {
      qs, rest := ps, tokens;
      StuckIsOffence(ps, tokens, background);
    }
  }

  lemma SomeGiven(ps: seq<Piece>)
    ensures HasInput(ps) || HasOutput(ps) || HasPipe(ps) ==> ps != []
  {
  }
}
