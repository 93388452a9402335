/** The command splitter of internal/telegram/parse.go. */
module Tokenizer {

  /** The locals of tokenize. */
  datatype Lexer = Lexer(out: seq<string>, cur: string, inSingle: bool, inDouble: bool)

  predicate IsSpace(c: char) {
    c == ' ' || c == '\t' || c == '\n'
  }

  function Flush(l: Lexer): Lexer {
    if l.cur == [] then l else l.(out := l.out + [l.cur], cur := [])
  }

  function Step(l: Lexer, c: char): Lexer {
    if c == '\'' && !l.inDouble then l.(inSingle := !l.inSingle)
    else if c == '"' && !l.inSingle then l.(inDouble := !l.inDouble)
    else if IsSpace(c) && !l.inSingle && !l.inDouble then Flush(l)
    else l.(cur := l.cur + [c])
  }

  function Run(l: Lexer, s: string): Lexer
    decreases |s|
  {
    if s == [] then l else Run(Step(l, s[0]), s[1..])
  }

  const START := Lexer([], [], false, false)

  function Tokens(s: string): seq<string> {
    Flush(Run(START, s)).out
  }

  method Tokenize(s: string) returns (out: seq<string>)
    ensures out == Tokens(s)
  {
    out := [];
    var cur := [];
    var inSingle, inDouble := false, false;
    for i := 0 to |s|
      invariant Run(Lexer(out, cur, inSingle, inDouble), s[i..]) == Run(START, s)
    {
      var r := s[i];
      assert s[i..][0] == r && s[i..][1..] == s[i + 1..];
      if r == '\'' && !inDouble {
        inSingle := !inSingle;
      } else if r == '"' && !inSingle {
        inDouble := !inDouble;
      } else if IsSpace(r) && !inSingle && !inDouble {
        if cur != [] {
          out := out + [cur];
          cur := [];
        }
      } else {
        cur := cur + [r];
      }
    }
    if cur != [] {
      out := out + [cur];
    }
  }

  method ParseCommand(text: string, lower: string -> string) returns (cmd: string, args: seq<string>)
    ensures Tokens(text) == [] ==> cmd == "" && args == []
    ensures Tokens(text) != [] ==> cmd == lower(Tokens(text)[0]) && args == Tokens(text)[1..]
  {
    var fields := Tokenize(text);
    if fields == [] {
      return "", [];
    }
    return lower(fields[0]), fields[1..];
  }

  // ---------- printing ----------

  /** A stretch of an argument, bare or in quotes of one kind. */
  datatype Segment = Bare(text: string) | Single(text: string) | Double(text: string)
  {
    predicate Valid() {
      match this
      case Bare(t) => forall c :: c in t ==> c !in "'\" \t\n"
      case Single(t) => '\'' !in t
      case Double(t) => '"' !in t
    }

    function Show(): string {
      match this
      case Bare(t) => t
      case Single(t) => "'" + t + "'"
      case Double(t) => "\"" + t + "\""
    }
  }

  /** An argument as it is typed: segments one after the other. */
  type Word = seq<Segment>

  predicate ValidWord(w: Word) {
    forall g :: g in w ==> g.Valid()
  }

  function Text(w: Word): string {
    if w == [] then [] else w[0].text + Text(w[1..])
  }

  function ShowWord(w: Word): string {
    if w == [] then [] else w[0].Show() + ShowWord(w[1..])
  }

  predicate AllSpace(s: string) {
    forall c :: c in s ==> c in " \t\n"
  }

  /** gaps[i] follows word i; only the gap after the last may be empty. */
  predicate ValidLine(words: seq<Word>, gaps: seq<string>) {
    && |gaps| == |words|
    && (forall w :: w in words ==> ValidWord(w))
    && (forall i :: 0 <= i < |gaps| ==> AllSpace(gaps[i]) && (i < |gaps| - 1 ==> gaps[i] != []))
  }

  function ShowLine(words: seq<Word>, gaps: seq<string>): string
    requires |gaps| == |words|
  {
    if words == [] then [] else ShowWord(words[0]) + (gaps[0] + ShowLine(words[1..], gaps[1..]))
  }

  /** The texts of the words, without those that are empty. */
  function Texts(words: seq<Word>): seq<string> {
    if words == [] then []
    else (if Text(words[0]) == [] then [] else [Text(words[0])]) + Texts(words[1..])
  }

  // ---------- lemmas ----------

  lemma {:induction false} RunConcat(l: Lexer, a: string, b: string)
    ensures Run(l, a + b) == Run(Run(l, a), b)
    decreases |a|
  {
    if a == [] {
      assert a + b == b;
    } else {
      assert (a + b)[0] == a[0] && (a + b)[1..] == a[1..] + b;
      RunConcat(Step(l, a[0]), a[1..], b);
    }
  }

  /** No character of t has a meaning where l stands. */
  predicate Literal(l: Lexer, t: string) {
    forall c :: c in t ==>
      if l.inSingle then c != '\'' else if l.inDouble then c != '"' else c != '\'' && c != '"' && !IsSpace(c)
  }

  lemma {:induction false} RunLiteral(l: Lexer, t: string)
    requires Literal(l, t) && !(l.inSingle && l.inDouble)
    ensures Run(l, t) == l.(cur := l.cur + t)
    decreases |t|
  {
    if t == [] {
      assert l.cur + t == l.cur;
    } else {
      assert t[0] in t && forall c :: c in t[1..] ==> c in t;
      var m := l.(cur := l.cur + [t[0]]);
      RunLiteral(m, t[1..]);
      assert m.cur + t[1..] == l.cur + t;
    }
  }

  predicate Outside(l: Lexer) {
    !l.inSingle && !l.inDouble
  }

  lemma {:induction false} RunSegment(l: Lexer, g: Segment)
    requires Outside(l) && g.Valid()
    ensures Run(l, g.Show()) == l.(cur := l.cur + g.text)
  {
    match g
    case Bare(t) => RunLiteral(l, t);
    case Single(t) => RunQuoted(l, l.(inSingle := true), "'", t);
    case Double(t) => RunQuoted(l, l.(inDouble := true), "\"", t);
  }

  lemma {:induction false} RunQuoted(l: Lexer, m: Lexer, q: string, t: string)
    requires Outside(l)
    requires (q == "'" && m == l.(inSingle := true)) || (q == "\"" && m == l.(inDouble := true))
    requires Literal(m, t)
    ensures Run(l, q + t + q) == l.(cur := l.cur + t)
  {
    RunConcat(l, q + t, q);
    RunConcat(l, q, t);
    assert q[1..] == [];
    assert Run(l, q) == m;
    RunLiteral(m, t);
    var n := m.(cur := m.cur + t);
    assert Run(n, q) == Step(n, q[0]);
  }

  lemma {:induction false} WordTail(cur: string, w: Word)
    requires ValidWord(w) && w != []
    ensures w[0].Valid() && ValidWord(w[1..])
    ensures (cur + w[0].text) + Text(w[1..]) == cur + Text(w)
  {
    assert w[0] in w && forall g :: g in w[1..] ==> g in w;
    var t, rest := w[0].text, Text(w[1..]);
    assert Text(w) == t + rest;
    hide Text, ValidWord;
    assert (cur + t) + rest == cur + (t + rest);
  }

  lemma {:induction false} RunWord(l: Lexer, w: Word)
    requires Outside(l) && ValidWord(w)
    ensures Run(l, ShowWord(w)) == l.(cur := l.cur + Text(w))
    decreases |w|
  {
    if w == [] {
      assert l.cur + [] == l.cur;
    } else {
      WordTail(l.cur, w);
      hide Run, Text, ValidWord;
      RunConcat(l, w[0].Show(), ShowWord(w[1..]));
      RunSegment(l, w[0]);
      RunWord(l.(cur := l.cur + w[0].text), w[1..]);
    }
  }

  lemma {:induction false} RunSpace(l: Lexer, s: string)
    requires Outside(l) && AllSpace(s)
    ensures Run(l, s) == if s == [] then l else Flush(l)
    decreases |s|
  {
    if s != [] {
      assert s[0] in s && forall c :: c in s[1..] ==> c in s;
      RunSpace(Flush(l), s[1..]);
    }
  }

  /** A word and the gap after it, before the rest of a line. */
  lemma {:induction false} RunWordAndGap(l: Lexer, w: Word, gap: string, rest: string)
    requires Outside(l) && l.cur == [] && ValidWord(w) && AllSpace(gap)
    ensures var m := l.(cur := Text(w));
            Run(l, ShowWord(w) + (gap + rest)) == Run(if gap == [] then m else Flush(m), rest)
  {
    hide Run, Text, ValidWord, AllSpace;
    RunConcat(l, ShowWord(w), gap + rest);
    RunWord(l, w);
    assert l.cur + Text(w) == Text(w);
    RunConcat(l.(cur := Text(w)), gap, rest);
    RunSpace(l.(cur := Text(w)), gap);
  }

  lemma {:induction false} TextsHead(l: Lexer, words: seq<Word>)
    requires Outside(l) && l.cur == [] && words != []
    ensures Flush(l.(cur := Text(words[0]))).out + Texts(words[1..]) == l.out + Texts(words)
    ensures |words| == 1 ==> Flush(l.(cur := Text(words[0]))).out == l.out + Texts(words)
  {
    hide Text;
    assert |words| == 1 ==> Texts(words[1..]) == [];
  }

  lemma {:induction false} RunLine(l: Lexer, words: seq<Word>, gaps: seq<string>)
    requires Outside(l) && l.cur == [] && ValidLine(words, gaps)
    ensures Flush(Run(l, ShowLine(words, gaps))).out == l.out + Texts(words)
    decreases |words|
  {
    if words == [] {
      assert l.out + [] == l.out;
    } else {
      ValidTail(words, gaps);
      RunWordAndGap(l, words[0], gaps[0], ShowLine(words[1..], gaps[1..]));
      TextsHead(l, words);
      assert |words| == 1 ==> ShowLine(words[1..], gaps[1..]) == [];
      var m := l.(cur := Text(words[0]));
      assert Run(m, []) == m;
      hide Run, ShowWord, Text, ValidLine, Texts, ValidWord, AllSpace;
      if gaps[0] != [] {
        RunLine(Flush(m), words[1..], gaps[1..]);
      }
    }
  }

  lemma {:induction false} ValidTail(words: seq<Word>, gaps: seq<string>)
    requires ValidLine(words, gaps) && words != []
    ensures ValidWord(words[0]) && AllSpace(gaps[0]) && (gaps[0] == [] ==> |words| == 1)
    ensures ValidLine(words[1..], gaps[1..])
  {
    hide ValidWord, AllSpace;
    assert words[0] in words && forall w :: w in words[1..] ==> w in words;
  }

  /**
   * Tokenizing a line of arguments, each typed as any mixture of bare and
   * quoted segments and separated by white space, gives the arguments back;
   * those that are empty, though quoted, vanish.
   */
  lemma {:induction false} TokensOfLine(lead: string, words: seq<Word>, gaps: seq<string>)
    requires AllSpace(lead) && ValidLine(words, gaps)
    ensures Tokens(lead + ShowLine(words, gaps)) == Texts(words)
  {
    RunConcat(START, lead, ShowLine(words, gaps));
    RunSpace(START, lead);
    RunLine(START, words, gaps);
    assert [] + Texts(words) == Texts(words);
  }

  /** A quote left open at the end of a line is taken as closed there. */
  lemma OpenQuoteCloses(s: string)
    ensures var l := Run(START, s);
            && (l.inSingle ==> Tokens(s + "'") == Tokens(s))
            && (l.inDouble ==> Tokens(s + "\"") == Tokens(s))
            && !(l.inSingle && l.inDouble)
  {
    OneQuoteAtATime(START, s);
    RunConcat(START, s, "'");
    RunConcat(START, s, "\"");
    var l := Run(START, s);
    assert "'"[1..] == [] && "\""[1..] == [];
    assert Run(l, "'") == Step(l, '\'') && Run(l, "\"") == Step(l, '"');
  }

  lemma {:induction false} OneQuoteAtATime(l: Lexer, s: string)
    requires !(l.inSingle && l.inDouble)
    ensures !(Run(l, s).inSingle && Run(l, s).inDouble)
    decreases |s|
  {
    if s != [] {
      OneQuoteAtATime(Step(l, s[0]), s[1..]);
    }
  }

  /** Any text can be typed: every character in quotes it is not. */
  function Quoted(s: string): (w: Word)
    ensures ValidWord(w) && Text(w) == s
  {
    if s == [] then [] else [if s[0] == '"' then Single([s[0]]) else Double([s[0]])] + Quoted(s[1..])
  }

  function QuotedAll(args: seq<string>): (ws: seq<Word>)
    ensures |ws| == |args| && forall w :: w in ws ==> ValidWord(w)
  {
    if args == [] then [] else [Quoted(args[0])] + QuotedAll(args[1..])
  }

  lemma {:induction false} TextsOfQuoted(args: seq<string>)
    ensures Texts(QuotedAll(args)) == args <==> forall a :: a in args ==> a != []
    ensures |Texts(QuotedAll(args))| <= |args|
  {
    if args != [] {
      TextsOfQuoted(args[1..]);
      var ws := QuotedAll(args);
      assert ws[0] == Quoted(args[0]) && ws[1..] == QuotedAll(args[1..]);
      assert args == [args[0]] + args[1..];
      if args[0] == [] {
        assert |Texts(ws)| < |args|;
        assert args[0] in args;
      } else {
        assert Texts(ws) == [args[0]] + Texts(ws[1..]);
        assert Texts(ws)[1..] == Texts(ws[1..]);
        assert forall a :: a in args[1..] ==> a in args;
      }
    }
  }

  /** Quoting and tokenizing gives a list of arguments back exactly when none of them is empty. */
  lemma {:induction false} TokenizeInvertsQuoting(args: seq<string>)
    ensures Tokens(ShowLine(QuotedAll(args), seq(|args|, i => " "))) == args <==> forall a :: a in args ==> a != []
  {
    var gaps: seq<string> := seq(|args|, i => " ");
    TokensOfLine([], QuotedAll(args), gaps);
    assert [] + ShowLine(QuotedAll(args), gaps) == ShowLine(QuotedAll(args), gaps);
    TextsOfQuoted(args);
  }
}
