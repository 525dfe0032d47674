/**
 * What the reader promises: the shape of the tokens `lex` returns, the
 * positions it reports, the trailing word it drops, the depth counter of
 * `parse`, and the excess `)` that panics before the "many ')'" check.
 */
module ParserFacts {
  import opened Wrappers
  import opened Data
  import opened Parser

  /** Brackets, spaces and newlines never continue an identifier. */
  lemma SeparatorsAreNotId(c: char)
    requires c == '(' || c == ')' || c == ' ' || c == '\n'
    ensures !IsId(c) && !IsDigit(c)
  {
    assert c !in IdPunctuation by {
      assert forall i | 0 <= i < |IdPunctuation| :: IdPunctuation[i] != c;
    }
  }

  /** A number continues only with digits, and every digit is also an identifier character. */
  lemma WordCharIsId(kind: Kind, c: char)
    requires InWord(kind, c)
    ensures IsId(c) && c != '\n'
  {
  }

  /** The position after a run of characters none of which is a newline: the column moves by its length. */
  lemma {:induction false} AdvanceFlat(i: Info, s: string)
    requires forall k | 0 <= k < |s| :: s[k] != '\n'
    ensures Advance(i, s) == Info(i.line, i.col + |s|)
    decreases |s|
  {
    if s != [] {
      AdvanceFlat(Wider(i), s[1..]);
    }
  }

  /** Reading `s` then `t` reaches the position reached by reading `s + t`. */
  lemma {:induction false} AdvanceAppend(i: Info, s: string, t: string)
    ensures Advance(Advance(i, s), t) == Advance(i, s + t)
    decreases |s|
  {
    if s == [] {
      assert s + t == t;
    } else {
      assert (s + t)[0] == s[0];
      assert (s + t)[1..] == s[1..] + t;
      AdvanceAppend(if s[0] == '\n' then NextLine(i) else Wider(i), s[1..], t);
    }
  }

  /** Where the inner loop of `lex` stops: at the first character that does not continue the word, or at the end of the input. */
  lemma {:induction false} WordStops(src: string, pos: nat, info: Info, text: string, kind: Kind)
    requires pos <= |src|
    ensures var l := Word(src, pos, info, text, kind);
      && pos <= l.pos <= |src|
      && (forall k | pos <= k < l.pos :: InWord(kind, src[k]))
      && (l.pos < |src| ==> !InWord(kind, src[l.pos]))
      && (l.result.value.None? <==> l.pos == |src|)
    decreases |src| - pos
  {
    if pos < |src| && InWord(kind, src[pos]) {
      WordStops(src, pos + 1, Wider(info), text + [src[pos]], kind);
    }
  }

  /** The token the inner loop of `lex` returns: the word read so far, at the column just after it. */
  lemma {:induction false} WordToken(src: string, pos: nat, info: Info, text: string, kind: Kind)
    requires pos <= |src|
    ensures var l := Word(src, pos, info, text, kind);
      && l.info == Info(info.line, info.col + (l.pos - pos))
      && (l.result.value.Some? ==> l.result.value.value == Token(text + src[pos..l.pos], kind, l.info))
    decreases |src| - pos
  {
    if pos < |src| && InWord(kind, src[pos]) {
      WordToken(src, pos + 1, Wider(info), text + [src[pos]], kind);
      var l := Word(src, pos, info, text, kind);
      WordStops(src, pos + 1, Wider(info), text + [src[pos]], kind);
      assert src[pos..l.pos] == [src[pos]] + src[pos + 1..l.pos];
      assert text + [src[pos]] + src[pos + 1..l.pos] == text + src[pos..l.pos];
    }
  }

  /**
   * The inner loop of `lex` takes the longest run of characters that
   * continue the word; the token it returns is the word read so far, at the
   * position just after it, and a run that reaches the end of the input
   * gives no token.
   */
  lemma WordShape(src: string, pos: nat, info: Info, text: string, kind: Kind)
    requires pos <= |src|
    ensures var l := Word(src, pos, info, text, kind);
      && pos <= l.pos <= |src|
      && (forall k | pos <= k < l.pos :: InWord(kind, src[k]))
      && l.info == Advance(info, src[pos..l.pos])
      && (l.result.value.None? <==> l.pos == |src|)
      && (l.result.value.Some? ==>
            l.result.value.value == Token(text + src[pos..l.pos], kind, l.info) && !InWord(kind, src[l.pos]))
  {
    WordStops(src, pos, info, text, kind);
    WordToken(src, pos, info, text, kind);
    var l := Word(src, pos, info, text, kind);
    forall k | 0 <= k < |src[pos..l.pos]|
      ensures src[pos..l.pos][k] != '\n'
    {
      WordCharIsId(kind, src[pos + k]);
    }
    AdvanceFlat(info, src[pos..l.pos]);
  }

  /** The characters `lex` skips between tokens. */
  predicate Blank(c: char)
  {
    c == ' ' || c == '\n'
  }

  /** The first character at or after `pos` that `lex` does not skip. */
  function SkipBlank(src: string, pos: nat): (p: nat)
    requires pos <= |src|
    ensures pos <= p <= |src|
    ensures forall k | pos <= k < p :: Blank(src[k])
    ensures p < |src| ==> !Blank(src[p])
    decreases |src| - pos
  {
    if pos == |src| || !Blank(src[pos]) then pos else SkipBlank(src, pos + 1)
  }

  /** The text a token of each kind can have. */
  predicate TokenText(kind: Kind, s: string)
  {
    match kind
    case OpenParen => s == "("
    case CloseParen => s == ")"
    case IntTok => s != [] && forall k | 0 <= k < |s| :: IsDigit(s[k])
    case IdTok => s != [] && !IsDigit(s[0]) && forall k | 0 <= k < |s| :: IsId(s[k])
  }

  /** A number or identifier with nothing after it. */
  predicate TrailingWord(s: string)
  {
    s != [] && TokenText(if IsDigit(s[0]) then IntTok else IdTok, s)
  }

  /** `lex` skips spaces and newlines, moving the position over them. */
  lemma {:induction false} ScanSkips(src: string, pos: nat, info: Info)
    requires pos <= |src|
    ensures var start := SkipBlank(src, pos);
      Scan(src, pos, info) == Scan(src, start, Advance(info, src[pos..start]))
    decreases |src| - pos
  {
    if pos < |src| && Blank(src[pos]) {
      var start := SkipBlank(src, pos);
      var next := if src[pos] == '\n' then NextLine(info) else Wider(info);
      ScanSkips(src, pos + 1, next);
      assert src[pos..start][0] == src[pos];
      assert src[pos..start][1..] == src[pos + 1..start];
    }
  }

  /** The word `lex` reads from its first character at `p`. */
  lemma WordFrom(src: string, p: nat, info: Info, kind: Kind)
    requires p < |src| && InWord(kind, src[p])
    ensures var l := Word(src, p + 1, Wider(info), [src[p]], kind);
      && p < l.pos <= |src|
      && (forall k | p <= k < l.pos :: InWord(kind, src[k]))
      && l.info == Advance(info, src[p..l.pos])
      && (l.result.value.None? ==> l.pos == |src|)
      && (l.result.value.Some? ==>
            l.result.value.value == Token(src[p..l.pos], kind, l.info) && l.pos < |src| && !InWord(kind, src[l.pos]))
  {
    WordShape(src, p + 1, Wider(info), [src[p]], kind);
    var l := Word(src, p + 1, Wider(info), [src[p]], kind);
    SliceFirst(src, p, l.pos);
    WordCharIsId(kind, src[p]);
  }

  /** A slice is its first character followed by the rest. */
  lemma SliceFirst(s: string, a: nat, b: nat)
    requires a < b <= |s|
    ensures s[a..b] == [s[a]] + s[a + 1..b] && s[a..b][0] == s[a] && s[a..b][1..] == s[a + 1..b]
  {
  }

  /** One token read from a character that is not skipped. */
  lemma ScanAt(src: string, p: nat, info: Info)
    requires p <= |src| && (p < |src| ==> !Blank(src[p]))
    ensures var l := Scan(src, p, info);
      && (l.result.Failure? ==>
            && p < |src| && l.pos == p && l.result.error == LexError(src[p], info)
            && src[p] != '(' && src[p] != ')' && !IsId(src[p]))
      && (l.result == Success(None) ==>
            l.pos == |src| && (p == |src| || TrailingWord(src[p..])))
      && (l.result.Success? && l.result.value.Some? ==>
            var t := l.result.value.value;
            && p < l.pos <= |src|
            && t.text == src[p..l.pos] && t.info == l.info && l.info == Advance(info, t.text)
            && TokenText(t.kind, t.text)
            && (t.kind == IntTok || t.kind == IdTok ==> l.pos < |src| && !InWord(t.kind, src[l.pos])))
  {
    if p < |src| {
      var c := src[p];
      var l := Scan(src, p, info);
      if c == '(' || c == ')' {
        assert src[p..p + 1] == [c];
        assert [c][1..] == [];
      } else if IsDigit(c) || IsId(c) {
        var kind := if IsDigit(c) then IntTok else IdTok;
        WordFrom(src, p, info, kind);
        if l.result.value.None? {
          var w := src[p..];
          assert w[0] == c;
          forall k | 0 <= k < |w|
            ensures InWord(kind, w[k]) && IsId(w[k])
          {
            assert w[k] == src[p + k];
            WordCharIsId(kind, w[k]);
          }
          assert TokenText(kind, w);
          assert TrailingWord(w);
        }
      }
    }
  }

  /**
   * `lex`: after skipping spaces and newlines it reports an unexpected
   * character where it stands, returns a bracket, a maximal digit run or a
   * maximal identifier run (one that starts with a non-digit) as a token at
   * the position just after it, or returns no token at the end of the input.
   */
  lemma ScanShape(src: string, pos: nat, info: Info)
    requires pos <= |src|
    ensures var l := Scan(src, pos, info); var start := SkipBlank(src, pos);
      && (l.result.Failure? ==>
            && start < |src| && l.pos == start
            && l.result.error == LexError(src[start], Advance(info, src[pos..start]))
            && src[start] != '(' && src[start] != ')' && !IsId(src[start]))
      && (l.result == Success(None) ==> l.pos == |src|)
      && (l.result.Success? && l.result.value.Some? ==>
            var t := l.result.value.value;
            && start < l.pos <= |src|
            && t.text == src[start..l.pos] && t.info == l.info && l.info == Advance(info, src[pos..l.pos])
            && TokenText(t.kind, t.text)
            && (t.kind == IntTok || t.kind == IdTok ==> l.pos < |src| && !InWord(t.kind, src[l.pos])))
  {
    var start := SkipBlank(src, pos);
    var at := Advance(info, src[pos..start]);
    ScanSkips(src, pos, info);
    ScanAt(src, start, at);
    var l := Scan(src, start, at);
    if l.result.Success? && l.result.value.Some? {
      AdvanceAppend(info, src[pos..start], src[start..l.pos]);
      assert src[pos..start] + src[start..l.pos] == src[pos..l.pos];
    }
  }

  /**
   * `lex` returns no token exactly when only spaces and newlines are left,
   * or when they are followed by a number or identifier that runs to the end
   * of the input: that last word is dropped, since the token is only built
   * when a character that does not continue it is seen.
   */
  lemma ScanNone(src: string, pos: nat, info: Info)
    requires pos <= |src|
    ensures var start := SkipBlank(src, pos);
      Scan(src, pos, info).result == Success(None) <==> start == |src| || TrailingWord(src[start..])
  {
    var start := SkipBlank(src, pos);
    var at := Advance(info, src[pos..start]);
    ScanSkips(src, pos, info);
    ScanAt(src, start, at);
    if start < |src| && TrailingWord(src[start..]) {
      var w := src[start..];
      var c := src[start];
      assert w[0] == c;
      var kind := if IsDigit(c) then IntTok else IdTok;
      forall k | start <= k < |src|
        ensures InWord(kind, src[k])
      {
        assert src[k] == w[k - start];
      }
      WordCharStartsWord(kind, c);
      WordFrom(src, start, at, kind);
    }
  }

  /** The first character of a word is neither a bracket nor skipped. */
  lemma WordCharStartsWord(kind: Kind, c: char)
    requires InWord(kind, c)
    ensures c != '(' && c != ')' && !Blank(c) && (IsDigit(c) || IsId(c))
  {
    if c == '(' || c == ')' || c == ' ' || c == '\n' {
      SeparatorsAreNotId(c);
    }
  }

  // ---------------------------------------------------------------------------
  // Parsing.
  // ---------------------------------------------------------------------------

  /** `ps` counts the lists opened and not yet closed: the stack holds one list more than that. */
  lemma AbsorbDepth(t: Token, list: seq<seq<Ast>>, ps: int, intended: bool)
    requires list != [] && |list| == ps + 1
    ensures var r := Absorb(t, list, ps, intended);
      r.Success? ==> |r.value.0| == r.value.1 + 1
  {
  }

  /**
   * As written, `parse` never reports "many ')'": a `)` that would take the
   * depth below zero meets a stack holding only the top-level list, and
   * unwrapping the parent of that list fails first.
   */
  lemma {:induction false} ManyCloseUnreachable(src: string, pos: nat, info: Info, list: seq<seq<Ast>>, ps: int)
    requires list != [] && |list| == ps + 1
    ensures ParseLoop(src, pos, info, list, ps, false) != Failure(ManyClose)
    decreases |src| - pos
  {
    var l := Scan(src, pos, info);
    if l.result.Success? && l.result.value.Some? {
      var t := l.result.value.value;
      var r := Absorb(t, list, ps, false);
      AbsorbDepth(t, list, ps, false);
      if r.Success? {
        ManyCloseUnreachable(src, l.pos, l.info, r.value.0, r.value.1);
      } else {
        assert r != Failure(ManyClose);
      }
    }
  }

  /** `Parser::new(s).parse()` as written never reports "many ')'". */
  lemma ParseNeverManyClose(src: string)
    ensures ParseText(src, false) != Failure(ManyClose)
  {
    ManyCloseUnreachable(src, 0, Start, [[]], 0);
  }

  /** The one token on which the intended `parse` differs: a `)` with only the top-level list open. */
  lemma AbsorbIntended(t: Token, list: seq<seq<Ast>>, ps: int)
    requires list != []
    ensures var w := Absorb(t, list, ps, false);
      Absorb(t, list, ps, true) == if w == Failure(StackUnderflow) then Failure(ManyClose) else w
  {
  }

  /** The intended `parse` reports "many ')'" exactly where the written one unwraps an empty stack, and agrees with it everywhere else. */
  lemma {:induction false} IntendedAgrees(src: string, pos: nat, info: Info, list: seq<seq<Ast>>, ps: int)
    requires list != []
    ensures var w := ParseLoop(src, pos, info, list, ps, false);
      ParseLoop(src, pos, info, list, ps, true) == if w == Failure(StackUnderflow) then Failure(ManyClose) else w
    decreases |src| - pos
  {
    var l := Scan(src, pos, info);
    if l.result.Success? && l.result.value.Some? {
      var t := l.result.value.value;
      AbsorbIntended(t, list, ps);
      var r := Absorb(t, list, ps, false);
      if r.Success? {
        IntendedAgrees(src, l.pos, l.info, r.value.0, r.value.1);
      }
    }
  }

  /** An excess `)`: as written `parse` unwraps an empty stack; the intended result is "many ')'". */
  lemma ExcessClose()
    ensures ParseText("())", false) == Failure(StackUnderflow)
    ensures ParseText("())", true) == Failure(ManyClose)
  {
    var src := "())";
    assert Scan(src, 0, Start) == Lexed(Success(Some(Token("(", OpenParen, Info(1, 2)))), 1, Info(1, 2));
    assert Scan(src, 1, Info(1, 2)) == Lexed(Success(Some(Token(")", CloseParen, Info(1, 3)))), 2, Info(1, 3));
    assert Scan(src, 2, Info(1, 3)) == Lexed(Success(Some(Token(")", CloseParen, Info(1, 4)))), 3, Info(1, 4));
    assert ParseLoop(src, 2, Info(1, 3), [[Ast(Info(1, 3), SExpr.List([]))]], 0, false) == Failure(StackUnderflow);
  }

  /** The tokens `next` returns one after another from byte `pos`, up to the end of the input or the first error. */
  function Tokens(src: string, pos: nat, info: Info): Result<seq<Token>, LexError>
    decreases |src| - pos
  {
    var l := Scan(src, pos, info);
    match l.result
    case Failure(e) => Failure(e)
    case Success(None) => Success([])
    case Success(Some(t)) =>
      match Tokens(src, l.pos, l.info)
      case Failure(e) => Failure(e)
      case Success(ts) => Success([t] + ts)
  }

  /** The loop of `parse` over a list of tokens already read. */
  function Feed(ts: seq<Token>, list: seq<seq<Ast>>, ps: int, intended: bool): Result<Ast, ParseError>
    requires list != []
    decreases |ts|
  {
    if ts == [] then Finish(list, ps)
    else
      match Absorb(ts[0], list, ps, intended)
      case Failure(e) => Failure(e)
      case Success((list', ps')) => Feed(ts[1..], list', ps', intended)
  }

  /** When the whole input lexes, `parse` is the loop of `parse` over its tokens. */
  lemma {:induction false} ParseIsFeed(src: string, pos: nat, info: Info, list: seq<seq<Ast>>, ps: int, intended: bool)
    requires list != [] && Tokens(src, pos, info).Success?
    ensures ParseLoop(src, pos, info, list, ps, intended) == Feed(Tokens(src, pos, info).value, list, ps, intended)
    decreases |src| - pos
  {
    var l := Scan(src, pos, info);
    if l.result.Success? && l.result.value.Some? {
      var t := l.result.value.value;
      var ts := Tokens(src, l.pos, l.info).value;
      assert Tokens(src, pos, info).value == [t] + ts;
      assert ([t] + ts)[1..] == ts;
      match Absorb(t, list, ps, intended)
      case Failure(_) =>
      case Success((list', ps')) =>
        ParseIsFeed(src, l.pos, l.info, list', ps', intended);
    }
  }

  /** A number or identifier alone is not read: the word reaches the end of the input, so no token and no expression. */
  lemma LoneWordDropped(w: string, intended: bool)
    requires TrailingWord(w)
    ensures ParseText(w, intended) == Failure(NoExpression)
  {
    assert !Blank(w[0]) by {
      if Blank(w[0]) {
        SeparatorsAreNotId(w[0]);
      }
    }
    assert SkipBlank(w, 0) == 0;
    assert w[0..] == w;
    ScanNone(w, 0, Start);
  }

  /** One more token in front of the rest. */
  lemma TokensCons(src: string, pos: nat, info: Info, t: Token, pos': nat, info': Info, ts: seq<Token>)
    requires Scan(src, pos, info) == Lexed(Success(Some(t)), pos', info')
    requires Tokens(src, pos', info') == Success(ts)
    ensures Tokens(src, pos, info) == Success([t] + ts)
  {
  }

  /** A non-empty suffix of a sequence is its first element followed by the rest. */
  lemma SliceCons<T>(s: seq<T>, k: nat)
    requires k < |s|
    ensures [s[k]] + s[k + 1..] == s[k..]
  {
  }

  /** The input of the tokenizer example. */
  const LexSample: string := "(a 0 12 ab12 (1 2) a())\n"

  /** The characters of `LexSample`, one by one. */
  predicate SampleShape(src: string)
  {
    && |src| == 24
    && src[0] == '(' && src[1] == 'a' && src[2] == ' ' && src[3] == '0' && src[4] == ' ' && src[5] == '1'
    && src[6] == '2' && src[7] == ' ' && src[8] == 'a' && src[9] == 'b' && src[10] == '1' && src[11] == '2'
    && src[12] == ' ' && src[13] == '(' && src[14] == '1' && src[15] == ' ' && src[16] == '2' && src[17] == ')'
    && src[18] == ' ' && src[19] == 'a' && src[20] == '(' && src[21] == ')' && src[22] == ')' && src[23] == '\n'
  }

  /** The tokens of `LexSample`: `ab12` is one identifier, and the final newline ends the input with no token. */
  const LexSampleTokens: seq<Token> := [
    Token("(", OpenParen, Info(1, 2)),
    Token("a", IdTok, Info(1, 3)),
    Token("0", IntTok, Info(1, 5)),
    Token("12", IntTok, Info(1, 8)),
    Token("ab12", IdTok, Info(1, 13)),
    Token("(", OpenParen, Info(1, 15)),
    Token("1", IntTok, Info(1, 16)),
    Token("2", IntTok, Info(1, 18)),
    Token(")", CloseParen, Info(1, 19)),
    Token("a", IdTok, Info(1, 21)),
    Token("(", OpenParen, Info(1, 22)),
    Token(")", CloseParen, Info(1, 23)),
    Token(")", CloseParen, Info(1, 24))]

  /** Steps of `lex` over a text shaped like `LexSample`. */
  lemma SampleScans1(src: string)
    requires SampleShape(src)
    ensures Scan(src, 0, Info(1, 1)) == Lexed(Success(Some(LexSampleTokens[0])), 1, Info(1, 2))
    ensures Scan(src, 1, Info(1, 2)) == Lexed(Success(Some(LexSampleTokens[1])), 2, Info(1, 3))
    ensures Scan(src, 2, Info(1, 3)) == Lexed(Success(Some(LexSampleTokens[2])), 4, Info(1, 5))
  {
    SeparatorsAreNotId('(');
    SeparatorsAreNotId(')');
    SeparatorsAreNotId(' ');
    SeparatorsAreNotId('\n');
    assert Scan(src, 1, Info(1, 2)) == Word(src, 2, Info(1, 3), "a", IdTok);
    assert Word(src, 2, Info(1, 3), "a", IdTok) == Lexed(Success(Some(Token("a", IdTok, Info(1, 3)))), 2, Info(1, 3));
    assert Scan(src, 2, Info(1, 3)) == Scan(src, 3, Info(1, 4));
    assert Scan(src, 3, Info(1, 4)) == Word(src, 4, Info(1, 5), "0", IntTok);
    assert Word(src, 4, Info(1, 5), "0", IntTok) == Lexed(Success(Some(Token("0", IntTok, Info(1, 5)))), 4, Info(1, 5));
  }

  /** Steps of `lex` over a text shaped like `LexSample`. */
  lemma SampleScans2(src: string)
    requires SampleShape(src)
    ensures Scan(src, 4, Info(1, 5)) == Lexed(Success(Some(LexSampleTokens[3])), 7, Info(1, 8))
    ensures Scan(src, 7, Info(1, 8)) == Lexed(Success(Some(LexSampleTokens[4])), 12, Info(1, 13))
    ensures Scan(src, 12, Info(1, 13)) == Lexed(Success(Some(LexSampleTokens[5])), 14, Info(1, 15))
  {
    SeparatorsAreNotId('(');
    SeparatorsAreNotId(')');
    SeparatorsAreNotId(' ');
    SeparatorsAreNotId('\n');
    assert Scan(src, 4, Info(1, 5)) == Scan(src, 5, Info(1, 6));
    assert Scan(src, 5, Info(1, 6)) == Word(src, 6, Info(1, 7), "1", IntTok);
    assert "1" + [src[6]] == "12";
    assert Word(src, 6, Info(1, 7), "1", IntTok) == Word(src, 7, Info(1, 8), "12", IntTok);
    assert Word(src, 7, Info(1, 8), "12", IntTok) == Lexed(Success(Some(Token("12", IntTok, Info(1, 8)))), 7, Info(1, 8));
    assert Scan(src, 7, Info(1, 8)) == Scan(src, 8, Info(1, 9));
    assert Scan(src, 8, Info(1, 9)) == Word(src, 9, Info(1, 10), "a", IdTok);
    assert "a" + [src[9]] == "ab";
    assert Word(src, 9, Info(1, 10), "a", IdTok) == Word(src, 10, Info(1, 11), "ab", IdTok);
    assert "ab" + [src[10]] == "ab1";
    assert Word(src, 10, Info(1, 11), "ab", IdTok) == Word(src, 11, Info(1, 12), "ab1", IdTok);
    assert "ab1" + [src[11]] == "ab12";
    assert Word(src, 11, Info(1, 12), "ab1", IdTok) == Word(src, 12, Info(1, 13), "ab12", IdTok);
    assert Word(src, 12, Info(1, 13), "ab12", IdTok) == Lexed(Success(Some(Token("ab12", IdTok, Info(1, 13)))), 12, Info(1, 13));
    assert Scan(src, 12, Info(1, 13)) == Scan(src, 13, Info(1, 14));
  }

  /** Steps of `lex` over a text shaped like `LexSample`. */
  lemma SampleScans3(src: string)
    requires SampleShape(src)
    ensures Scan(src, 14, Info(1, 15)) == Lexed(Success(Some(LexSampleTokens[6])), 15, Info(1, 16))
    ensures Scan(src, 15, Info(1, 16)) == Lexed(Success(Some(LexSampleTokens[7])), 17, Info(1, 18))
    ensures Scan(src, 17, Info(1, 18)) == Lexed(Success(Some(LexSampleTokens[8])), 18, Info(1, 19))
  {
    SeparatorsAreNotId('(');
    SeparatorsAreNotId(')');
    SeparatorsAreNotId(' ');
    SeparatorsAreNotId('\n');
    assert Scan(src, 14, Info(1, 15)) == Word(src, 15, Info(1, 16), "1", IntTok);
    assert Word(src, 15, Info(1, 16), "1", IntTok) == Lexed(Success(Some(Token("1", IntTok, Info(1, 16)))), 15, Info(1, 16));
    assert Scan(src, 15, Info(1, 16)) == Scan(src, 16, Info(1, 17));
    assert Scan(src, 16, Info(1, 17)) == Word(src, 17, Info(1, 18), "2", IntTok);
    assert Word(src, 17, Info(1, 18), "2", IntTok) == Lexed(Success(Some(Token("2", IntTok, Info(1, 18)))), 17, Info(1, 18));
  }

  /** Steps of `lex` over a text shaped like `LexSample`. */
  lemma SampleScans4(src: string)
    requires SampleShape(src)
    ensures Scan(src, 18, Info(1, 19)) == Lexed(Success(Some(LexSampleTokens[9])), 20, Info(1, 21))
    ensures Scan(src, 20, Info(1, 21)) == Lexed(Success(Some(LexSampleTokens[10])), 21, Info(1, 22))
    ensures Scan(src, 21, Info(1, 22)) == Lexed(Success(Some(LexSampleTokens[11])), 22, Info(1, 23))
  {
    SeparatorsAreNotId('(');
    SeparatorsAreNotId(')');
    SeparatorsAreNotId(' ');
    SeparatorsAreNotId('\n');
    assert Scan(src, 18, Info(1, 19)) == Scan(src, 19, Info(1, 20));
    assert Scan(src, 19, Info(1, 20)) == Word(src, 20, Info(1, 21), "a", IdTok);
    assert Word(src, 20, Info(1, 21), "a", IdTok) == Lexed(Success(Some(Token("a", IdTok, Info(1, 21)))), 20, Info(1, 21));
  }

  /** Steps of `lex` over a text shaped like `LexSample`. */
  lemma SampleScans5(src: string)
    requires SampleShape(src)
    ensures Scan(src, 22, Info(1, 23)) == Lexed(Success(Some(LexSampleTokens[12])), 23, Info(1, 24))
    ensures Scan(src, 23, Info(1, 24)).result == Success(None)
  {
    SeparatorsAreNotId('(');
    SeparatorsAreNotId(')');
    SeparatorsAreNotId(' ');
    SeparatorsAreNotId('\n');
    assert Scan(src, 23, Info(1, 24)) == Scan(src, 24, Info(2, 1));
  }

  /** The tokens of a text shaped like `LexSample` from its seventh on. */
  lemma SampleFrom6(src: string)
    requires SampleShape(src)
    ensures Tokens(src, 14, Info(1, 15)) == Success(LexSampleTokens[6..])
  {
    SampleScans3(src);
    SampleScans4(src);
    SampleScans5(src);
    assert LexSampleTokens[13..] == [];
    TokensCons(src, 22, Info(1, 23), LexSampleTokens[12], 23, Info(1, 24), LexSampleTokens[13..]);
    SliceCons(LexSampleTokens, 12);
    TokensCons(src, 21, Info(1, 22), LexSampleTokens[11], 22, Info(1, 23), LexSampleTokens[12..]);
    SliceCons(LexSampleTokens, 11);
    TokensCons(src, 20, Info(1, 21), LexSampleTokens[10], 21, Info(1, 22), LexSampleTokens[11..]);
    SliceCons(LexSampleTokens, 10);
    TokensCons(src, 18, Info(1, 19), LexSampleTokens[9], 20, Info(1, 21), LexSampleTokens[10..]);
    SliceCons(LexSampleTokens, 9);
    TokensCons(src, 17, Info(1, 18), LexSampleTokens[8], 18, Info(1, 19), LexSampleTokens[9..]);
    SliceCons(LexSampleTokens, 8);
    TokensCons(src, 15, Info(1, 16), LexSampleTokens[7], 17, Info(1, 18), LexSampleTokens[8..]);
    SliceCons(LexSampleTokens, 7);
    TokensCons(src, 14, Info(1, 15), LexSampleTokens[6], 15, Info(1, 16), LexSampleTokens[7..]);
    SliceCons(LexSampleTokens, 6);
  }

  /** The tokens of a text shaped like `LexSample` from its fourth on. */
  lemma SampleFrom3(src: string)
    requires SampleShape(src)
    ensures Tokens(src, 4, Info(1, 5)) == Success(LexSampleTokens[3..])
  {
    SampleFrom6(src);
    SampleScans2(src);
    TokensCons(src, 12, Info(1, 13), LexSampleTokens[5], 14, Info(1, 15), LexSampleTokens[6..]);
    SliceCons(LexSampleTokens, 5);
    TokensCons(src, 7, Info(1, 8), LexSampleTokens[4], 12, Info(1, 13), LexSampleTokens[5..]);
    SliceCons(LexSampleTokens, 4);
    TokensCons(src, 4, Info(1, 5), LexSampleTokens[3], 7, Info(1, 8), LexSampleTokens[4..]);
    SliceCons(LexSampleTokens, 3);
  }

  /**
   * `next` called repeatedly on the sample of the lexer's test returns the
   * thirteen tokens of the test, with their positions, and then nothing: the
   * final newline is skipped.
   */
  lemma LexSampleLexes()
    ensures Tokens(LexSample, 0, Start) == Success(LexSampleTokens)
  {
    SampleTokens(LexSample);
  }

  /** The whole token stream of a text shaped like `LexSample`. */
  lemma SampleTokens(src: string)
    requires SampleShape(src)
    ensures Tokens(src, 0, Start) == Success(LexSampleTokens)
  {
    SampleFrom3(src);
    SampleScans1(src);
    TokensCons(src, 2, Info(1, 3), LexSampleTokens[2], 4, Info(1, 5), LexSampleTokens[3..]);
    SliceCons(LexSampleTokens, 2);
    TokensCons(src, 1, Info(1, 2), LexSampleTokens[1], 2, Info(1, 3), LexSampleTokens[2..]);
    SliceCons(LexSampleTokens, 1);
    TokensCons(src, 0, Info(1, 1), LexSampleTokens[0], 1, Info(1, 2), LexSampleTokens[1..]);
    SliceCons(LexSampleTokens, 0);
    assert LexSampleTokens[0..] == LexSampleTokens;
  }
}
