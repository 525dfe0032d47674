/**
 * Reading back a rendering: `parse` applied to the text `Display for AST`
 * writes for a list gives back the same tree, with the positions the
 * reader assigns. Rendering normalises layout, so rendering the result
 * again gives the same text.
 */
module RoundTrip {
  import opened Wrappers
  import opened Data
  import opened Parser
  import opened ParserFacts

  /** A tree whose rendering reads back: identifiers that lex as one identifier, and integers without a sign. */
  predicate Readable(a: Ast)
    decreases a
  {
    match a.sexpr
    case Atom(id) => TokenText(IdTok, id)
    case Int(n) => n >= 0
    case List(items) => forall i | 0 <= i < |items| :: Readable(items[i])
  }

  /** `a` with the positions `parse` gives its nodes when its rendering starts at position `info`. */
  function Located(a: Ast, info: Info): Ast
    decreases a
  {
    match a.sexpr
    case Atom(_) => Ast(Advance(info, ShowAst(a)), a.sexpr)
    case Int(_) => Ast(Advance(info, ShowAst(a)), a.sexpr)
    case List(items) => Ast(Advance(info, ShowAst(a)), SExpr.List(LocatedItems(items, Wider(info))))
  }

  /** The children of a list, rendered one after another with a space between, from position `info`. */
  function LocatedItems(items: seq<Ast>, info: Info): (r: seq<Ast>)
    ensures |r| == |items|
    decreases items
  {
    if items == [] then []
    else [Located(items[0], info)] + LocatedItems(items[1..], Advance(info, ShowAst(items[0]) + " "))
  }

  /** The kind of token an identifier or integer is read as. */
  function LeafKind(a: Ast): Kind
  {
    if a.sexpr.Int? then IntTok else IdTok
  }

  /** The tokens `lex` returns, with their positions, for the rendering of `a` from position `info`. */
  function Lexemes(a: Ast, info: Info): seq<Token>
    decreases a
  {
    match a.sexpr
    case List(items) =>
      [Token("(", OpenParen, Wider(info))] + LexemesItems(items, Wider(info)) + [Token(")", CloseParen, Advance(info, ShowAst(a)))]
    case _ => [Token(ShowAst(a), LeafKind(a), Advance(info, ShowAst(a)))]
  }

  /** The tokens of the children of a list, rendered with a space between, from position `info`. */
  function LexemesItems(items: seq<Ast>, info: Info): seq<Token>
    decreases items
  {
    if items == [] then []
    else Lexemes(items[0], info) + LexemesItems(items[1..], Advance(info, ShowAst(items[0]) + " "))
  }

  /** A tree without its positions. */
  function Strip(a: Ast): Ast
    decreases a
  {
    match a.sexpr
    case List(items) => Ast(NoInfo, SExpr.List(StripItems(items)))
    case _ => Ast(NoInfo, a.sexpr)
  }

  /** The children with positions erased. */
  function StripItems(items: seq<Ast>): (r: seq<Ast>)
    ensures |r| == |items|
    decreases items
  {
    if items == [] then [] else [Strip(items[0])] + StripItems(items[1..])
  }

  /** `w` stands in `src` from byte `p` on. */
  predicate Within(src: string, p: nat, w: string)
  {
    p + |w| <= |src| && forall k | 0 <= k < |w| :: src[p + k] == w[k]
  }

  /** Text found at `p` splits into its two parts. */
  lemma WithinSplit(src: string, p: nat, u: string, v: string)
    requires Within(src, p, u + v)
    ensures Within(src, p, u) && Within(src, p + |u|, v)
  {
    forall k | 0 <= k < |u| ensures src[p + k] == u[k] {
      assert (u + v)[k] == u[k];
    }
    forall k | 0 <= k < |v| ensures src[p + |u| + k] == v[k] {
      assert (u + v)[|u| + k] == v[k];
    }
  }

  /** A bracket is read as a token on its own. */
  lemma ScanBracket(src: string, p: nat, info: Info)
    requires p < |src| && (src[p] == '(' || src[p] == ')')
    ensures var kind := if src[p] == '(' then OpenParen else CloseParen;
      Scan(src, p, info) == Lexed(Success(Some(Token([src[p]], kind, Wider(info)))), p + 1, Wider(info))
  {
  }

  /** Identifier characters, digits included, are neither brackets nor skipped. */
  lemma IdIsNotSeparator(c: char)
    requires IsId(c)
    ensures c != '(' && c != ')' && !Blank(c)
  {
    if c == '(' || c == ')' || Blank(c) {
      SeparatorsAreNotId(c);
    }
  }

  /** A character that ends a number or identifier: `)` or a blank. */
  predicate Stops(c: char)
  {
    c == ')' || Blank(c)
  }

  /** A number or identifier followed by a blank or `)` is read as one token, ending just before that character. */
  lemma ScanWord(src: string, p: nat, info: Info, w: string, kind: Kind)
    requires kind == IntTok || kind == IdTok
    requires TokenText(kind, w) && Within(src, p, w)
    requires p + |w| < |src| && Stops(src[p + |w|])
    ensures Scan(src, p, info) == Lexed(Success(Some(Token(w, kind, Advance(info, w)))), p + |w|, Advance(info, w))
  {
    var q := p + |w|;
    var l := Word(src, p + 1, Wider(info), [src[p]], kind);
    assert Scan(src, p, info) == l by {
      assert src[p] == w[0];
      WordCharIsId(kind, w[0]);
      IdIsNotSeparator(w[0]);
    }
    WordFrom(src, p, info, kind);
    SeparatorsAreNotId(src[q]);
    forall k | p <= k < q
      ensures InWord(kind, src[k])
    {
      assert src[k] == w[k - p];
    }
    assert l.pos == q;
    assert src[p..q] == w by {
      forall k | 0 <= k < |w| ensures src[p..q][k] == w[k] {
        assert src[p..q][k] == src[p + k];
      }
    }
  }


  // ---------------------------------------------------------------------------
  // Lexing a rendering.
  // ---------------------------------------------------------------------------

  /** A space between tokens changes nothing but the position. */
  lemma TokensSkip(src: string, p: nat, info: Info)
    requires p < |src| && src[p] == ' '
    ensures Tokens(src, p, info) == Tokens(src, p + 1, Wider(info))
  {
    assert Scan(src, p, info) == Scan(src, p + 1, Wider(info));
  }

  /** `lex` reads the rendering of an identifier or a non-negative integer as one token. */
  lemma LexLeaf(src: string, p: nat, info: Info, a: Ast, rest: seq<Token>)
    requires Readable(a) && !a.sexpr.List? && Within(src, p, ShowAst(a))
    requires p + |ShowAst(a)| < |src| && Stops(src[p + |ShowAst(a)|])
    requires Tokens(src, p + |ShowAst(a)|, Advance(info, ShowAst(a))) == Success(rest)
    ensures Tokens(src, p, info) == Success(Lexemes(a, info) + rest)
  {
    var w := ShowAst(a);
    if a.sexpr.Int? {
      DecimalRoundTrip(a.sexpr.n);
      assert w == NatDigits(a.sexpr.n);
    }
    ScanWord(src, p, info, w, LeafKind(a));
    TokensCons(src, p, info, Token(w, LeafKind(a), Advance(info, w)), p + |w|, Advance(info, w), rest);
  }

  /** `lex` reads `(`, then the tokens of the children, then `)`. */
  lemma LexList(src: string, p: nat, info: Info, body: string, inside: seq<Token>, rest: seq<Token>)
    requires Within(src, p, "(" + body + ")")
    requires Tokens(src, p + 1, Wider(info)) == Success(inside + [Token(")", CloseParen, Advance(info, "(" + body + ")"))] + rest)
    ensures Tokens(src, p, info)
         == Success([Token("(", OpenParen, Wider(info))] + inside + [Token(")", CloseParen, Advance(info, "(" + body + ")"))] + rest)
  {
    var close := Token(")", CloseParen, Advance(info, "(" + body + ")"));
    var open := Token("(", OpenParen, Wider(info));
    assert "(" + body + ")" == "(" + (body + ")");
    WithinSplit(src, p, "(", body + ")");
    ScanBracket(src, p, info);
    TokensCons(src, p, info, open, p + 1, Wider(info), inside + [close] + rest);
    assert [open] + (inside + [close] + rest) == [open] + inside + [close] + rest;
  }

  /** The `)` that ends a list and the tokens after it. */
  lemma LexClose(src: string, q: nat, info: Info, rest: seq<Token>)
    requires q < |src| && src[q] == ')'
    requires Tokens(src, q + 1, Wider(info)) == Success(rest)
    ensures Tokens(src, q, info) == Success([Token(")", CloseParen, Wider(info))] + rest)
  {
    ScanBracket(src, q, info);
    TokensCons(src, q, info, Token(")", CloseParen, Wider(info)), q + 1, Wider(info), rest);
  }

  /**
   * `lex` reads the rendering of `a` from byte `p` as the tokens
   * `Lexemes(a, info)`. A number or an identifier must be followed by a
   * blank or `)`, or it would run on.
   */
  lemma {:induction false} LexShown(src: string, p: nat, info: Info, a: Ast, rest: seq<Token>)
    requires Readable(a) && Within(src, p, ShowAst(a))
    requires !a.sexpr.List? ==> p + |ShowAst(a)| < |src| && Stops(src[p + |ShowAst(a)|])
    requires Tokens(src, p + |ShowAst(a)|, Advance(info, ShowAst(a))) == Success(rest)
    ensures Tokens(src, p, info) == Success(Lexemes(a, info) + rest)
    decreases a, 2
  {
    if !a.sexpr.List? {
      LexLeaf(src, p, info, a, rest);
    } else {
      LexShownList(src, p, info, a.sexpr.items, rest);
    }
  }

  /** Where the body of `"(" + body + ")"` and its `)` stand. */
  lemma Bracketed(src: string, p: nat, info: Info, body: string)
    requires Within(src, p, "(" + body + ")")
    ensures Within(src, p + 1, body) && p + 1 + |body| < |src| && src[p + 1 + |body|] == ')'
    ensures Wider(Advance(Wider(info), body)) == Advance(info, "(" + body + ")")
  {
    WithinSplit(src, p, "(" + body, ")");
    WithinSplit(src, p, "(", body);
    AdvanceAppend(info, "(", body);
    AdvanceAppend(info, "(" + body, ")");
  }

  /** `LexShown` for a list with children `items`. */
  lemma {:induction false} LexShownList(src: string, p: nat, info: Info, items: seq<Ast>, rest: seq<Token>)
    requires forall i | 0 <= i < |items| :: Readable(items[i])
    requires var w := "(" + ShowItems(items) + ")"; Within(src, p, w) && Tokens(src, p + |w|, Advance(info, w)) == Success(rest)
    ensures var w := "(" + ShowItems(items) + ")";
      Tokens(src, p, info)
      == Success([Token("(", OpenParen, Wider(info))] + LexemesItems(items, Wider(info)) + [Token(")", CloseParen, Advance(info, w))] + rest)
    decreases items, 3
  {
    var body := ShowItems(items);
    var w := "(" + body + ")";
    var close := Token(")", CloseParen, Advance(info, w));
    var inside := LexemesItems(items, Wider(info));
    Bracketed(src, p, info, body);
    assert Tokens(src, p + 1, Wider(info)) == Success(inside + [close] + rest) by {
      LexClose(src, p + 1 + |body|, Advance(Wider(info), body), rest);
      LexShownItems(src, p + 1, Wider(info), items, [close] + rest);
      assert inside + ([close] + rest) == inside + [close] + rest;
    }
    LexList(src, p, info, body, inside, rest);
  }

  /** `lex` reads the rendering of the children of a list, up to the `)` or blank after them, as `LexemesItems(items, info)`. */
  lemma {:induction false} LexShownItems(src: string, p: nat, info: Info, items: seq<Ast>, rest: seq<Token>)
    requires forall i | 0 <= i < |items| :: Readable(items[i])
    requires Within(src, p, ShowItems(items)) && p + |ShowItems(items)| < |src| && Stops(src[p + |ShowItems(items)|])
    requires Tokens(src, p + |ShowItems(items)|, Advance(info, ShowItems(items))) == Success(rest)
    ensures Tokens(src, p, info) == Success(LexemesItems(items, info) + rest)
    decreases items, 2
  {
    if items == [] {
      assert [] + rest == rest;
    } else if |items| == 1 {
      assert ShowItems(items) == ShowAst(items[0]);
      assert items[1..] == [];
      LexShown(src, p, info, items[0], rest);
      assert LexemesItems(items, info) == Lexemes(items[0], info) + [];
      assert Lexemes(items[0], info) + [] == Lexemes(items[0], info);
    } else {
      LexManyItems(src, p, info, items, rest);
    }
  }

  /** Where the pieces of `first + " " + more` stand. */
  lemma LexSpaced(src: string, p: nat, info: Info, first: string, more: string)
    requires Within(src, p, first + " " + more)
    ensures Within(src, p, first) && Within(src, p + |first| + 1, more)
    ensures p + |first| < |src| && src[p + |first|] == ' '
    ensures Wider(Advance(info, first)) == Advance(info, first + " ")
  {
    WithinSplit(src, p, first + " ", more);
    WithinSplit(src, p, first, " ");
    AdvanceAppend(info, first, " ");
  }

  /** Where the pieces of `first + " " + more`, followed by `)`, stand. */
  lemma SpacedBeforeClose(src: string, p: nat, info: Info, first: string, more: string)
    requires var w := first + " " + more; Within(src, p, w) && p + |w| < |src| && Stops(src[p + |w|])
    ensures Within(src, p, first) && p + |first| < |src| && src[p + |first|] == ' '
    ensures var q := p + |first| + 1; Within(src, q, more) && q + |more| < |src| && Stops(src[q + |more|])
    ensures Wider(Advance(info, first)) == Advance(info, first + " ")
    ensures Advance(Advance(info, first + " "), more) == Advance(info, first + " " + more)
  {
    LexSpaced(src, p, info, first, more);
    AdvanceAppend(info, first + " ", more);
  }

  /** The tokens after the first of two or more children: the space is skipped, then the others are read. */
  lemma {:induction false} LexAfterFirst(src: string, p: nat, info: Info, items: seq<Ast>, rest: seq<Token>)
    requires |items| >= 2 && forall i | 0 <= i < |items| :: Readable(items[i])
    requires Within(src, p, ShowItems(items)) && p + |ShowItems(items)| < |src| && Stops(src[p + |ShowItems(items)|])
    requires Tokens(src, p + |ShowItems(items)|, Advance(info, ShowItems(items))) == Success(rest)
    ensures var first := ShowAst(items[0]);
      && Within(src, p, first) && p + |first| < |src| && src[p + |first|] == ' '
      && Tokens(src, p + |first|, Advance(info, first)) == Success(LexemesItems(items[1..], Advance(info, first + " ")) + rest)
    decreases items, 0
  {
    var first := ShowAst(items[0]);
    var tail := items[1..];
    var more := ShowItems(tail);
    assert ShowItems(items) == first + " " + more;
    SpacedBeforeClose(src, p, info, first, more);
    TailReadable(items);
    LexSpaceThenItems(src, p + |first|, Advance(info, first), tail, rest);
  }

  /** A space, then the children `items` of a list up to the `)` or blank after them. */
  lemma LexSpaceThenItems(src: string, q: nat, before: Info, items: seq<Ast>, rest: seq<Token>)
    requires forall i | 0 <= i < |items| :: Readable(items[i])
    requires q < |src| && src[q] == ' '
    requires var w := ShowItems(items); Within(src, q + 1, w) && q + 1 + |w| < |src| && Stops(src[q + 1 + |w|])
    requires Tokens(src, q + 1 + |ShowItems(items)|, Advance(Wider(before), ShowItems(items))) == Success(rest)
    ensures Tokens(src, q, before) == Success(LexemesItems(items, Wider(before)) + rest)
    decreases items, 3
  {
    LexShownItems(src, q + 1, Wider(before), items, rest);
    TokensSkip(src, q, before);
  }

  /** The children after the first of a readable list are readable. */
  lemma TailReadable(items: seq<Ast>)
    requires items != [] && forall i | 0 <= i < |items| :: Readable(items[i])
    ensures forall i | 0 <= i < |items[1..]| :: Readable(items[1..][i])
  {
    forall i | 0 <= i < |items[1..]| ensures Readable(items[1..][i]) {
      assert items[1..][i] == items[i + 1];
    }
  }

  /** Two or more children: the first, a space, then the others. */
  lemma {:induction false} LexManyItems(src: string, p: nat, info: Info, items: seq<Ast>, rest: seq<Token>)
    requires |items| >= 2 && forall i | 0 <= i < |items| :: Readable(items[i])
    requires Within(src, p, ShowItems(items)) && p + |ShowItems(items)| < |src| && Stops(src[p + |ShowItems(items)|])
    requires Tokens(src, p + |ShowItems(items)|, Advance(info, ShowItems(items))) == Success(rest)
    ensures Tokens(src, p, info) == Success(LexemesItems(items, info) + rest)
    decreases items, 1
  {
    var first := ShowAst(items[0]);
    var tail := LexemesItems(items[1..], Advance(info, first + " ")) + rest;
    assert Tokens(src, p, info) == Success(Lexemes(items[0], info) + tail) by {
      LexAfterFirst(src, p, info, items, rest);
      assert Readable(items[0]);
      LexShown(src, p, info, items[0], tail);
    }
    LexemesUnfold(items, info, rest);
  }

  // ---------------------------------------------------------------------------
  // Parsing the tokens of a rendering.
  // ---------------------------------------------------------------------------

  /** One token that `parse` absorbs. */
  lemma FeedCons(t: Token, ts: seq<Token>, list: seq<seq<Ast>>, ps: int, intended: bool, list': seq<seq<Ast>>, ps': int)
    requires list != [] && Absorb(t, list, ps, intended) == Success((list', ps'))
    ensures Feed([t] + ts, list, ps, intended) == Feed(ts, list', ps', intended)
  {
    assert ([t] + ts)[0] == t && ([t] + ts)[1..] == ts;
  }

  /** The token of an identifier or a non-negative integer pushes the node on the innermost open list. */
  lemma FeedLeaf(a: Ast, info: Info, list: seq<seq<Ast>>, ps: int, intended: bool, rest: seq<Token>)
    requires Readable(a) && !a.sexpr.List? && list != [] && ps >= 0
    ensures Feed(Lexemes(a, info) + rest, list, ps, intended) == Feed(rest, Push(list, Located(a, info)), ps, intended)
  {
    var w := ShowAst(a);
    var t := Token(w, LeafKind(a), Advance(info, w));
    if a.sexpr.Int? {
      DecimalRoundTrip(a.sexpr.n);
      assert w == NatDigits(a.sexpr.n);
      assert ParseI32(w) == Some(a.sexpr.n);
    }
    assert Absorb(t, list, ps, intended) == Success((Push(list, Located(a, info)), ps));
    FeedCons(t, rest, list, ps, intended, Push(list, Located(a, info)), ps);
  }

  /** `(` opens a list, the children fill it, `)` closes it and pushes it on the list around it. */
  lemma FeedList(info: Info, body: string, inside: seq<Token>, located: seq<Ast>, list: seq<seq<Ast>>, ps: int, intended: bool, rest: seq<Token>)
    requires list != [] && ps >= 0
    requires var close := Token(")", CloseParen, Advance(info, "(" + body + ")"));
      Feed(inside + ([close] + rest), list + [[]], ps + 1, intended) == Feed([close] + rest, list + [located], ps + 1, intended)
    ensures var after := Advance(info, "(" + body + ")");
      Feed([Token("(", OpenParen, Wider(info))] + inside + [Token(")", CloseParen, after)] + rest, list, ps, intended)
      == Feed(rest, Push(list, Ast(after, SExpr.List(located))), ps, intended)
  {
    var after := Advance(info, "(" + body + ")");
    var open := Token("(", OpenParen, Wider(info));
    var close := Token(")", CloseParen, after);
    assert [open] + inside + [close] + rest == [open] + (inside + ([close] + rest));
    FeedCons(open, inside + ([close] + rest), list, ps, intended, list + [[]], ps + 1);
    assert (list + [located])[..|list|] == list;
    FeedCons(close, rest, list + [located], ps + 1, intended, Push(list, Ast(after, SExpr.List(located))), ps);
  }

  /** Pushing on the innermost open list appends to it. */
  lemma PushLast(list: seq<seq<Ast>>, acc: seq<Ast>, a: Ast)
    ensures Push(list + [acc], a) == list + [acc + [a]]
  {
    assert (list + [acc])[..|list|] == list;
  }

  /** The tokens of the children of a list: the first child's, then the others'. */
  lemma LexemesUnfold(items: seq<Ast>, info: Info, rest: seq<Token>)
    requires items != []
    ensures var next := Advance(info, ShowAst(items[0]) + " ");
      LexemesItems(items, info) + rest == Lexemes(items[0], info) + (LexemesItems(items[1..], next) + rest)
  {
    var next := Advance(info, ShowAst(items[0]) + " ");
    assert LexemesItems(items, info) == Lexemes(items[0], info) + LexemesItems(items[1..], next);
  }

  /** The nodes of the children of a list: the first child's, then the others'. */
  lemma LocatedUnfold(items: seq<Ast>, info: Info, acc: seq<Ast>)
    requires items != []
    ensures var next := Advance(info, ShowAst(items[0]) + " ");
      acc + LocatedItems(items, info) == acc + [Located(items[0], info)] + LocatedItems(items[1..], next)
  {
    var next := Advance(info, ShowAst(items[0]) + " ");
    assert LocatedItems(items, info) == [Located(items[0], info)] + LocatedItems(items[1..], next);
  }

  /** `parse` reads the tokens of the rendering of `a` by pushing `a`, with its positions, on the innermost open list. */
  lemma {:induction false} FeedShown(a: Ast, info: Info, list: seq<seq<Ast>>, ps: int, intended: bool, rest: seq<Token>)
    requires Readable(a) && list != [] && ps >= 0
    ensures Feed(Lexemes(a, info) + rest, list, ps, intended) == Feed(rest, Push(list, Located(a, info)), ps, intended)
    decreases a, 1
  {
    if !a.sexpr.List? {
      FeedLeaf(a, info, list, ps, intended, rest);
    } else {
      var items := a.sexpr.items;
      var body := ShowItems(items);
      var after := Advance(info, ShowAst(a));
      var close := Token(")", CloseParen, after);
      assert ShowAst(a) == "(" + body + ")";
      FeedShownItems(items, Wider(info), list, [], ps + 1, intended, [close] + rest);
      assert [] + LocatedItems(items, Wider(info)) == LocatedItems(items, Wider(info));
      FeedList(info, body, LexemesItems(items, Wider(info)), LocatedItems(items, Wider(info)), list, ps, intended, rest);
    }
  }

  /** `parse` reads the tokens of the children of a list by appending them, with their positions, to that list. */
  lemma {:induction false} FeedShownItems(items: seq<Ast>, info: Info, list: seq<seq<Ast>>, acc: seq<Ast>, ps: int, intended: bool, rest: seq<Token>)
    requires (forall i | 0 <= i < |items| :: Readable(items[i])) && ps >= 0
    ensures Feed(LexemesItems(items, info) + rest, list + [acc], ps, intended)
         == Feed(rest, list + [acc + LocatedItems(items, info)], ps, intended)
    decreases items, 0
  {
    if items == [] {
      assert [] + rest == rest;
      assert acc + [] == acc;
    } else {
      var here := Located(items[0], info);
      var next := Advance(info, ShowAst(items[0]) + " ");
      var tail := LexemesItems(items[1..], next) + rest;
      PushLast(list, acc, here);
      LexemesUnfold(items, info, rest);
      LocatedUnfold(items, info, acc);
      FeedShown(items[0], info, list + [acc], ps, intended, tail);
      FeedShownItems(items[1..], next, list, acc + [here], ps, intended, rest);
    }
  }

  // ---------------------------------------------------------------------------
  // The round trip.
  // ---------------------------------------------------------------------------

  /**
   * `parse` on the rendering of a list gives back that list, with the
   * positions at which the reader finds its nodes. (A lone identifier or
   * integer does not read back: see `ParserFacts.LoneWordDropped`.)
   */
  lemma ReadShown(a: Ast, intended: bool)
    requires Readable(a) && a.sexpr.List?
    ensures ParseText(ShowAst(a), intended) == Success(Located(a, Start))
  {
    var src := ShowAst(a);
    assert Within(src, 0, src);
    assert Tokens(src, |src|, Advance(Start, src)) == Success([]);
    LexShown(src, 0, Start, a, []);
    assert Lexemes(a, Start) + [] == Lexemes(a, Start);
    ParseIsFeed(src, 0, Start, [[]], 0, intended);
    FeedShown(a, Start, [[]], 0, intended, []);
    var top: seq<Ast> := [];
    assert top + [Located(a, Start)] == [Located(a, Start)];
    assert Push([top], Located(a, Start)) == [[Located(a, Start)]];
  }

  /** The positions are all that `Located` changes. */
  lemma {:induction false} StripLocated(a: Ast, info: Info)
    ensures Strip(Located(a, info)) == Strip(a)
    decreases a
  {
    if a.sexpr.List? {
      StripLocatedItems(a.sexpr.items, Wider(info));
    }
  }

  /** Locating children changes only their positions. */
  lemma {:induction false} StripLocatedItems(items: seq<Ast>, info: Info)
    ensures StripItems(LocatedItems(items, info)) == StripItems(items)
    decreases items
  {
    if items != [] {
      var next := Advance(info, ShowAst(items[0]) + " ");
      StripLocated(items[0], info);
      StripLocatedItems(items[1..], next);
      assert LocatedItems(items, info)[1..] == LocatedItems(items[1..], next);
    }
  }

  /** Rendering ignores positions. */
  lemma {:induction false} ShowLocated(a: Ast, info: Info)
    ensures ShowAst(Located(a, info)) == ShowAst(a)
    decreases a
  {
    if a.sexpr.List? {
      ShowLocatedItems(a.sexpr.items, Wider(info));
    }
  }

  /** Locating children does not change their rendering. */
  lemma {:induction false} ShowLocatedItems(items: seq<Ast>, info: Info)
    ensures ShowItems(LocatedItems(items, info)) == ShowItems(items)
    decreases items
  {
    if items != [] {
      var next := Advance(info, ShowAst(items[0]) + " ");
      ShowLocated(items[0], info);
      ShowLocatedItems(items[1..], next);
      assert LocatedItems(items, info)[1..] == LocatedItems(items[1..], next);
    }
  }

  /**
   * Rendering normalises layout: reading a rendered list gives the same tree
   * up to positions, and rendering it again gives the same text.
   */
  lemma RenderingReadsBack(a: Ast, intended: bool)
    requires Readable(a) && a.sexpr.List?
    ensures ParseText(ShowAst(a), intended).Success?
    ensures Strip(ParseText(ShowAst(a), intended).value) == Strip(a)
    ensures ShowAst(ParseText(ShowAst(a), intended).value) == ShowAst(a)
  {
    ReadShown(a, intended);
    StripLocated(a, Start);
    ShowLocated(a, Start);
  }

  // ---------------------------------------------------------------------------
  // Printed values read back.
  // ---------------------------------------------------------------------------

  /** A value with no negative integer inside it. */
  predicate Unsigned(v: Lisp)
  {
    match v
    case Int(n) => n >= 0
    case Cons(a, d) => Unsigned(a) && Unsigned(d)
    case _ => true
  }

  /** The tree a printable value is written as has no positions. */
  lemma {:induction false} StripQuote(v: Lisp)
    requires Printable(v)
    ensures Strip(Quote(v)) == Quote(v)
  {
    match v
    case Cons(a, d) =>
      StripQuote(a);
      StripQuote(d);
      var items := [Ast(NoInfo, Atom("cons")), Quote(a), Quote(d)];
      assert StripItems(items[2..]) == [Quote(d)];
      assert StripItems(items[1..]) == [Quote(a), Quote(d)];
      assert StripItems(items) == items;
    case _ =>
  }

  /** The names `nil`, `true`, `false` and `cons` lex as one identifier each. */
  lemma KeywordReadable(w: string)
    requires w in {"nil", "true", "false", "cons"}
    ensures TokenText(IdTok, w)
  {
    assert forall k | 0 <= k < |w| :: 'a' <= w[k] <= 'z';
  }

  /** The tree of an unsigned printable value reads back. */
  lemma {:induction false} QuoteReadable(v: Lisp)
    requires Printable(v) && Unsigned(v)
    ensures Readable(Quote(v))
  {
    match v
    case Nil => KeywordReadable("nil");
    case True => KeywordReadable("true");
    case False => KeywordReadable("false");
    case Int(_) =>
    case Cons(a, d) =>
      KeywordReadable("cons");
      QuoteReadable(a);
      QuoteReadable(d);
      var items := Quote(v).sexpr.items;
      assert items == [Ast(NoInfo, Atom("cons")), Quote(a), Quote(d)];
      assert forall i | 0 <= i < |items| :: Readable(items[i]);
  }

  /**
   * What `Display for Lisp` prints for a pair of unsigned printable values
   * parses back as the `(cons car cdr)` tree of that pair.
   */
  lemma PrintedPairReadsBack(v: Lisp, intended: bool)
    requires v.Cons? && Printable(v) && Unsigned(v)
    ensures ShowLisp(v).Some?
    ensures ParseText(ShowLisp(v).value, intended).Success?
    ensures Strip(ParseText(ShowLisp(v).value, intended).value) == Quote(v)
  {
    ShowLispQuote(v);
    QuoteReadable(v);
    RenderingReadsBack(Quote(v), intended);
    StripQuote(v);
  }

  // ---------------------------------------------------------------------------
  // Positions on one line.
  // ---------------------------------------------------------------------------

  /** Text with no newline moves the position along its line by its length. */
  lemma {:induction false} AdvanceInLine(i: Info, s: string)
    requires '\n' !in s
    ensures Advance(i, s) == Info(i.line, i.col + |s|)
    decreases |s|
  {
    if s != [] {
      assert s == [s[0]] + s[1..];
      AdvanceInLine(Wider(i), s[1..]);
    }
  }

  /**
   * A node whose rendering has no newline is located at the column after
   * its text; a list's children start at the column after its `(`.
   */
  lemma LocatedInLine(a: Ast, line: nat, col: nat)
    requires '\n' !in ShowAst(a)
    ensures !a.sexpr.List? ==> Located(a, Info(line, col)) == Ast(Info(line, col + |ShowAst(a)|), a.sexpr)
    ensures a.sexpr.List? ==>
      Located(a, Info(line, col)) == Ast(Info(line, col + |ShowAst(a)|), SExpr.List(LocatedItems(a.sexpr.items, Info(line, col + 1))))
  {
    AdvanceInLine(Info(line, col), ShowAst(a));
  }

  /** The next child on the line starts one column after the first child's text and its space. */
  lemma LocatedItemsInLine(items: seq<Ast>, line: nat, col: nat)
    requires items != [] && '\n' !in ShowAst(items[0])
    ensures LocatedItems(items, Info(line, col))
      == [Located(items[0], Info(line, col))] + LocatedItems(items[1..], Info(line, col + |ShowAst(items[0])| + 1))
  {
    AdvanceInLine(Info(line, col), ShowAst(items[0]) + " ");
  }

  // ---------------------------------------------------------------------------
  // The parser test: a list written over three lines.
  // ---------------------------------------------------------------------------

  /** A newline between tokens changes nothing but the position. */
  lemma TokensNewline(src: string, p: nat, info: Info)
    requires p < |src| && src[p] == '\n'
    ensures Tokens(src, p, info) == Tokens(src, p + 1, NextLine(info))
  {
    assert Scan(src, p, info) == Scan(src, p + 1, NextLine(info));
  }

  /** The rendering of two non-empty runs of children is theirs, with a space between. */
  lemma {:induction false} ShowItemsAppend(x: seq<Ast>, y: seq<Ast>)
    requires x != [] && y != []
    ensures ShowItems(x + y) == ShowItems(x) + " " + ShowItems(y)
    decreases |x|
  {
    assert (x + y)[0] == x[0];
    if |x| == 1 {
      assert (x + y)[1..] == y;
    } else {
      assert (x + y)[1..] == x[1..] + y;
      ShowItemsAppend(x[1..], y);
    }
  }

  /** The text of the parser test, `)` and all, over three lines. */
  const ParserTestInput: string := "(a 0 ab 12 (a (b) ()) ()\nab\n())"

  /** The rendering the parser test expects. */
  const ParserTestOutput: string := "(a 0 ab 12 (a (b) ()) () ab ())"

  function Leaf(id: string): Ast { Ast(NoInfo, Atom(id)) }
  function Number(n: Int32): Ast { Ast(NoInfo, SExpr.Int(n)) }
  function Group(items: seq<Ast>): Ast { Ast(NoInfo, SExpr.List(items)) }

  /** `(a (b) ())`, the list nested in the first line of the parser test. */
  function Nested(): Ast { Group([Leaf("a"), Group([Leaf("b")]), Group([])]) }

  /** The children on the first line of the parser test. */
  function FirstLine(): seq<Ast>
  {
    [Leaf("a"), Number(0), Leaf("ab"), Number(12), Nested(), Group([])]
  }

  /** One more child at the end of a non-empty run adds a space and its rendering. */
  lemma ShowSnoc(x: seq<Ast>, a: Ast)
    requires x != []
    ensures ShowItems(x + [a]) == ShowItems(x) + " " + ShowAst(a)
  {
    ShowItemsAppend(x, [a]);
  }

  /** The rendering of each child on the first line of the parser test. */
  lemma ShowFirstLineItems()
    ensures ShowAst(Leaf("a")) == "a" && ShowAst(Number(0)) == "0" && ShowAst(Leaf("ab")) == "ab"
    ensures ShowAst(Number(12)) == "12" && ShowAst(Nested()) == "(a (b) ())" && ShowAst(Group([])) == "()"
  {
    assert NatDigits(12) == NatDigits(1) + [DigitChar(2)];
    assert ShowItems([Group([Leaf("b")]), Group([])]) == "(b) ()";
  }

  /** The rendering of the children on the first line of the parser test, one child at a time. */
  lemma ShowFirstLine()
    ensures ShowItems(FirstLine()) == "a 0 ab 12 (a (b) ()) ()"
  {
    var items := FirstLine();
    ShowFirstLineItems();
    assert ShowItems(items[..1]) == "a";
    assert items[..2] == items[..1] + [items[1]];
    ShowSnoc(items[..1], items[1]);
    assert ShowItems(items[..2]) == "a 0";
    assert items[..3] == items[..2] + [items[2]];
    ShowSnoc(items[..2], items[2]);
    assert ShowItems(items[..3]) == "a 0 ab";
    assert items[..4] == items[..3] + [items[3]];
    ShowSnoc(items[..3], items[3]);
    assert ShowItems(items[..4]) == "a 0 ab 12";
    assert items[..5] == items[..4] + [items[4]];
    ShowSnoc(items[..4], items[4]);
    assert ShowItems(items[..5]) == "a 0 ab 12 (a (b) ())";
    assert items == items[..5] + [items[5]];
    ShowSnoc(items[..5], items[5]);
  }

  /** The three lines, inside one pair of brackets, are the text of the parser test. */
  lemma JoinInput(first: string, second: string, third: string)
    requires first == "a 0 ab 12 (a (b) ()) ()" && second == "ab" && third == "()"
    ensures ParserTestInput == "(" + first + "\n" + second + "\n" + third + ")"
  {
  }

  /** The three lines, joined by spaces inside one pair of brackets, are the rendering the parser test expects. */
  lemma JoinOutput(first: string, second: string, third: string)
    requires first == "a 0 ab 12 (a (b) ()) ()" && second == "ab" && third == "()"
    ensures ParserTestOutput == "(" + (first + " " + second + " " + third) + ")"
  {
  }

  /** The parser test's text is the three lines of children inside one pair of brackets. */
  lemma ParserTestInputLayout()
    ensures ParserTestInput == "(" + ShowItems(FirstLine()) + "\n" + ShowItems([Leaf("ab")]) + "\n" + ShowItems([Group([])]) + ")"
  {
    ShowFirstLine();
    assert ShowItems([Leaf("ab")]) == "ab" && ShowItems([Group([])]) == "()";
    JoinInput(ShowItems(FirstLine()), ShowItems([Leaf("ab")]), ShowItems([Group([])]));
  }

  /** The rendering the parser test expects is the same children, separated by spaces. */
  lemma ParserTestOutputLayout()
    ensures ParserTestOutput == "(" + (ShowItems(FirstLine()) + " " + ShowItems([Leaf("ab")]) + " " + ShowItems([Group([])])) + ")"
  {
    ShowFirstLine();
    assert ShowItems([Leaf("ab")]) == "ab" && ShowItems([Group([])]) == "()";
    JoinOutput(ShowItems(FirstLine()), ShowItems([Leaf("ab")]), ShowItems([Group([])]));
  }

  /** Where the pieces of `"(" + x + "\n" + y + "\n" + z + ")"` stand. */
  lemma ThreeLines(src: string, x: string, y: string, z: string)
    requires src == "(" + x + "\n" + y + "\n" + z + ")"
    ensures |src| == |x| + |y| + |z| + 4 && src[0] == '('
    ensures Within(src, 1, x) && src[1 + |x|] == '\n'
    ensures Within(src, 2 + |x|, y) && src[2 + |x| + |y|] == '\n'
    ensures Within(src, 3 + |x| + |y|, z) && src[3 + |x| + |y| + |z|] == ')'
  {
    forall k | 0 <= k < |x| ensures src[1 + k] == x[k] {
    }
    forall k | 0 <= k < |y| ensures src[2 + |x| + k] == y[k] {
    }
    forall k | 0 <= k < |z| ensures src[3 + |x| + |y| + k] == z[k] {
    }
  }

  /** A line of children ending in a newline: their tokens, then those of the next line. */
  lemma LexLine(src: string, p: nat, info: Info, items: seq<Ast>, rest: seq<Token>)
    requires forall i | 0 <= i < |items| :: Readable(items[i])
    requires var w := ShowItems(items); Within(src, p, w) && p + |w| < |src| && src[p + |w|] == '\n'
    requires var w := ShowItems(items); Tokens(src, p + |w| + 1, NextLine(Advance(info, w))) == Success(rest)
    ensures Tokens(src, p, info) == Success(LexemesItems(items, info) + rest)
  {
    var w := ShowItems(items);
    TokensNewline(src, p + |w|, Advance(info, w));
    LexShownItems(src, p, info, items, rest);
  }

  /** The last line of children, the `)` after them, and nothing else. */
  lemma LexLastLine(src: string, p: nat, info: Info, items: seq<Ast>)
    requires forall i | 0 <= i < |items| :: Readable(items[i])
    requires var w := ShowItems(items); Within(src, p, w) && |src| == p + |w| + 1 && src[p + |w|] == ')'
    ensures var close := Token(")", CloseParen, Wider(Advance(info, ShowItems(items))));
      Tokens(src, p, info) == Success(LexemesItems(items, info) + [close])
  {
    var w := ShowItems(items);
    var close := Token(")", CloseParen, Wider(Advance(info, w)));
    assert Tokens(src, p + |w| + 1, Wider(Advance(info, w))) == Success([]);
    LexClose(src, p + |w|, Advance(info, w), []);
    assert [close] + [] == [close];
    LexShownItems(src, p, info, items, [close]);
  }

  /** The second and third lines of children, then the closing `)` and nothing else. */
  lemma LexLastTwoLines(src: string, p: nat, y: seq<Ast>, z: seq<Ast>, iy: Info, iz: Info)
    requires (forall i | 0 <= i < |y| :: Readable(y[i])) && (forall i | 0 <= i < |z| :: Readable(z[i]))
    requires var wy := ShowItems(y); Within(src, p, wy) && p + |wy| < |src| && src[p + |wy|] == '\n'
    requires var wy, wz := ShowItems(y), ShowItems(z);
      Within(src, p + |wy| + 1, wz) && |src| == p + |wy| + |wz| + 2 && src[p + |wy| + 1 + |wz|] == ')'
    requires iz == NextLine(Advance(iy, ShowItems(y)))
    ensures var close := Token(")", CloseParen, Wider(Advance(iz, ShowItems(z))));
      Tokens(src, p, iy) == Success(LexemesItems(y, iy) + (LexemesItems(z, iz) + [close]))
  {
    var wy := ShowItems(y);
    LexLastLine(src, p + |wy| + 1, iz, z);
    var close := Token(")", CloseParen, Wider(Advance(iz, ShowItems(z))));
    LexLine(src, p, iy, y, LexemesItems(z, iz) + [close]);
  }

  /**
   * The tokens of three runs of children on three lines, inside one pair of
   * brackets: each line's children's tokens, positioned from the start of
   * their line (`iy` and `iz`).
   */
  lemma LexThreeLines(src: string, x: seq<Ast>, y: seq<Ast>, z: seq<Ast>, iy: Info, iz: Info)
    requires (forall i | 0 <= i < |x| :: Readable(x[i])) && (forall i | 0 <= i < |y| :: Readable(y[i]))
    requires forall i | 0 <= i < |z| :: Readable(z[i])
    requires src == "(" + ShowItems(x) + "\n" + ShowItems(y) + "\n" + ShowItems(z) + ")"
    requires iy == NextLine(Advance(Info(1, 2), ShowItems(x))) && iz == NextLine(Advance(iy, ShowItems(y)))
    ensures var close := Token(")", CloseParen, Wider(Advance(iz, ShowItems(z))));
      Tokens(src, 0, Start) == Success([Token("(", OpenParen, Info(1, 2))]
        + (LexemesItems(x, Info(1, 2)) + (LexemesItems(y, iy) + (LexemesItems(z, iz) + [close]))))
  {
    var wx, wy, wz := ShowItems(x), ShowItems(y), ShowItems(z);
    ThreeLines(src, wx, wy, wz);
    var close := Token(")", CloseParen, Wider(Advance(iz, wz)));
    var ty := LexemesItems(y, iy) + (LexemesItems(z, iz) + [close]);
    LexLastTwoLines(src, 2 + |wx|, y, z, iy, iz);
    LexLine(src, 1, Info(1, 2), x, ty);
    ScanBracket(src, 0, Start);
    TokensCons(src, 0, Start, Token("(", OpenParen, Info(1, 2)), 1, Info(1, 2), LexemesItems(x, Info(1, 2)) + ty);
  }

  /** The `)` that closes the only open list hands `parse` that list. */
  lemma FeedClose(acc: seq<Ast>, close: Info, intended: bool)
    ensures Feed([Token(")", CloseParen, close)], [[]] + [acc], 1, intended) == Success(Ast(close, SExpr.List(acc)))
  {
    var node := Ast(close, SExpr.List(acc));
    var top: seq<seq<Ast>> := [[]];
    assert (top + [acc])[..1] == top;
    assert Last(top + [acc]) == acc;
    var none: seq<Ast> := [];
    var below: seq<seq<Ast>> := [];
    assert top[..0] == below && Last(top) == none;
    assert none + [node] == [node];
    assert below + [[node]] == [[node]];
    assert Push(top, node) == [[node]];
    assert Absorb(Token(")", CloseParen, close), top + [acc], 1, intended) == Success(([[node]], 0));
    FeedCons(Token(")", CloseParen, close), [], top + [acc], 1, intended, [[node]], 0);
  }

  /**
   * `parse` reads the tokens of three runs of children inside one pair of
   * brackets as one list holding all of them, located where the lines put them.
   */
  lemma FeedThreeLines(x: seq<Ast>, y: seq<Ast>, z: seq<Ast>, iy: Info, iz: Info, close: Info, intended: bool)
    requires (forall i | 0 <= i < |x| :: Readable(x[i])) && (forall i | 0 <= i < |y| :: Readable(y[i]))
    requires forall i | 0 <= i < |z| :: Readable(z[i])
    ensures Feed([Token("(", OpenParen, Info(1, 2))]
        + (LexemesItems(x, Info(1, 2)) + (LexemesItems(y, iy) + (LexemesItems(z, iz) + [Token(")", CloseParen, close)]))),
        [[]], 0, intended)
      == Success(Ast(close, SExpr.List(LocatedItems(x, Info(1, 2)) + LocatedItems(y, iy) + LocatedItems(z, iz))))
  {
    var closeTok := Token(")", CloseParen, close);
    var tz := LexemesItems(z, iz) + [closeTok];
    var ty := LexemesItems(y, iy) + tz;
    var tx := LexemesItems(x, Info(1, 2)) + ty;
    var top: seq<seq<Ast>> := [[]];
    var empty: seq<Ast> := [];
    assert Absorb(Token("(", OpenParen, Info(1, 2)), top, 0, intended) == Success((top + [empty], 1));
    FeedCons(Token("(", OpenParen, Info(1, 2)), tx, top, 0, intended, top + [empty], 1);
    var lx := LocatedItems(x, Info(1, 2));
    var ly := LocatedItems(y, iy);
    var lz := LocatedItems(z, iz);
    FeedShownItems(x, Info(1, 2), top, empty, 1, intended, ty);
    assert empty + lx == lx;
    FeedShownItems(y, iy, top, lx, 1, intended, tz);
    FeedShownItems(z, iz, top, lx + ly, 1, intended, [closeTok]);
    FeedClose(lx + ly + lz, close, intended);
  }

  /** Stripping the positions of two runs of children strips each run. */
  lemma {:induction false} StripItemsAppend(x: seq<Ast>, y: seq<Ast>)
    ensures StripItems(x + y) == StripItems(x) + StripItems(y)
    decreases |x|
  {
    if x == [] {
      assert x + y == y;
    } else {
      assert (x + y)[0] == x[0];
      assert (x + y)[1..] == x[1..] + y;
      StripItemsAppend(x[1..], y);
    }
  }

  /** Three runs of children, located anywhere, are the same children up to positions. */
  lemma StripThreeLines(x: seq<Ast>, y: seq<Ast>, z: seq<Ast>, ix: Info, iy: Info, iz: Info, close: Info)
    ensures var located := LocatedItems(x, ix) + LocatedItems(y, iy) + LocatedItems(z, iz);
      Strip(Ast(close, SExpr.List(located))) == Strip(Ast(NoInfo, SExpr.List(x + y + z)))
  {
    var lx, ly, lz := LocatedItems(x, ix), LocatedItems(y, iy), LocatedItems(z, iz);
    StripItemsAppend(lx + ly, lz);
    StripItemsAppend(lx, ly);
    StripItemsAppend(x + y, z);
    StripItemsAppend(x, y);
    StripLocatedItems(x, ix);
    StripLocatedItems(y, iy);
    StripLocatedItems(z, iz);
  }

  /** Three non-empty runs of children, located anywhere, render as one run with spaces between. */
  lemma ShowThreeLines(x: seq<Ast>, y: seq<Ast>, z: seq<Ast>, ix: Info, iy: Info, iz: Info)
    requires x != [] && y != [] && z != []
    ensures ShowItems(LocatedItems(x, ix) + LocatedItems(y, iy) + LocatedItems(z, iz))
      == ShowItems(x) + " " + ShowItems(y) + " " + ShowItems(z)
  {
    var lx, ly, lz := LocatedItems(x, ix), LocatedItems(y, iy), LocatedItems(z, iz);
    ShowItemsAppend(lx + ly, lz);
    ShowItemsAppend(lx, ly);
    ShowLocatedItems(x, ix);
    ShowLocatedItems(y, iy);
    ShowLocatedItems(z, iz);
  }

  /** The children of the parser test, in order. */
  function ParserTestItems(): seq<Ast>
  {
    FirstLine() + [Leaf("ab")] + [Group([])]
  }

  /** The children of the parser test are readable. */
  lemma ParserTestReadable()
    ensures forall i | 0 <= i < |FirstLine()| :: Readable(FirstLine()[i])
    ensures Readable(Leaf("ab")) && Readable(Group([]))
  {
    assert TokenText(IdTok, "a") && TokenText(IdTok, "ab");
    assert TokenText(IdTok, "b");
  }

  /**
   * tests/parser_test.rs: the list written over three lines reads as one
   * list, the same up to positions as the list whose rendering is on one
   * line, and it renders as that one line.
   */
  lemma ParserTestReadsBack(intended: bool)
    ensures ParseText(ParserTestInput, intended).Success?
    ensures Strip(ParseText(ParserTestInput, intended).value) == Strip(Group(ParserTestItems()))
    ensures ShowAst(ParseText(ParserTestInput, intended).value) == ParserTestOutput
  {
    var x, y, z := FirstLine(), [Leaf("ab")], [Group([])];
    ParserTestReadable();
    ParserTestInputLayout();
    var src := ParserTestInput;
    var iy := NextLine(Advance(Info(1, 2), ShowItems(x)));
    var iz := NextLine(Advance(iy, ShowItems(y)));
    LexThreeLines(src, x, y, z, iy, iz);
    var close := Wider(Advance(iz, ShowItems(z)));
    ParseIsFeed(src, 0, Start, [[]], 0, intended);
    FeedThreeLines(x, y, z, iy, iz, close, intended);
    var located := LocatedItems(x, Info(1, 2)) + LocatedItems(y, iy) + LocatedItems(z, iz);
    assert ParseText(src, intended) == Success(Ast(close, SExpr.List(located)));
    StripThreeLines(x, y, z, Info(1, 2), iy, iz, close);
    ShowThreeLines(x, y, z, Info(1, 2), iy, iz);
    ParserTestOutputLayout();
  }
}
