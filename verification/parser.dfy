/**
 * The reader (src/parser.rs): a character-level tokenizer that tracks the
 * line and column, a `peek` that puts its position back, and a parser that
 * matches brackets with a stack of partially built lists.
 *
 * Each character of the source text stands for one byte of the input, as
 * the source indexes `src.as_bytes()`.
 */
module Parser {
  import opened Wrappers
  import opened Data

  /** The punctuation `is_id` accepts, by ASCII range: `!`, `#`-`&`, `*`-`/`, `:`-`@`, `^`-`` ` ``, `|` and `~`. */
  predicate IsIdPunctuation(c: char)
  {
    c == '!' || '#' <= c <= '&' || '*' <= c <= '/' || ':' <= c <= '@' || '^' <= c <= '`' || c == '|' || c == '~'
  }

  /** `is_id`: a digit, an ASCII letter or one of the punctuation characters above. */
  predicate IsId(c: char)
  {
    IsDigit(c) || 'a' <= c <= 'z' || 'A' <= c <= 'Z' || IsIdPunctuation(c)
  }

  /** The punctuation of the source's list, in its order. */
  const IdPunctuation: string := "!#$%&-^=~|@`;:+*,./_<>?"

  /** Every character of the ranges is in the source's list. */
  lemma IdPunctuationListed(c: char)
    requires IsIdPunctuation(c)
    ensures c in IdPunctuation
  {
    if c == '!' { assert IdPunctuation[0] == c; }
    else if c == '#' { assert IdPunctuation[1] == c; }
    else if c == '$' { assert IdPunctuation[2] == c; }
    else if c == '%' { assert IdPunctuation[3] == c; }
    else if c == '&' { assert IdPunctuation[4] == c; }
    else if c == '*' { assert IdPunctuation[15] == c; }
    else if c == '+' { assert IdPunctuation[14] == c; }
    else if c == ',' { assert IdPunctuation[16] == c; }
    else if c == '-' { assert IdPunctuation[5] == c; }
    else if c == '.' { assert IdPunctuation[17] == c; }
    else if c == '/' { assert IdPunctuation[18] == c; }
    else if c == ':' { assert IdPunctuation[13] == c; }
    else if c == ';' { assert IdPunctuation[12] == c; }
    else if c == '<' { assert IdPunctuation[20] == c; }
    else if c == '=' { assert IdPunctuation[7] == c; }
    else if c == '>' { assert IdPunctuation[21] == c; }
    else if c == '?' { assert IdPunctuation[22] == c; }
    else if c == '@' { assert IdPunctuation[10] == c; }
    else if c == '^' { assert IdPunctuation[6] == c; }
    else if c == '_' { assert IdPunctuation[19] == c; }
    else if c == '`' { assert IdPunctuation[11] == c; }
    else if c == '|' { assert IdPunctuation[9] == c; }
    else if c == '~' { assert IdPunctuation[8] == c; }
  }

  /** The ranges above hold exactly the punctuation of the source's list. */
  lemma IdPunctuationExactly(c: char)
    ensures IsIdPunctuation(c) <==> c in IdPunctuation
  {
    if IsIdPunctuation(c) {
      IdPunctuationListed(c);
    } else {
      assert forall i | 0 <= i < |IdPunctuation| :: IsIdPunctuation(IdPunctuation[i]);
    }
  }

  /** The character list of `is_id`, in the source's order, in three pieces. */
  const IdDigitsPunctuation: string := "1234567890" + IdPunctuation
  const IdLower: string := "_qwertyuiopasdfghjklzxcvbnm"
  const IdUpper: string := "QWERTYUIOPASDFGHJKLZXCVBNM"
  const IdChars: string := IdDigitsPunctuation + IdLower + IdUpper

  /** Every ASCII digit is in the listed digits. */
  lemma DigitListed(c: char)
    requires IsDigit(c)
    ensures c in IdDigitsPunctuation
  {
    var digits := "0123456789";
    assert digits[c as int - '0' as int] == c;
    assert c in "1234567890";
  }

  /** Every lower-case ASCII letter is listed. */
  lemma LowerListed(c: char)
    requires 'a' <= c <= 'z'
    ensures c in IdLower
  {
    var lower := "abcdefghijklmnopqrstuvwxyz";
    assert lower[c as int - 'a' as int] == c;
  }

  /** Every upper-case ASCII letter is listed. */
  lemma UpperListed(c: char)
    requires 'A' <= c <= 'Z'
    ensures c in IdUpper
  {
    var upper := "ABCDEFGHIJKLMNOPQRSTUVWXYZ";
    assert upper[c as int - 'A' as int] == c;
  }

  /** A character that fails the identifier test is not in the list. */
  lemma UnlistedNotId(c: char)
    requires !IsId(c)
    ensures c !in IdChars
  {
    IdPunctuationExactly(c);
    assert c !in "1234567890";
    assert c !in IdDigitsPunctuation;
    NotLower(c);
    NotUpper(c);
  }

  /** The lower-case list holds only `_` and lower-case letters. */
  lemma NotLower(c: char)
    requires c != '_' && !('a' <= c <= 'z')
    ensures c !in IdLower
  {
    assert forall i | 0 <= i < |IdLower| :: IdLower[i] == '_' || 'a' <= IdLower[i] <= 'z';
  }

  /** The upper-case list holds only upper-case letters. */
  lemma NotUpper(c: char)
    requires !('A' <= c <= 'Z')
    ensures c !in IdUpper
  {
    assert forall i | 0 <= i < |IdUpper| :: 'A' <= IdUpper[i] <= 'Z';
  }

  /** `IsId` accepts exactly the characters of the source's list; digits included, so `ab12` is one identifier. */
  lemma IsIdExactly(c: char)
    ensures IsId(c) <==> c in IdChars
  {
    if IsDigit(c) {
      DigitListed(c);
    } else if 'a' <= c <= 'z' {
      LowerListed(c);
    } else if 'A' <= c <= 'Z' {
      UpperListed(c);
    } else if IsIdPunctuation(c) {
      IdPunctuationExactly(c);
      assert c in IdDigitsPunctuation;
    } else {
      UnlistedNotId(c);
    }
  }

  // ---------------------------------------------------------------------------
  // Positions.
  // ---------------------------------------------------------------------------

  /** `inc_width`: one more column. */
  function Wider(i: Info): Info
  {
    Info(i.line, i.col + 1)
  }

  /** `inc_line`: the next line, first column. */
  function NextLine(i: Info): Info
  {
    Info(i.line + 1, 1)
  }

  /** The position after reading `s` from position `i`: a newline starts a new line, any other character moves one column. */
  function Advance(i: Info, s: string): Info
    decreases |s|
  {
    if s == [] then i
    else Advance(if s[0] == '\n' then NextLine(i) else Wider(i), s[1..])
  }

  /** Where `Parser::new` starts. */
  const Start: Info := Info(1, 1)

  // ---------------------------------------------------------------------------
  // Tokens.
  // ---------------------------------------------------------------------------

  /** The `kind` of a token: `"("`, `")"`, `"int"` or `"id"`. */
  datatype Kind = OpenParen | CloseParen | IntTok | IdTok

  /** A token, with the position just after its last character. */
  datatype Token = Token(text: string, kind: Kind, info: Info)

  /** "lex unexpect token": a character that starts no token, at the position before it. */
  datatype LexError = LexError(c: char, info: Info)

  /** The outcome of one call of `lex`, and the position it reaches. */
  datatype Lexed = Lexed(result: Result<Option<Token>, LexError>, pos: nat, info: Info)

  /** The characters that continue a token of kind `kind`. */
  predicate InWord(kind: Kind, c: char)
  {
    if kind == IntTok then IsDigit(c) else IsId(c)
  }

  /**
   * `lex` from byte `pos` at position `info`: skip spaces and newlines, then
   * read one token. A number or identifier is only returned when a character
   * that cannot continue it follows; one that reaches the end of the input
   * gives no token.
   */
  function Scan(src: string, pos: nat, info: Info): (l: Lexed)
    ensures pos <= l.pos
    ensures l.result.Success? && l.result.value.Some? ==> pos < l.pos <= |src|
    decreases |src| - pos
  {
    if pos >= |src| then Lexed(Success(None), pos, info)
    else
      var c := src[pos];
      if c == '(' then Lexed(Success(Some(Token("(", OpenParen, Wider(info)))), pos + 1, Wider(info))
      else if c == ')' then Lexed(Success(Some(Token(")", CloseParen, Wider(info)))), pos + 1, Wider(info))
      else if c == ' ' then Scan(src, pos + 1, Wider(info))
      else if c == '\n' then Scan(src, pos + 1, NextLine(info))
      else if IsDigit(c) then Word(src, pos + 1, Wider(info), [c], IntTok)
      else if IsId(c) then Word(src, pos + 1, Wider(info), [c], IdTok)
      else Lexed(Failure(LexError(c, info)), pos, info)
  }

  /** The inner loop of `lex`: extend `text` while the next character continues it. */
  function Word(src: string, pos: nat, info: Info, text: string, kind: Kind): (l: Lexed)
    ensures pos <= l.pos
    ensures l.result.Success?
    ensures l.result.value.Some? ==> l.pos <= |src|
    decreases |src| - pos
  {
    if pos >= |src| then Lexed(Success(None), pos, info)
    else if InWord(kind, src[pos]) then Word(src, pos + 1, Wider(info), text + [src[pos]], kind)
    else Lexed(Success(Some(Token(text, kind, info))), pos, info)
  }

  // ---------------------------------------------------------------------------
  // Parsing.
  // ---------------------------------------------------------------------------

  datatype ParseError =
    | Lex(error: LexError)   // the tokenizer's error, passed on by `try!`
    | ManyOpen               // "many '('": lists still open at the end of the input
    | ManyClose              // "many ')'"
    | IntRange(info: Info)   // a digit run that is not an `i32` (the source's `parse().unwrap()` panics)
    | NoExpression           // no complete expression at top level (the source's final `unwrap` panics)
    | StackUnderflow         // a `)` with no open list (the source's `last_mut().unwrap()` panics)

  /** `t.token.parse::<i32>()` on a digit run. */
  function ParseI32(s: string): Option<Int32>
  {
    if s != [] && AllDigits(s) && DecimalValue(s) <= I32Max then Some(DecimalValue(s)) else None
  }

  function Last<T>(s: seq<T>): T
    requires s != []
  {
    s[|s| - 1]
  }

  /** `list.last_mut().unwrap().push(a)`. */
  function Push(list: seq<seq<Ast>>, a: Ast): (r: seq<seq<Ast>>)
    requires list != []
    ensures |r| == |list| && r[..|r| - 1] == list[..|list| - 1] && Last(r) == Last(list) + [a]
  {
    list[..|list| - 1] + [Last(list) + [a]]
  }

  /**
   * The body of the loop of `parse` for one token `t`, on the stack of open
   * lists `list` and the depth `ps`. `intended` selects what a `)` with no
   * open list does: as written it unwraps an empty stack (`StackUnderflow`);
   * the intended behaviour is the "many ')'" error.
   */
  function Absorb(t: Token, list: seq<seq<Ast>>, ps: int, intended: bool): (r: Result<(seq<seq<Ast>>, int), ParseError>)
    requires list != []
    ensures r.Success? ==> r.value.0 != [] && r.value.1 >= 0
  {
    var (list', ps') :=
      match t.kind
      case IdTok => (Push(list, Ast(t.info, Atom(t.text))), ps)
      case IntTok =>
        (match ParseI32(t.text)
         case None => ([], 0)
         case Some(n) => (Push(list, Ast(t.info, SExpr.Int(n))), ps))
      case OpenParen => (list + [[]], ps + 1)
      case CloseParen =>
        var rest := list[..|list| - 1];
        if rest == [] then ([], 0) else (Push(rest, Ast(t.info, SExpr.List(Last(list)))), ps - 1);
    if t.kind == IntTok && ParseI32(t.text).None? then Failure(IntRange(t.info))
    else if t.kind == CloseParen && |list| == 1 then Failure(if intended then ManyClose else StackUnderflow)
    else if ps' < 0 then Failure(ManyClose)
    else Success((list', ps'))
  }

  /** After the last token: "many '('" if lists are still open, otherwise the last node of the innermost list. */
  function Finish(list: seq<seq<Ast>>, ps: int): Result<Ast, ParseError>
    requires list != []
  {
    if ps > 0 then Failure(ManyOpen)
    else if Last(list) == [] then Failure(NoExpression)
    else Success(Last(Last(list)))
  }

  /** The loop of `parse` from byte `pos`, with the stack of open lists `list` and the depth `ps`. */
  function ParseLoop(src: string, pos: nat, info: Info, list: seq<seq<Ast>>, ps: int, intended: bool): Result<Ast, ParseError>
    requires list != []
    decreases |src| - pos
  {
    var l := Scan(src, pos, info);
    match l.result
    case Failure(e) => Failure(Lex(e))
    case Success(None) => Finish(list, ps)
    case Success(Some(t)) =>
      match Absorb(t, list, ps, intended)
      case Failure(e) => Failure(e)
      case Success((list', ps')) => ParseLoop(src, l.pos, l.info, list', ps', intended)
  }

  /** `parse` on a reader at byte `pos`, position `info`. */
  function ParseFrom(src: string, pos: nat, info: Info, intended: bool): Result<Ast, ParseError>
  {
    ParseLoop(src, pos, info, [[]], 0, intended)
  }

  /** `Parser::new(s).parse()`. */
  function ParseText(src: string, intended: bool): Result<Ast, ParseError>
  {
    ParseFrom(src, 0, Start, intended)
  }

  // ---------------------------------------------------------------------------
  // The reader object.
  // ---------------------------------------------------------------------------

  class Parser {
    const src: string
    var pos: nat
    var info: Info

    /** `Parser::new`. */
    constructor(s: string)
      ensures src == s && pos == 0 && info == Start
    {
      src := s;
      pos := 0;
      info := Start;
    }

    /** `inc_line`. */
    method IncLine()
      modifies this
      ensures info == NextLine(old(info)) && pos == old(pos)
    {
      info := Info(info.line + 1, 1);
    }

    /** `inc_width`. */
    method IncWidth()
      modifies this
      ensures info == Wider(old(info)) && pos == old(pos)
    {
      info := Info(info.line, info.col + 1);
    }

    /** `inc_pos`. */
    method IncPos()
      modifies this
      ensures pos == old(pos) + 1 && info == old(info)
    {
      pos := pos + 1;
    }

    /**
     * `lex`: read one token as `Scan` does. With `isPeek` the position is put
     * back afterwards; otherwise it is left after the token.
     */
    method Lex(isPeek: bool) returns (t: Result<Option<Token>, LexError>)
      modifies this
      ensures t == Scan(src, old(pos), old(info)).result
      ensures isPeek ==> pos == old(pos) && info == old(info)
      ensures !isPeek ==> pos == Scan(src, old(pos), old(info)).pos && info == Scan(src, old(pos), old(info)).info
    {
      var prevPos, prevInfo := pos, info;
      t := Success(None);
      while pos < |src|
        invariant Scan(src, pos, info) == Scan(src, prevPos, prevInfo)
        invariant t == Success(None)
        decreases |src| - pos
      {
        var c := src[pos];
        if c == '(' {
          IncWidth();
          IncPos();
          t := Success(Some(Token("(", OpenParen, info)));
          break;
        } else if c == ')' {
          IncWidth();
          IncPos();
          t := Success(Some(Token(")", CloseParen, info)));
          break;
        } else if c == ' ' {
          IncWidth();
          IncPos();
        } else if c == '\n' {
          IncLine();
          IncPos();
        } else if IsDigit(c) || IsId(c) {
          var kind := if IsDigit(c) then IntTok else IdTok;
          IncWidth();
          IncPos();
          t := ReadWord([c], kind);
          break;
        } else {
          t := Failure(LexError(c, info));
          break;
        }
      }
      if isPeek {
        pos := prevPos;
        info := prevInfo;
      }
    }

    /** The inner loops of `lex`: extend `s` while the next character continues a token of kind `kind`. */
    method ReadWord(s: string, kind: Kind) returns (t: Result<Option<Token>, LexError>)
      modifies this
      ensures t == Word(src, old(pos), old(info), s, kind).result
      ensures pos == Word(src, old(pos), old(info), s, kind).pos && info == Word(src, old(pos), old(info), s, kind).info
    {
      ghost var p0, i0 := pos, info;
      var text := s;
      t := Success(None);
      while pos < |src|
        invariant Word(src, pos, info, text, kind) == Word(src, p0, i0, s, kind)
        invariant t == Success(None)
        decreases |src| - pos
      {
        var cc := src[pos];
        if InWord(kind, cc) {
          IncWidth();
          IncPos();
          text := text + [cc];
        } else {
          t := Success(Some(Token(text, kind, info)));
          break;
        }
      }
    }

    /** `next`: read one token and move past it. */
    method Next() returns (t: Result<Option<Token>, LexError>)
      modifies this
      ensures t == Scan(src, old(pos), old(info)).result
      ensures pos == Scan(src, old(pos), old(info)).pos && info == Scan(src, old(pos), old(info)).info
      ensures old(pos) <= pos
    {
      t := Lex(false);
    }

    /** `peek`: the token `next` would return; the position is unchanged, so a second `peek` returns it again. */
    method Peek() returns (t: Result<Option<Token>, LexError>)
      modifies this
      ensures t == Scan(src, old(pos), old(info)).result
      ensures pos == old(pos) && info == old(info)
    {
      t := Lex(true);
    }

    /** The body of the loop of `parse` for one token: update the stack of open lists and the depth. */
    static method Shift(tok: Token, list0: seq<seq<Ast>>, ps0: int) returns (r: Result<(seq<seq<Ast>>, int), ParseError>)
      requires list0 != []
      ensures r == Absorb(tok, list0, ps0, false)
    {
      var list, ps := list0, ps0;
      match tok.kind {
        case IdTok =>
          list := Push(list, Ast(tok.info, Atom(tok.text)));
        case IntTok =>
          match ParseI32(tok.text) {
            case None =>
              return Failure(IntRange(tok.info));
            case Some(n) =>
              list := Push(list, Ast(tok.info, SExpr.Int(n)));
          }
        case OpenParen =>
          list := list + [[]];
          ps := ps + 1;
        case CloseParen =>
          var node := list[|list| - 1];
          list := list[..|list| - 1];
          if list == [] {
            return Failure(StackUnderflow);
          }
          list := Push(list, Ast(tok.info, SExpr.List(node)));
          ps := ps - 1;
      }
      if ps < 0 {
        return Failure(ManyClose);
      }
      r := Success((list, ps));
    }

    /** The end of `parse`: "many '('" while lists are open, otherwise the last node of the innermost list. */
    static method Finished(list: seq<seq<Ast>>, ps: int) returns (r: Result<Ast, ParseError>)
      requires list != []
      ensures r == Finish(list, ps)
    {
      if ps > 0 {
        r := Failure(ManyOpen);
        return;
      }
      var top := list[|list| - 1];
      if top == [] {
        r := Failure(NoExpression);
        return;
      }
      r := Success(top[|top| - 1]);
    }

    /** `parse`: read tokens until the input ends, matching brackets with a stack of open lists. */
    method Parse() returns (r: Result<Ast, ParseError>)
      modifies this
      ensures r == ParseFrom(src, old(pos), old(info), false)
    {
      var ps := 0;
      var list: seq<seq<Ast>> := [[]];
      ghost var p0, i0 := pos, info;
      while true
        invariant list != []
        invariant ParseLoop(src, pos, info, list, ps, false) == ParseLoop(src, p0, i0, [[]], 0, false)
        decreases |src| - pos
      {
        ghost var before, at := pos, info;
        var t := Next();
        match t {
          case Failure(e) =>
            r := Failure(ParseError.Lex(e));
            return;
          case Success(None) =>
            assert ParseLoop(src, before, at, list, ps, false) == Finish(list, ps);
            break;
          case Success(Some(tok)) =>
            var step := Shift(tok, list, ps);
            match step {
              case Failure(e) =>
                r := Failure(e);
                return;
              case Success((list', ps')) =>
                list, ps := list', ps';
            }
        }
      }
      r := Finished(list, ps);
    }
  }
}
