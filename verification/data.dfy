/**
 * The value and instruction model of the SECD Lisp (src/data.rs): the
 * expression tree produced by the parser, the instruction set produced by the
 * compiler, the runtime values and dump frames of the virtual machine, the
 * equality the source derives for them, and the two textual renderings.
 */
module Data {
  import opened Wrappers

  /** A source position `[line, column]`; the lexer starts at line 1, column 1. */
  datatype Info = Info(line: nat, col: nat)

  const I32Min: int := -0x8000_0000
  const I32Max: int := 0x7fff_ffff

  /** The source stores integers as `i32`. */
  type Int32 = n: int | I32Min <= n <= I32Max

  /** Expression tree node (`AST`): a position and an s-expression. */
  datatype Ast = Ast(info: Info, sexpr: SExpr)

  datatype SExpr =
    | Atom(id: string)
    | Int(n: Int32)
    | List(items: seq<Ast>)

  /**
   * The 17 instructions (`CodeOP`). `LDF` and `SEL` carry whole nested
   * instruction sequences instead of jump offsets.
   */
  datatype CodeOp =
    | LET(id: string)
    | LD(id: string)
    | LDC(val: Lisp)
    | LDF(params: seq<string>, body: Code)
    | SEL(thenCode: Code, elseCode: Code)
    | JOIN
    | RET
    | AP
    | RAP
    | ARGS(count: nat)
    | PUTS
    | EQ
    | ADD
    | SUB
    | CONS
    | CAR
    | CDR

  /** An instruction together with the position of the tree node that produced it (`CodeOPInfo`). */
  datatype CodeOpInfo = CodeOpInfo(info: Info, op: CodeOp)

  type Code = seq<CodeOpInfo>

  /** An environment maps identifiers to values; a closure holds a snapshot of one. */
  type Env = map<string, Lisp>

  /** Runtime values (`Lisp`). */
  datatype Lisp =
    | Nil
    | False
    | True
    | Int(n: Int32)
    | List(elems: seq<Lisp>)
    | Closure(params: seq<string>, body: Code, env: Env)
    | Cons(car: Lisp, cdr: Lisp)

  /** Dump frames (`DumpOP`): a call continuation or a branch continuation. */
  datatype DumpOp =
    | DumpAP(stack: seq<Lisp>, env: Env, code: Code)
    | DumpSEL(code: Code)

  // ---------------------------------------------------------------------------
  // Equality. `CodeOPInfo` compares only its `op` (src/data.rs:104-108); every
  // other type derives structural equality, so two values are equal exactly when
  // they agree once every source position inside them is erased.
  // ---------------------------------------------------------------------------

  const NoInfo: Info := Info(0, 0)

  function EraseLisp(v: Lisp): Lisp
  {
    match v
    case Nil => Nil
    case False => False
    case True => True
    case Int(n) => Lisp.Int(n)
    case List(xs) => Lisp.List(seq(|xs|, i requires 0 <= i < |xs| => EraseLisp(xs[i])))
    case Closure(ps, body, env) =>
      Closure(ps, EraseCode(body), map k | k in env :: EraseLisp(env[k]))
    case Cons(a, d) => Cons(EraseLisp(a), EraseLisp(d))
  }

  function EraseCode(c: Code): Code
  {
    seq(|c|, i requires 0 <= i < |c| => EraseInstr(c[i]))
  }

  function EraseInstr(i: CodeOpInfo): CodeOpInfo
  {
    CodeOpInfo(NoInfo, EraseOp(i.op))
  }

  function EraseOp(op: CodeOp): CodeOp
  {
    match op
    case LDC(v) => LDC(EraseLisp(v))
    case LDF(ps, body) => LDF(ps, EraseCode(body))
    case SEL(t, f) => SEL(EraseCode(t), EraseCode(f))
    case _ => op
  }

  /** `PartialEq for CodeOPInfo`: the source position is ignored. */
  predicate InstrEq(a: CodeOpInfo, b: CodeOpInfo)
  {
    EraseOp(a.op) == EraseOp(b.op)
  }

  /** Equality of instruction sequences, element by element with `InstrEq`. */
  predicate CodeEq(a: Code, b: Code)
  {
    EraseCode(a) == EraseCode(b)
  }

  /** The derived `PartialEq for Lisp`, used by the `EQ` instruction. */
  predicate LispEq(a: Lisp, b: Lisp)
  {
    EraseLisp(a) == EraseLisp(b)
  }

  /** Positions never decide instruction equality. */
  lemma InstrEqIgnoresInfo(i: Info, j: Info, op: CodeOp)
    ensures InstrEq(CodeOpInfo(i, op), CodeOpInfo(j, op))
  {
  }

  /** Code equality is instruction equality, position by position. */
  lemma CodeEqElementwise(a: Code, b: Code)
    ensures CodeEq(a, b) <==> |a| == |b| && forall k :: 0 <= k < |a| ==> InstrEq(a[k], b[k])
  {
    if |a| == |b| && forall k :: 0 <= k < |a| ==> InstrEq(a[k], b[k]) {
      assert forall k :: 0 <= k < |a| ==> EraseCode(a)[k] == EraseCode(b)[k];
    }
    if CodeEq(a, b) {
      forall k | 0 <= k < |a|
        ensures InstrEq(a[k], b[k])
      {
        assert |EraseCode(b)| == |b|;
        assert EraseInstr(a[k]) == EraseCode(a)[k] == EraseCode(b)[k] == EraseInstr(b[k]);
      }
    }
  }

  /** The derived equality on values is an equivalence. */
  lemma LispEqIsEquivalence(a: Lisp, b: Lisp, c: Lisp)
    ensures LispEq(a, a)
    ensures LispEq(a, b) <==> LispEq(b, a)
    ensures LispEq(a, b) && LispEq(b, c) ==> LispEq(a, c)
  {
  }

  /** A value without closures: the only values whose equality sees no code. */
  predicate Plain(v: Lisp)
  {
    match v
    case List(xs) => forall i :: 0 <= i < |xs| ==> Plain(xs[i])
    case Closure(_, _, _) => false
    case Cons(a, d) => Plain(a) && Plain(d)
    case _ => true
  }

  /** Erasing positions leaves a closure-free value as it is. */
  lemma {:induction false} ErasePlain(v: Lisp)
    requires Plain(v)
    ensures EraseLisp(v) == v
  {
    match v
    case List(xs) =>
      forall i | 0 <= i < |xs|
        ensures EraseLisp(xs[i]) == xs[i]
      {
        ErasePlain(xs[i]);
      }
      assert EraseLisp(v).elems == xs;
    case Cons(a, d) =>
      ErasePlain(a);
      ErasePlain(d);
    case _ =>
  }

  /** On closure-free values the derived equality is plain structural equality. */
  lemma PlainLispEq(a: Lisp, b: Lisp)
    requires Plain(a) && Plain(b)
    ensures LispEq(a, b) <==> a == b
  {
    ErasePlain(a);
    ErasePlain(b);
  }

  // ---------------------------------------------------------------------------
  // Decimal numerals, as written by `Display for i32` and read by `str::parse`.
  // ---------------------------------------------------------------------------

  predicate IsDigit(c: char)
  {
    '0' <= c <= '9'
  }

  /** The character of one decimal digit. */
  function DigitChar(d: nat): (c: char)
    requires d < 10
    ensures IsDigit(c)
  {
    ['0', '1', '2', '3', '4', '5', '6', '7', '8', '9'][d]
  }

  function DigitValue(c: char): nat
    requires IsDigit(c)
  {
    (c as int - '0' as int) as nat
  }

  /** The decimal digits of a natural number, without leading zeros. */
  function NatDigits(n: nat): (s: string)
    decreases n
  {
    if n < 10 then [DigitChar(n)] else NatDigits(n / 10) + [DigitChar(n % 10)]
  }

  predicate AllDigits(s: string)
  {
    forall i :: 0 <= i < |s| ==> IsDigit(s[i])
  }

  /** The value of a string of decimal digits (leading zeros allowed). */
  function DecimalValue(s: string): nat
    requires AllDigits(s)
  {
    if s == [] then 0 else DecimalValue(s[..|s| - 1]) * 10 + DigitValue(s[|s| - 1])
  }

  /** Rendering a natural number and reading it back gives the number again. */
  lemma {:induction false} DecimalRoundTrip(n: nat)
    ensures |NatDigits(n)| > 0 && AllDigits(NatDigits(n))
    ensures NatDigits(n)[0] != '0' || n == 0
    ensures DecimalValue(NatDigits(n)) == n
  {
    if n >= 10 {
      DecimalRoundTrip(n / 10);
      var s := NatDigits(n / 10);
      assert NatDigits(n) == s + [DigitChar(n % 10)];
      assert (s + [DigitChar(n % 10)])[..|s|] == s;
      assert DigitValue(DigitChar(n % 10)) == n % 10;
    } else {
      assert DigitValue(DigitChar(n)) == n;
    }
  }

  /** `Display for i32`: an optional minus sign followed by the digits. */
  function ShowInt(n: int): string
  {
    if n < 0 then "-" + NatDigits(-n) else NatDigits(n)
  }

  // ---------------------------------------------------------------------------
  // Rendering (`Display for AST`, `Display for Lisp`).
  // ---------------------------------------------------------------------------

  /** `Display for AST`: atoms as their name, integers in decimal, lists in parentheses. */
  function ShowAst(a: Ast): string
  {
    match a.sexpr
    case Atom(id) => id
    case Int(n) => ShowInt(n)
    case List(items) => "(" + ShowItems(items) + ")"
  }

  /** The children of a list, separated by single spaces (the loop at src/data.rs:90-97). */
  function ShowItems(items: seq<Ast>): string
  {
    if items == [] then ""
    else if |items| == 1 then ShowAst(items[0])
    else ShowAst(items[0]) + " " + ShowItems(items[1..])
  }

  /**
   * `Display for Lisp`. Lists and closures are printed by Rust's debug
   * formatter, which this model does not reproduce: their rendering is `None`.
   */
  function ShowLisp(v: Lisp): (r: Option<string>)
    ensures r.Some? <==> Printable(v)
  {
    match v
    case Nil => Some("nil")
    case True => Some("true")
    case False => Some("false")
    case Int(n) => Some(ShowInt(n))
    case Cons(a, d) =>
      (match (ShowLisp(a), ShowLisp(d))
       case (Some(sa), Some(sd)) => Some("(cons " + sa + " " + sd + ")")
       case _ => None)
    case List(_) => None
    case Closure(_, _, _) => None
  }

  /** A value built only from constants, integers and cons cells. */
  predicate Printable(v: Lisp)
  {
    match v
    case List(_) => false
    case Closure(_, _, _) => false
    case Cons(a, d) => Printable(a) && Printable(d)
    case _ => true
  }

  /**
   * The expression tree a printable value is written as: a constant as the
   * atom of its name, an integer as itself, a pair as `(cons car cdr)`.
   */
  function Quote(v: Lisp): Ast
    requires Printable(v)
  {
    match v
    case Nil => Ast(NoInfo, Atom("nil"))
    case True => Ast(NoInfo, Atom("true"))
    case False => Ast(NoInfo, Atom("false"))
    case Int(n) => Ast(NoInfo, SExpr.Int(n))
    case Cons(a, d) => Ast(NoInfo, SExpr.List([Ast(NoInfo, Atom("cons")), Quote(a), Quote(d)]))
  }

  /** `Display for Lisp` of a printable value is `Display for AST` of the tree it is written as. */
  lemma {:induction false} ShowLispQuote(v: Lisp)
    requires Printable(v)
    ensures ShowLisp(v) == Some(ShowAst(Quote(v)))
  {
    if v.Cons? {
      ShowLispQuote(v.car);
      ShowLispQuote(v.cdr);
      ShowPair(ShowAst(Quote(v.car)), ShowAst(Quote(v.cdr)), Quote(v.car), Quote(v.cdr));
    }
  }

  /** The rendering of a `(cons a d)` tree, from the renderings of its parts. */
  lemma ShowPair(sa: string, sd: string, a: Ast, d: Ast)
    requires ShowAst(a) == sa && ShowAst(d) == sd
    ensures ShowAst(Ast(NoInfo, SExpr.List([Ast(NoInfo, Atom("cons")), a, d]))) == "(cons " + sa + " " + sd + ")"
  {
    var items := [Ast(NoInfo, Atom("cons")), a, d];
    assert ShowItems(items[2..]) == sd;
    assert ShowItems(items[1..]) == sa + " " + sd;
    assert ShowItems(items) == "cons" + " " + (sa + " " + sd);
    PairText("(", "cons", " ", ")", sa, sd);
    assert "(" + "cons" + " " == "(cons ";
  }

  /** Regrouping the pieces of a rendered pair. */
  lemma PairText(open: string, name: string, sp: string, close: string, sa: string, sd: string)
    ensures open + (name + sp + (sa + sp + sd)) + close == open + name + sp + sa + sp + sd + close
  {
  }
}
