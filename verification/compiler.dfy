/**
 * The compiler (src/compiler.rs): one recursive walk over the expression tree
 * that appends instructions to a code buffer. The class `Compiler` keeps the
 * buffer and the letrec identifier list and mirrors the source's handlers; each
 * handler is proved against a pure function `Gen…` that gives the code it
 * appends and the letrec list it leaves behind.
 */
module Compiler {
  import opened Wrappers
  import opened Data

  /** The special forms, recognised by the name of the atom in head position. */
  datatype Form =
    | LambdaForm | LetForm | LetrecForm | PutsForm | IfForm
    | EqForm | AddForm | SubForm | ConsForm | CarForm | CdrForm

  function FormOf(id: string): Option<Form>
  {
    if id == "lambda" then Some(LambdaForm)
    else if id == "let" then Some(LetForm)
    else if id == "letrec" then Some(LetrecForm)
    else if id == "puts" then Some(PutsForm)
    else if id == "if" then Some(IfForm)
    else if id == "eq" then Some(EqForm)
    else if id == "+" then Some(AddForm)
    else if id == "-" then Some(SubForm)
    else if id == "cons" then Some(ConsForm)
    else if id == "car" then Some(CarForm)
    else if id == "cdr" then Some(CdrForm)
    else None
  }

  /** The number of arguments each form takes. */
  function Arity(f: Form): nat
  {
    match f
    case LambdaForm => 2
    case LetForm => 3
    case LetrecForm => 3
    case IfForm => 3
    case PutsForm => 1
    case CarForm => 1
    case CdrForm => 1
    case _ => 2
  }

  /** The name an arity error reports; `letrec` reports "let syntax". */
  function SyntaxName(f: Form): string
  {
    match f
    case LambdaForm => "lambda"
    case LetForm => "let"
    case LetrecForm => "let"
    case PutsForm => "puts"
    case IfForm => "if"
    case EqForm => "eq"
    case AddForm => "add"
    case SubForm => "sub"
    case ConsForm => "cons"
    case CarForm => "car"
    case CdrForm => "cdr"
  }

  datatype CompileFault =
    | ApplyInt              // "apply unexpect int"
    | Syntax(form: string)  // "<form> syntax": wrong number of arguments
    | LambdaArgs            // "lambda args"
    | LetBindId             // "let bind id sytax"

  /** A compile error, reported as `line:col:compile error: message`. */
  datatype CompileError = CompileError(info: Info, fault: CompileFault)

  /** What compiling a node produces: the code appended and the resulting letrec list. */
  datatype Emitted = Emitted(code: Code, ids: seq<string>)

  // ---------------------------------------------------------------------------
  // Termination measure for the walk over the tree.
  // ---------------------------------------------------------------------------

  function Size(a: Ast): nat
  {
    match a.sexpr
    case List(items) => 1 + SizeList(items)
    case _ => 1
  }

  function SizeList(items: seq<Ast>): nat
  {
    if items == [] then 0 else Size(items[0]) + SizeList(items[1..])
  }

  /** Each child is no larger than the list of children. */
  lemma {:induction false} SizeListElem(items: seq<Ast>, i: nat)
    requires i < |items|
    ensures Size(items[i]) <= SizeList(items)
  {
    if i > 0 {
      SizeListElem(items[1..], i - 1);
    }
  }

  /** The size of a list of children, split at its last child. */
  lemma {:induction false} SizeListLast(items: seq<Ast>)
    requires items != []
    ensures SizeList(items) == SizeList(items[..|items| - 1]) + Size(items[|items| - 1])
  {
    if |items| > 1 {
      SizeListLast(items[1..]);
      assert items[1..][..|items| - 2] == items[..|items| - 1][1..];
    }
  }

  // ---------------------------------------------------------------------------
  // Letrec identifier list.
  // ---------------------------------------------------------------------------

  /** `Vec::retain(|a| *a != id)`: drop every occurrence of `x`, keep the order of the rest. */
  function RemoveAll(s: seq<string>, x: string): (r: seq<string>)
    ensures forall y :: y in r <==> y in s && y != x
    ensures |r| <= |s|
  {
    if s == [] then [] else (if s[0] == x then [] else [s[0]]) + RemoveAll(s[1..], x)
  }

  // ---------------------------------------------------------------------------
  // Specification of every handler: the code it appends and the letrec list it
  // leaves, or the error it reports.
  // ---------------------------------------------------------------------------

  /** The instruction an atom compiles to: a constant for nil/true/false, a variable load otherwise. */
  function AtomOp(id: string): CodeOp
  {
    if id == "nil" then LDC(Nil)
    else if id == "true" then LDC(True)
    else if id == "false" then LDC(False)
    else LD(id)
  }

  /** `compile_`: dispatch on the node; a list is a special form or an application. */
  function Gen(a: Ast, ids: seq<string>): Result<Emitted, CompileError>
    decreases Size(a), 0
  {
    match a.sexpr
    case Int(n) => Success(Emitted([CodeOpInfo(a.info, LDC(Lisp.Int(n)))], ids))
    case Atom(id) => Success(Emitted([CodeOpInfo(a.info, AtomOp(id))], ids))
    case List(items) =>
      if items == [] then Success(Emitted([CodeOpInfo(a.info, LDC(Nil))], ids))
      else
        var head := items[0];
        var args := items[1..];
        assert SizeList(items) == Size(head) + SizeList(args);
        match head.sexpr
        case Int(_) => Failure(CompileError(head.info, ApplyInt))
        case Atom(id) =>
          (match FormOf(id)
           case Some(f) => GenForm(f, head.info, args, ids)
           case None => GenApply(head.info, head, args, ids))
        case List(_) => GenApply(head.info, head, args, ids)
  }

  function GenForm(f: Form, info: Info, args: seq<Ast>, ids: seq<string>): Result<Emitted, CompileError>
    decreases SizeList(args), 3
  {
    match f
    case LambdaForm => GenLambda(info, args, ids)
    case LetForm => GenLet(info, args, ids)
    case LetrecForm => GenLetrec(info, args, ids)
    case PutsForm => GenUnary(info, args, ids, "puts", PUTS)
    case IfForm => GenIf(info, args, ids)
    case EqForm => GenBinary(info, args, ids, "eq", EQ)
    case AddForm => GenBinary(info, args, ids, "add", ADD)
    case SubForm => GenBinary(info, args, ids, "sub", SUB)
    case ConsForm => GenBinary(info, args, ids, "cons", CONS)
    case CarForm => GenUnary(info, args, ids, "car", CAR)
    case CdrForm => GenUnary(info, args, ids, "cdr", CDR)
  }

  /** The parameter names of a list of atoms, or `None` if some element is not an atom. */
  function AtomNames(items: seq<Ast>): (r: Option<seq<string>>)
    ensures r.Some? <==> forall i :: 0 <= i < |items| ==> items[i].sexpr.Atom?
    ensures r.Some? ==>
      |r.value| == |items| && forall i :: 0 <= i < |items| ==> r.value[i] == items[i].sexpr.id
  {
    if forall i :: 0 <= i < |items| ==> items[i].sexpr.Atom? then
      Some(seq(|items|, i requires 0 <= i < |items| => items[i].sexpr.id))
    else None
  }

  /** The parameter part of a lambda: one atom, or a list of atoms. */
  function LambdaParams(info: Info, arg: Ast): Result<seq<string>, CompileError>
  {
    match arg.sexpr
    case Atom(x) => Success([x])
    case List(items) =>
      (match AtomNames(items)
       case Some(names) => Success(names)
       case None => Failure(CompileError(info, LambdaArgs)))
    case Int(_) => Failure(CompileError(arg.info, LambdaArgs))
  }

  /** `compile_lambda`: the body goes to a child buffer with a copy of the letrec list, then `RET`. */
  function GenLambda(info: Info, args: seq<Ast>, ids: seq<string>): Result<Emitted, CompileError>
    decreases SizeList(args), 1
  {
    if |args| != 2 then Failure(CompileError(info, Syntax("lambda")))
    else
      match LambdaParams(info, args[0])
      case Failure(e) => Failure(e)
      case Success(params) =>
        SizeListElem(args, 1);
        match Gen(args[1], ids)
        case Failure(e) => Failure(e)
        case Success(body) =>
          Success(Emitted([CodeOpInfo(info, LDF(params, body.code + [CodeOpInfo(info, RET)]))], ids))
  }

  /** `compile_let`: forget the name as a letrec name, then `expr`, `LET`, `body` in this buffer. */
  function GenLet(info: Info, args: seq<Ast>, ids: seq<string>): Result<Emitted, CompileError>
    decreases SizeList(args), 2
  {
    if |args| != 3 then Failure(CompileError(info, Syntax("let")))
    else
      match args[0].sexpr
      case Atom(x) => GenBinding(info, x, args, RemoveAll(ids, x))
      case _ => Failure(CompileError(info, LetBindId))
  }

  /** `compile_letrec`: record the name as a letrec name, then as `let`. */
  function GenLetrec(info: Info, args: seq<Ast>, ids: seq<string>): Result<Emitted, CompileError>
    decreases SizeList(args), 2
  {
    if |args| != 3 then Failure(CompileError(info, Syntax("let")))
    else
      match args[0].sexpr
      case Atom(x) => GenBinding(info, x, args, ids + [x])
      case _ => Failure(CompileError(info, LetBindId))
  }

  /** The part `let` and `letrec` share: `code(expr) ++ [LET x] ++ code(body)`. */
  function GenBinding(info: Info, x: string, args: seq<Ast>, ids: seq<string>): Result<Emitted, CompileError>
    requires |args| == 3
    decreases SizeList(args), 1
  {
    SizeListElem(args, 1);
    SizeListElem(args, 2);
    match Gen(args[1], ids)
    case Failure(e) => Failure(e)
    case Success(ex) =>
      match Gen(args[2], ex.ids)
      case Failure(e) => Failure(e)
      case Success(eb) => Success(Emitted(ex.code + [CodeOpInfo(info, LET(x))] + eb.code, eb.ids))
  }

  /** `compile_puts`, `compile_car`, `compile_cdr`: `code(e) ++ [op]`. */
  function GenUnary(info: Info, args: seq<Ast>, ids: seq<string>, name: string, op: CodeOp): Result<Emitted, CompileError>
    decreases SizeList(args), 1
  {
    if |args| != 1 then Failure(CompileError(info, Syntax(name)))
    else
      SizeListElem(args, 0);
      match Gen(args[0], ids)
      case Failure(e) => Failure(e)
      case Success(ee) => Success(Emitted(ee.code + [CodeOpInfo(info, op)], ee.ids))
  }

  /** `compile_eq`, `compile_add`, `compile_sub`, `compile_cons`: `code(l) ++ code(r) ++ [op]`. */
  function GenBinary(info: Info, args: seq<Ast>, ids: seq<string>, name: string, op: CodeOp): Result<Emitted, CompileError>
    decreases SizeList(args), 1
  {
    if |args| != 2 then Failure(CompileError(info, Syntax(name)))
    else
      SizeListElem(args, 0);
      SizeListElem(args, 1);
      match Gen(args[0], ids)
      case Failure(e) => Failure(e)
      case Success(el) =>
        match Gen(args[1], el.ids)
        case Failure(e) => Failure(e)
        case Success(er) => Success(Emitted(el.code + er.code + [CodeOpInfo(info, op)], er.ids))
  }

  /** `compile_if`: the condition in this buffer, each arm in a child buffer ending in `JOIN`. */
  function GenIf(info: Info, args: seq<Ast>, ids: seq<string>): Result<Emitted, CompileError>
    decreases SizeList(args), 1
  {
    if |args| != 3 then Failure(CompileError(info, Syntax("if")))
    else
      SizeListElem(args, 0);
      SizeListElem(args, 1);
      SizeListElem(args, 2);
      match Gen(args[0], ids)
      case Failure(e) => Failure(e)
      case Success(ec) =>
        match Gen(args[1], ec.ids)
        case Failure(e) => Failure(e)
        case Success(et) =>
          match Gen(args[2], ec.ids)
          case Failure(e) => Failure(e)
          case Success(ef) =>
            var thenCode := et.code + [CodeOpInfo(args[1].info, JOIN)];
            var elseCode := ef.code + [CodeOpInfo(args[2].info, JOIN)];
            Success(Emitted(ec.code + [CodeOpInfo(info, SEL(thenCode, elseCode))], ec.ids))
  }

  /** The arguments of an application, compiled left to right in this buffer. */
  function GenArgs(args: seq<Ast>, ids: seq<string>): Result<Emitted, CompileError>
    decreases SizeList(args), 1
  {
    if args == [] then Success(Emitted([], ids))
    else
      SizeListLast(args);
      match GenArgs(args[..|args| - 1], ids)
      case Failure(e) => Failure(e)
      case Success(ep) =>
        match Gen(args[|args| - 1], ep.ids)
        case Failure(e) => Failure(e)
        case Success(el) => Success(Emitted(ep.code + el.code, el.ids))
  }

  /** Whether an application of `fn` is a recursive call: `fn` is an atom in the letrec list. */
  predicate IsRecursiveCall(fn: Ast, ids: seq<string>)
  {
    fn.sexpr.Atom? && fn.sexpr.id in ids
  }

  /** `compile_apply`: arguments, `ARGS(n)`, the function, then `RAP` or `AP`. */
  function GenApply(info: Info, fn: Ast, args: seq<Ast>, ids: seq<string>): Result<Emitted, CompileError>
    decreases Size(fn) + SizeList(args), 2
  {
    match GenArgs(args, ids)
    case Failure(e) => Failure(e)
    case Success(ea) =>
      match Gen(fn, ea.ids)
      case Failure(e) => Failure(e)
      case Success(ef) =>
        var call := if IsRecursiveCall(fn, ef.ids) then RAP else AP;
        Success(Emitted(ea.code + [CodeOpInfo(info, ARGS(|args|))] + ef.code + [CodeOpInfo(info, call)], ef.ids))
  }

  /** `Compiler::new().compile(ast)`: compile with an empty letrec list. */
  function CompileProgram(a: Ast): Result<Code, CompileError>
  {
    match Gen(a, [])
    case Success(e) => Success(e.code)
    case Failure(err) => Failure(err)
  }

  // ---------------------------------------------------------------------------
  // The compiler object.
  // ---------------------------------------------------------------------------

  class Compiler {
    var code: Code
    var letrecIds: seq<string>

    /** `Compiler::new`. */
    constructor ()
      ensures code == [] && letrecIds == []
    {
      code := [];
      letrecIds := [];
    }

    /**
     * What a handler promises relative to its specification `g`: on success the
     * buffer grew by exactly g's code and the letrec list is g's; on failure the
     * error is g's and the buffer only grew (every caller then discards it).
     */
    ghost predicate Emits(g: Result<Emitted, CompileError>, code0: Code, r: Outcome<CompileError>)
      reads this
    {
      match g
      case Success(e) => r == Pass && code == code0 + e.code && letrecIds == e.ids
      case Failure(err) => r == Fail(err) && code0 <= code
    }

    /** `compile`: run `compile_` and return the whole buffer. */
    method Compile(ast: Ast) returns (r: Result<Code, CompileError>)
      modifies this
      ensures match Gen(ast, old(letrecIds))
        case Success(e) => r == Success(old(code) + e.code) && letrecIds == e.ids
        case Failure(err) => r == Failure(err)
    {
      var o := CompileExpr(ast);
      if o.Fail? {
        return Failure(o.error);
      }
      r := Success(code);
    }

    method CompileExpr(ast: Ast) returns (r: Outcome<CompileError>)
      modifies this
      decreases Size(ast), 0
      ensures Emits(Gen(ast, old(letrecIds)), old(code), r)
    {
      match ast.sexpr
      case Int(n) =>
        CompileInt(ast.info, n);
        r := Pass;
      case Atom(id) =>
        CompileAtom(ast.info, id);
        r := Pass;
      case List(items) =>
        if items == [] {
          CompileNil(ast.info);
          r := Pass;
        } else {
          var head := items[0];
          var args := items[1..];
          assert SizeList(items) == Size(head) + SizeList(args);
          match head.sexpr
          case Int(_) =>
            r := Fail(CompileError(head.info, ApplyInt));
          case Atom(id) =>
            match FormOf(id) {
              case Some(f) => r := CompileForm(f, head.info, args);
              case None => r := CompileApply(head.info, head, args);
            }
          case List(_) =>
            r := CompileApply(head.info, head, args);
        }
    }

    /** The `match` on the head atom's name in `compile_`. */
    method CompileForm(f: Form, info: Info, args: seq<Ast>) returns (r: Outcome<CompileError>)
      modifies this
      decreases SizeList(args), 3
      ensures Emits(GenForm(f, info, args, old(letrecIds)), old(code), r)
    {
      match f
      case LambdaForm => r := CompileLambda(info, args);
      case LetForm => r := CompileLet(info, args);
      case LetrecForm => r := CompileLetrec(info, args);
      case PutsForm => r := CompilePuts(info, args);
      case IfForm => r := CompileIf(info, args);
      case EqForm => r := CompileEq(info, args);
      case AddForm => r := CompileAdd(info, args);
      case SubForm => r := CompileSub(info, args);
      case ConsForm => r := CompileCons(info, args);
      case CarForm => r := CompileCar(info, args);
      case CdrForm => r := CompileCdr(info, args);
    }

    method CompileInt(info: Info, n: Int32)
      modifies this
      ensures code == old(code) + [CodeOpInfo(info, LDC(Lisp.Int(n)))]
      ensures letrecIds == old(letrecIds)
    {
      code := code + [CodeOpInfo(info, LDC(Lisp.Int(n)))];
    }

    method CompileAtom(info: Info, id: string)
      modifies this
      ensures code == old(code) + [CodeOpInfo(info, AtomOp(id))]
      ensures letrecIds == old(letrecIds)
    {
      if id == "nil" {
        code := code + [CodeOpInfo(info, LDC(Nil))];
      } else if id == "true" {
        code := code + [CodeOpInfo(info, LDC(True))];
      } else if id == "false" {
        code := code + [CodeOpInfo(info, LDC(False))];
      } else {
        code := code + [CodeOpInfo(info, LD(id))];
      }
    }

    method CompileNil(info: Info)
      modifies this
      ensures code == old(code) + [CodeOpInfo(info, LDC(Nil))]
      ensures letrecIds == old(letrecIds)
    {
      code := code + [CodeOpInfo(info, LDC(Nil))];
    }

    method CompileLambda(info: Info, args: seq<Ast>) returns (r: Outcome<CompileError>)
      modifies this
      decreases SizeList(args), 1
      ensures Emits(GenLambda(info, args, old(letrecIds)), old(code), r)
      ensures |args| != 2 ==> code == old(code)
    {
      if |args| != 2 {
        return Fail(CompileError(info, Syntax("lambda")));
      }
      var arg := args[0];
      var body := args[1];
      var params: seq<string> := [];
      match arg.sexpr {
        case Atom(a) =>
          params := [a];
        case List(aa) =>
          var i := 0;
          while i < |aa|
            invariant 0 <= i <= |aa|
            invariant |params| == i
            invariant forall k :: 0 <= k < i ==> aa[k].sexpr.Atom? && params[k] == aa[k].sexpr.id
          {
            match aa[i].sexpr {
              case Atom(a) =>
                params := params + [a];
              case _ =>
                return Fail(CompileError(info, LambdaArgs));
            }
            i := i + 1;
          }
          assert forall k :: 0 <= k < |aa| ==> aa[k].sexpr.Atom?;
          assert AtomNames(aa).value == params;
        case Int(_) =>
          return Fail(CompileError(arg.info, LambdaArgs));
      }
      assert LambdaParams(info, arg) == Success(params);
      SizeListElem(args, 1);
      var bodyCompiler := new Compiler();
      bodyCompiler.letrecIds := letrecIds;
      ghost var gb := Gen(body, letrecIds);
      var o := bodyCompiler.CompileExpr(body);
      if o.Fail? {
        return o;
      }
      assert bodyCompiler.code == gb.value.code;
      bodyCompiler.code := bodyCompiler.code + [CodeOpInfo(info, RET)];
      code := code + [CodeOpInfo(info, LDF(params, bodyCompiler.code))];
      r := Pass;
    }

    method CompileLet(info: Info, args: seq<Ast>) returns (r: Outcome<CompileError>)
      modifies this
      decreases SizeList(args), 2
      ensures Emits(GenLet(info, args, old(letrecIds)), old(code), r)
      ensures |args| != 3 ==> code == old(code)
    {
      if |args| != 3 {
        return Fail(CompileError(info, Syntax("let")));
      }
      match args[0].sexpr {
        case Atom(id) =>
          letrecIds := RemoveAll(letrecIds, id);
          r := CompileBinding(info, id, args);
        case _ =>
          return Fail(CompileError(info, LetBindId));
      }
    }

    method CompileLetrec(info: Info, args: seq<Ast>) returns (r: Outcome<CompileError>)
      modifies this
      decreases SizeList(args), 2
      ensures Emits(GenLetrec(info, args, old(letrecIds)), old(code), r)
      ensures |args| != 3 ==> code == old(code)
    {
      if |args| != 3 {
        return Fail(CompileError(info, Syntax("let")));
      }
      match args[0].sexpr {
        case Atom(id) =>
          letrecIds := letrecIds + [id];
          r := CompileBinding(info, id, args);
        case _ =>
          return Fail(CompileError(info, LetBindId));
      }
    }

    /** The tail `let` and `letrec` share: compile the bound expression, `LET`, then the body. */
    method CompileBinding(info: Info, x: string, args: seq<Ast>) returns (r: Outcome<CompileError>)
      requires |args| == 3
      modifies this
      decreases SizeList(args), 1
      ensures Emits(GenBinding(info, x, args, old(letrecIds)), old(code), r)
    {
      SizeListElem(args, 1);
      SizeListElem(args, 2);
      var o := CompileExpr(args[1]);
      if o.Fail? {
        return o;
      }
      code := code + [CodeOpInfo(info, LET(x))];
      o := CompileExpr(args[2]);
      if o.Fail? {
        return o;
      }
      r := Pass;
    }

    method CompilePuts(info: Info, args: seq<Ast>) returns (r: Outcome<CompileError>)
      modifies this
      decreases SizeList(args), 2
      ensures Emits(GenUnary(info, args, old(letrecIds), "puts", PUTS), old(code), r)
      ensures |args| != 1 ==> code == old(code)
    {
      r := CompileUnary(info, args, "puts", PUTS);
    }

    method CompileCar(info: Info, args: seq<Ast>) returns (r: Outcome<CompileError>)
      modifies this
      decreases SizeList(args), 2
      ensures Emits(GenUnary(info, args, old(letrecIds), "car", CAR), old(code), r)
      ensures |args| != 1 ==> code == old(code)
    {
      r := CompileUnary(info, args, "car", CAR);
    }

    method CompileCdr(info: Info, args: seq<Ast>) returns (r: Outcome<CompileError>)
      modifies this
      decreases SizeList(args), 2
      ensures Emits(GenUnary(info, args, old(letrecIds), "cdr", CDR), old(code), r)
      ensures |args| != 1 ==> code == old(code)
    {
      r := CompileUnary(info, args, "cdr", CDR);
    }

    /** The body `compile_puts`, `compile_car` and `compile_cdr` share. */
    method CompileUnary(info: Info, args: seq<Ast>, name: string, op: CodeOp) returns (r: Outcome<CompileError>)
      modifies this
      decreases SizeList(args), 1
      ensures Emits(GenUnary(info, args, old(letrecIds), name, op), old(code), r)
      ensures |args| != 1 ==> code == old(code)
    {
      if |args| != 1 {
        return Fail(CompileError(info, Syntax(name)));
      }
      SizeListElem(args, 0);
      var o := CompileExpr(args[0]);
      if o.Fail? {
        return o;
      }
      code := code + [CodeOpInfo(info, op)];
      r := Pass;
    }

    method CompileEq(info: Info, args: seq<Ast>) returns (r: Outcome<CompileError>)
      modifies this
      decreases SizeList(args), 2
      ensures Emits(GenBinary(info, args, old(letrecIds), "eq", EQ), old(code), r)
      ensures |args| != 2 ==> code == old(code)
    {
      r := CompileBinary(info, args, "eq", EQ);
    }

    method CompileAdd(info: Info, args: seq<Ast>) returns (r: Outcome<CompileError>)
      modifies this
      decreases SizeList(args), 2
      ensures Emits(GenBinary(info, args, old(letrecIds), "add", ADD), old(code), r)
      ensures |args| != 2 ==> code == old(code)
    {
      r := CompileBinary(info, args, "add", ADD);
    }

    method CompileSub(info: Info, args: seq<Ast>) returns (r: Outcome<CompileError>)
      modifies this
      decreases SizeList(args), 2
      ensures Emits(GenBinary(info, args, old(letrecIds), "sub", SUB), old(code), r)
      ensures |args| != 2 ==> code == old(code)
    {
      r := CompileBinary(info, args, "sub", SUB);
    }

    method CompileCons(info: Info, args: seq<Ast>) returns (r: Outcome<CompileError>)
      modifies this
      decreases SizeList(args), 2
      ensures Emits(GenBinary(info, args, old(letrecIds), "cons", CONS), old(code), r)
      ensures |args| != 2 ==> code == old(code)
    {
      r := CompileBinary(info, args, "cons", CONS);
    }

    /** The body `compile_eq`, `compile_add`, `compile_sub` and `compile_cons` share. */
    method CompileBinary(info: Info, args: seq<Ast>, name: string, op: CodeOp) returns (r: Outcome<CompileError>)
      modifies this
      decreases SizeList(args), 1
      ensures Emits(GenBinary(info, args, old(letrecIds), name, op), old(code), r)
      ensures |args| != 2 ==> code == old(code)
    {
      if |args| != 2 {
        return Fail(CompileError(info, Syntax(name)));
      }
      SizeListElem(args, 0);
      SizeListElem(args, 1);
      var o := CompileExpr(args[0]);
      if o.Fail? {
        return o;
      }
      o := CompileExpr(args[1]);
      if o.Fail? {
        return o;
      }
      code := code + [CodeOpInfo(info, op)];
      r := Pass;
    }

    method CompileIf(info: Info, args: seq<Ast>) returns (r: Outcome<CompileError>)
      modifies this
      decreases SizeList(args), 1
      ensures Emits(GenIf(info, args, old(letrecIds)), old(code), r)
      ensures |args| != 3 ==> code == old(code)
    {
      if |args| != 3 {
        return Fail(CompileError(info, Syntax("if")));
      }
      SizeListElem(args, 0);
      SizeListElem(args, 1);
      SizeListElem(args, 2);
      var o := CompileExpr(args[0]);
      if o.Fail? {
        return o;
      }
      var thenCompiler := new Compiler();
      thenCompiler.letrecIds := letrecIds;
      ghost var gt := Gen(args[1], letrecIds);
      o := thenCompiler.CompileExpr(args[1]);
      if o.Fail? {
        return o;
      }
      assert thenCompiler.code == gt.value.code;
      thenCompiler.code := thenCompiler.code + [CodeOpInfo(args[1].info, JOIN)];
      var elseCompiler := new Compiler();
      elseCompiler.letrecIds := letrecIds;
      ghost var gf := Gen(args[2], letrecIds);
      o := elseCompiler.CompileExpr(args[2]);
      if o.Fail? {
        return o;
      }
      assert elseCompiler.code == gf.value.code;
      elseCompiler.code := elseCompiler.code + [CodeOpInfo(args[2].info, JOIN)];
      code := code + [CodeOpInfo(info, SEL(thenCompiler.code, elseCompiler.code))];
      r := Pass;
    }

    method CompileApply(info: Info, fn: Ast, args: seq<Ast>) returns (r: Outcome<CompileError>)
      modifies this
      decreases Size(fn) + SizeList(args), 2
      ensures Emits(GenApply(info, fn, args, old(letrecIds)), old(code), r)
    {
      ghost var ids0 := letrecIds;
      var i := 0;
      while i < |args|
        invariant 0 <= i <= |args|
        invariant GenArgs(args[..i], ids0).Success?
        invariant code == old(code) + GenArgs(args[..i], ids0).value.code
        invariant letrecIds == GenArgs(args[..i], ids0).value.ids
      {
        SizeListElem(args, i);
        assert args[..i + 1][..i] == args[..i];
        var o := CompileExpr(args[i]);
        if o.Fail? {
          GenArgsStops(args, i, ids0);
          return o;
        }
        i := i + 1;
      }
      assert args[..i] == args;
      code := code + [CodeOpInfo(info, ARGS(|args|))];
      var isAtom := fn.sexpr.Atom?;
      var o := CompileExpr(fn);
      if o.Fail? {
        return o;
      }
      if isAtom && fn.sexpr.id in letrecIds {
        code := code + [CodeOpInfo(info, RAP)];
      } else {
        code := code + [CodeOpInfo(info, AP)];
      }
      r := Pass;
    }
  }

  /** Once one argument fails to compile, compiling the whole argument list fails with its error. */
  lemma {:induction false} GenArgsStops(args: seq<Ast>, i: nat, ids: seq<string>)
    requires i < |args|
    requires GenArgs(args[..i], ids).Success?
    requires Gen(args[i], GenArgs(args[..i], ids).value.ids).Failure?
    ensures GenArgs(args, ids) == Failure(Gen(args[i], GenArgs(args[..i], ids).value.ids).error)
    decreases |args| - i
  {
    if i == |args| - 1 {
      assert args[..|args| - 1] == args[..i];
    } else {
      var shorter := args[..|args| - 1];
      assert shorter[..i] == args[..i];
      assert shorter[i] == args[i];
      GenArgsStops(shorter, i, ids);
    }
  }
}
