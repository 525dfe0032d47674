/**
 * What the compiler guarantees about the code it emits: the literal and
 * special-form equations, the arity and syntax errors, the AP/RAP choice, how
 * the letrec list evolves, and the stack discipline of every emitted sequence.
 */
module CompilerFacts {
  import opened Wrappers
  import opened Data
  import opened Compiler

  // ---------------------------------------------------------------------------
  // Literals and atoms (src/compiler.rs:54-58, 102-156).
  // ---------------------------------------------------------------------------

  lemma GenLiteral(a: Ast, ids: seq<string>)
    requires !a.sexpr.List? || a.sexpr.items == []
    ensures Gen(a, ids).Success? && Gen(a, ids).value.ids == ids
    ensures a.sexpr.Int? ==> Gen(a, ids).value.code == [CodeOpInfo(a.info, LDC(Lisp.Int(a.sexpr.n)))]
    ensures a.sexpr.List? ==> Gen(a, ids).value.code == [CodeOpInfo(a.info, LDC(Nil))]
    ensures a.sexpr.Atom? && a.sexpr.id == "nil" ==> Gen(a, ids).value.code == [CodeOpInfo(a.info, LDC(Nil))]
    ensures a.sexpr.Atom? && a.sexpr.id == "true" ==> Gen(a, ids).value.code == [CodeOpInfo(a.info, LDC(True))]
    ensures a.sexpr.Atom? && a.sexpr.id == "false" ==> Gen(a, ids).value.code == [CodeOpInfo(a.info, LDC(False))]
    ensures a.sexpr.Atom? && a.sexpr.id !in {"nil", "true", "false"} ==>
      Gen(a, ids).value.code == [CodeOpInfo(a.info, LD(a.sexpr.id))]
  {
  }

  /** A list whose head is an integer literal is rejected at the head's position. */
  lemma GenApplyInt(info: Info, n: Int32, hinfo: Info, args: seq<Ast>, ids: seq<string>)
    ensures Gen(Ast(info, SExpr.List([Ast(hinfo, SExpr.Int(n))] + args)), ids) == Failure(CompileError(hinfo, ApplyInt))
  {
    assert ([Ast(hinfo, SExpr.Int(n))] + args)[0] == Ast(hinfo, SExpr.Int(n));
  }

  // ---------------------------------------------------------------------------
  // Special forms.
  // ---------------------------------------------------------------------------

  /** A node `(head args...)` whose head is the atom `name`. */
  function Node(info: Info, hinfo: Info, name: string, args: seq<Ast>): Ast
  {
    Ast(info, SExpr.List([Ast(hinfo, Atom(name))] + args))
  }

  /** Dispatch: a node headed by a form keyword is compiled by that form's handler, at the head's position. */
  lemma GenNodeForm(info: Info, hinfo: Info, name: string, args: seq<Ast>, ids: seq<string>)
    ensures FormOf(name).Some? ==> Gen(Node(info, hinfo, name, args), ids) == GenForm(FormOf(name).value, hinfo, args, ids)
    ensures FormOf(name).None? ==> Gen(Node(info, hinfo, name, args), ids) == GenApply(hinfo, Ast(hinfo, Atom(name)), args, ids)
  {
    var items := [Ast(hinfo, Atom(name))] + args;
    assert items[0] == Ast(hinfo, Atom(name)) && items[1..] == args;
  }

  /** Every form checks its argument count first and reports "<form> syntax" (letrec reports "let"). */
  lemma GenFormArity(f: Form, info: Info, args: seq<Ast>, ids: seq<string>)
    requires |args| != Arity(f)
    ensures GenForm(f, info, args, ids) == Failure(CompileError(info, Syntax(SyntaxName(f))))
  {
  }

  /** The choice at a call site: `RAP` exactly when the callee is an atom in the letrec list after the arguments. */
  lemma GenApplyCall(info: Info, fn: Ast, args: seq<Ast>, ids: seq<string>)
    requires GenApply(info, fn, args, ids).Success?
    ensures var c := GenApply(info, fn, args, ids).value.code;
      var after := Gen(fn, GenArgs(args, ids).value.ids).value.ids;
      |c| >= 2 &&
      c[|c| - 1] == CodeOpInfo(info, if IsRecursiveCall(fn, after) then RAP else AP) &&
      c == GenArgs(args, ids).value.code + [CodeOpInfo(info, ARGS(|args|))] + Gen(fn, GenArgs(args, ids).value.ids).value.code + [c[|c| - 1]]
  {
  }

  // ---------------------------------------------------------------------------
  // Stack discipline of emitted code.
  // ---------------------------------------------------------------------------

  /**
   * How many values an instruction adds to the stack once it and the code it
   * starts have finished: loads push one, `LET` and the binary operators
   * consume one, `ARGS(n)` turns n values into one, a call replaces a closure
   * and an argument list by the result, and a `SEL` pops its test while the
   * chosen arm pushes one.
   */
  function OpEffect(op: CodeOp): int
  {
    match op
    case LDC(_) => 1
    case LD(_) => 1
    case LDF(_, _) => 1
    case LET(_) => -1
    case ARGS(n) => 1 - n
    case AP => -1
    case RAP => -1
    case EQ => -1
    case ADD => -1
    case SUB => -1
    case CONS => -1
    case _ => 0
  }

  function Effect(c: Code): int
  {
    if c == [] then 0 else OpEffect(c[0].op) + Effect(c[1..])
  }

  /**
   * Well-formed code: no `JOIN` or `RET` at the top level, every function body
   * is a block ending in `RET`, and every branch arm a block ending in `JOIN`.
   */
  predicate WellFormed(c: Code)
  {
    forall i :: 0 <= i < |c| ==> WellFormedInstr(c[i])
  }

  predicate WellFormedInstr(i: CodeOpInfo)
  {
    WellFormedOp(i.op)
  }

  predicate WellFormedOp(op: CodeOp)
  {
    match op
    case JOIN => false
    case RET => false
    case LDF(_, body) => Block(body, RET)
    case SEL(t, f) => Block(t, JOIN) && Block(f, JOIN)
    case _ => true
  }

  /** A block: well-formed code that leaves one value, then the terminator `last`. */
  predicate Block(b: Code, last: CodeOp)
  {
    |b| > 0 && b[|b| - 1].op == last && WellFormed(b[..|b| - 1]) && Effect(b[..|b| - 1]) == 1
  }

  /** The code of one expression: well formed, and it leaves exactly one value. */
  predicate ExprCode(c: Code)
  {
    WellFormed(c) && Effect(c) == 1
  }

  lemma {:induction false} Concat(a: Code, b: Code)
    ensures Effect(a + b) == Effect(a) + Effect(b)
    ensures WellFormed(a + b) <==> WellFormed(a) && WellFormed(b)
  {
    if a == [] {
      assert a + b == b;
    } else {
      Concat(a[1..], b);
      assert (a + b)[1..] == a[1..] + b;
    }
    if WellFormed(a) && WellFormed(b) {
      forall i | 0 <= i < |a + b|
        ensures WellFormedInstr((a + b)[i])
      {
        if i < |a| {
          assert (a + b)[i] == a[i];
        } else {
          assert (a + b)[i] == b[i - |a|];
        }
      }
    }
    if WellFormed(a + b) {
      forall i | 0 <= i < |a|
        ensures WellFormedInstr(a[i])
      {
        assert (a + b)[i] == a[i];
      }
      forall i | 0 <= i < |b|
        ensures WellFormedInstr(b[i])
      {
        assert (a + b)[|a| + i] == b[i];
      }
    }
  }

  lemma Single(i: CodeOpInfo)
    ensures Effect([i]) == OpEffect(i.op)
    ensures WellFormed([i]) <==> WellFormedInstr(i)
  {
    assert [i][1..] == [];
  }

  lemma BlockOf(c: Code, i: CodeOpInfo)
    requires ExprCode(c)
    ensures Block(c + [i], i.op)
  {
    assert (c + [i])[..|c|] == c;
  }

  /** Every successful compilation yields the code of one expression. */
  lemma {:induction false} GenExprCode(a: Ast, ids: seq<string>)
    requires Gen(a, ids).Success?
    ensures ExprCode(Gen(a, ids).value.code)
    decreases Size(a), 0
  {
    match a.sexpr
    case Int(_) =>
      Single(Gen(a, ids).value.code[0]);
    case Atom(_) =>
      Single(Gen(a, ids).value.code[0]);
    case List(items) =>
      if items == [] {
        Single(Gen(a, ids).value.code[0]);
      } else {
        var head := items[0];
        var args := items[1..];
        assert SizeList(items) == Size(head) + SizeList(args);
        match head.sexpr
        case Atom(id) =>
          if FormOf(id).Some? {
            GenFormExprCode(FormOf(id).value, head.info, args, ids);
          } else {
            GenApplyExprCode(head.info, head, args, ids);
          }
        case List(_) =>
          GenApplyExprCode(head.info, head, args, ids);
      }
  }

  lemma {:induction false} GenFormExprCode(f: Form, info: Info, args: seq<Ast>, ids: seq<string>)
    requires GenForm(f, info, args, ids).Success?
    ensures ExprCode(GenForm(f, info, args, ids).value.code)
    decreases SizeList(args), 3
  {
    var code := GenForm(f, info, args, ids).value.code;
    match f
    case LambdaForm =>
      SizeListElem(args, 1);
      var body := Gen(args[1], ids).value.code;
      GenExprCode(args[1], ids);
      BlockOf(body, CodeOpInfo(info, RET));
      Single(code[0]);
    case LetForm =>
      GenBindingExprCode(info, args[0].sexpr.id, args, RemoveAll(ids, args[0].sexpr.id));
    case LetrecForm =>
      GenBindingExprCode(info, args[0].sexpr.id, args, ids + [args[0].sexpr.id]);
    case IfForm =>
      GenIfExprCode(info, args, ids);
    case PutsForm =>
      GenUnaryExprCode(info, args, ids, "puts", PUTS);
    case CarForm =>
      GenUnaryExprCode(info, args, ids, "car", CAR);
    case CdrForm =>
      GenUnaryExprCode(info, args, ids, "cdr", CDR);
    case EqForm =>
      GenBinaryExprCode(info, args, ids, "eq", EQ);
    case AddForm =>
      GenBinaryExprCode(info, args, ids, "add", ADD);
    case SubForm =>
      GenBinaryExprCode(info, args, ids, "sub", SUB);
    case ConsForm =>
      GenBinaryExprCode(info, args, ids, "cons", CONS);
  }

  /** `if` code: the test, then one SEL, leaves one value statically. */
  lemma {:induction false} GenIfExprCode(info: Info, args: seq<Ast>, ids: seq<string>)
    requires GenForm(IfForm, info, args, ids).Success?
    ensures ExprCode(GenForm(IfForm, info, args, ids).value.code)
    decreases SizeList(args), 2
  {
    var code := GenForm(IfForm, info, args, ids).value.code;
    SizeListElem(args, 0);
    SizeListElem(args, 1);
    SizeListElem(args, 2);
    var ec := Gen(args[0], ids).value;
    GenExprCode(args[0], ids);
    GenExprCode(args[1], ec.ids);
    GenExprCode(args[2], ec.ids);
    BlockOf(Gen(args[1], ec.ids).value.code, CodeOpInfo(args[1].info, JOIN));
    BlockOf(Gen(args[2], ec.ids).value.code, CodeOpInfo(args[2].info, JOIN));
    Concat(ec.code, [code[|code| - 1]]);
    Single(code[|code| - 1]);
  }

  lemma {:induction false} GenBindingExprCode(info: Info, x: string, args: seq<Ast>, ids: seq<string>)
    requires |args| == 3
    requires GenBinding(info, x, args, ids).Success?
    ensures ExprCode(GenBinding(info, x, args, ids).value.code)
    decreases SizeList(args), 1
  {
    SizeListElem(args, 1);
    SizeListElem(args, 2);
    var ex := Gen(args[1], ids).value;
    var eb := Gen(args[2], ex.ids).value;
    GenExprCode(args[1], ids);
    GenExprCode(args[2], ex.ids);
    var let := [CodeOpInfo(info, LET(x))];
    Single(let[0]);
    Concat(ex.code, let);
    Concat(ex.code + let, eb.code);
  }

  lemma {:induction false} GenUnaryExprCode(info: Info, args: seq<Ast>, ids: seq<string>, name: string, op: CodeOp)
    requires op in {PUTS, CAR, CDR}
    requires GenUnary(info, args, ids, name, op).Success?
    ensures ExprCode(GenUnary(info, args, ids, name, op).value.code)
    decreases SizeList(args), 1
  {
    SizeListElem(args, 0);
    var ee := Gen(args[0], ids).value;
    GenExprCode(args[0], ids);
    Single(CodeOpInfo(info, op));
    Concat(ee.code, [CodeOpInfo(info, op)]);
  }

  lemma {:induction false} GenBinaryExprCode(info: Info, args: seq<Ast>, ids: seq<string>, name: string, op: CodeOp)
    requires op in {EQ, ADD, SUB, CONS}
    requires GenBinary(info, args, ids, name, op).Success?
    ensures ExprCode(GenBinary(info, args, ids, name, op).value.code)
    decreases SizeList(args), 1
  {
    SizeListElem(args, 0);
    SizeListElem(args, 1);
    var el := Gen(args[0], ids).value;
    var er := Gen(args[1], el.ids).value;
    GenExprCode(args[0], ids);
    GenExprCode(args[1], el.ids);
    Single(CodeOpInfo(info, op));
    Concat(el.code, er.code);
    Concat(el.code + er.code, [CodeOpInfo(info, op)]);
  }

  /** The arguments of an application leave one value each. */
  lemma {:induction false} GenArgsCode(args: seq<Ast>, ids: seq<string>)
    requires GenArgs(args, ids).Success?
    ensures WellFormed(GenArgs(args, ids).value.code)
    ensures Effect(GenArgs(args, ids).value.code) == |args|
    decreases SizeList(args), 1
  {
    if args != [] {
      SizeListLast(args);
      var prefix := args[..|args| - 1];
      var ep := GenArgs(prefix, ids).value;
      GenArgsCode(prefix, ids);
      GenExprCode(args[|args| - 1], ep.ids);
      Concat(ep.code, Gen(args[|args| - 1], ep.ids).value.code);
    }
  }

  lemma {:induction false} GenApplyExprCode(info: Info, fn: Ast, args: seq<Ast>, ids: seq<string>)
    requires GenApply(info, fn, args, ids).Success?
    ensures ExprCode(GenApply(info, fn, args, ids).value.code)
    decreases Size(fn) + SizeList(args), 2
  {
    var ea := GenArgs(args, ids).value;
    var ef := Gen(fn, ea.ids).value;
    GenArgsCode(args, ids);
    GenExprCode(fn, ea.ids);
    var code := GenApply(info, fn, args, ids).value.code;
    CallCode(ea.code, CodeOpInfo(info, ARGS(|args|)), ef.code, code[|code| - 1]);
  }

  /** Arguments leaving `n` values, `ARGS n`, a function value and a call leave one value. */
  lemma CallCode(args: Code, collect: CodeOpInfo, fn: Code, call: CodeOpInfo)
    requires WellFormed(args) && collect.op.ARGS? && Effect(args) == collect.op.count
    requires ExprCode(fn) && (call.op == AP || call.op == RAP)
    ensures ExprCode(args + [collect] + fn + [call])
  {
    Single(collect);
    Single(call);
    Concat(args, [collect]);
    Concat(args + [collect], fn);
    Concat(args + [collect] + fn, [call]);
  }

  // ---------------------------------------------------------------------------
  // The letrec list (src/compiler.rs:208-257): `let x` removes x, `letrec x`
  // appends it, lambda bodies and if arms work on copies, so a name enters the
  // list only through a `letrec` and leaves it only through a `let`.
  // ---------------------------------------------------------------------------

  /** The names bound by nodes `(form x ...)` anywhere in the tree. */
  function Binders(a: Ast, f: Form): set<string>
    decreases Size(a), 0
  {
    match a.sexpr
    case List(items) => BindsHere(items, f) + BindersList(items, f)
    case _ => {}
  }

  function BindsHere(items: seq<Ast>, f: Form): set<string>
  {
    if |items| >= 2 && items[0].sexpr.Atom? && FormOf(items[0].sexpr.id) == Some(f) && items[1].sexpr.Atom?
    then {items[1].sexpr.id}
    else {}
  }

  function BindersList(items: seq<Ast>, f: Form): set<string>
    decreases SizeList(items), 1
  {
    if items == [] then {} else Binders(items[0], f) + BindersList(items[1..], f)
  }

  /** Each child's binders are among the list's binders. */
  lemma {:induction false} BindersListElem(items: seq<Ast>, i: nat, f: Form)
    requires i < |items|
    ensures Binders(items[i], f) <= BindersList(items, f)
  {
    if i > 0 {
      BindersListElem(items[1..], i - 1, f);
    }
  }

  /** The binders of a list of children, split at its last child. */
  lemma {:induction false} BindersListPrefix(items: seq<Ast>, f: Form)
    requires items != []
    ensures BindersList(items, f) == BindersList(items[..|items| - 1], f) + Binders(items[|items| - 1], f)
  {
    if |items| == 1 {
      assert items[..0] == [] && items[1..] == [];
    } else {
      BindersListPrefix(items[1..], f);
      assert items[1..][..|items| - 2] == items[..|items| - 1][1..];
      assert items[..|items| - 1][0] == items[0];
    }
  }

  /**
   * `after` keeps every name of `before` that is not in `removed`, and holds
   * nothing that is not in `before` or in `added`.
   */
  predicate IdsFrame(before: seq<string>, after: seq<string>, removed: set<string>, added: set<string>)
  {
    (forall x :: x in after ==> x in before || x in added) &&
    (forall x :: x in before && x !in removed ==> x in after)
  }

  /** After compiling a tree the letrec list has gained only names the tree binds with `letrec`, and lost only names it binds with `let`. */
  lemma {:induction false} GenLetrecIds(a: Ast, ids: seq<string>)
    requires Gen(a, ids).Success?
    ensures IdsFrame(ids, Gen(a, ids).value.ids, Binders(a, LetForm), Binders(a, LetrecForm))
    decreases Size(a), 0
  {
    match a.sexpr
    case Int(_) =>
    case Atom(_) =>
    case List(items) =>
      if items != [] {
        var head := items[0];
        var args := items[1..];
        assert SizeList(items) == Size(head) + SizeList(args);
        assert BindersList(items, LetForm) == Binders(head, LetForm) + BindersList(args, LetForm);
        assert BindersList(items, LetrecForm) == Binders(head, LetrecForm) + BindersList(args, LetrecForm);
        match head.sexpr
        case Atom(id) =>
          if FormOf(id).Some? {
            GenFormLetrecIds(FormOf(id).value, head.info, args, ids);
          } else {
            GenApplyLetrecIds(head.info, head, args, ids);
          }
        case List(_) =>
          GenApplyLetrecIds(head.info, head, args, ids);
      }
  }

  /** The name a binding form binds, if it is form `k` with an atom target. */
  function FormBinds(f: Form, args: seq<Ast>, k: Form): set<string>
  {
    if f == k && |args| >= 1 && args[0].sexpr.Atom? then {args[0].sexpr.id} else {}
  }

  lemma {:induction false} GenFormLetrecIds(f: Form, info: Info, args: seq<Ast>, ids: seq<string>)
    requires GenForm(f, info, args, ids).Success?
    ensures IdsFrame(ids, GenForm(f, info, args, ids).value.ids,
      BindersList(args, LetForm) + FormBinds(f, args, LetForm),
      BindersList(args, LetrecForm) + FormBinds(f, args, LetrecForm))
    decreases SizeList(args), 3
  {
    match f
    case LambdaForm =>
    case LetForm =>
      var x := args[0].sexpr.id;
      GenBindingLetrecIds(info, x, args, RemoveAll(ids, x));
    case LetrecForm =>
      var x := args[0].sexpr.id;
      GenBindingLetrecIds(info, x, args, ids + [x]);
    case IfForm =>
      SizeListElem(args, 0);
      GenLetrecIds(args[0], ids);
      ArgBinders(args, 0);
    case PutsForm =>
      GenUnaryLetrecIds(info, args, ids, "puts", PUTS);
    case CarForm =>
      GenUnaryLetrecIds(info, args, ids, "car", CAR);
    case CdrForm =>
      GenUnaryLetrecIds(info, args, ids, "cdr", CDR);
    case EqForm =>
      GenBinaryLetrecIds(info, args, ids, "eq", EQ);
    case AddForm =>
      GenBinaryLetrecIds(info, args, ids, "add", ADD);
    case SubForm =>
      GenBinaryLetrecIds(info, args, ids, "sub", SUB);
    case ConsForm =>
      GenBinaryLetrecIds(info, args, ids, "cons", CONS);
  }

  /** An argument binds only what the argument list binds. */
  lemma ArgBinders(args: seq<Ast>, i: nat)
    requires i < |args|
    ensures Binders(args[i], LetForm) <= BindersList(args, LetForm)
    ensures Binders(args[i], LetrecForm) <= BindersList(args, LetrecForm)
  {
    BindersListElem(args, i, LetForm);
    BindersListElem(args, i, LetrecForm);
  }

  lemma {:induction false} GenBindingLetrecIds(info: Info, x: string, args: seq<Ast>, ids: seq<string>)
    requires |args| == 3
    requires GenBinding(info, x, args, ids).Success?
    ensures IdsFrame(ids, GenBinding(info, x, args, ids).value.ids, BindersList(args, LetForm), BindersList(args, LetrecForm))
    decreases SizeList(args), 1
  {
    SizeListElem(args, 1);
    SizeListElem(args, 2);
    var ex := Gen(args[1], ids).value;
    GenLetrecIds(args[1], ids);
    GenLetrecIds(args[2], ex.ids);
    ArgBinders(args, 1);
    ArgBinders(args, 2);
  }

  lemma {:induction false} GenUnaryLetrecIds(info: Info, args: seq<Ast>, ids: seq<string>, name: string, op: CodeOp)
    requires GenUnary(info, args, ids, name, op).Success?
    ensures IdsFrame(ids, GenUnary(info, args, ids, name, op).value.ids, BindersList(args, LetForm), BindersList(args, LetrecForm))
    decreases SizeList(args), 1
  {
    SizeListElem(args, 0);
    GenLetrecIds(args[0], ids);
    ArgBinders(args, 0);
  }

  lemma {:induction false} GenBinaryLetrecIds(info: Info, args: seq<Ast>, ids: seq<string>, name: string, op: CodeOp)
    requires GenBinary(info, args, ids, name, op).Success?
    ensures IdsFrame(ids, GenBinary(info, args, ids, name, op).value.ids, BindersList(args, LetForm), BindersList(args, LetrecForm))
    decreases SizeList(args), 1
  {
    SizeListElem(args, 0);
    SizeListElem(args, 1);
    var el := Gen(args[0], ids).value;
    GenLetrecIds(args[0], ids);
    GenLetrecIds(args[1], el.ids);
    ArgBinders(args, 0);
    ArgBinders(args, 1);
  }

  lemma {:induction false} GenArgsLetrecIds(args: seq<Ast>, ids: seq<string>)
    requires GenArgs(args, ids).Success?
    ensures IdsFrame(ids, GenArgs(args, ids).value.ids, BindersList(args, LetForm), BindersList(args, LetrecForm))
    decreases SizeList(args), 1
  {
    if args != [] {
      SizeListLast(args);
      var prefix := args[..|args| - 1];
      var ep := GenArgs(prefix, ids).value;
      GenArgsLetrecIds(prefix, ids);
      GenLetrecIds(args[|args| - 1], ep.ids);
      BindersListPrefix(args, LetForm);
      BindersListPrefix(args, LetrecForm);
    }
  }

  lemma {:induction false} GenApplyLetrecIds(info: Info, fn: Ast, args: seq<Ast>, ids: seq<string>)
    requires GenApply(info, fn, args, ids).Success?
    ensures IdsFrame(ids, GenApply(info, fn, args, ids).value.ids,
      Binders(fn, LetForm) + BindersList(args, LetForm), Binders(fn, LetrecForm) + BindersList(args, LetrecForm))
    decreases Size(fn) + SizeList(args), 2
  {
    var ea := GenArgs(args, ids).value;
    GenArgsLetrecIds(args, ids);
    GenLetrecIds(fn, ea.ids);
  }

  // ---------------------------------------------------------------------------
  // The program of tests/compiler_test.rs.
  // ---------------------------------------------------------------------------

  function At(line: nat, col: nat, id: string): Ast
  {
    Ast(Info(line, col), Atom(id))
  }

  function Num(line: nat, col: nat, n: Int32): Ast
  {
    Ast(Info(line, col), SExpr.Int(n))
  }

  function Parens(line: nat, col: nat, items: seq<Ast>): Ast
  {
    Ast(Info(line, col), SExpr.List(items))
  }

  // The nodes of the test program carry the positions the reader gives them
  // (`CompilerTest.ReadTestProgram`): each token the column after its text,
  // each list the column after its `)`.

  function TestCall(): Ast { Node(Info(1, 25), Info(1, 22), "a", [Num(1, 24, 0)]) }
  function TestPuts(): Ast { Node(Info(1, 34), Info(1, 31), "puts", [At(1, 33, "b")]) }
  function TestInner(): Ast { Node(Info(1, 35), Info(1, 17), "letrec", [At(1, 19, "b"), TestCall(), TestPuts()]) }

  /** `(let a 0 (letrec b (a 0) (puts b)))`. */
  function TestProgram(): Ast { Node(Info(1, 36), Info(1, 5), "let", [At(1, 7, "a"), Num(1, 9, 0), TestInner()]) }

  lemma TestCallCode()
    ensures Gen(TestCall(), ["b"]) == Success(Emitted([CodeOpInfo(Info(1, 24), LDC(Lisp.Int(0))),
      CodeOpInfo(Info(1, 22), ARGS(1)), CodeOpInfo(Info(1, 22), LD("a")), CodeOpInfo(Info(1, 22), AP)], ["b"]))
  {
    var j := Info(1, 22);
    GenNodeForm(Info(1, 25), j, "a", [Num(1, 24, 0)], ["b"]);
    var zero := [CodeOpInfo(Info(1, 24), LDC(Lisp.Int(0)))];
    assert Gen(Num(1, 24, 0), ["b"]) == Success(Emitted(zero, ["b"]));
    assert [Num(1, 24, 0)][..0] == [];
    assert [] + zero == zero;
    assert GenArgs([Num(1, 24, 0)], ["b"]) == Success(Emitted(zero, ["b"]));
    assert FormOf("a") == None && AtomOp("a") == LD("a");
    var fn := Ast(j, Atom("a"));
    assert Gen(fn, ["b"]) == Success(Emitted([CodeOpInfo(j, LD("a"))], ["b"]));
    assert !IsRecursiveCall(fn, ["b"]);
    var callCode := zero + [CodeOpInfo(j, ARGS(1))] + [CodeOpInfo(j, LD("a"))] + [CodeOpInfo(j, AP)];
    assert GenApply(j, fn, [Num(1, 24, 0)], ["b"]) == Success(Emitted(callCode, ["b"]));
    assert Gen(TestCall(), ["b"]) == Success(Emitted(callCode, ["b"]));
    assert callCode == [zero[0], CodeOpInfo(j, ARGS(1)), CodeOpInfo(j, LD("a")), CodeOpInfo(j, AP)];
  }

  lemma TestPutsCode()
    ensures Gen(TestPuts(), ["b"]) == Success(Emitted([CodeOpInfo(Info(1, 33), LD("b")), CodeOpInfo(Info(1, 31), PUTS)], ["b"]))
  {
    GenNodeForm(Info(1, 34), Info(1, 31), "puts", [At(1, 33, "b")], ["b"]);
    assert FormOf("puts") == Some(PutsForm) && AtomOp("b") == LD("b");
    assert Gen(At(1, 33, "b"), ["b"]) == Success(Emitted([CodeOpInfo(Info(1, 33), LD("b"))], ["b"]));
    var putsCode := [CodeOpInfo(Info(1, 33), LD("b"))] + [CodeOpInfo(Info(1, 31), PUTS)];
    assert GenUnary(Info(1, 31), [At(1, 33, "b")], ["b"], "puts", PUTS) == Success(Emitted(putsCode, ["b"]));
    assert Gen(TestPuts(), ["b"]) == Success(Emitted(putsCode, ["b"]));
    assert putsCode == [CodeOpInfo(Info(1, 33), LD("b")), CodeOpInfo(Info(1, 31), PUTS)];
  }

  lemma TestInnerCode()
    ensures Gen(TestInner(), []) == Success(Emitted(Gen(TestCall(), ["b"]).value.code +
      [CodeOpInfo(Info(1, 17), LET("b"))] + Gen(TestPuts(), ["b"]).value.code, ["b"]))
  {
    TestCallCode();
    TestPutsCode();
    var args := [At(1, 19, "b"), TestCall(), TestPuts()];
    GenNodeForm(Info(1, 35), Info(1, 17), "letrec", args, []);
    assert FormOf("letrec") == Some(LetrecForm);
    assert [] + ["b"] == ["b"];
  }

  /** Two single elements in front of a sequence. */
  lemma PrependTwo<T>(x: T, y: T, s: seq<T>)
    ensures [x] + [y] + s == [x, y] + s
  {
  }

  /** The code of the compiler test's program, with the positions of its nodes. */
  lemma TestProgramCode()
    ensures CompileProgram(TestProgram()) == Success([CodeOpInfo(Info(1, 9), LDC(Lisp.Int(0))), CodeOpInfo(Info(1, 5), LET("a"))] +
      [CodeOpInfo(Info(1, 24), LDC(Lisp.Int(0))), CodeOpInfo(Info(1, 22), ARGS(1)), CodeOpInfo(Info(1, 22), LD("a")),
      CodeOpInfo(Info(1, 22), AP), CodeOpInfo(Info(1, 17), LET("b")), CodeOpInfo(Info(1, 33), LD("b")),
      CodeOpInfo(Info(1, 31), PUTS)])
  {
    TestCallCode();
    TestPutsCode();
    TestInnerCode();
    var args := [At(1, 7, "a"), Num(1, 9, 0), TestInner()];
    GenNodeForm(Info(1, 36), Info(1, 5), "let", args, []);
    assert FormOf("let") == Some(LetForm);
    assert RemoveAll([], "a") == [];
    var zero8 := [CodeOpInfo(Info(1, 9), LDC(Lisp.Int(0)))];
    assert Gen(Num(1, 9, 0), []) == Success(Emitted(zero8, []));
    var code := zero8 + [CodeOpInfo(Info(1, 5), LET("a"))] + Gen(TestInner(), []).value.code;
    assert GenBinding(Info(1, 5), "a", args, []) == Success(Emitted(code, ["b"]));
    assert CompileProgram(TestProgram()) == Success(code);
    var j := Info(1, 22);
    assert Gen(TestInner(), []).value.code == [CodeOpInfo(Info(1, 24), LDC(Lisp.Int(0))), CodeOpInfo(j, ARGS(1)),
      CodeOpInfo(j, LD("a")), CodeOpInfo(j, AP), CodeOpInfo(Info(1, 17), LET("b")), CodeOpInfo(Info(1, 33), LD("b")),
      CodeOpInfo(Info(1, 31), PUTS)];
    PrependTwo(zero8[0], CodeOpInfo(Info(1, 5), LET("a")), Gen(TestInner(), []).value.code);
  }
}
