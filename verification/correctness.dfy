/**
 * Compiler and machine together. For the first-order part of the language
 * (constants, variables, `let`, `if`, `eq`, `+`, `-`, `cons`, `car`, `cdr`,
 * `puts`) a direct evaluator over the expression tree states what a program
 * means, and running the compiled code on the machine is proved to produce
 * exactly that: the same value on top of an otherwise unchanged stack, the
 * same environment, the same printed values, or the same error.
 */
module Correctness {
  import opened Wrappers
  import opened Data
  import opened Compiler
  import opened Vm
  import opened VmFacts
  import opened CompilerFacts

  /** The forms the evaluator covers: everything but `lambda`, `letrec` and application. */
  predicate FirstOrderForm(f: Form)
  {
    f != LambdaForm && f != LetrecForm
  }

  /** A tree built only from constants, variables and first-order forms with the right number of arguments. */
  predicate FirstOrder(a: Ast)
  {
    match a.sexpr
    case List(items) =>
      items == [] ||
      (items[0].sexpr.Atom? && FormOf(items[0].sexpr.id).Some? &&
       FirstOrderForm(FormOf(items[0].sexpr.id).value) &&
       |items| == 1 + Arity(FormOf(items[0].sexpr.id).value) &&
       (FormOf(items[0].sexpr.id) == Some(LetForm) ==> items[1].sexpr.Atom?) &&
       forall i :: 1 <= i < |items| ==> FirstOrder(items[i]))
    case _ => true
  }

  /**
   * The result of evaluating an expression: its value, and the environment
   * and printed values after it. A `let` binds its name in the environment for
   * the rest of the program, as the machine's `LET` does.
   */
  datatype Done = Done(val: Lisp, env: Env, out: seq<Lisp>)

  /** The binary operators on two evaluated operands `l` (left) and `r` (right). */
  function Combine(info: Info, f: Form, l: Lisp, r: Lisp): Result<Lisp, VmError>
  {
    match f
    case EqForm => Success(if LispEq(l, r) then True else False)
    case ConsForm => Success(Cons(l, r))
    case SubForm =>
      if !r.Int? || !l.Int? then Failure(VmError(info, ExpectedInt("SUB")))
      else if !InI32(l.n - r.n) then Failure(VmError(info, IntOverflow("SUB")))
      else Success(Lisp.Int(l.n - r.n))
    case _ =>
      if !r.Int? || !l.Int? then Failure(VmError(info, ExpectedInt("ADD")))
      else if !InI32(l.n + r.n) then Failure(VmError(info, IntOverflow("ADD")))
      else Success(Lisp.Int(l.n + r.n))
  }

  /** `puts`, `car` or `cdr` applied to the result `r` of evaluating the operand. */
  function UnaryResult(info: Info, f: Form, r: Result<Done, VmError>): Result<Done, VmError>
  {
    match r
    case Failure(e) => Failure(e)
    case Success(d) =>
      if f == PutsForm then Success(Done(d.val, d.env, d.out + [d.val]))
      else if d.val.Cons? then Success(Done(if f == CarForm then d.val.car else d.val.cdr, d.env, d.out))
      else Failure(VmError(info, ExpectedCons(if f == CarForm then "CAR" else "CDR")))
  }

  /** A binary form whose left operand is `l`, given the result `r` of evaluating its right operand. */
  function BinaryResult(info: Info, f: Form, l: Lisp, r: Result<Done, VmError>): Result<Done, VmError>
  {
    match r
    case Failure(e) => Failure(e)
    case Success(d2) =>
      match Combine(info, f, l, d2.val)
      case Failure(e) => Failure(e)
      case Success(v) => Success(Done(v, d2.env, d2.out))
  }

  /** `if` given the result `r` of evaluating its condition: the arm `t` on `true`, the arm `f` on `false`. */
  function IfResult(info: Info, r: Result<Done, VmError>, t: Ast, f: Ast): Result<Done, VmError>
    requires FirstOrder(t) && FirstOrder(f)
  {
    match r
    case Failure(e) => Failure(e)
    case Success(d) =>
      if d.val == True then Eval(t, d.env, d.out)
      else if d.val == False then Eval(f, d.env, d.out)
      else Failure(VmError(info, ExpectedBool))
  }

  /** Evaluate a first-order expression, left to right. */
  function Eval(a: Ast, env: Env, out: seq<Lisp>): Result<Done, VmError>
    requires FirstOrder(a)
    decreases a
  {
    match a.sexpr
    case Int(n) => Success(Done(Lisp.Int(n), env, out))
    case Atom(id) =>
      if id == "nil" then Success(Done(Nil, env, out))
      else if id == "true" then Success(Done(True, env, out))
      else if id == "false" then Success(Done(False, env, out))
      else if id in env then Success(Done(env[id], env, out))
      else Failure(VmError(a.info, Unbound(id)))
    case List(items) =>
      if items == [] then Success(Done(Nil, env, out))
      else
        var info := items[0].info;
        var f := FormOf(items[0].sexpr.id).value;
        if f == LetForm then
          match Eval(items[2], env, out)
          case Failure(e) => Failure(e)
          case Success(d) => Eval(items[3], d.env[items[1].sexpr.id := d.val], d.out)
        else
          match Eval(items[1], env, out)
          case Failure(e) => Failure(e)
          case Success(d) =>
            if f == IfForm then
              if d.val == True then Eval(items[2], d.env, d.out)
              else if d.val == False then Eval(items[3], d.env, d.out)
              else Failure(VmError(info, ExpectedBool))
            else if f == PutsForm then Success(Done(d.val, d.env, d.out + [d.val]))
            else if f == CarForm || f == CdrForm then
              if d.val.Cons? then Success(Done(if f == CarForm then d.val.car else d.val.cdr, d.env, d.out))
              else Failure(VmError(info, ExpectedCons(if f == CarForm then "CAR" else "CDR")))
            else
              match Eval(items[2], d.env, d.out)
              case Failure(e) => Failure(e)
              case Success(d2) =>
                match Combine(info, f, d.val, d2.val)
                case Failure(e) => Failure(e)
                case Success(v) => Success(Done(v, d2.env, d2.out))
  }

  // ---------------------------------------------------------------------------
  // Running compiled code.
  // ---------------------------------------------------------------------------

  /** What running an expression's code in front of `rest` from `m` must give, when the expression evaluates to `r`. */
  function Expected(m: Machine, rest: Code, r: Result<Done, VmError>): Result<Machine, VmError>
  {
    match r
    case Success(d) => Success(m.(stack := m.stack + [d.val], env := d.env, code := rest, out := d.out))
    case Failure(e) => Failure(e)
  }

  /** One step from code starting with `c` executes `c`. */
  lemma StepOne(m: Machine, c: CodeOpInfo, rest: Code)
    ensures Steps(m.(code := [c] + rest), 1) == Exec(c, m.(code := rest))
  {
    assert ([c] + rest)[0] == c;
    assert ([c] + rest)[1..] == rest;
  }

  /** Steps that succeed can be followed by more steps. */
  lemma Chain(m: Machine, n1: nat, m1: Machine, n2: nat)
    requires Steps(m, n1) == Success(m1)
    ensures Steps(m, n1 + n2) == Steps(m1, n2)
  {
    StepsAdd(m, n1, n2);
  }

  /** Steps that fail stay failed whatever comes after. */
  lemma ChainFail(m: Machine, n1: nat, e: VmError, n2: nat)
    requires Steps(m, n1) == Failure(e)
    ensures Steps(m, n1 + n2) == Failure(e)
  {
    StepsAdd(m, n1, n2);
  }

  /** The machine's binary instructions compute `Combine` on the two values on top of the stack. */
  lemma BinaryStep(info: Info, f: Form, op: CodeOp, m: Machine, s: seq<Lisp>, l: Lisp, r: Lisp)
    requires (f == EqForm && op == EQ) || (f == AddForm && op == ADD) ||
             (f == SubForm && op == SUB) || (f == ConsForm && op == CONS)
    requires m.stack == s + [l, r]
    ensures Exec(CodeOpInfo(info, op), m) ==
      match Combine(info, f, l, r)
      case Success(v) => Success(m.(stack := s + [v]))
      case Failure(e) => Failure(e)
  {
    assert m.stack[..|m.stack| - 2] == s;
    assert Top(m.stack) == r && m.stack[|m.stack| - 2] == l;
    LispEqIsEquivalence(l, r, r);
  }

  /** A first-order node is compiled by its form's handler, at the head's position. */
  lemma GenFirstOrderNode(a: Ast, ids: seq<string>)
    requires FirstOrder(a) && a.sexpr.List? && a.sexpr.items != []
    ensures Gen(a, ids) == GenForm(FormOf(a.sexpr.items[0].sexpr.id).value, a.sexpr.items[0].info, a.sexpr.items[1..], ids)
  {
  }

  /** The machine's `PUTS`, `CAR` and `CDR` on the value on top of the stack. */
  lemma UnaryStep(info: Info, f: Form, m: Machine, s: seq<Lisp>, v: Lisp, rest: Code)
    requires f == PutsForm || f == CarForm || f == CdrForm
    requires m.stack == s + [v]
    ensures Steps(m.(code := [CodeOpInfo(info, FormOp(f))] + rest), 1) ==
      if f == PutsForm then Success(m.(code := rest, out := m.out + [v]))
      else if v.Cons? then Success(m.(stack := s + [if f == CarForm then v.car else v.cdr], code := rest))
      else Failure(VmError(info, ExpectedCons(if f == CarForm then "CAR" else "CDR")))
  {
    StepOne(m, CodeOpInfo(info, FormOp(f)), rest);
    assert Top(m.stack) == v && Pop(m.stack) == s;
  }

  /** The machine's `EQ`, `ADD`, `SUB` and `CONS` compute `Combine` on the two values on top of the stack. */
  lemma BinaryStepOne(info: Info, f: Form, m: Machine, s: seq<Lisp>, l: Lisp, r: Lisp, rest: Code)
    requires f == EqForm || f == AddForm || f == SubForm || f == ConsForm
    requires m.stack == s + [l, r]
    ensures Steps(m.(code := [CodeOpInfo(info, FormOp(f))] + rest), 1) ==
      match Combine(info, f, l, r)
      case Success(v) => Success(m.(stack := s + [v], code := rest))
      case Failure(e) => Failure(e)
  {
    StepOne(m, CodeOpInfo(info, FormOp(f)), rest);
    BinaryStep(info, f, FormOp(f), m.(code := rest), s, l, r);
  }

  /** Every first-order tree compiles, whatever letrec names are in scope. */
  lemma {:induction false} FirstOrderCompiles(a: Ast, ids: seq<string>)
    requires FirstOrder(a)
    ensures Gen(a, ids).Success?
    decreases a
  {
    match a.sexpr
    case List(items) =>
      if items != [] {
        var f := FormOf(items[0].sexpr.id).value;
        var args := items[1..];
        GenFirstOrderNode(a, ids);
        if f == LetForm {
          assert args[0] == items[1] && args[1] == items[2] && args[2] == items[3];
          var ids1 := RemoveAll(ids, items[1].sexpr.id);
          FirstOrderCompiles(items[2], ids1);
          FirstOrderCompiles(items[3], Gen(items[2], ids1).value.ids);
          assert GenBinding(items[0].info, items[1].sexpr.id, args, ids1).Success?;
          assert GenLet(items[0].info, args, ids) == GenBinding(items[0].info, items[1].sexpr.id, args, ids1);
          assert GenForm(f, items[0].info, args, ids) == GenLet(items[0].info, args, ids);
        } else if f == IfForm {
          assert args[0] == items[1] && args[1] == items[2] && args[2] == items[3];
          FirstOrderCompiles(items[1], ids);
          FirstOrderCompiles(items[2], Gen(items[1], ids).value.ids);
          FirstOrderCompiles(items[3], Gen(items[1], ids).value.ids);
        } else if f == PutsForm || f == CarForm || f == CdrForm {
          assert args[0] == items[1];
          FirstOrderCompiles(items[1], ids);
        } else {
          assert args[0] == items[1] && args[1] == items[2];
          FirstOrderCompiles(items[1], ids);
          FirstOrderCompiles(items[2], Gen(items[1], ids).value.ids);
        }
      }
    case _ =>
  }

  /**
   * Compiler correctness for the first-order fragment: the code of `a`, run
   * in front of any `rest` from any machine `m`, reaches in `n` steps the
   * machine that has the value of `a` pushed on the stack of `m`, the
   * environment and printed values after `a`, the same dump and `rest` left to
   * run; or it fails with the error evaluation reports.
   */
  lemma {:induction false} Compiled(a: Ast, ids: seq<string>, m: Machine, rest: Code) returns (n: nat)
    requires FirstOrder(a)
    requires Gen(a, ids).Success?
    ensures Steps(m.(code := Gen(a, ids).value.code + rest), n) == Expected(m, rest, Eval(a, m.env, m.out))
    decreases a, 3
  {
    match a.sexpr
    case Int(v) =>
      n := 1;
      StepOne(m, CodeOpInfo(a.info, LDC(Lisp.Int(v))), rest);
    case Atom(id) =>
      n := 1;
      StepOne(m, CodeOpInfo(a.info, AtomOp(id)), rest);
    case List(items) =>
      if items == [] {
        n := 1;
        StepOne(m, CodeOpInfo(a.info, LDC(Nil)), rest);
      } else {
        var f := FormOf(items[0].sexpr.id).value;
        if f == LetForm {
          EvalLetUnfold(a, m.env, m.out);
          GenLetUnfold(a, ids);
          n := CompiledLet(a, ids, m, rest);
        } else if f == IfForm {
          EvalIfUnfold(a, m.env, m.out);
          GenIfUnfold(a, ids);
          n := CompiledIf(a, ids, m, rest);
        } else if f == PutsForm || f == CarForm || f == CdrForm {
          EvalUnaryUnfold(a, m.env, m.out);
          GenUnaryUnfold(a, ids);
          n := CompiledUnary(a, ids, m, rest);
        } else {
          EvalBinaryUnfold(a, m.env, m.out);
          GenBinaryUnfold(a, ids);
          n := CompiledBinary(a, ids, m, rest);
        }
      }
  }

  /** `Expected` takes the environment and printed values from the result, not from the machine. */
  lemma ExpectedKeeps(m: Machine, env: Env, out: seq<Lisp>, rest: Code, r: Result<Done, VmError>)
    ensures Expected(m.(env := env, out := out), rest, r) == Expected(m, rest, r)
  {
  }

  // One unfolding of `Eval` and of `Gen` per kind of form.

  /** The sub-expressions of a first-order node are first-order. */
  lemma FirstOrderParts(a: Ast)
    requires FirstOrder(a) && a.sexpr.List? && a.sexpr.items != []
    ensures |a.sexpr.items| == 1 + Arity(FormOf(a.sexpr.items[0].sexpr.id).value)
    ensures forall i :: 1 <= i < |a.sexpr.items| ==> FirstOrder(a.sexpr.items[i])
  {
  }

  /** Evaluation of a first-order `let`, one level deep. */
  lemma EvalLetUnfold(a: Ast, env: Env, out: seq<Lisp>)
    requires FirstOrder(a) && a.sexpr.List? && a.sexpr.items != []
    requires FormOf(a.sexpr.items[0].sexpr.id) == Some(LetForm)
    ensures FirstOrder(a.sexpr.items[2]) && FirstOrder(a.sexpr.items[3])
    ensures Eval(a, env, out) ==
      match Eval(a.sexpr.items[2], env, out)
      case Failure(e) => Failure(e)
      case Success(d) => Eval(a.sexpr.items[3], d.env[a.sexpr.items[1].sexpr.id := d.val], d.out)
  {
  }

  /** The code of a first-order `let`, one level deep. */
  lemma GenLetUnfold(a: Ast, ids: seq<string>)
    requires FirstOrder(a) && a.sexpr.List? && a.sexpr.items != []
    requires FormOf(a.sexpr.items[0].sexpr.id) == Some(LetForm)
    requires Gen(a, ids).Success?
    ensures var items := a.sexpr.items;
      var ex := Gen(items[2], RemoveAll(ids, items[1].sexpr.id));
      ex.Success? && Gen(items[3], ex.value.ids).Success? &&
      Gen(a, ids).value.code == ex.value.code + [CodeOpInfo(items[0].info, LET(items[1].sexpr.id))] + Gen(items[3], ex.value.ids).value.code
  {
    var items := a.sexpr.items;
    var args := items[1..];
    GenFirstOrderNode(a, ids);
    assert args[0] == items[1] && args[1] == items[2] && args[2] == items[3];
    assert Gen(a, ids) == GenLet(items[0].info, args, ids);
  }

  /** Evaluation of a first-order `if`, one level deep. */
  lemma EvalIfUnfold(a: Ast, env: Env, out: seq<Lisp>)
    requires FirstOrder(a) && a.sexpr.List? && a.sexpr.items != []
    requires FormOf(a.sexpr.items[0].sexpr.id) == Some(IfForm)
    ensures FirstOrder(a.sexpr.items[1]) && FirstOrder(a.sexpr.items[2]) && FirstOrder(a.sexpr.items[3])
    ensures Eval(a, env, out) ==
      IfResult(a.sexpr.items[0].info, Eval(a.sexpr.items[1], env, out), a.sexpr.items[2], a.sexpr.items[3])
  {
  }

  /** The code of a first-order `if`, one level deep. */
  lemma GenIfUnfold(a: Ast, ids: seq<string>)
    requires FirstOrder(a) && a.sexpr.List? && a.sexpr.items != []
    requires FormOf(a.sexpr.items[0].sexpr.id) == Some(IfForm)
    requires Gen(a, ids).Success?
    ensures var items := a.sexpr.items;
      var ec := Gen(items[1], ids);
      ec.Success? && Gen(items[2], ec.value.ids).Success? && Gen(items[3], ec.value.ids).Success? &&
      Gen(a, ids).value.code == ec.value.code +
        [CodeOpInfo(items[0].info, SEL(Gen(items[2], ec.value.ids).value.code + [CodeOpInfo(items[2].info, JOIN)],
                                       Gen(items[3], ec.value.ids).value.code + [CodeOpInfo(items[3].info, JOIN)]))]
  {
    var items := a.sexpr.items;
    var args := items[1..];
    GenFirstOrderNode(a, ids);
    assert args[0] == items[1] && args[1] == items[2] && args[2] == items[3];
    assert Gen(a, ids) == GenIf(items[0].info, args, ids);
  }

  /** The instruction a unary or binary form compiles to. */
  function FormOp(f: Form): CodeOp
  {
    match f
    case PutsForm => PUTS
    case CarForm => CAR
    case CdrForm => CDR
    case EqForm => EQ
    case SubForm => SUB
    case ConsForm => CONS
    case _ => ADD
  }

  /** Evaluation of `puts`, `car` and `cdr`, one level deep. */
  lemma EvalUnaryUnfold(a: Ast, env: Env, out: seq<Lisp>)
    requires FirstOrder(a) && a.sexpr.List? && a.sexpr.items != []
    requires FormOf(a.sexpr.items[0].sexpr.id) in {Some(PutsForm), Some(CarForm), Some(CdrForm)}
    ensures FirstOrder(a.sexpr.items[1])
    ensures Eval(a, env, out) ==
      UnaryResult(a.sexpr.items[0].info, FormOf(a.sexpr.items[0].sexpr.id).value, Eval(a.sexpr.items[1], env, out))
  {
  }

  /** The code of `puts`, `car` and `cdr`, one level deep. */
  lemma GenUnaryUnfold(a: Ast, ids: seq<string>)
    requires FirstOrder(a) && a.sexpr.List? && a.sexpr.items != []
    requires FormOf(a.sexpr.items[0].sexpr.id) in {Some(PutsForm), Some(CarForm), Some(CdrForm)}
    requires Gen(a, ids).Success?
    ensures var items := a.sexpr.items;
      Gen(items[1], ids).Success? &&
      Gen(a, ids).value.code == Gen(items[1], ids).value.code +
        [CodeOpInfo(items[0].info, FormOp(FormOf(items[0].sexpr.id).value))]
  {
    var items := a.sexpr.items;
    var args := items[1..];
    GenFirstOrderNode(a, ids);
    assert args[0] == items[1];
  }

  /** Evaluation of `eq`, `+`, `-` and `cons`, one level deep. */
  lemma EvalBinaryUnfold(a: Ast, env: Env, out: seq<Lisp>)
    requires FirstOrder(a) && a.sexpr.List? && a.sexpr.items != []
    requires FormOf(a.sexpr.items[0].sexpr.id) in {Some(EqForm), Some(AddForm), Some(SubForm), Some(ConsForm)}
    ensures FirstOrder(a.sexpr.items[1]) && FirstOrder(a.sexpr.items[2])
    ensures Eval(a, env, out) ==
      match Eval(a.sexpr.items[1], env, out)
      case Failure(e) => Failure(e)
      case Success(d) =>
        BinaryResult(a.sexpr.items[0].info, FormOf(a.sexpr.items[0].sexpr.id).value, d.val, Eval(a.sexpr.items[2], d.env, d.out))
  {
  }

  /** The code of `eq`, `+`, `-` and `cons`, one level deep. */
  lemma GenBinaryUnfold(a: Ast, ids: seq<string>)
    requires FirstOrder(a) && a.sexpr.List? && a.sexpr.items != []
    requires FormOf(a.sexpr.items[0].sexpr.id) in {Some(EqForm), Some(AddForm), Some(SubForm), Some(ConsForm)}
    requires Gen(a, ids).Success?
    ensures var items := a.sexpr.items;
      var el := Gen(items[1], ids);
      el.Success? && Gen(items[2], el.value.ids).Success? &&
      Gen(a, ids).value.code == el.value.code + Gen(items[2], el.value.ids).value.code +
        [CodeOpInfo(items[0].info, FormOp(FormOf(items[0].sexpr.id).value))]
  {
    var items := a.sexpr.items;
    var args := items[1..];
    GenFirstOrderNode(a, ids);
    assert args[0] == items[1] && args[1] == items[2];
  }

  // The machine steps of each form once the code of its operands has run,
  // stated on the operand's result `r` rather than on its tree.

  /** After the operand's code, `PUTS`, `CAR` or `CDR` gives `UnaryResult`. */
  lemma UnaryThen(info: Info, f: Form, m: Machine, sub: Code, rest: Code, r: Result<Done, VmError>, n1: nat) returns (n: nat)
    requires f == PutsForm || f == CarForm || f == CdrForm
    requires var c := CodeOpInfo(info, FormOp(f));
      Steps(m.(code := sub + ([c] + rest)), n1) == Expected(m, [c] + rest, r)
    ensures Steps(m.(code := sub + [CodeOpInfo(info, FormOp(f))] + rest), n) == Expected(m, rest, UnaryResult(info, f, r))
  {
    var c := CodeOpInfo(info, FormOp(f));
    assert sub + [c] + rest == sub + ([c] + rest);
    match r
    case Failure(e) =>
      n := n1;
    case Success(d) =>
      var m1 := m.(stack := m.stack + [d.val], env := d.env, code := [c] + rest, out := d.out);
      UnaryStep(info, f, m1, m.stack, d.val, rest);
      Chain(m.(code := sub + ([c] + rest)), n1, m1, 1);
      n := n1 + 1;
  }

  /** After the right operand's code, with the left operand's value `l` below its value, the operator gives `BinaryResult`. */
  lemma RightThen(info: Info, f: Form, m: Machine, l: Lisp, sub: Code, rest: Code, r: Result<Done, VmError>, n2: nat) returns (n: nat)
    requires f == EqForm || f == AddForm || f == SubForm || f == ConsForm
    requires var c := CodeOpInfo(info, FormOp(f));
      Steps(m.(stack := m.stack + [l], code := sub + ([c] + rest)), n2) == Expected(m.(stack := m.stack + [l]), [c] + rest, r)
    ensures Steps(m.(stack := m.stack + [l], code := sub + [CodeOpInfo(info, FormOp(f))] + rest), n) ==
      Expected(m, rest, BinaryResult(info, f, l, r))
  {
    var c := CodeOpInfo(info, FormOp(f));
    assert sub + [c] + rest == sub + ([c] + rest);
    var m1 := m.(stack := m.stack + [l], code := sub + ([c] + rest));
    match r
    case Failure(e) =>
      n := n2;
    case Success(d2) =>
      var m2 := m.(stack := m.stack + [l, d2.val], env := d2.env, code := [c] + rest, out := d2.out);
      assert m.stack + [l] + [d2.val] == m.stack + [l, d2.val];
      BinaryStepOne(info, f, m2, m.stack, l, d2.val, rest);
      Chain(m1, n2, m2, 1);
      n := n2 + 1;
  }

  /** The code of a left operand ran to `d`; the code after it then runs from the machine it left. */
  lemma LeftThen(m: Machine, sub: Code, after: Code, rest: Code, d: Done, n1: nat, n2: nat, r: Result<Done, VmError>)
    requires Steps(m.(code := sub + after), n1) == Expected(m, after, Success(d))
    requires var mid := m.(env := d.env, out := d.out);
      Steps(mid.(stack := mid.stack + [d.val], code := after), n2) == Expected(mid, rest, r)
    ensures Steps(m.(code := sub + after), n1 + n2) == Expected(m, rest, r)
  {
    var mid := m.(env := d.env, out := d.out);
    assert mid.(stack := mid.stack + [d.val], code := after) == m.(stack := m.stack + [d.val], env := d.env, code := after, out := d.out);
    ExpectedKeeps(m, d.env, d.out, rest, r);
    Chain(m.(code := sub + after), n1, mid.(stack := mid.stack + [d.val], code := after), n2);
  }

  /** `LET x` binds the value its operand left on the stack; the body then runs in the extended environment. */
  lemma LetThen(info: Info, x: string, m: Machine, sub: Code, body: Code, rest: Code, d: Done, n1: nat, n3: nat, r: Result<Done, VmError>)
    requires var let := CodeOpInfo(info, LET(x));
      Steps(m.(code := sub + ([let] + (body + rest))), n1) == Expected(m, [let] + (body + rest), Success(d))
    requires var mb := m.(env := d.env[x := d.val], out := d.out);
      Steps(mb.(code := body + rest), n3) == Expected(mb, rest, r)
    ensures Steps(m.(code := sub + [CodeOpInfo(info, LET(x))] + body + rest), n1 + (1 + n3)) == Expected(m, rest, r)
  {
    var let := CodeOpInfo(info, LET(x));
    assert sub + [let] + body + rest == sub + ([let] + (body + rest));
    var m0 := m.(code := sub + ([let] + (body + rest)));
    var m1 := m.(stack := m.stack + [d.val], env := d.env, code := [let] + (body + rest), out := d.out);
    var mb := m.(env := d.env[x := d.val], out := d.out);
    StepOne(m1, let, body + rest);
    LetBinds(info, x, m1.(code := body + rest), m.stack, d.val);
    assert Steps(m1, 1) == Success(mb.(code := body + rest));
    ExpectedKeeps(m, d.env[x := d.val], d.out, rest, r);
    Chain(m1, 1, mb.(code := body + rest), n3);
    Chain(m0, n1, m1, 1 + n3);
  }

  /** `SEL` on a boolean enters the chosen arm, with the code after it saved on the dump. */
  lemma IfThen(info: Info, m: Machine, sub: Code, tcode: Code, fcode: Code, rest: Code, d: Done, n1: nat, n3: nat, r: Result<Done, VmError>)
    requires d.val == True || d.val == False
    requires var sel := CodeOpInfo(info, SEL(tcode, fcode));
      Steps(m.(code := sub + ([sel] + rest)), n1) == Expected(m, [sel] + rest, Success(d))
    requires var ma := m.(env := d.env, out := d.out);
      Steps(ma.(code := if d.val == True then tcode else fcode, dump := m.dump + [DumpSEL(rest)]), n3) == Expected(ma, rest, r)
    ensures Steps(m.(code := sub + [CodeOpInfo(info, SEL(tcode, fcode))] + rest), n1 + (1 + n3)) == Expected(m, rest, r)
  {
    var sel := CodeOpInfo(info, SEL(tcode, fcode));
    assert sub + [sel] + rest == sub + ([sel] + rest);
    var m0 := m.(code := sub + ([sel] + rest));
    var m1 := m.(stack := m.stack + [d.val], env := d.env, code := [sel] + rest, out := d.out);
    var ma := m.(env := d.env, out := d.out);
    var m2 := ma.(code := if d.val == True then tcode else fcode, dump := m.dump + [DumpSEL(rest)]);
    StepOne(m1, sel, rest);
    assert Top(m1.stack) == d.val && Pop(m1.stack) == m.stack;
    assert Steps(m1, 1) == Success(m2);
    ExpectedKeeps(m, d.env, d.out, rest, r);
    Chain(m1, 1, m2, n3);
    Chain(m0, n1, m1, 1 + n3);
  }

  /** `SEL` on anything but a boolean fails. */
  lemma IfNotBool(info: Info, m: Machine, sub: Code, tcode: Code, fcode: Code, rest: Code, d: Done, n1: nat)
    requires d.val != True && d.val != False
    requires var sel := CodeOpInfo(info, SEL(tcode, fcode));
      Steps(m.(code := sub + ([sel] + rest)), n1) == Expected(m, [sel] + rest, Success(d))
    ensures Steps(m.(code := sub + [CodeOpInfo(info, SEL(tcode, fcode))] + rest), n1 + 1) == Failure(VmError(info, ExpectedBool))
  {
    var sel := CodeOpInfo(info, SEL(tcode, fcode));
    assert sub + [sel] + rest == sub + ([sel] + rest);
    var m1 := m.(stack := m.stack + [d.val], env := d.env, code := [sel] + rest, out := d.out);
    StepOne(m1, sel, rest);
    assert Top(m1.stack) == d.val;
    Chain(m.(code := sub + ([sel] + rest)), n1, m1, 1);
  }

  // The inductive cases, one per kind of form, stated on the parts of the node.

  /** `(let x e body)`: the code of `e`, `LET x`, then the code of `body`. */
  lemma {:induction false} CompiledLet(a: Ast, ids: seq<string>, m: Machine, rest: Code) returns (n: nat)
    requires a.sexpr.List? && |a.sexpr.items| == 4 && a.sexpr.items[1].sexpr.Atom?
    requires FirstOrder(a.sexpr.items[2]) && FirstOrder(a.sexpr.items[3])
    requires var ex := Gen(a.sexpr.items[2], RemoveAll(ids, a.sexpr.items[1].sexpr.id));
      ex.Success? && Gen(a.sexpr.items[3], ex.value.ids).Success?
    ensures var items := a.sexpr.items;
      var x := items[1].sexpr.id;
      var ex := Gen(items[2], RemoveAll(ids, x)).value;
      Steps(m.(code := ex.code + [CodeOpInfo(items[0].info, LET(x))] + Gen(items[3], ex.ids).value.code + rest), n) ==
      Expected(m, rest,
        match Eval(items[2], m.env, m.out)
        case Failure(e) => Failure(e)
        case Success(d) => Eval(items[3], d.env[x := d.val], d.out))
    decreases a, 1
  {
    var items := a.sexpr.items;
    var x := items[1].sexpr.id;
    var ex := Gen(items[2], RemoveAll(ids, x)).value;
    var eb := Gen(items[3], ex.ids).value;
    var let := CodeOpInfo(items[0].info, LET(x));
    var after := [let] + (eb.code + rest);
    assert ex.code + [let] + eb.code + rest == ex.code + after;
    var n1 := Compiled(items[2], RemoveAll(ids, x), m, after);
    n := LetBody(a, ex.ids, m, ex.code, rest, Eval(items[2], m.env, m.out), n1);
  }

  /** The body of `(let x e body)`, once the code of `e` has run to the result `r`. */
  lemma {:induction false} LetBody(a: Ast, ids: seq<string>, m: Machine, sub: Code, rest: Code, r: Result<Done, VmError>, n1: nat) returns (n: nat)
    requires a.sexpr.List? && |a.sexpr.items| == 4 && a.sexpr.items[1].sexpr.Atom?
    requires FirstOrder(a.sexpr.items[3]) && Gen(a.sexpr.items[3], ids).Success?
    requires var items := a.sexpr.items;
      var let := CodeOpInfo(items[0].info, LET(items[1].sexpr.id));
      Steps(m.(code := sub + ([let] + (Gen(items[3], ids).value.code + rest))), n1) ==
      Expected(m, [let] + (Gen(items[3], ids).value.code + rest), r)
    ensures var items := a.sexpr.items;
      var x := items[1].sexpr.id;
      Steps(m.(code := sub + [CodeOpInfo(items[0].info, LET(x))] + Gen(items[3], ids).value.code + rest), n) ==
      Expected(m, rest,
        match r
        case Failure(e) => Failure(e)
        case Success(d) => Eval(items[3], d.env[x := d.val], d.out))
    decreases a, 0
  {
    var items := a.sexpr.items;
    var x := items[1].sexpr.id;
    var body := Gen(items[3], ids).value.code;
    var let := CodeOpInfo(items[0].info, LET(x));
    match r
    case Failure(e) =>
      assert sub + [let] + body + rest == sub + ([let] + (body + rest));
      n := n1;
    case Success(d) =>
      var n3 := Compiled(items[3], ids, m.(env := d.env[x := d.val], out := d.out), rest);
      LetThen(items[0].info, x, m, sub, body, rest, d, n1, n3, Eval(items[3], d.env[x := d.val], d.out));
      n := n1 + (1 + n3);
  }

  /** `(if c t f)`: the code of `c`, then `SEL` between the arms' code, each ending in `JOIN`. */
  lemma {:induction false} CompiledIf(a: Ast, ids: seq<string>, m: Machine, rest: Code) returns (n: nat)
    requires a.sexpr.List? && |a.sexpr.items| == 4
    requires FirstOrder(a.sexpr.items[1]) && FirstOrder(a.sexpr.items[2]) && FirstOrder(a.sexpr.items[3])
    requires var ec := Gen(a.sexpr.items[1], ids);
      ec.Success? && Gen(a.sexpr.items[2], ec.value.ids).Success? && Gen(a.sexpr.items[3], ec.value.ids).Success?
    ensures var items := a.sexpr.items;
      var ec := Gen(items[1], ids).value;
      Steps(m.(code := ec.code +
        [CodeOpInfo(items[0].info, SEL(Gen(items[2], ec.ids).value.code + [CodeOpInfo(items[2].info, JOIN)],
                                       Gen(items[3], ec.ids).value.code + [CodeOpInfo(items[3].info, JOIN)]))] + rest), n) ==
      Expected(m, rest, IfResult(items[0].info, Eval(items[1], m.env, m.out), items[2], items[3]))
    decreases a, 2
  {
    var items := a.sexpr.items;
    var ec := Gen(items[1], ids).value;
    var tcode := Gen(items[2], ec.ids).value.code + [CodeOpInfo(items[2].info, JOIN)];
    var fcode := Gen(items[3], ec.ids).value.code + [CodeOpInfo(items[3].info, JOIN)];
    var sel := CodeOpInfo(items[0].info, SEL(tcode, fcode));
    var n1 := Compiled(items[1], ids, m, [sel] + rest);
    n := IfArms(a, ec.ids, m, ec.code, rest, Eval(items[1], m.env, m.out), n1);
  }

  /** The arms of `(if c t f)`, once the code of `c` has run to the result `r`. */
  lemma {:induction false} IfArms(a: Ast, ids: seq<string>, m: Machine, sub: Code, rest: Code, r: Result<Done, VmError>, n1: nat) returns (n: nat)
    requires a.sexpr.List? && |a.sexpr.items| == 4
    requires FirstOrder(a.sexpr.items[2]) && FirstOrder(a.sexpr.items[3])
    requires Gen(a.sexpr.items[2], ids).Success? && Gen(a.sexpr.items[3], ids).Success?
    requires var items := a.sexpr.items;
      var sel := CodeOpInfo(items[0].info, SEL(Gen(items[2], ids).value.code + [CodeOpInfo(items[2].info, JOIN)],
                                               Gen(items[3], ids).value.code + [CodeOpInfo(items[3].info, JOIN)]));
      Steps(m.(code := sub + ([sel] + rest)), n1) == Expected(m, [sel] + rest, r)
    ensures var items := a.sexpr.items;
      Steps(m.(code := sub +
        [CodeOpInfo(items[0].info, SEL(Gen(items[2], ids).value.code + [CodeOpInfo(items[2].info, JOIN)],
                                       Gen(items[3], ids).value.code + [CodeOpInfo(items[3].info, JOIN)]))] + rest), n) ==
      Expected(m, rest, IfResult(items[0].info, r, items[2], items[3]))
    decreases a, 1
  {
    var items := a.sexpr.items;
    var join1 := CodeOpInfo(items[2].info, JOIN);
    var join2 := CodeOpInfo(items[3].info, JOIN);
    var tcode := Gen(items[2], ids).value.code + [join1];
    var fcode := Gen(items[3], ids).value.code + [join2];
    var sel := CodeOpInfo(items[0].info, SEL(tcode, fcode));
    match r
    case Failure(e) =>
      assert sub + [sel] + rest == sub + ([sel] + rest);
      n := n1;
    case Success(d) =>
      if d.val == True || d.val == False {
        n := IfBool(a, ids, m, sub, rest, d, n1);
      } else {
        IfNotBool(items[0].info, m, sub, tcode, fcode, rest, d, n1);
        n := n1 + 1;
      }
  }

  /** The condition of `(if c t f)` evaluated to a boolean: `SEL` enters the arm it chooses, which returns at its `JOIN`. */
  lemma {:induction false} IfBool(a: Ast, ids: seq<string>, m: Machine, sub: Code, rest: Code, d: Done, n1: nat) returns (n: nat)
    requires a.sexpr.List? && |a.sexpr.items| == 4
    requires FirstOrder(a.sexpr.items[2]) && FirstOrder(a.sexpr.items[3])
    requires Gen(a.sexpr.items[2], ids).Success? && Gen(a.sexpr.items[3], ids).Success?
    requires d.val == True || d.val == False
    requires var items := a.sexpr.items;
      var sel := CodeOpInfo(items[0].info, SEL(Gen(items[2], ids).value.code + [CodeOpInfo(items[2].info, JOIN)],
                                               Gen(items[3], ids).value.code + [CodeOpInfo(items[3].info, JOIN)]));
      Steps(m.(code := sub + ([sel] + rest)), n1) == Expected(m, [sel] + rest, Success(d))
    ensures var items := a.sexpr.items;
      Steps(m.(code := sub +
        [CodeOpInfo(items[0].info, SEL(Gen(items[2], ids).value.code + [CodeOpInfo(items[2].info, JOIN)],
                                       Gen(items[3], ids).value.code + [CodeOpInfo(items[3].info, JOIN)]))] + rest), n) ==
      Expected(m, rest, if d.val == True then Eval(items[2], d.env, d.out) else Eval(items[3], d.env, d.out))
    decreases a, 0
  {
    var items := a.sexpr.items;
    var tcode := Gen(items[2], ids).value.code + [CodeOpInfo(items[2].info, JOIN)];
    var fcode := Gen(items[3], ids).value.code + [CodeOpInfo(items[3].info, JOIN)];
    var arm := if d.val == True then items[2] else items[3];
    var join := CodeOpInfo(arm.info, JOIN);
    assert (if d.val == True then tcode else fcode) == Gen(arm, ids).value.code + [join];
    var n3 := CompiledBranch(arm, ids, m.(env := d.env, out := d.out), join, rest);
    IfThen(items[0].info, m, sub, tcode, fcode, rest, d, n1, n3, Eval(arm, d.env, d.out));
    n := n1 + (1 + n3);
  }

  /** An arm of `if`, entered by `SEL` with the rest of the code saved on the dump, returns to that code at its `JOIN`. */
  lemma {:induction false} CompiledBranch(arm: Ast, ids: seq<string>, m: Machine, join: CodeOpInfo, rest: Code) returns (n: nat)
    requires FirstOrder(arm) && Gen(arm, ids).Success?
    requires join.op == JOIN
    ensures Steps(m.(code := Gen(arm, ids).value.code + [join], dump := m.dump + [DumpSEL(rest)]), n) ==
      Expected(m, rest, Eval(arm, m.env, m.out))
    decreases arm, 4
  {
    var m2 := m.(code := Gen(arm, ids).value.code + [join], dump := m.dump + [DumpSEL(rest)]);
    var n3 := Compiled(arm, ids, m.(dump := m.dump + [DumpSEL(rest)]), [join]);
    n := JoinThen(m, Gen(arm, ids).value.code, join, rest, Eval(arm, m.env, m.out), n3);
  }

  /** `JOIN` at the end of an arm returns to the code saved on the dump by `SEL`. */
  lemma JoinThen(m: Machine, sub: Code, join: CodeOpInfo, rest: Code, r: Result<Done, VmError>, n3: nat) returns (n: nat)
    requires join.op == JOIN
    requires var md := m.(dump := m.dump + [DumpSEL(rest)]);
      Steps(md.(code := sub + [join]), n3) == Expected(md, [join], r)
    ensures Steps(m.(code := sub + [join], dump := m.dump + [DumpSEL(rest)]), n) == Expected(m, rest, r)
  {
    var m2 := m.(code := sub + [join], dump := m.dump + [DumpSEL(rest)]);
    match r
    case Failure(e) =>
      n := n3;
    case Success(d) =>
      var m3 := m2.(stack := m.stack + [d.val], env := d.env, code := [join], out := d.out);
      StepOne(m3, join, []);
      assert [join] + [] == [join];
      assert Pop(m3.dump) == m.dump;
      Chain(m2, n3, m3, 1);
      n := n3 + 1;
  }

  /** `(puts e)`, `(car e)`, `(cdr e)`: the code of `e`, then one instruction. */
  lemma {:induction false} CompiledUnary(a: Ast, ids: seq<string>, m: Machine, rest: Code) returns (n: nat)
    requires a.sexpr.List? && |a.sexpr.items| == 2 && a.sexpr.items[0].sexpr.Atom?
    requires FormOf(a.sexpr.items[0].sexpr.id) in {Some(PutsForm), Some(CarForm), Some(CdrForm)}
    requires FirstOrder(a.sexpr.items[1]) && Gen(a.sexpr.items[1], ids).Success?
    ensures var items := a.sexpr.items;
      var f := FormOf(items[0].sexpr.id).value;
      Steps(m.(code := Gen(items[1], ids).value.code + [CodeOpInfo(items[0].info, FormOp(f))] + rest), n) ==
      Expected(m, rest, UnaryResult(items[0].info, f, Eval(items[1], m.env, m.out)))
    decreases a, 0
  {
    var items := a.sexpr.items;
    var f := FormOf(items[0].sexpr.id).value;
    var c := CodeOpInfo(items[0].info, FormOp(f));
    var n1 := Compiled(items[1], ids, m, [c] + rest);
    n := UnaryThen(items[0].info, f, m, Gen(items[1], ids).value.code, rest, Eval(items[1], m.env, m.out), n1);
  }

  /** `(eq l r)`, `(+ l r)`, `(- l r)`, `(cons l r)`: the code of `l`, the code of `r`, then one instruction. */
  lemma {:induction false} CompiledBinary(a: Ast, ids: seq<string>, m: Machine, rest: Code) returns (n: nat)
    requires a.sexpr.List? && |a.sexpr.items| == 3 && a.sexpr.items[0].sexpr.Atom?
    requires FormOf(a.sexpr.items[0].sexpr.id) in {Some(EqForm), Some(AddForm), Some(SubForm), Some(ConsForm)}
    requires FirstOrder(a.sexpr.items[1]) && FirstOrder(a.sexpr.items[2])
    requires var el := Gen(a.sexpr.items[1], ids);
      el.Success? && Gen(a.sexpr.items[2], el.value.ids).Success?
    ensures var items := a.sexpr.items;
      var f := FormOf(items[0].sexpr.id).value;
      var el := Gen(items[1], ids).value;
      Steps(m.(code := el.code + Gen(items[2], el.ids).value.code + [CodeOpInfo(items[0].info, FormOp(f))] + rest), n) ==
      Expected(m, rest,
        match Eval(items[1], m.env, m.out)
        case Failure(e) => Failure(e)
        case Success(d) => BinaryResult(items[0].info, f, d.val, Eval(items[2], d.env, d.out)))
    decreases a, 2
  {
    var items := a.sexpr.items;
    var f := FormOf(items[0].sexpr.id).value;
    var el := Gen(items[1], ids).value;
    var er := Gen(items[2], el.ids).value;
    var c := CodeOpInfo(items[0].info, FormOp(f));
    var after := er.code + [c] + rest;
    assert el.code + er.code + [c] + rest == el.code + after;
    var n1 := Compiled(items[1], ids, m, after);
    n := BinaryLeft(a, el.ids, m, el.code, rest, Eval(items[1], m.env, m.out), n1);
  }

  /** A binary form once the code of its left operand has run to the result `r`. */
  lemma {:induction false} BinaryLeft(a: Ast, ids: seq<string>, m: Machine, sub: Code, rest: Code, r: Result<Done, VmError>, n1: nat) returns (n: nat)
    requires a.sexpr.List? && |a.sexpr.items| == 3 && a.sexpr.items[0].sexpr.Atom?
    requires FormOf(a.sexpr.items[0].sexpr.id) in {Some(EqForm), Some(AddForm), Some(SubForm), Some(ConsForm)}
    requires FirstOrder(a.sexpr.items[2]) && Gen(a.sexpr.items[2], ids).Success?
    requires var items := a.sexpr.items;
      var c := CodeOpInfo(items[0].info, FormOp(FormOf(items[0].sexpr.id).value));
      Steps(m.(code := sub + (Gen(items[2], ids).value.code + [c] + rest)), n1) ==
      Expected(m, Gen(items[2], ids).value.code + [c] + rest, r)
    ensures var items := a.sexpr.items;
      var f := FormOf(items[0].sexpr.id).value;
      Steps(m.(code := sub + (Gen(items[2], ids).value.code + [CodeOpInfo(items[0].info, FormOp(f))] + rest)), n) ==
      Expected(m, rest,
        match r
        case Failure(e) => Failure(e)
        case Success(d) => BinaryResult(items[0].info, f, d.val, Eval(items[2], d.env, d.out)))
    decreases a, 1
  {
    var items := a.sexpr.items;
    var f := FormOf(items[0].sexpr.id).value;
    var after := Gen(items[2], ids).value.code + [CodeOpInfo(items[0].info, FormOp(f))] + rest;
    match r
    case Failure(e) =>
      n := n1;
    case Success(d) =>
      var n2 := CompiledRight(a, ids, m.(env := d.env, out := d.out), d.val, rest);
      LeftThen(m, sub, after, rest, d, n1, n2, BinaryResult(items[0].info, f, d.val, Eval(items[2], d.env, d.out)));
      n := n1 + n2;
  }

  /** The right operand of a binary form and the operator, run with the left operand's value `l` on the stack. */
  lemma {:induction false} CompiledRight(a: Ast, ids: seq<string>, m: Machine, l: Lisp, rest: Code) returns (n: nat)
    requires a.sexpr.List? && |a.sexpr.items| == 3 && a.sexpr.items[0].sexpr.Atom?
    requires FormOf(a.sexpr.items[0].sexpr.id) in {Some(EqForm), Some(AddForm), Some(SubForm), Some(ConsForm)}
    requires FirstOrder(a.sexpr.items[2]) && Gen(a.sexpr.items[2], ids).Success?
    ensures var items := a.sexpr.items;
      var f := FormOf(items[0].sexpr.id).value;
      Steps(m.(stack := m.stack + [l], code := Gen(items[2], ids).value.code + [CodeOpInfo(items[0].info, FormOp(f))] + rest), n) ==
      Expected(m, rest, BinaryResult(items[0].info, f, l, Eval(items[2], m.env, m.out)))
    decreases a, 0
  {
    var items := a.sexpr.items;
    var f := FormOf(items[0].sexpr.id).value;
    var c := CodeOpInfo(items[0].info, FormOp(f));
    var n2 := Compiled(items[2], ids, m.(stack := m.stack + [l]), [c] + rest);
    n := RightThen(items[0].info, f, m, l, Gen(items[2], ids).value.code, rest, Eval(items[2], m.env, m.out), n2);
  }

  /**
   * A whole first-order program: the machine loaded with its code halts in
   * `fuel` steps with only the program's value on the stack, the environment
   * its `let`s built and the values it printed; or it crashes with the error
   * evaluation reports. `run` therefore returns the program's value.
   */
  lemma ProgramAgrees(a: Ast) returns (fuel: nat)
    requires FirstOrder(a)
    ensures CompileProgram(a).Success?
    ensures RunFor(Load(CompileProgram(a).value), fuel) ==
      match Eval(a, map[], [])
      case Success(d) => Halted(Machine([d.val], d.env, [], [], d.out))
      case Failure(e) => Crashed(e)
    ensures Evaluate(Load(CompileProgram(a).value), fuel) ==
      match Eval(a, map[], [])
      case Success(d) => Some(Success(d.val))
      case Failure(e) => Some(Failure(e))
  {
    FirstOrderCompiles(a, []);
    var c := CompileProgram(a).value;
    var m := Load(c);
    assert c == Gen(a, []).value.code && c + [] == c;
    fuel := Compiled(a, [], m, []);
    RunForSteps(m, fuel, fuel);
    match Eval(a, map[], [])
    case Success(d) =>
      assert Top([d.val]) == d.val;
    case Failure(e) =>
  }

  // ---------------------------------------------------------------------------
  // The static stack effect and the machine.
  // ---------------------------------------------------------------------------

  /** Instructions that neither transfer control nor touch the dump. */
  predicate Straight(op: CodeOp)
  {
    !(op.SEL? || op.JOIN? || op.AP? || op.RAP? || op.RET?)
  }

  /** How many values below the new top an instruction reads from the stack. */
  function Pops(op: CodeOp): nat
  {
    match op
    case LET(_) => 1
    case ARGS(n) => n
    case EQ => 2
    case ADD => 2
    case SUB => 2
    case CONS => 2
    case CAR => 1
    case CDR => 1
    case _ => 0
  }

  /**
   * A straight instruction that succeeds changes the stack's height by its
   * static effect, leaves the values below its operands, the code and the
   * dump alone.
   */
  lemma StraightEffect(c: CodeOpInfo, m: Machine)
    requires Straight(c.op) && Exec(c, m).Success?
    ensures var m' := Exec(c, m).value;
      |m'.stack| == |m.stack| + OpEffect(c.op) && m'.code == m.code && m'.dump == m.dump
    ensures var m' := Exec(c, m).value;
      Pops(c.op) <= |m.stack| && m'.stack[..|m.stack| - Pops(c.op)] == m.stack[..|m.stack| - Pops(c.op)]
  {
    var m' := Exec(c, m).value;
    match c.op
    case LET(_) =>
    case LD(_) =>
    case LDC(_) =>
    case LDF(_, _) =>
    case ARGS(n) =>
    case PUTS =>
    case EQ =>
    case ADD =>
      assert m'.stack[..|m.stack| - 2] == m.stack[..|m.stack| - 2];
    case SUB =>
      assert m'.stack[..|m.stack| - 2] == m.stack[..|m.stack| - 2];
    case CONS =>
    case CAR =>
    case CDR =>
  }

  /** Code made only of straight instructions. */
  predicate StraightCode(c: Code)
  {
    forall k | 0 <= k < |c| :: Straight(c[k].op)
  }

  /**
   * Running straight code to its end, one step per instruction, changes the
   * stack's height by the code's static effect and leaves the dump alone: the
   * machine-level meaning of `Effect`.
   */
  lemma {:induction false} StraightCodeEffect(m: Machine, c: Code, rest: Code)
    requires StraightCode(c) && Steps(m.(code := c + rest), |c|).Success?
    ensures var m' := Steps(m.(code := c + rest), |c|).value;
      |m'.stack| == |m.stack| + Effect(c) && m'.code == rest && m'.dump == m.dump
    decreases |c|
  {
    if c != [] {
      var start := m.(code := c + rest);
      assert start.code[0] == c[0] && start.code[1..] == c[1..] + rest;
      var m1 := Exec(c[0], m.(code := c[1..] + rest)).value;
      StraightEffect(c[0], m.(code := c[1..] + rest));
      assert Steps(start, |c|) == Steps(m1, |c[1..]|);
      assert m1 == m1.(code := c[1..] + rest);
      StraightCodeEffect(m1, c[1..], rest);
    } else {
      assert c + rest == rest;
    }
  }
}
