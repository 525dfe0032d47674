/**
 * The first-order programs of the machine's test suite, run through the
 * compiler and the machine by way of `Correctness.ProgramAgrees`: each one
 * halts with the value the suite expects.
 */
module Programs {
  import opened Wrappers
  import opened Data
  import opened Compiler
  import opened Vm
  import opened CompilerFacts
  import opened Correctness

  /** `(let a 0 a)` */
  function LetProgram(): Ast
  {
    Node(Info(1, 4), Info(1, 5), "let", [At(1, 9, "a"), Num(1, 11, 0), At(1, 13, "a")])
  }

  /** `(let a 0 a)` evaluates to 0. */
  lemma LetRuns() returns (fuel: nat)
    ensures CompileProgram(LetProgram()).Success?
    ensures Evaluate(Load(CompileProgram(LetProgram()).value), fuel) == Some(Success(Lisp.Int(0)))
  {
    var p := LetProgram();
    assert FormOf("let") == Some(LetForm);
    assert FirstOrder(p);
    fuel := ProgramAgrees(p);
    EvalLetUnfold(p, map[], []);
    assert Eval(Num(1, 11, 0), map[], []) == Success(Done(Lisp.Int(0), map[], []));
    assert "a" != "nil" && "a" != "true" && "a" != "false";
    assert Eval(At(1, 13, "a"), map["a" := Lisp.Int(0)], []) == Success(Done(Lisp.Int(0), map["a" := Lisp.Int(0)], []));
  }

  function ConsPair(): Ast { Node(Info(1, 11), Info(1, 12), "cons", [Num(1, 17, 0), Num(1, 19, 1)]) }
  function TestB(): Ast { Node(Info(4, 7), Info(4, 8), "eq", [At(4, 11, "b"), Num(4, 13, 0)]) }
  function TestC(): Ast { Node(Info(4, 16), Info(4, 17), "eq", [At(4, 20, "c"), Num(4, 22, 1)]) }
  function Tests(): Ast { Node(Info(4, 4), Info(4, 5), "eq", [TestB(), TestC()]) }
  function CarA(): Ast { Node(Info(2, 11), Info(2, 12), "car", [At(2, 16, "a")]) }
  function CdrA(): Ast { Node(Info(3, 11), Info(3, 12), "cdr", [At(3, 16, "a")]) }
  function BindC(): Ast { Node(Info(3, 4), Info(3, 5), "let", [At(3, 9, "c"), CdrA(), Tests()]) }
  function BindB(): Ast { Node(Info(2, 4), Info(2, 5), "let", [At(2, 9, "b"), CarA(), BindC()]) }

  /** `(let a (cons 0 1) (let b (car a) (let c (cdr a) (eq (eq b 0) (eq c 1)))))` */
  function ConsProgram(): Ast
  {
    Node(Info(1, 4), Info(1, 5), "let", [At(1, 9, "a"), ConsPair(), BindB()])
  }

  /** `(eq b 0)` and `(eq c 1)` once `b` is 0 and `c` is 1. */
  lemma ComparisonsHold(env: Env)
    requires "b" in env && "c" in env && env["b"] == Lisp.Int(0) && env["c"] == Lisp.Int(1)
    ensures FirstOrder(TestB()) && FirstOrder(TestC())
    ensures Eval(TestB(), env, []) == Success(Done(True, env, []))
    ensures Eval(TestC(), env, []) == Success(Done(True, env, []))
  {
    assert FormOf("eq") == Some(EqForm);
    assert FirstOrder(TestB()) && FirstOrder(TestC());
    assert "b" != "nil" && "b" != "true" && "b" != "false";
    assert "c" != "nil" && "c" != "true" && "c" != "false";
    assert Eval(At(4, 11, "b"), env, []) == Success(Done(Lisp.Int(0), env, []));
    assert Eval(At(4, 20, "c"), env, []) == Success(Done(Lisp.Int(1), env, []));
    EvalBinaryUnfold(TestB(), env, []);
    EvalBinaryUnfold(TestC(), env, []);
  }

  /** Evaluating the innermost comparison once `b` is 0 and `c` is 1. */
  lemma TestsAreTrue(env: Env)
    requires "b" in env && "c" in env && env["b"] == Lisp.Int(0) && env["c"] == Lisp.Int(1)
    ensures FirstOrder(Tests())
    ensures Eval(Tests(), env, []) == Success(Done(True, env, []))
  {
    assert FormOf("eq") == Some(EqForm);
    ComparisonsHold(env);
    assert FirstOrder(Tests());
    EvalBinaryUnfold(Tests(), env, []);
  }

  /** The environment after each `let` of the cons cell test. */
  function ConsEnv(k: nat): Env
  {
    var env1 := map["a" := Cons(Lisp.Int(0), Lisp.Int(1))];
    if k <= 1 then env1
    else if k == 2 then env1["b" := Lisp.Int(0)]
    else env1["b" := Lisp.Int(0)]["c" := Lisp.Int(1)]
  }

  /** `(car a)` and `(cdr a)` once `a` is bound to the pair. */
  lemma ProjectValues(k: nat)
    requires 1 <= k <= 2
    ensures FirstOrder(CarA()) && FirstOrder(CdrA())
    ensures Eval(CarA(), ConsEnv(k), []) == Success(Done(Lisp.Int(0), ConsEnv(k), []))
    ensures Eval(CdrA(), ConsEnv(k), []) == Success(Done(Lisp.Int(1), ConsEnv(k), []))
  {
    assert FormOf("car") == Some(CarForm) && FormOf("cdr") == Some(CdrForm);
    assert "a" != "nil" && "a" != "true" && "a" != "false";
    assert FirstOrder(CarA()) && FirstOrder(CdrA());
    assert Eval(At(2, 16, "a"), ConsEnv(k), []) == Success(Done(Cons(Lisp.Int(0), Lisp.Int(1)), ConsEnv(k), []));
    assert Eval(At(3, 16, "a"), ConsEnv(k), []) == Success(Done(Cons(Lisp.Int(0), Lisp.Int(1)), ConsEnv(k), []));
    EvalUnaryUnfold(CarA(), ConsEnv(k), []);
    EvalUnaryUnfold(CdrA(), ConsEnv(k), []);
  }

  lemma BindCValue()
    ensures FirstOrder(BindC())
    ensures Eval(BindC(), ConsEnv(2), []) == Success(Done(True, ConsEnv(3), []))
  {
    assert FormOf("let") == Some(LetForm);
    TestsAreTrue(ConsEnv(3));
    ProjectValues(2);
    assert FirstOrder(BindC());
    EvalLetUnfold(BindC(), ConsEnv(2), []);
  }

  lemma BindBValue()
    ensures FirstOrder(BindB())
    ensures Eval(BindB(), ConsEnv(1), []) == Success(Done(True, ConsEnv(3), []))
  {
    assert FormOf("let") == Some(LetForm);
    BindCValue();
    ProjectValues(1);
    assert FirstOrder(BindB());
    EvalLetUnfold(BindB(), ConsEnv(1), []);
  }

  lemma ConsPairValue()
    ensures FirstOrder(ConsPair())
    ensures Eval(ConsPair(), map[], []) == Success(Done(Cons(Lisp.Int(0), Lisp.Int(1)), map[], []))
  {
    assert FormOf("cons") == Some(ConsForm);
    assert FirstOrder(ConsPair());
    EvalBinaryUnfold(ConsPair(), map[], []);
  }

  lemma ConsProgramValue()
    ensures FirstOrder(ConsProgram())
    ensures Eval(ConsProgram(), map[], []) == Success(Done(True, ConsEnv(3), []))
  {
    assert FormOf("let") == Some(LetForm);
    BindBValue();
    ConsPairValue();
    assert FirstOrder(ConsProgram());
    EvalLetUnfold(ConsProgram(), map[], []);
    assert ConsEnv(1) == map["a" := Cons(Lisp.Int(0), Lisp.Int(1))];
  }

  /** The cons cell test evaluates to `true`. */
  lemma ConsRuns() returns (fuel: nat)
    ensures CompileProgram(ConsProgram()).Success?
    ensures Evaluate(Load(CompileProgram(ConsProgram()).value), fuel) == Some(Success(True))
  {
    ConsProgramValue();
    fuel := ProgramAgrees(ConsProgram());
  }

  function AddSubBody(): Ast
  {
    Node(Info(2, 4), Info(2, 5), "let", [At(2, 9, "b"), Node(Info(2, 11), Info(2, 12), "-", [Num(2, 14, 1), Num(2, 16, 0)]),
      Node(Info(3, 4), Info(3, 5), "eq", [At(3, 8, "a"), At(3, 10, "b")])])
  }

  /** `(let a (+ 0 1) (let b (- 1 0) (eq a b)))` */
  function AddSubProgram(): Ast
  {
    Node(Info(1, 4), Info(1, 5), "let", [At(1, 9, "a"), Sum(), AddSubBody()])
  }

  function Sum(): Ast { Node(Info(1, 11), Info(1, 12), "+", [Num(1, 14, 0), Num(1, 16, 1)]) }

  lemma SumValue()
    ensures FirstOrder(Sum())
    ensures Eval(Sum(), map[], []) == Success(Done(Lisp.Int(1), map[], []))
  {
    assert FormOf("+") == Some(AddForm);
    assert FirstOrder(Sum());
    EvalBinaryUnfold(Sum(), map[], []);
  }

  lemma AddSubBodyValue(env: Env)
    requires "a" in env && env["a"] == Lisp.Int(1)
    ensures FirstOrder(AddSubBody())
    ensures Eval(AddSubBody(), env, []) == Success(Done(True, env["b" := Lisp.Int(1)], []))
  {
    assert FormOf("let") == Some(LetForm) && FormOf("-") == Some(SubForm) && FormOf("eq") == Some(EqForm);
    assert "a" != "nil" && "a" != "true" && "a" != "false";
    assert "b" != "nil" && "b" != "true" && "b" != "false";
    var sub := Node(Info(2, 11), Info(2, 12), "-", [Num(2, 14, 1), Num(2, 16, 0)]);
    var eq := Node(Info(3, 4), Info(3, 5), "eq", [At(3, 8, "a"), At(3, 10, "b")]);
    var env2 := env["b" := Lisp.Int(1)];
    assert FirstOrder(sub) && FirstOrder(eq) && FirstOrder(AddSubBody());
    EvalBinaryUnfold(sub, env, []);
    assert Eval(sub, env, []) == Success(Done(Lisp.Int(1), env, []));
    EvalBinaryUnfold(eq, env2, []);
    assert Eval(At(3, 8, "a"), env2, []) == Success(Done(Lisp.Int(1), env2, []));
    assert Eval(At(3, 10, "b"), env2, []) == Success(Done(Lisp.Int(1), env2, []));
    assert Eval(eq, env2, []) == Success(Done(True, env2, []));
    EvalLetUnfold(AddSubBody(), env, []);
  }

  lemma AddSubProgramValue()
    ensures FirstOrder(AddSubProgram())
    ensures Eval(AddSubProgram(), map[], []) == Success(Done(True, map["a" := Lisp.Int(1)]["b" := Lisp.Int(1)], []))
  {
    assert FormOf("let") == Some(LetForm);
    AddSubBodyValue(map["a" := Lisp.Int(1)]);
    SumValue();
    assert FirstOrder(AddSubProgram());
    EvalLetUnfold(AddSubProgram(), map[], []);
  }

  /** The addition and subtraction test evaluates to `true`. */
  lemma AddSubRuns() returns (fuel: nat)
    ensures CompileProgram(AddSubProgram()).Success?
    ensures Evaluate(Load(CompileProgram(AddSubProgram()).value), fuel) == Some(Success(True))
  {
    AddSubProgramValue();
    fuel := ProgramAgrees(AddSubProgram());
  }

  function Choice(): Ast
  {
    Node(Info(1, 10), Info(1, 11), "if", [Node(Info(1, 14), Info(1, 15), "eq", [Num(1, 18, 0), Num(1, 20, 0)]), Num(1, 23, 1), Num(1, 25, 0)])
  }

  /** `(puts (if (eq 0 0) 1 0))` */
  function SelProgram(): Ast
  {
    Node(Info(1, 4), Info(1, 5), "puts", [Choice()])
  }

  lemma ChoiceValue()
    ensures FirstOrder(Choice())
    ensures Eval(Choice(), map[], []) == Success(Done(Lisp.Int(1), map[], []))
  {
    assert FormOf("if") == Some(IfForm) && FormOf("eq") == Some(EqForm);
    var test := Node(Info(1, 14), Info(1, 15), "eq", [Num(1, 18, 0), Num(1, 20, 0)]);
    assert FirstOrder(test) && FirstOrder(Choice());
    EvalBinaryUnfold(test, map[], []);
    assert Eval(test, map[], []) == Success(Done(True, map[], []));
    EvalIfUnfold(Choice(), map[], []);
  }

  lemma SelProgramValue()
    ensures FirstOrder(SelProgram())
    ensures Eval(SelProgram(), map[], []) == Success(Done(Lisp.Int(1), map[], [Lisp.Int(1)]))
  {
    var items := [Ast(Info(1, 5), Atom("puts")), Choice()];
    assert SelProgram().sexpr.items == items;
    assert FormOf("puts") == Some(PutsForm);
    ChoiceValue();
    assert FirstOrder(SelProgram());
    EvalUnaryUnfold(SelProgram(), map[], []);
    var d := Done(Lisp.Int(1), map[], []);
    assert Eval(items[1], map[], []) == Success(d);
    assert FormOf(items[0].sexpr.id).value == PutsForm;
    assert d.out + [d.val] == [Lisp.Int(1)];
  }

  /** The conditional test halts with 1 on the stack, having printed 1. */
  lemma SelRuns() returns (fuel: nat)
    ensures CompileProgram(SelProgram()).Success?
    ensures RunFor(Load(CompileProgram(SelProgram()).value), fuel) == Halted(Machine([Lisp.Int(1)], map[], [], [], [Lisp.Int(1)]))
  {
    SelProgramValue();
    fuel := ProgramAgrees(SelProgram());
  }
}
