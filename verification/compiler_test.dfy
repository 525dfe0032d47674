/**
 * The compiler test of tests/compiler_test.rs: the test's text, read by the
 * parser, is the tree `CompilerFacts.TestProgram` with the reader's
 * positions, and it compiles to the nine instructions the test expects.
 */
module CompilerTest {
  import opened Wrappers
  import opened Data
  import opened Parser
  import opened ParserFacts
  import opened Compiler
  import opened CompilerFacts
  import opened RoundTrip

  /** The text the compiler test reads. */
  const CompilerTestText: string := "(let a 0 (letrec b (a 0) (puts b)))"

  /** The instructions the compiler test expects, all at position `[0; 2]`. */
  function ExpectedCode(): Code
  {
    var i := Info(0, 0);
    [CodeOpInfo(i, LDC(Lisp.Int(0))), CodeOpInfo(i, LET("a")),
     CodeOpInfo(i, LDC(Lisp.Int(0))), CodeOpInfo(i, ARGS(1)), CodeOpInfo(i, LD("a")), CodeOpInfo(i, AP),
     CodeOpInfo(i, LET("b")), CodeOpInfo(i, LD("b")), CodeOpInfo(i, PUTS)]
  }

  // ---------------------------------------------------------------------------
  // Rendering and locating a form with one or three arguments.
  // ---------------------------------------------------------------------------

  /** A form with one argument renders as its name and the argument, in brackets. */
  lemma ShowNode1(info: Info, hinfo: Info, name: string, x: Ast)
    ensures ShowAst(Node(info, hinfo, name, [x])) == "(" + name + " " + ShowAst(x) + ")"
  {
    var items := [Ast(hinfo, Atom(name))] + [x];
    assert items[1..] == [x];
    assert ShowItems(items) == name + " " + ShowAst(x);
  }

  /** A form with three arguments renders as its name and the arguments, spaced, in brackets. */
  lemma ShowNode3(info: Info, hinfo: Info, name: string, x: Ast, y: Ast, z: Ast)
    ensures ShowAst(Node(info, hinfo, name, [x, y, z]))
      == "(" + name + " " + ShowAst(x) + " " + ShowAst(y) + " " + ShowAst(z) + ")"
  {
    var items := [Ast(hinfo, Atom(name))] + [x, y, z];
    assert items[1..] == [x, y, z];
    assert items[1..][1..] == [y, z];
    assert [y, z][1..] == [z];
    assert ShowItems([y, z]) == ShowAst(y) + " " + ShowAst(z);
    assert ShowItems(items) == name + " " + (ShowAst(x) + " " + (ShowAst(y) + " " + ShowAst(z)));
  }

  /**
   * A form written on one line from column `col` is where the reader puts it
   * when its head carries the column after the name, the form the column
   * after its `)`, and its arguments are where the reader puts them.
   */
  lemma LocatedNode(info: Info, hinfo: Info, name: string, args: seq<Ast>, line: nat, col: nat)
    requires '\n' !in name && '\n' !in ShowAst(Node(info, hinfo, name, args))
    requires hinfo == Info(line, col + 1 + |name|)
    requires info == Info(line, col + |ShowAst(Node(info, hinfo, name, args))|)
    requires LocatedItems(args, Info(line, col + 2 + |name|)) == args
    ensures Located(Node(info, hinfo, name, args), Info(line, col)) == Node(info, hinfo, name, args)
  {
    var a := Node(info, hinfo, name, args);
    var items := a.sexpr.items;
    LocatedInLine(a, line, col);
    LocatedItemsInLine(items, line, col + 1);
    LocatedInLine(items[0], line, col + 1);
    assert items[1..] == args;
  }

  /** One argument on one line, where the reader puts it. */
  lemma LocatedArgs1(x: Ast, line: nat, col: nat)
    requires '\n' !in ShowAst(x) && Located(x, Info(line, col)) == x
    ensures LocatedItems([x], Info(line, col)) == [x]
  {
    LocatedItemsInLine([x], line, col);
    assert [x][1..] == [];
  }

  /** Three arguments on one line, each where the reader puts it. */
  lemma LocatedArgs3(x: Ast, y: Ast, z: Ast, line: nat, col: nat)
    requires '\n' !in ShowAst(x) && '\n' !in ShowAst(y) && '\n' !in ShowAst(z)
    requires Located(x, Info(line, col)) == x
    requires Located(y, Info(line, col + |ShowAst(x)| + 1)) == y
    requires Located(z, Info(line, col + |ShowAst(x)| + |ShowAst(y)| + 2)) == z
    ensures LocatedItems([x, y, z], Info(line, col)) == [x, y, z]
  {
    assert [x, y, z][1..] == [y, z] && [y, z][1..] == [z];
    LocatedArgs1(z, line, col + |ShowAst(x)| + |ShowAst(y)| + 2);
    LocatedItemsInLine([y, z], line, col + |ShowAst(x)| + 1);
    LocatedItemsInLine([x, y, z], line, col);
  }

  /** A one-argument form on one line, in terms of the rendering of its parts. */
  lemma LocatedNode1(info: Info, hinfo: Info, name: string, x: Ast, line: nat, col: nat)
    requires '\n' !in name && '\n' !in ShowAst(x)
    requires hinfo == Info(line, col + 1 + |name|)
    requires Located(x, Info(line, col + 2 + |name|)) == x
    requires info == Info(line, col + |name| + |ShowAst(x)| + 3)
    ensures Located(Node(info, hinfo, name, [x]), Info(line, col)) == Node(info, hinfo, name, [x])
  {
    ShowNode1(info, hinfo, name, x);
    LocatedArgs1(x, line, col + 2 + |name|);
    LocatedNode(info, hinfo, name, [x], line, col);
  }

  /** A three-argument form on one line, in terms of the rendering of its parts. */
  lemma LocatedNode3(info: Info, hinfo: Info, name: string, x: Ast, y: Ast, z: Ast, line: nat, col: nat)
    requires '\n' !in name && '\n' !in ShowAst(x) && '\n' !in ShowAst(y) && '\n' !in ShowAst(z)
    requires hinfo == Info(line, col + 1 + |name|)
    requires Located(x, Info(line, col + 2 + |name|)) == x
    requires Located(y, Info(line, col + 3 + |name| + |ShowAst(x)|)) == y
    requires Located(z, Info(line, col + 4 + |name| + |ShowAst(x)| + |ShowAst(y)|)) == z
    requires info == Info(line, col + |name| + |ShowAst(x)| + |ShowAst(y)| + |ShowAst(z)| + 5)
    ensures Located(Node(info, hinfo, name, [x, y, z]), Info(line, col)) == Node(info, hinfo, name, [x, y, z])
  {
    ShowNode3(info, hinfo, name, x, y, z);
    LocatedArgs3(x, y, z, line, col + 2 + |name|);
    LocatedNode(info, hinfo, name, [x, y, z], line, col);
  }

  // ---------------------------------------------------------------------------
  // The test program, rendered and located.
  // ---------------------------------------------------------------------------

  /** The pieces of `(letrec b (a 0) (puts b))`. */
  lemma JoinInner(call: string, puts: string)
    requires call == "(a 0)" && puts == "(puts b)"
    ensures "(" + "letrec" + " " + "b" + " " + call + " " + puts + ")" == "(letrec b (a 0) (puts b))"
  {
  }

  /** The pieces of the test's text. */
  lemma JoinProgram(inner: string)
    requires inner == "(letrec b (a 0) (puts b))"
    ensures "(" + "let" + " " + "a" + " " + "0" + " " + inner + ")" == CompilerTestText
  {
  }

  /** The rendering of `(a 0)`. */
  lemma ShowCall()
    ensures ShowAst(TestCall()) == "(a 0)"
  {
    var zero := Num(1, 24, 0);
    assert ShowAst(zero) == "0";
    ShowNode1(Info(1, 25), Info(1, 22), "a", zero);
  }

  /** `(a 0)`, rendered from column `col`, which is 20. */
  lemma LocatedCall(col: nat)
    requires col == 20
    ensures Located(TestCall(), Info(1, col)) == TestCall()
  {
    var zero := Num(1, 24, 0);
    assert ShowAst(zero) == "0";
    LocatedInLine(zero, 1, col + 3);
    LocatedNode1(Info(1, 25), Info(1, 22), "a", zero, 1, col);
  }

  /** The rendering of `(puts b)`. */
  lemma ShowPuts()
    ensures ShowAst(TestPuts()) == "(puts b)"
  {
    ShowNode1(Info(1, 34), Info(1, 31), "puts", At(1, 33, "b"));
  }

  /** `(puts b)`, rendered from column `col`, which is 26. */
  lemma LocatedPuts(col: nat)
    requires col == 26
    ensures Located(TestPuts(), Info(1, col)) == TestPuts()
  {
    var b := At(1, 33, "b");
    LocatedInLine(b, 1, col + 6);
    LocatedNode1(Info(1, 34), Info(1, 31), "puts", b, 1, col);
  }

  /** The rendering of `(letrec b (a 0) (puts b))`. */
  lemma ShowInner()
    ensures ShowAst(TestInner()) == "(letrec b (a 0) (puts b))"
  {
    ShowCall();
    ShowPuts();
    ShowNode3(Info(1, 35), Info(1, 17), "letrec", At(1, 19, "b"), TestCall(), TestPuts());
    JoinInner(ShowAst(TestCall()), ShowAst(TestPuts()));
  }

  /** A `letrec` form holding a call and a `puts`, each rendered and located as in the test. */
  lemma LocatedLetrec(call: Ast, puts: Ast, col: nat)
    requires ShowAst(call) == "(a 0)" && Located(call, Info(1, col + 10)) == call
    requires ShowAst(puts) == "(puts b)" && Located(puts, Info(1, col + 16)) == puts
    ensures var inner := Node(Info(1, col + 25), Info(1, col + 7), "letrec", [At(1, col + 9, "b"), call, puts]);
      Located(inner, Info(1, col)) == inner
  {
    var b := At(1, col + 9, "b");
    LocatedInLine(b, 1, col + 8);
    LocatedNode3(Info(1, col + 25), Info(1, col + 7), "letrec", b, call, puts, 1, col);
  }

  /** `(letrec b (a 0) (puts b))` is 25 characters with no newline. */
  lemma InnerWidth(text: string)
    requires text == "(letrec b (a 0) (puts b))"
    ensures '\n' !in text && |text| == 25
  {
  }

  /** The rendering of `(letrec b (a 0) (puts b))` is 25 characters on one line. */
  lemma InnerInLine()
    ensures '\n' !in ShowAst(TestInner()) && |ShowAst(TestInner())| == 25
  {
    ShowInner();
    InnerWidth(ShowAst(TestInner()));
  }

  /** `(letrec b (a 0) (puts b))`, rendered from column `col`, which is 10. */
  lemma LocatedInner(col: nat)
    requires col == 10
    ensures Located(TestInner(), Info(1, col)) == TestInner()
  {
    ShowCall();
    ShowPuts();
    LocatedCall(col + 10);
    LocatedPuts(col + 16);
    LocatedLetrec(TestCall(), TestPuts(), col);
  }

  /** The rendering of the test program is the test's text. */
  lemma ShowTestProgram()
    ensures ShowAst(TestProgram()) == CompilerTestText
  {
    var zero := Num(1, 9, 0);
    assert ShowAst(zero) == "0";
    ShowInner();
    ShowNode3(Info(1, 36), Info(1, 5), "let", At(1, 7, "a"), zero, TestInner());
    JoinProgram(ShowAst(TestInner()));
  }

  /** A `let` form binding `a` to 0 around a form rendered and located as in the test. */
  lemma LocatedLet(inner: Ast, col: nat)
    requires '\n' !in ShowAst(inner) && |ShowAst(inner)| == 25 && Located(inner, Info(1, col + 9)) == inner
    ensures var program := Node(Info(1, col + 35), Info(1, col + 4), "let", [At(1, col + 6, "a"), Num(1, col + 8, 0), inner]);
      Located(program, Info(1, col)) == program
  {
    var a, zero := At(1, col + 6, "a"), Num(1, col + 8, 0);
    assert ShowAst(zero) == "0";
    LocatedInLine(a, 1, col + 5);
    LocatedInLine(zero, 1, col + 7);
    LocatedNode3(Info(1, col + 35), Info(1, col + 4), "let", a, zero, inner, 1, col);
  }

  /** The test program, rendered from the start of the text, is where the reader puts it. */
  lemma LocatedTestProgram()
    ensures Located(TestProgram(), Start) == TestProgram()
  {
    InnerInLine();
    LocatedInner(10);
    LocatedLet(TestInner(), 1);
  }

  /** Every word of the test program is an identifier and every number is non-negative. */
  lemma TestProgramReadable()
    ensures Readable(TestProgram())
  {
    assert TokenText(IdTok, "a") && TokenText(IdTok, "b");
    assert TokenText(IdTok, "let") && TokenText(IdTok, "letrec") && TokenText(IdTok, "puts");
    assert Readable(TestCall()) && Readable(TestPuts());
    assert Readable(TestInner());
  }

  // ---------------------------------------------------------------------------
  // The test.
  // ---------------------------------------------------------------------------

  /** `Parser::parse` of the test's text gives the test program, at the reader's positions. */
  lemma ReadTestProgram(intended: bool)
    ensures ParseText(CompilerTestText, intended) == Success(TestProgram())
  {
    TestProgramReadable();
    ReadShown(TestProgram(), intended);
    ShowTestProgram();
    LocatedTestProgram();
  }

  /**
   * tests/compiler_test.rs: the test's text reads and compiles, and the code
   * equals, ignoring positions, `LDC 0, LET a, LDC 0, ARGS 1, LD a, AP,
   * LET b, LD b, PUTS`. The call `(a 0)` is an `AP` because `a` is bound by
   * `let`, not `letrec`.
   */
  lemma CompilerTestProgram()
    ensures ParseText(CompilerTestText, false).Success?
    ensures CompileProgram(ParseText(CompilerTestText, false).value).Success?
    ensures CodeEq(CompileProgram(ParseText(CompilerTestText, false).value).value, ExpectedCode())
  {
    ReadTestProgram(false);
    TestProgramCode();
    CodeEqElementwise(CompileProgram(TestProgram()).value, ExpectedCode());
  }
}
