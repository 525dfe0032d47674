/**
 * `run_lisp`: read a program, compile it, and run the code on a fresh
 * machine. For the rendering of a first-order list, the whole pipeline gives
 * what the reference evaluator gives for the tree as it is read back.
 */
module Pipeline {
  import opened Wrappers
  import opened Data
  import opened Parser
  import opened Compiler
  import opened Vm
  import opened Correctness
  import opened RoundTrip

  /** The stage at which a program fails. */
  datatype LispError =
    | ParseFailed(parse: ParseError)
    | CompileFailed(compile: CompileError)
    | VmFailed(vm: VmError)

  /**
   * Parse, compile and run `src`, with at most `fuel` machine steps (`None`
   * when they run out). The reader reports an excess `)` as `ManyClose`.
   */
  function RunLisp(src: string, fuel: nat): Option<Result<Lisp, LispError>>
  {
    match ParseText(src, true)
    case Failure(e) => Some(Failure(ParseFailed(e)))
    case Success(a) =>
      match CompileProgram(a)
      case Failure(e) => Some(Failure(CompileFailed(e)))
      case Success(c) =>
        match Evaluate(Load(c), fuel)
        case None => None
        case Some(Failure(e)) => Some(Failure(VmFailed(e)))
        case Some(Success(v)) => Some(Success(v))
  }

  /** The `k`-th child of a located list is that child located somewhere. */
  lemma {:induction false} LocatedItemsAt(items: seq<Ast>, info: Info, k: nat) returns (at: Info)
    requires k < |items|
    ensures LocatedItems(items, info)[k] == Located(items[k], at)
    decreases k
  {
    if k == 0 {
      at := info;
    } else {
      at := LocatedItemsAt(items[1..], Advance(info, ShowAst(items[0]) + " "), k - 1);
    }
  }

  /** Positions do not decide whether a tree is first-order. */
  lemma {:induction false} LocatedFirstOrder(a: Ast, info: Info)
    requires FirstOrder(a)
    ensures FirstOrder(Located(a, info))
    decreases a
  {
    if a.sexpr.List? && a.sexpr.items != [] {
      var items := a.sexpr.items;
      var located := LocatedItems(items, Wider(info));
      var head := LocatedItemsAt(items, Wider(info), 0);
      assert located[0].sexpr == items[0].sexpr;
      if |items| > 1 {
        var second := LocatedItemsAt(items, Wider(info), 1);
        assert items[1].sexpr.Atom? ==> located[1].sexpr.Atom?;
      }
      forall k | 1 <= k < |items|
        ensures FirstOrder(located[k])
      {
        var at := LocatedItemsAt(items, Wider(info), k);
        LocatedFirstOrder(items[k], at);
      }
    }
  }

  /**
   * The rendering of a first-order list runs, given enough fuel, to the value
   * or the error the reference evaluator gives for the tree read back.
   */
  lemma RunLispAgrees(a: Ast) returns (fuel: nat)
    requires Readable(a) && a.sexpr.List? && FirstOrder(a)
    ensures FirstOrder(Located(a, Start))
    ensures RunLisp(ShowAst(a), fuel) ==
      match Eval(Located(a, Start), map[], [])
      case Success(d) => Some(Success(d.val))
      case Failure(e) => Some(Failure(VmFailed(e)))
  {
    ReadShown(a, true);
    LocatedFirstOrder(a, Start);
    fuel := ProgramAgrees(Located(a, Start));
  }
}
