/**
 * The SECD virtual machine (src/vm.rs). The machine state is four registers,
 * Stack, Env, Code and Dump, plus the log of values `PUTS` has printed. Every
 * instruction is a transition `Exec` on that state; the class `Secd` keeps the
 * registers as fields and each of its handlers is proved against `Exec`.
 */
module Vm {
  import opened Wrappers
  import opened Data

  /** The state of the machine: the registers of `SECD`, and the values printed so far. */
  datatype Machine = Machine(stack: seq<Lisp>, env: Env, code: Code, dump: seq<DumpOp>, out: seq<Lisp>)

  datatype VmFault =
    | StackEmpty(op: string)       // "<OP>: stack is empty"
    | Unbound(id: string)          // "LD: found <id>"
    | ExpectedInt(op: string)      // "ADD: expected int", "SUB: expected int"
    | ExpectedCons(op: string)     // "CAR: expected Cons", "CDR: expected Cons"
    | ExpectedClosure(op: string)  // "AP: expected Closure", "RAP: expected Closure"
    | ExpectedList(op: string)     // "AP: expected List", "RAP: expected List"
    | ExpectedBool                 // "SEL: expected bool"
    | DumpEmpty(op: string)        // "RET: dump is empty", "JOIN: dump is empty"
    | ExpectedDumpSel              // "JOIN: expected DumpSEL"
    | ArgsShort(n: nat)            // "ARGS: <n>"
    | PutsEmpty                    // "PUTS: expected args"
    | ArgCount(op: string)         // fewer arguments than parameters (the source indexes out of range)
    | IntOverflow(op: string)      // an i32 sum or difference out of range (the source panics)
    | NoResult                     // the program ended with an empty stack (the source unwraps None)

  /** A VM error, reported as `line:col:vm error: message` at the failing instruction. */
  datatype VmError = VmError(info: Info, fault: VmFault)

  function Top<T>(s: seq<T>): T
    requires s != []
  {
    s[|s| - 1]
  }

  function Pop<T>(s: seq<T>): seq<T>
    requires s != []
  {
    s[..|s| - 1]
  }

  predicate InI32(n: int)
  {
    I32Min <= n <= I32Max
  }

  // ---------------------------------------------------------------------------
  // One transition per instruction. `m` is the state after the instruction has
  // been removed from the front of the code register.
  // ---------------------------------------------------------------------------

  /** `run_let`: bind the popped value in the current environment. */
  function ExecLet(info: Info, id: string, m: Machine): Result<Machine, VmError>
  {
    if m.stack == [] then Failure(VmError(info, StackEmpty("LET")))
    else Success(m.(stack := Pop(m.stack), env := m.env[id := Top(m.stack)]))
  }

  /** `run_ld`: push the value bound to `id`. */
  function ExecLd(info: Info, id: string, m: Machine): Result<Machine, VmError>
  {
    if id in m.env then Success(m.(stack := m.stack + [m.env[id]]))
    else Failure(VmError(info, Unbound(id)))
  }

  /** `run_ldc`: push the constant. */
  function ExecLdc(v: Lisp, m: Machine): Machine
  {
    m.(stack := m.stack + [v])
  }

  /** `run_ldf`: push a closure over a snapshot of the current environment. */
  function ExecLdf(params: seq<string>, body: Code, m: Machine): Machine
  {
    m.(stack := m.stack + [Closure(params, body, m.env)])
  }

  /** Bind the parameters to the argument values in order, over `env`; a later duplicate wins. */
  function Bind(env: Env, params: seq<string>, vals: seq<Lisp>): Env
    requires |params| <= |vals|
    decreases |params|
  {
    if params == [] then env
    else Bind(env, params[..|params| - 1], vals)[params[|params| - 1] := vals[|params| - 1]]
  }

  /**
   * `run_ap` and `run_rap`: pop a closure and then an argument list, save the
   * rest of the caller's state in a `DumpAP` frame, and enter the body with an
   * empty stack. `AP` runs the body in the closure's environment with the
   * parameters bound; `RAP` runs it in the caller's environment extended by
   * that one.
   */
  function ExecCall(info: Info, recursive: bool, m: Machine): Result<Machine, VmError>
  {
    var name := if recursive then "RAP" else "AP";
    if m.stack == [] then Failure(VmError(info, StackEmpty(name)))
    else
      match Top(m.stack)
      case Closure(params, body, cenv) =>
        var rest := Pop(m.stack);
        if rest == [] then Failure(VmError(info, StackEmpty(name)))
        else
          (match Top(rest)
           case List(vals) =>
             if |vals| < |params| then Failure(VmError(info, ArgCount(name)))
             else
               var callee := Bind(cenv, params, vals);
               Success(Machine([], if recursive then m.env + callee else callee, body,
                 m.dump + [DumpAP(Pop(rest), m.env, m.code)], m.out))
           case _ => Failure(VmError(info, ExpectedList(name))))
      case _ => Failure(VmError(info, ExpectedClosure(name)))
  }

  /** `run_ret`: pop the result and a `DumpAP` frame, restore the caller, push the result. */
  function ExecRet(info: Info, m: Machine): Result<Machine, VmError>
  {
    if m.stack == [] then Failure(VmError(info, StackEmpty("RET")))
    else if m.dump == [] || !Top(m.dump).DumpAP? then Failure(VmError(info, DumpEmpty("RET")))
    else
      var frame := Top(m.dump);
      Success(Machine(frame.stack + [Top(m.stack)], frame.env, frame.code, Pop(m.dump), m.out))
  }

  /** `run_args`: replace the top `n` values by one list holding them in push order. */
  function ExecArgs(info: Info, n: nat, m: Machine): Result<Machine, VmError>
  {
    if |m.stack| < n then Failure(VmError(info, ArgsShort(n)))
    else Success(m.(stack := m.stack[..|m.stack| - n] + [Lisp.List(m.stack[|m.stack| - n..])]))
  }

  /** `run_puts`: print the top value without popping it. */
  function ExecPuts(info: Info, m: Machine): Result<Machine, VmError>
  {
    if m.stack == [] then Failure(VmError(info, PutsEmpty))
    else Success(m.(out := m.out + [Top(m.stack)]))
  }

  /** `run_sel`: pop a boolean, save the rest of the code in a `DumpSEL` frame, run the chosen arm. */
  function ExecSel(info: Info, thenCode: Code, elseCode: Code, m: Machine): Result<Machine, VmError>
  {
    if m.stack == [] then Failure(VmError(info, StackEmpty("SEL")))
    else
      match Top(m.stack)
      case True => Success(m.(stack := Pop(m.stack), code := thenCode, dump := m.dump + [DumpSEL(m.code)]))
      case False => Success(m.(stack := Pop(m.stack), code := elseCode, dump := m.dump + [DumpSEL(m.code)]))
      case _ => Failure(VmError(info, ExpectedBool))
  }

  /** `run_join`: pop a `DumpSEL` frame and continue with the code it saved. */
  function ExecJoin(info: Info, m: Machine): Result<Machine, VmError>
  {
    if m.dump == [] then Failure(VmError(info, DumpEmpty("JOIN")))
    else
      match Top(m.dump)
      case DumpSEL(c) => Success(m.(code := c, dump := Pop(m.dump)))
      case _ => Failure(VmError(info, ExpectedDumpSel))
  }

  /** `run_eq`: pop two values and push whether they are equal. */
  function ExecEq(info: Info, m: Machine): Result<Machine, VmError>
  {
    if |m.stack| < 2 then Failure(VmError(info, StackEmpty("EQ")))
    else
      var a := m.stack[|m.stack| - 1];
      var b := m.stack[|m.stack| - 2];
      Success(m.(stack := m.stack[..|m.stack| - 2] + [if LispEq(a, b) then True else False]))
  }

  /**
   * `run_add` and `run_sub`: pop `a`, then `b`, both integers, and push
   * `b + a` or `b - a`. The type of the top value is checked before the second
   * value is popped.
   */
  function ExecArith(info: Info, subtract: bool, m: Machine): Result<Machine, VmError>
  {
    var name := if subtract then "SUB" else "ADD";
    if m.stack == [] then Failure(VmError(info, StackEmpty(name)))
    else if !Top(m.stack).Int? then Failure(VmError(info, ExpectedInt(name)))
    else if |m.stack| < 2 then Failure(VmError(info, StackEmpty(name)))
    else if !m.stack[|m.stack| - 2].Int? then Failure(VmError(info, ExpectedInt(name)))
    else
      var a := Top(m.stack).n;
      var b := m.stack[|m.stack| - 2].n;
      var r := if subtract then b - a else b + a;
      if !InI32(r) then Failure(VmError(info, IntOverflow(name)))
      else Success(m.(stack := m.stack[..|m.stack| - 2] + [Lisp.Int(r)]))
  }

  /** `run_cons`: pop `a`, then `b`, push `Cons(b, a)`. */
  function ExecCons(info: Info, m: Machine): Result<Machine, VmError>
  {
    if |m.stack| < 2 then Failure(VmError(info, StackEmpty("CONS")))
    else Success(m.(stack := m.stack[..|m.stack| - 2] + [Cons(m.stack[|m.stack| - 2], m.stack[|m.stack| - 1])]))
  }

  /** `run_car` and `run_cdr`: replace a cons cell on top by its head or its tail. */
  function ExecProject(info: Info, tail: bool, m: Machine): Result<Machine, VmError>
  {
    var name := if tail then "CDR" else "CAR";
    if m.stack == [] then Failure(VmError(info, StackEmpty(name)))
    else
      match Top(m.stack)
      case Cons(h, t) => Success(m.(stack := Pop(m.stack) + [if tail then t else h]))
      case _ => Failure(VmError(info, ExpectedCons(name)))
  }

  /** The `match` in `run_`: execute one instruction. */
  function Exec(c: CodeOpInfo, m: Machine): Result<Machine, VmError>
  {
    match c.op
    case LET(id) => ExecLet(c.info, id, m)
    case LD(id) => ExecLd(c.info, id, m)
    case LDC(v) => Success(ExecLdc(v, m))
    case LDF(params, body) => Success(ExecLdf(params, body, m))
    case RET => ExecRet(c.info, m)
    case AP => ExecCall(c.info, false, m)
    case RAP => ExecCall(c.info, true, m)
    case ARGS(n) => ExecArgs(c.info, n, m)
    case PUTS => ExecPuts(c.info, m)
    case SEL(t, f) => ExecSel(c.info, t, f, m)
    case JOIN => ExecJoin(c.info, m)
    case EQ => ExecEq(c.info, m)
    case ADD => ExecArith(c.info, false, m)
    case SUB => ExecArith(c.info, true, m)
    case CONS => ExecCons(c.info, m)
    case CAR => ExecProject(c.info, false, m)
    case CDR => ExecProject(c.info, true, m)
  }

  /**
   * One iteration of the loop in `run_`: remove the first instruction and
   * execute it. A machine with no code left has stopped and stays as it is.
   */
  function Step(m: Machine): Result<Machine, VmError>
  {
    if m.code == [] then Success(m) else Exec(m.code[0], m.(code := m.code[1..]))
  }

  /** `n` iterations of the loop. */
  function Steps(m: Machine, n: nat): Result<Machine, VmError>
    decreases n
  {
    if n == 0 then Success(m)
    else
      match Step(m)
      case Failure(e) => Failure(e)
      case Success(m1) => Steps(m1, n - 1)
  }

  /** How `run_` ends within a budget of steps. */
  datatype Halt =
    | Halted(final: Machine)     // the code register became empty
    | Crashed(error: VmError)    // an instruction failed
    | OutOfFuel(last: Machine)   // the budget ran out first

  /** `run_` with at most `fuel` iterations of its loop. */
  function RunFor(m: Machine, fuel: nat): Halt
    decreases fuel
  {
    if m.code == [] then Halted(m)
    else if fuel == 0 then OutOfFuel(m)
    else
      match Step(m)
      case Failure(e) => Crashed(e)
      case Success(m1) => RunFor(m1, fuel - 1)
  }

  /** `run`: `run_`, then the value on top of the stack. `None` when the budget ran out. */
  function Evaluate(m: Machine, fuel: nat): Option<Result<Lisp, VmError>>
  {
    match RunFor(m, fuel)
    case OutOfFuel(_) => None
    case Crashed(e) => Some(Failure(e))
    case Halted(f) => if f.stack == [] then Some(Failure(VmError(NoInfo, NoResult))) else Some(Success(Top(f.stack)))
  }

  /** `SECD::new(code)`: everything empty but the code. */
  function Load(c: Code): Machine
  {
    Machine([], map[], c, [], [])
  }

  // ---------------------------------------------------------------------------
  // The machine object.
  // ---------------------------------------------------------------------------

  class Secd {
    var stack: seq<Lisp>
    var env: Env
    var code: Code
    var dump: seq<DumpOp>
    var out: seq<Lisp>

    function State(): Machine
      reads this
    {
      Machine(stack, env, code, dump, out)
    }

    /**
     * What a handler promises relative to its transition `g`: on success the
     * registers are g's new state, on failure the error is g's (the caller
     * then abandons the machine).
     */
    ghost predicate Did(g: Result<Machine, VmError>, r: Outcome<VmError>)
      reads this
    {
      match g
      case Success(m) => r == Pass && State() == m
      case Failure(e) => r == Fail(e)
    }

    /** `SECD::new`. */
    constructor (c: Code)
      ensures State() == Load(c)
    {
      stack := [];
      env := map[];
      code := c;
      dump := [];
      out := [];
    }

    /** `run`, with a budget of `fuel` loop iterations. */
    method Run(fuel: nat) returns (r: Option<Result<Lisp, VmError>>)
      modifies this
      ensures r == Evaluate(old(State()), fuel)
    {
      var h := RunLoop(fuel);
      match h {
        case OutOfFuel(_) =>
          r := None;
        case Crashed(e) =>
          r := Some(Failure(e));
        case Halted(_) =>
          if stack == [] {
            r := Some(Failure(VmError(NoInfo, NoResult)));
          } else {
            r := Some(Success(stack[|stack| - 1]));
          }
      }
    }

    /** `run_`: remove and execute the first instruction until the code is empty or one fails. */
    method RunLoop(fuel: nat) returns (h: Halt)
      modifies this
      ensures h == RunFor(old(State()), fuel)
      ensures h.Halted? ==> State() == h.final
    {
      var budget := fuel;
      while code != [] && budget > 0
        invariant RunFor(State(), budget) == RunFor(old(State()), fuel)
        decreases budget
      {
        ghost var before := State();
        var c := code[0];
        code := code[1..];
        var o := Execute(c);
        if o.Fail? {
          return Crashed(o.error);
        }
        budget := budget - 1;
      }
      if code == [] {
        h := Halted(State());
      } else {
        h := OutOfFuel(State());
      }
    }

    /** The `match` in `run_`. */
    method Execute(c: CodeOpInfo) returns (r: Outcome<VmError>)
      modifies this
      ensures Did(Exec(c, old(State())), r)
    {
      match c.op {
        case LET(id) => r := RunLet(c.info, id);
        case LD(id) => r := RunLd(c.info, id);
        case LDC(v) => RunLdc(v); r := Pass;
        case LDF(params, body) => RunLdf(params, body); r := Pass;
        case RET => r := RunRet(c.info);
        case AP => r := RunAp(c.info);
        case RAP => r := RunRap(c.info);
        case ARGS(n) => r := RunArgs(c.info, n);
        case PUTS => r := RunPuts(c.info);
        case SEL(t, f) => r := RunSel(c.info, t, f);
        case JOIN => r := RunJoin(c.info);
        case EQ => r := RunEq(c.info);
        case ADD => r := RunAdd(c.info);
        case SUB => r := RunSub(c.info);
        case CONS => r := RunCons(c.info);
        case CAR => r := RunCar(c.info);
        case CDR => r := RunCdr(c.info);
      }
    }

    method RunLet(info: Info, id: string) returns (r: Outcome<VmError>)
      modifies this
      ensures Did(ExecLet(info, id, old(State())), r)
    {
      if stack == [] {
        return Fail(VmError(info, StackEmpty("LET")));
      }
      var v := stack[|stack| - 1];
      stack := stack[..|stack| - 1];
      env := env[id := v];
      r := Pass;
    }

    method RunLd(info: Info, id: string) returns (r: Outcome<VmError>)
      modifies this
      ensures Did(ExecLd(info, id, old(State())), r)
    {
      if id !in env {
        return Fail(VmError(info, Unbound(id)));
      }
      stack := stack + [env[id]];
      r := Pass;
    }

    method RunLdc(v: Lisp)
      modifies this
      ensures State() == ExecLdc(v, old(State()))
    {
      stack := stack + [v];
    }

    method RunLdf(params: seq<string>, body: Code)
      modifies this
      ensures State() == ExecLdf(params, body, old(State()))
    {
      stack := stack + [Closure(params, body, env)];
    }

    method RunAp(info: Info) returns (r: Outcome<VmError>)
      modifies this
      ensures Did(ExecCall(info, false, old(State())), r)
    {
      r := RunCall(info, false);
    }

    method RunRap(info: Info) returns (r: Outcome<VmError>)
      modifies this
      ensures Did(ExecCall(info, true, old(State())), r)
    {
      r := RunCall(info, true);
    }

    /** The body `run_ap` and `run_rap` share; they differ only in the environment of the callee. */
    method RunCall(info: Info, recursive: bool) returns (r: Outcome<VmError>)
      modifies this
      ensures Did(ExecCall(info, recursive, old(State())), r)
    {
      var name := if recursive then "RAP" else "AP";
      if stack == [] {
        return Fail(VmError(info, StackEmpty(name)));
      }
      var closure := stack[|stack| - 1];
      stack := stack[..|stack| - 1];
      if !closure.Closure? {
        return Fail(VmError(info, ExpectedClosure(name)));
      }
      if stack == [] {
        return Fail(VmError(info, StackEmpty(name)));
      }
      var list := stack[|stack| - 1];
      stack := stack[..|stack| - 1];
      if !list.List? {
        return Fail(VmError(info, ExpectedList(name)));
      }
      var params := closure.params;
      var vals := list.elems;
      if |vals| < |params| {
        return Fail(VmError(info, ArgCount(name)));
      }
      var callee := closure.env;
      for i := 0 to |params|
        invariant callee == Bind(closure.env, params[..i], vals)
      {
        assert params[..i + 1][..i] == params[..i];
        callee := callee[params[i] := vals[i]];
      }
      assert params[..|params|] == params;
      dump := dump + [DumpAP(stack, env, code)];
      stack := [];
      if recursive {
        env := env + callee;
      } else {
        env := callee;
      }
      code := closure.body;
      r := Pass;
    }

    method RunRet(info: Info) returns (r: Outcome<VmError>)
      modifies this
      ensures Did(ExecRet(info, old(State())), r)
    {
      if stack == [] {
        return Fail(VmError(info, StackEmpty("RET")));
      }
      var v := stack[|stack| - 1];
      stack := stack[..|stack| - 1];
      if dump == [] {
        return Fail(VmError(info, DumpEmpty("RET")));
      }
      var frame := dump[|dump| - 1];
      dump := dump[..|dump| - 1];
      if !frame.DumpAP? {
        return Fail(VmError(info, DumpEmpty("RET")));
      }
      stack := frame.stack;
      env := frame.env;
      code := frame.code;
      stack := stack + [v];
      r := Pass;
    }

    /** `run_args`: pop `n` values one at a time, each in front of the ones popped before it. */
    method RunArgs(info: Info, n: nat) returns (r: Outcome<VmError>)
      modifies this
      ensures Did(ExecArgs(info, n, old(State())), r)
    {
      ghost var s0 := stack;
      var ls: seq<Lisp> := [];
      for k := 0 to n
        invariant k <= |s0|
        invariant stack == s0[..|s0| - k] && ls == s0[|s0| - k..]
        invariant env == old(env) && code == old(code) && dump == old(dump) && out == old(out)
      {
        if stack == [] {
          return Fail(VmError(info, ArgsShort(n)));
        }
        var a := stack[|stack| - 1];
        stack := stack[..|stack| - 1];
        ls := [a] + ls;
      }
      stack := stack + [Lisp.List(ls)];
      r := Pass;
    }

    method RunPuts(info: Info) returns (r: Outcome<VmError>)
      modifies this
      ensures Did(ExecPuts(info, old(State())), r)
    {
      if stack == [] {
        return Fail(VmError(info, PutsEmpty));
      }
      out := out + [stack[|stack| - 1]];
      r := Pass;
    }

    method RunSel(info: Info, thenCode: Code, elseCode: Code) returns (r: Outcome<VmError>)
      modifies this
      ensures Did(ExecSel(info, thenCode, elseCode, old(State())), r)
    {
      if stack == [] {
        return Fail(VmError(info, StackEmpty("SEL")));
      }
      var b := stack[|stack| - 1];
      stack := stack[..|stack| - 1];
      var next: Code;
      match b {
        case True => next := thenCode;
        case False => next := elseCode;
        case _ => return Fail(VmError(info, ExpectedBool));
      }
      dump := dump + [DumpSEL(code)];
      code := next;
      r := Pass;
    }

    method RunJoin(info: Info) returns (r: Outcome<VmError>)
      modifies this
      ensures Did(ExecJoin(info, old(State())), r)
    {
      if dump == [] {
        return Fail(VmError(info, DumpEmpty("JOIN")));
      }
      var d := dump[|dump| - 1];
      dump := dump[..|dump| - 1];
      match d {
        case DumpSEL(c) =>
          code := c;
          r := Pass;
        case _ =>
          r := Fail(VmError(info, ExpectedDumpSel));
      }
    }

    method RunEq(info: Info) returns (r: Outcome<VmError>)
      modifies this
      ensures Did(ExecEq(info, old(State())), r)
    {
      if stack == [] {
        return Fail(VmError(info, StackEmpty("EQ")));
      }
      var a := stack[|stack| - 1];
      stack := stack[..|stack| - 1];
      if stack == [] {
        return Fail(VmError(info, StackEmpty("EQ")));
      }
      var b := stack[|stack| - 1];
      stack := stack[..|stack| - 1];
      stack := stack + [if EraseLisp(a) == EraseLisp(b) then True else False];
      r := Pass;
    }

    method RunAdd(info: Info) returns (r: Outcome<VmError>)
      modifies this
      ensures Did(ExecArith(info, false, old(State())), r)
    {
      r := RunArith(info, false);
    }

    method RunSub(info: Info) returns (r: Outcome<VmError>)
      modifies this
      ensures Did(ExecArith(info, true, old(State())), r)
    {
      r := RunArith(info, true);
    }

    /** The body `run_add` and `run_sub` share. */
    method RunArith(info: Info, subtract: bool) returns (r: Outcome<VmError>)
      modifies this
      ensures Did(ExecArith(info, subtract, old(State())), r)
    {
      var name := if subtract then "SUB" else "ADD";
      if stack == [] {
        return Fail(VmError(info, StackEmpty(name)));
      }
      var a := stack[|stack| - 1];
      stack := stack[..|stack| - 1];
      if !a.Int? {
        return Fail(VmError(info, ExpectedInt(name)));
      }
      if stack == [] {
        return Fail(VmError(info, StackEmpty(name)));
      }
      var b := stack[|stack| - 1];
      stack := stack[..|stack| - 1];
      if !b.Int? {
        return Fail(VmError(info, ExpectedInt(name)));
      }
      var v := if subtract then b.n - a.n else b.n + a.n;
      if !(I32Min <= v <= I32Max) {
        return Fail(VmError(info, IntOverflow(name)));
      }
      stack := stack + [Lisp.Int(v)];
      r := Pass;
    }

    method RunCons(info: Info) returns (r: Outcome<VmError>)
      modifies this
      ensures Did(ExecCons(info, old(State())), r)
    {
      if stack == [] {
        return Fail(VmError(info, StackEmpty("CONS")));
      }
      var a := stack[|stack| - 1];
      stack := stack[..|stack| - 1];
      if stack == [] {
        return Fail(VmError(info, StackEmpty("CONS")));
      }
      var b := stack[|stack| - 1];
      stack := stack[..|stack| - 1];
      stack := stack + [Cons(b, a)];
      r := Pass;
    }

    method RunCar(info: Info) returns (r: Outcome<VmError>)
      modifies this
      ensures Did(ExecProject(info, false, old(State())), r)
    {
      r := RunProject(info, false);
    }

    method RunCdr(info: Info) returns (r: Outcome<VmError>)
      modifies this
      ensures Did(ExecProject(info, true, old(State())), r)
    {
      r := RunProject(info, true);
    }

    /** The body `run_car` and `run_cdr` share. */
    method RunProject(info: Info, tail: bool) returns (r: Outcome<VmError>)
      modifies this
      ensures Did(ExecProject(info, tail, old(State())), r)
    {
      var name := if tail then "CDR" else "CAR";
      if stack == [] {
        return Fail(VmError(info, StackEmpty(name)));
      }
      var a := stack[|stack| - 1];
      stack := stack[..|stack| - 1];
      match a {
        case Cons(h, t) =>
          stack := stack + [if tail then t else h];
          r := Pass;
        case _ =>
          r := Fail(VmError(info, ExpectedCons(name)));
      }
    }
  }
}
