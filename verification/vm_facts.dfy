/**
 * What the instructions of the SECD machine guarantee, alone and in the
 * brackets the compiler emits them in: the frame of each transition, the
 * parameter binding of calls, the `CONS`/`CAR`/`CDR` round trip, the
 * `SEL`/`JOIN` and `AP`/`RET` brackets, the `RAP` environment merge, and how
 * stepping relates to the budgeted run loop.
 */
module VmFacts {
  import opened Wrappers
  import opened Data
  import opened Vm

  // ---------------------------------------------------------------------------
  // Stepping and the run loop.
  // ---------------------------------------------------------------------------

  /** Running `a` steps and then `b` more is running `a + b` steps. */
  lemma {:induction false} StepsAdd(m: Machine, a: nat, b: nat)
    ensures Steps(m, a + b) ==
      match Steps(m, a)
      case Failure(e) => Failure(e)
      case Success(m1) => Steps(m1, b)
    decreases a
  {
    if a > 0 {
      match Step(m)
      case Failure(_) =>
      case Success(m1) =>
        StepsAdd(m1, a - 1, b);
    }
  }

  /** A machine with no code left stays as it is. */
  lemma {:induction false} StepsStopped(m: Machine, n: nat)
    requires m.code == []
    ensures Steps(m, n) == Success(m)
  {
    if n > 0 {
      StepsStopped(m, n - 1);
    }
  }

  /**
   * The run loop agrees with stepping: once `n` steps end with no code left,
   * or fail, every budget of at least `n` iterations ends the same way.
   */
  lemma {:induction false} RunForSteps(m: Machine, n: nat, fuel: nat)
    requires n <= fuel
    ensures Steps(m, n).Success? && Steps(m, n).value.code == [] ==> RunFor(m, fuel) == Halted(Steps(m, n).value)
    ensures Steps(m, n).Failure? ==> RunFor(m, fuel) == Crashed(Steps(m, n).error)
    decreases n
  {
    if m.code == [] {
      StepsStopped(m, n);
    } else if n > 0 {
      match Step(m)
      case Failure(_) =>
      case Success(m1) =>
        RunForSteps(m1, n - 1, fuel - 1);
    }
  }

  /** More budget never changes a run that already finished. */
  lemma {:induction false} RunForMonotone(m: Machine, fuel: nat, more: nat)
    requires fuel <= more
    requires !RunFor(m, fuel).OutOfFuel?
    ensures RunFor(m, more) == RunFor(m, fuel)
    decreases fuel
  {
    if m.code != [] && fuel > 0 {
      match Step(m)
      case Failure(_) =>
      case Success(m1) =>
        RunForMonotone(m1, fuel - 1, more - 1);
    }
  }

  /** The answer of `run` does not depend on the budget, once the budget suffices. */
  lemma EvaluateMonotone(m: Machine, fuel: nat, more: nat)
    requires fuel <= more
    requires Evaluate(m, fuel).Some?
    ensures Evaluate(m, more) == Evaluate(m, fuel)
  {
    RunForMonotone(m, fuel, more);
  }

  // ---------------------------------------------------------------------------
  // Parameter binding.
  // ---------------------------------------------------------------------------

  /** Binding parameters binds exactly the old names and the parameters. */
  lemma {:induction false} BindDomain(env: Env, params: seq<string>, vals: seq<Lisp>)
    requires |params| <= |vals|
    ensures forall k :: k in Bind(env, params, vals) <==> k in env || k in params
    decreases |params|
  {
    if params != [] {
      var n := |params| - 1;
      BindDomain(env, params[..n], vals);
      assert forall k :: k in params <==> k in params[..n] || k == params[n];
    }
  }

  /** Binding parameters keeps every old binding that no parameter shadows. */
  lemma {:induction false} BindKeeps(env: Env, params: seq<string>, vals: seq<Lisp>)
    requires |params| <= |vals|
    ensures forall k :: k in env && k !in params ==> k in Bind(env, params, vals) && Bind(env, params, vals)[k] == env[k]
    decreases |params|
  {
    if params != [] {
      var n := |params| - 1;
      BindKeeps(env, params[..n], vals);
      assert forall k :: k !in params ==> k !in params[..n] && k != params[n];
    }
  }

  /** Binding parameters maps each parameter to the argument at its last position. */
  lemma {:induction false} BindParams(env: Env, params: seq<string>, vals: seq<Lisp>)
    requires |params| <= |vals|
    ensures forall i :: 0 <= i < |params| && params[i] !in params[i + 1..] ==>
      params[i] in Bind(env, params, vals) && Bind(env, params, vals)[params[i]] == vals[i]
    decreases |params|
  {
    if params != [] {
      var n := |params| - 1;
      var front := params[..n];
      BindParams(env, front, vals);
      var inner := Bind(env, front, vals);
      assert Bind(env, params, vals) == inner[params[n] := vals[n]];
      forall i | 0 <= i < |params| && params[i] !in params[i + 1..]
        ensures params[i] in Bind(env, params, vals) && Bind(env, params, vals)[params[i]] == vals[i]
      {
        if i < n {
          assert params[i + 1..][n - i - 1] == params[n];
          assert front[i] == params[i];
          assert front[i] !in front[i + 1..] by {
            forall j | i + 1 <= j < n ensures front[j] != params[i] {
              assert params[i + 1..][j - i - 1] == front[j];
            }
          }
          assert params[i] in inner && inner[params[i]] == vals[i];
        }
      }
    }
  }

  // ---------------------------------------------------------------------------
  // Single instructions.
  // ---------------------------------------------------------------------------

  /** `LDC`, `LD` and `LDF` push one value and change nothing else; only `LD` can fail, on an unbound name. */
  lemma LoadsPushOne(c: CodeOpInfo, m: Machine)
    requires c.op.LDC? || c.op.LD? || c.op.LDF?
    ensures Exec(c, m).Success? <==> !c.op.LD? || c.op.id in m.env
    ensures c.op.LD? && c.op.id !in m.env ==> Exec(c, m) == Failure(VmError(c.info, Unbound(c.op.id)))
    ensures Exec(c, m).Success? ==>
      var m1 := Exec(c, m).value;
      |m1.stack| == |m.stack| + 1 && m1.stack[..|m.stack|] == m.stack &&
      m1.env == m.env && m1.code == m.code && m1.dump == m.dump && m1.out == m.out
    ensures Exec(c, m).Success? ==>
      Top(Exec(c, m).value.stack) ==
        match c.op
        case LDC(v) => v
        case LD(id) => m.env[id]
        case LDF(ps, body) => Closure(ps, body, m.env)
  {
  }

  /** `LET` moves the top value into the environment under its name. */
  lemma LetBinds(info: Info, id: string, m: Machine, s: seq<Lisp>, v: Lisp)
    requires m.stack == s + [v]
    ensures ExecLet(info, id, m) == Success(m.(stack := s, env := m.env[id := v]))
  {
    assert Pop(s + [v]) == s;
  }

  /** Pushing `n` values and then `ARGS(n)` leaves one list of them, in push order. */
  lemma ArgsCollect(info: Info, m: Machine, s: seq<Lisp>, vals: seq<Lisp>)
    requires m.stack == s + vals
    ensures ExecArgs(info, |vals|, m) == Success(m.(stack := s + [Lisp.List(vals)]))
  {
    assert (s + vals)[..|s|] == s;
    assert (s + vals)[|s|..] == vals;
  }

  /** `ARGS(n)` fails exactly when fewer than `n` values are on the stack. */
  lemma ArgsShortFails(info: Info, n: nat, m: Machine)
    ensures ExecArgs(info, n, m).Failure? <==> |m.stack| < n
    ensures ExecArgs(info, n, m).Failure? ==> ExecArgs(info, n, m).error == VmError(info, ArgsShort(n))
  {
  }

  /**
   * `ADD` and `SUB` on two integers `x` (pushed first) and `y` push `x + y`
   * or `x - y` in place of both, or report the overflow.
   */
  lemma ArithOnInts(info: Info, subtract: bool, m: Machine, s: seq<Lisp>, x: Int32, y: Int32)
    requires m.stack == s + [Lisp.Int(x), Lisp.Int(y)]
    ensures var r := if subtract then x - y else x + y;
      ExecArith(info, subtract, m) ==
        if InI32(r) then Success(m.(stack := s + [Lisp.Int(r)]))
        else Failure(VmError(info, IntOverflow(if subtract then "SUB" else "ADD")))
  {
    assert (s + [Lisp.Int(x), Lisp.Int(y)])[..|s|] == s;
  }

  /** The error cases of `ADD` and `SUB`, in the order the source checks them. */
  lemma ArithErrors(info: Info, subtract: bool, m: Machine)
    ensures var name := if subtract then "SUB" else "ADD";
      var r := ExecArith(info, subtract, m);
      (m.stack == [] ==> r == Failure(VmError(info, StackEmpty(name)))) &&
      (m.stack != [] && !Top(m.stack).Int? ==> r == Failure(VmError(info, ExpectedInt(name)))) &&
      (|m.stack| == 1 && Top(m.stack).Int? ==> r == Failure(VmError(info, StackEmpty(name)))) &&
      (|m.stack| >= 2 && Top(m.stack).Int? && !m.stack[|m.stack| - 2].Int? ==> r == Failure(VmError(info, ExpectedInt(name))))
    ensures ExecArith(info, subtract, m).Success? ==>
      |ExecArith(info, subtract, m).value.stack| == |m.stack| - 1
  {
  }

  /** `EQ` pushes `True` exactly when the two popped values are equal, positions in code ignored. */
  lemma EqDecides(info: Info, m: Machine, s: seq<Lisp>, x: Lisp, y: Lisp)
    requires m.stack == s + [x, y]
    ensures ExecEq(info, m).Success?
    ensures ExecEq(info, m).value == m.(stack := s + [ExecEq(info, m).value.stack[|s|]])
    ensures ExecEq(info, m).value.stack[|s|] == True <==> LispEq(x, y)
    ensures ExecEq(info, m).value.stack[|s|] == False <==> !LispEq(x, y)
    ensures Plain(x) && Plain(y) ==> (ExecEq(info, m).value.stack[|s|] == True <==> x == y)
  {
    assert (s + [x, y])[..|s|] == s;
    if Plain(x) && Plain(y) {
      PlainLispEq(y, x);
    }
  }

  /** `PUTS` prints the top value and leaves the stack as it is; it fails only on an empty stack. */
  lemma PutsKeepsStack(info: Info, m: Machine)
    ensures ExecPuts(info, m).Failure? <==> m.stack == []
    ensures ExecPuts(info, m).Success? ==>
      ExecPuts(info, m).value.stack == m.stack && ExecPuts(info, m).value.out == m.out + [Top(m.stack)]
  {
  }

  /** `CAR` after `CONS` gives back the value pushed first, `CDR` after `CONS` the value pushed second. */
  lemma ConsCarCdr(m: Machine, s: seq<Lisp>, x: Lisp, y: Lisp, i: Info, j: Info, rest: Code)
    requires m.stack == s + [x, y]
    ensures Steps(m.(code := [CodeOpInfo(i, CONS), CodeOpInfo(j, CAR)] + rest), 2) == Success(m.(stack := s + [x], code := rest))
    ensures Steps(m.(code := [CodeOpInfo(i, CONS), CodeOpInfo(j, CDR)] + rest), 2) == Success(m.(stack := s + [y], code := rest))
  {
    assert (s + [x, y])[..|s|] == s;
    assert Pop(s + [Cons(x, y)]) == s;
    var car := [CodeOpInfo(i, CONS), CodeOpInfo(j, CAR)] + rest;
    var cdr := [CodeOpInfo(i, CONS), CodeOpInfo(j, CDR)] + rest;
    assert car[1..][1..] == rest && cdr[1..][1..] == rest;
    assert Steps(m.(code := car), 2) == Steps(m.(stack := s + [Cons(x, y)], code := car[1..]), 1);
    assert Steps(m.(code := cdr), 2) == Steps(m.(stack := s + [Cons(x, y)], code := cdr[1..]), 1);
  }

  // ---------------------------------------------------------------------------
  // Brackets.
  // ---------------------------------------------------------------------------

  /**
   * `SEL` ... `JOIN`: if the chosen arm, run on the rest of the stack above the
   * `DumpSEL` frame, reaches its `JOIN` with that frame back on top, then the
   * whole conditional resumes the code after the `SEL` with the dump as before.
   */
  lemma {:induction false} SelJoinBracket(m: Machine, i: Info, t: Code, f: Code, rest: Code,
                                          s: seq<Lisp>, b: Lisp, n: nat, j: Info, mid: Machine)
    requires m.code == [CodeOpInfo(i, SEL(t, f))] + rest
    requires m.stack == s + [b] && (b == True || b == False)
    requires Steps(m.(stack := s, code := if b == True then t else f, dump := m.dump + [DumpSEL(rest)]), n) == Success(mid)
    requires mid.code == [CodeOpInfo(j, JOIN)] && mid.dump == m.dump + [DumpSEL(rest)]
    ensures Steps(m, n + 2) == Success(mid.(code := rest, dump := m.dump))
  {
    var entered := m.(stack := s, code := if b == True then t else f, dump := m.dump + [DumpSEL(rest)]);
    assert m.code[1..] == rest;
    assert Pop(s + [b]) == s;
    assert Step(m) == Success(entered);
    StepsAdd(m, 1, n);
    StepsAdd(m, n + 1, 1);
    assert Pop(mid.dump) == m.dump;
    assert Step(mid) == Success(mid.(code := rest, dump := m.dump));
  }

  /**
   * `AP` ... `RET`: if the body, run on an empty stack in the closure's
   * environment with the parameters bound and above the `DumpAP` frame,
   * reaches its `RET` with a result on top and that frame back on top of the
   * dump, then the call leaves the caller's stack with the result pushed, the
   * caller's environment, the code after the `AP` and the caller's dump.
   */
  lemma {:induction false} ApRetBracket(m: Machine, i: Info, rest: Code, s: seq<Lisp>, vals: seq<Lisp>,
                                        params: seq<string>, body: Code, cenv: Env, n: nat, j: Info, mid: Machine)
    requires m.code == [CodeOpInfo(i, AP)] + rest
    requires m.stack == s + [Lisp.List(vals), Closure(params, body, cenv)] && |params| <= |vals|
    requires Steps(Machine([], Bind(cenv, params, vals), body, m.dump + [DumpAP(s, m.env, rest)], m.out), n) == Success(mid)
    requires mid.code == [CodeOpInfo(j, RET)] && mid.stack != [] && mid.dump == m.dump + [DumpAP(s, m.env, rest)]
    ensures Steps(m, n + 2) == Success(Machine(s + [Top(mid.stack)], m.env, rest, m.dump, mid.out))
  {
    var entered := Machine([], Bind(cenv, params, vals), body, m.dump + [DumpAP(s, m.env, rest)], m.out);
    assert m.code[1..] == rest;
    assert Pop(m.stack) == s + [Lisp.List(vals)];
    assert Pop(s + [Lisp.List(vals)]) == s;
    assert Step(m) == Success(entered);
    StepsAdd(m, 1, n);
    StepsAdd(m, n + 1, 1);
    assert mid.code[1..] == [];
    assert Pop(mid.dump) == m.dump;
  }

  /**
   * `RAP` differs from `AP` only in the environment of the callee: the
   * caller's environment extended by the one `AP` would use, whose bindings
   * win. Every name the caller can see stays visible in the body.
   */
  lemma RapEnvMerge(info: Info, m: Machine)
    ensures ExecCall(info, true, m).Success? <==> ExecCall(info, false, m).Success?
    ensures ExecCall(info, true, m).Success? ==>
      var ap := ExecCall(info, false, m).value;
      var rap := ExecCall(info, true, m).value;
      rap == ap.(env := m.env + ap.env) &&
      (forall k :: k in rap.env <==> k in m.env || k in ap.env) &&
      (forall k :: k in ap.env ==> rap.env[k] == ap.env[k]) &&
      (forall k :: k in m.env && k !in ap.env ==> rap.env[k] == m.env[k])
  {
  }

  /**
   * `RAP` ... `RET`: as `AP` ... `RET`, with the body run in the caller's
   * environment extended by the closure's environment and the parameters.
   */
  lemma {:induction false} RapRetBracket(m: Machine, i: Info, rest: Code, s: seq<Lisp>, vals: seq<Lisp>,
                                         params: seq<string>, body: Code, cenv: Env, n: nat, j: Info, mid: Machine)
    requires m.code == [CodeOpInfo(i, RAP)] + rest
    requires m.stack == s + [Lisp.List(vals), Closure(params, body, cenv)] && |params| <= |vals|
    requires Steps(Machine([], m.env + Bind(cenv, params, vals), body, m.dump + [DumpAP(s, m.env, rest)], m.out), n) == Success(mid)
    requires mid.code == [CodeOpInfo(j, RET)] && mid.stack != [] && mid.dump == m.dump + [DumpAP(s, m.env, rest)]
    ensures Steps(m, n + 2) == Success(Machine(s + [Top(mid.stack)], m.env, rest, m.dump, mid.out))
  {
    var entered := Machine([], m.env + Bind(cenv, params, vals), body, m.dump + [DumpAP(s, m.env, rest)], m.out);
    assert m.code[1..] == rest;
    assert Pop(m.stack) == s + [Lisp.List(vals)];
    assert Pop(s + [Lisp.List(vals)]) == s;
    assert Step(m) == Success(entered);
    StepsAdd(m, 1, n);
    StepsAdd(m, n + 1, 1);
    assert mid.code[1..] == [];
    assert Pop(mid.dump) == m.dump;
  }

  /** `JOIN` and `RET` check the kind of the frame on top of the dump. */
  lemma FrameKinds(info: Info, m: Machine)
    ensures ExecJoin(info, m).Failure? <==> m.dump == [] || Top(m.dump).DumpAP?
    ensures m.stack != [] ==> (ExecRet(info, m).Failure? <==> m.dump == [] || Top(m.dump).DumpSEL?)
  {
  }
}
