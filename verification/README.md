# secd — a model of a small Lisp on an SECD machine

The repository implements a tiny Lisp in Rust. The pipeline has three stages:

- A hand-written reader (`src/parser.rs`) turns source text into an expression tree.
- A compiler (`src/compiler.rs`) turns the tree into instructions for an SECD machine.
- The machine (`src/vm.rs`) runs those instructions. Its registers are the Stack, the Env, the Code and the Dump.

`run_lisp` (`src/lib.rs`) chains the three. The data types are in `src/data.rs`: trees, instructions, dump frames and values.

This project models that core in Dafny and proves properties of the model:

| file | module | models |
|---|---|---|
| `wrappers.dfy` | `Wrappers` | `Option`, `Result` and `Outcome` (a handler's `Ok(())` or error) |
| `data.dfy` | `Data` | the types of `src/data.rs`, info-blind instruction equality, the derived value equality, and both `Display` impls |
| `compiler.dfy` | `Compiler` | the compiler as pure functions `Gen…`, and the class `Compiler` (code buffer and letrec list) proved against them |
| `compiler_facts.dfy` | `CompilerFacts` | dispatch, arity errors, the stack discipline of emitted code, how the letrec list evolves, the code of the compiler test's tree |
| `vm.dfy` | `Vm` | one transition `Exec…` per instruction, the run loop, and the class `Secd` proved against them |
| `vm_facts.dfy` | `VmFacts` | step composition, halting, fuel monotonicity, binding, and what each instruction does |
| `correctness.dfy` | `Correctness` | a reference evaluator for the first-order language, and agreement of compiler plus machine with it |
| `programs.dfy` | `Programs` | the first-order programs of the machine tests, run end to end |
| `parser.dfy` | `Parser` | the lexer (`Scan`) and the parse loop (`Absorb`, `ParseLoop`), and the class `Parser` proved against them |
| `parser_facts.dfy` | `ParserFacts` | the shape of tokens, the excess `)` defect, the token stream `Tokens` and its consumer `Feed`, the lexer test |
| `roundtrip.dfy` | `RoundTrip` | reading back the rendering of a tree gives the tree, at the positions of the rendering |
| `compiler_test.dfy` | `CompilerTest` | the compiler test: its text, read by the reader, is the test's tree, and it compiles to the expected code |
| `pipeline.dfy` | `Pipeline` | `run_lisp`, and its agreement with the evaluator on rendered first-order programs |

The main results:

- **Compiler correctness for the first-order fragment** (`Correctness.Compiled`, `Correctness.ProgramAgrees`). The fragment is constants, variables, `let`, `if`, `eq`, `+`, `-`, `cons`, `car`, `cdr` and `puts`. Running the compiled code of an expression from any machine state does one of two things:
  - it pushes the expression's value and leaves the rest of the stack and the dump unchanged, with the environment and printed values that evaluation gives;
  - or it fails with the error evaluation reports, at the same position.
- **Reader round trip** (`RoundTrip.ReadShown`). Reading the `Display` rendering of a readable list gives the same tree. Each node is located where its text appears in the rendering.
- **Stack discipline** (`CompilerFacts.GenExprCode`, `Correctness.StraightCodeEffect`). Every successful compilation is well-formed code whose static stack effect is one. The static effect (`Effect`) adds up each instruction's net pushes, counting a call or a `SEL` as its result. The code has no stray `JOIN` or `RET`, and every function body and branch arm is a block with the right terminator. Running code without branches or calls changes the stack's height by exactly its static effect; for `SEL` and calls the brackets `VmFacts.SelJoinBracket`, `VmFacts.ApRetBracket` and `VmFacts.RapRetBracket` show the machine side.
- **A defect in the reader.** An excess `)` makes the reader pop its last list and then unwrap nothing, before it reaches its own "many ')'" check. See Findings.

## Model

| member | source | states |
|---|---|---|
| Data.InstrEqIgnoresInfo | src/data.rs:104-108 | two instructions with the same operation are equal whatever their positions |
| Data.CodeEqElementwise | src/data.rs:104-108 | code equality holds exactly when the lengths agree and the instructions agree position by position, ignoring positions |
| Data.LispEqIsEquivalence | src/data.rs:72-81 | the derived value equality used by `EQ` is reflexive, symmetric and transitive |
| Data.ErasePlain | src/data.rs:72-81 | erasing positions leaves a closure-free value unchanged |
| Data.PlainLispEq | src/data.rs:72-81 | on closure-free values, value equality is structural equality |
| Data.DigitChar | src/data.rs:116 | every digit value renders as a decimal digit character |
| Data.DecimalRoundTrip | src/data.rs:87 | the decimal rendering of a natural number is non-empty, all digits, has no leading zero, and reads back as the number |
| Data.ShowLisp | src/data.rs:110-121 | a value has a rendering exactly when it holds no list and no closure |
| Data.ShowLispQuote | src/data.rs:110-121 | a printable value prints as the rendering of the tree it is written as: its constant's name, its number, or `(cons car cdr)` |
| Data.ShowPair | src/data.rs:117 | a `(cons a d)` tree renders as `(cons `, the two parts' renderings with a space between, and `)` |
| Compiler.RemoveAll | src/compiler.rs:213-215 | `retain(!= x)` keeps exactly the elements other than x and never grows the list |
| Compiler.AtomNames | src/compiler.rs:171-186 | the parameter list is defined exactly when every element is an atom, and it is their names in order |
| Compiler.Compiler.constructor | src/compiler.rs:35-40 | a new compiler has an empty code buffer and an empty letrec list |
| Compiler.Compiler.Compile | src/compiler.rs:46-49 | compiling appends `Gen`'s code to the buffer and returns the buffer, or returns `Gen`'s error |
| Compiler.Compiler.CompileExpr | src/compiler.rs:51-100 | the dispatcher appends exactly `Gen`'s code and leaves `Gen`'s letrec list, or fails with `Gen`'s error |
| Compiler.Compiler.CompileForm | src/compiler.rs:60-94 | a special form is handled as `GenForm` says |
| Compiler.Compiler.CompileInt | src/compiler.rs:102-109 | an integer appends `LDC n` at its position |
| Compiler.Compiler.CompileAtom | src/compiler.rs:111-147 | an atom appends `LDC nil/true/false` or `LD id` |
| Compiler.Compiler.CompileNil | src/compiler.rs:149-156 | the empty list appends `LDC nil` |
| Compiler.Compiler.CompileLambda | src/compiler.rs:158-206 | lambda appends `LDF(params, body ++ [RET])` as `GenLambda` says; the wrong arity appends nothing |
| Compiler.Compiler.CompileLet | src/compiler.rs:208-232 | let removes the name from the letrec list, then appends expr, `LET x`, body; the wrong arity appends nothing |
| Compiler.Compiler.CompileLetrec | src/compiler.rs:234-257 | letrec appends the name to the letrec list, then compiles as let; the wrong arity appends nothing |
| Compiler.Compiler.CompileBinding | src/compiler.rs:219-231 | the shared let/letrec tail appends `code(expr) ++ [LET x] ++ code(body)` |
| Compiler.Compiler.CompilePuts | src/compiler.rs:259-273 | puts appends `code(e) ++ [PUTS]`, or reports "puts syntax" |
| Compiler.Compiler.CompileCar | src/compiler.rs:436-451 | car appends `code(e) ++ [CAR]`, or reports "car syntax" |
| Compiler.Compiler.CompileCdr | src/compiler.rs:453-468 | cdr appends `code(e) ++ [CDR]`, or reports "cdr syntax" |
| Compiler.Compiler.CompileUnary | src/compiler.rs:259-273 | the shared unary handler appends `code(e) ++ [op]` |
| Compiler.Compiler.CompileEq | src/compiler.rs:364-380 | eq appends `code(l) ++ code(r) ++ [EQ]` |
| Compiler.Compiler.CompileAdd | src/compiler.rs:382-398 | + appends `code(l) ++ code(r) ++ [ADD]` |
| Compiler.Compiler.CompileSub | src/compiler.rs:400-416 | - appends `code(l) ++ code(r) ++ [SUB]` |
| Compiler.Compiler.CompileCons | src/compiler.rs:418-434 | cons appends `code(l) ++ code(r) ++ [CONS]` |
| Compiler.Compiler.CompileBinary | src/compiler.rs:364-434 | the shared binary handler appends `code(l) ++ code(r) ++ [op]`; the wrong arity appends nothing |
| Compiler.Compiler.CompileIf | src/compiler.rs:323-361 | if appends `code(c) ++ [SEL(code(t) ++ [JOIN], code(f) ++ [JOIN])]`, with the arms compiled on copies of the letrec list |
| Compiler.Compiler.CompileApply | src/compiler.rs:276-321 | application appends the arguments, `ARGS n`, the function, then `RAP` for a letrec name and `AP` otherwise |
| Compiler.GenArgsStops | src/compiler.rs:281-286 | the first argument that fails to compile decides the error of the whole application |
| CompilerFacts.GenLiteral | src/compiler.rs:102-156 | integers, atoms and `()` compile to one load instruction and leave the letrec list unchanged |
| CompilerFacts.GenApplyInt | src/compiler.rs:95-97 | a list headed by an integer is rejected at the head's position |
| CompilerFacts.GenNodeForm | src/compiler.rs:58-99 | a node headed by a form keyword goes to that form's handler; any other head is an application |
| CompilerFacts.GenFormArity | src/compiler.rs:158-468 | every form checks its argument count first and reports "<form> syntax" ("let syntax" for letrec) |
| CompilerFacts.GenApplyCall | src/compiler.rs:306-318 | the last instruction of an application is `RAP` exactly when the callee is an atom in the letrec list |
| CompilerFacts.GenExprCode | src/compiler.rs:51-100 | every successful compilation is well-formed code with static stack effect one (`Effect`) |
| CompilerFacts.GenFormExprCode | src/compiler.rs:158-468 | each form's code is well formed with static stack effect one |
| CompilerFacts.GenIfExprCode | src/compiler.rs:323-362 | `if` code (the test, then SEL with two JOIN-ended branches) is well formed with static stack effect one |
| CompilerFacts.GenBindingExprCode | src/compiler.rs:219-231 | let/letrec code is well formed with static stack effect one |
| CompilerFacts.GenUnaryExprCode | src/compiler.rs:259-273 | puts/car/cdr code is well formed with static stack effect one |
| CompilerFacts.GenBinaryExprCode | src/compiler.rs:364-434 | eq/+/-/cons code is well formed with static stack effect one |
| CompilerFacts.GenArgsCode | src/compiler.rs:281-290 | the argument code of an application is well formed with static stack effect one per argument |
| CompilerFacts.GenApplyExprCode | src/compiler.rs:276-321 | application code is well formed with static stack effect one |
| CompilerFacts.CallCode | src/compiler.rs:292-318 | well-formed argument code whose static effect is n, `ARGS n`, function code of static effect one and a call have static effect one together |
| CompilerFacts.GenLetrecIds | src/compiler.rs:208-257 | after compiling a tree, the letrec list gained only names the tree binds with letrec and lost only names it binds with let |
| CompilerFacts.GenFormLetrecIds | src/compiler.rs:158-468 | the same, for each form |
| CompilerFacts.GenBindingLetrecIds | src/compiler.rs:219-231 | the same, for the let/letrec tail |
| CompilerFacts.GenUnaryLetrecIds | src/compiler.rs:259-273 | the same, for puts/car/cdr |
| CompilerFacts.GenBinaryLetrecIds | src/compiler.rs:364-434 | the same, for eq/+/-/cons |
| CompilerFacts.GenArgsLetrecIds | src/compiler.rs:281-290 | the same, for argument lists |
| CompilerFacts.GenApplyLetrecIds | src/compiler.rs:276-321 | the same, for applications |
| CompilerFacts.TestCallCode | tests/compiler_test.rs:9 | `(a 0)` with b in the letrec list compiles to `LDC 0, ARGS 1, LD a, AP` |
| CompilerFacts.TestPutsCode | tests/compiler_test.rs:9 | `(puts b)` compiles to `LD b, PUTS` |
| CompilerFacts.TestInnerCode | tests/compiler_test.rs:9 | `(letrec b (a 0) (puts b))` compiles to the call, `LET b`, then the puts |
| CompilerFacts.TestProgramCode | tests/compiler_test.rs:9-49 | the test program, with the positions the reader gives its nodes, compiles to the nine expected instructions, each at the position of the node that emits it |
| Vm.Secd.constructor | src/vm.rs:12-19 | a new machine has the given code and empty stack, environment and dump |
| Vm.Secd.Run | src/vm.rs:25-28 | `run` returns `Evaluate` of the machine: the value on top of the stack after the loop, or its error |
| Vm.Secd.RunLoop | src/vm.rs:30-105 | the loop's outcome is `RunFor`, and on halting the registers are its final state |
| Vm.Secd.Execute | src/vm.rs:31-101 | one iteration of the loop performs `Exec` on the instruction it removed |
| Vm.Secd.RunLet | src/vm.rs:108-116 | LET pops a value and binds it, or fails on an empty stack |
| Vm.Secd.RunLd | src/vm.rs:118-126 | LD pushes the bound value, or fails on an unbound name |
| Vm.Secd.RunLdc | src/vm.rs:128-131 | LDC pushes the constant |
| Vm.Secd.RunLdf | src/vm.rs:133-145 | LDF pushes a closure over the current environment |
| Vm.Secd.RunAp | src/vm.rs:147-188 | AP performs `ExecCall` without merging environments |
| Vm.Secd.RunRap | src/vm.rs:190-231 | RAP performs `ExecCall` with the caller's environment extended |
| Vm.Secd.RunCall | src/vm.rs:147-231 | the shared call handler: pop a closure and an argument list, save a `DumpAP` frame, enter the body |
| Vm.Secd.RunRet | src/vm.rs:233-253 | RET restores the saved stack, environment and code and pushes the result |
| Vm.Secd.RunArgs | src/vm.rs:255-271 | ARGS n collects the top n values into a list, in stack order |
| Vm.Secd.RunPuts | src/vm.rs:273-284 | PUTS records the top value in the output and leaves the stack alone |
| Vm.Secd.RunSel | src/vm.rs:286-308 | SEL pops a boolean, saves the rest of the code in a `DumpSEL` frame and enters an arm |
| Vm.Secd.RunJoin | src/vm.rs:310-325 | JOIN resumes the code saved by SEL |
| Vm.Secd.RunEq | src/vm.rs:327-352 | EQ replaces the top two values by whether they are equal |
| Vm.Secd.RunAdd | src/vm.rs:354-384 | ADD replaces two integers by their sum |
| Vm.Secd.RunSub | src/vm.rs:386-416 | SUB replaces two integers by their difference |
| Vm.Secd.RunArith | src/vm.rs:354-416 | the shared arithmetic handler |
| Vm.Secd.RunCons | src/vm.rs:418-440 | CONS replaces the top two values by a pair |
| Vm.Secd.RunCar | src/vm.rs:442-459 | CAR replaces a pair by its first part |
| Vm.Secd.RunCdr | src/vm.rs:461-478 | CDR replaces a pair by its second part |
| Vm.Secd.RunProject | src/vm.rs:442-478 | the shared CAR/CDR handler |
| VmFacts.StepsAdd | src/vm.rs:30-105 | running a+b steps is running a steps and then b more from where they stopped |
| VmFacts.StepsStopped | src/vm.rs:31 | a machine with no code left does not change |
| VmFacts.RunForSteps | src/vm.rs:30-105 | if n steps reach an empty code register or an error, any budget of at least n halts there or crashes with that error |
| VmFacts.RunForMonotone | src/vm.rs:30-105 | a run that ends within a budget ends the same way with any larger budget |
| VmFacts.EvaluateMonotone | src/vm.rs:25-28 | the same for `run` |
| VmFacts.BindDomain | src/vm.rs:154-157 | binding parameters binds exactly the old names and the parameters |
| VmFacts.BindKeeps | src/vm.rs:154-157 | binding parameters keeps every old binding that no parameter shadows |
| VmFacts.BindParams | src/vm.rs:154-157 | binding parameters maps each parameter to the argument at its last position |
| VmFacts.LoadsPushOne | src/vm.rs:118-145 | LDC, LD and LDF push exactly one value, change nothing else, and only LD can fail, exactly on an unbound name |
| VmFacts.LetBinds | src/vm.rs:108-116 | LET on `s + [v]` leaves `s` and binds the name to v |
| VmFacts.ArgsCollect | src/vm.rs:255-271 | ARGS n on `s + vals` with n values leaves `s + [List(vals)]` |
| VmFacts.ArgsShortFails | src/vm.rs:255-271 | ARGS n fails exactly when fewer than n values are on the stack, with "ARGS: n" |
| VmFacts.ArithOnInts | src/vm.rs:354-416 | ADD/SUB on two integers push their sum/difference, or fail on i32 overflow |
| VmFacts.ArithErrors | src/vm.rs:354-416 | ADD/SUB fail with "stack is empty" or "expected int" in the order the source checks, and on success shrink the stack by one |
| VmFacts.EqDecides | src/vm.rs:327-352 | EQ on two values always succeeds, pushes `true` exactly when they are equal and `false` otherwise, and on closure-free values this is structural equality |
| VmFacts.PutsKeepsStack | src/vm.rs:273-284 | PUTS fails exactly on an empty stack, and otherwise keeps the stack and records the top value |
| VmFacts.ConsCarCdr | src/vm.rs:418-478 | `CONS` then `CAR` gives back the first value; `CONS` then `CDR` gives back the second |
| VmFacts.SelJoinBracket | src/vm.rs:286-325 | SEL on a boolean, an arm that ends at its JOIN, and the JOIN resume the saved code with the dump restored |
| VmFacts.ApRetBracket | src/vm.rs:147-188 | AP, a body ending at RET with a value, and the RET restore the caller's stack, environment and code, plus the value |
| VmFacts.RapEnvMerge | src/vm.rs:190-231 | RAP succeeds exactly when AP would; it enters the same state but with the caller's environment extended, the callee's bindings winning |
| VmFacts.RapRetBracket | src/vm.rs:190-253 | the same bracket as AP/RET, for RAP |
| VmFacts.FrameKinds | src/vm.rs:233-253 | JOIN fails exactly without a `DumpSEL` on top; RET with a value fails exactly without a `DumpAP` on top |
| Correctness.UnaryThen | src/vm.rs:273-284 | once an operand's code has run, PUTS/CAR/CDR give what evaluation of the unary form gives |
| Correctness.RightThen | src/vm.rs:327-440 | once the right operand's code has run, EQ/ADD/SUB/CONS give what evaluation of the binary form gives |
| Correctness.LeftThen | src/vm.rs:30-105 | the code after a left operand continues from the state that operand left |
| Correctness.LetThen | src/vm.rs:108-116 | LET binds the operand's value and the body then runs in the extended environment |
| Correctness.IfThen | src/vm.rs:286-308 | SEL on a boolean enters the chosen arm with the rest of the code saved |
| Correctness.IfNotBool | src/vm.rs:286-308 | SEL on anything but a boolean fails with "expected bool" |
| Correctness.JoinThen | src/vm.rs:310-325 | JOIN at the end of an arm returns to the code SEL saved |
| Correctness.FirstOrderCompiles | src/compiler.rs:51-100 | every first-order tree compiles, whatever the letrec list |
| Correctness.Compiled | src/compiler.rs:51-100 | the code of a first-order expression, run in front of any rest from any state, reaches the state with the value pushed and evaluation's environment and output, or evaluation's error |
| Correctness.CompiledLet | src/compiler.rs:208-232 | the same, for `let` |
| Correctness.LetBody | src/compiler.rs:219-231 | the same, for the body of `let` once the bound expression has run |
| Correctness.CompiledIf | src/compiler.rs:323-361 | the same, for `if` |
| Correctness.IfArms | src/compiler.rs:323-361 | the same, for the arms of `if` once the condition has run |
| Correctness.IfBool | src/vm.rs:286-325 | the arm SEL chooses runs to its JOIN and returns to the rest of the code |
| Correctness.CompiledBranch | src/compiler.rs:330-356 | an arm compiled with a trailing JOIN, entered by SEL, gives the arm's value back to the code after the SEL |
| Correctness.CompiledUnary | src/compiler.rs:259-273 | the same, for puts/car/cdr |
| Correctness.CompiledBinary | src/compiler.rs:364-434 | the same, for eq/+/-/cons |
| Correctness.BinaryLeft | src/compiler.rs:364-434 | the same, for a binary form once its left operand has run |
| Correctness.CompiledRight | src/compiler.rs:364-434 | the same, for the right operand and the operator |
| Correctness.ProgramAgrees | src/vm.rs:25-28 | a whole first-order program compiles, and `run` returns its value, or the error evaluation reports |
| Correctness.StraightEffect | src/vm.rs:30-105 | an instruction other than SEL, JOIN, AP, RAP and RET that succeeds changes the stack's height by its static effect, keeps the values under its operands, and leaves the code and the dump alone |
| Correctness.StraightCodeEffect | src/vm.rs:30-105 | running code without those instructions to its end, one step per instruction, changes the stack's height by the code's static effect (`Effect`), stops at the code after it and leaves the dump alone |
| Programs.LetRuns | tests/vm_test.rs:5-18 | `(let a 0 a)` compiles and runs to 0 |
| Programs.ComparisonsHold | tests/vm_test.rs:69 | `(eq b 0)` and `(eq c 1)` are true when b is 0 and c is 1 |
| Programs.TestsAreTrue | tests/vm_test.rs:69 | `(eq (eq b 0) (eq c 1))` is true there |
| Programs.ProjectValues | tests/vm_test.rs:67-68 | `(car a)` is 0 and `(cdr a)` is 1 once a is the pair |
| Programs.BindCValue | tests/vm_test.rs:68-69 | the innermost `let c` is true |
| Programs.BindBValue | tests/vm_test.rs:67-69 | the `let b` is true |
| Programs.ConsPairValue | tests/vm_test.rs:66 | `(cons 0 1)` is the pair of 0 and 1 |
| Programs.ConsProgramValue | tests/vm_test.rs:66-69 | the cons test program evaluates to true |
| Programs.ConsRuns | tests/vm_test.rs:63-79 | the cons test program compiles and runs to true |
| Programs.SumValue | tests/vm_test.rs:84 | `(+ 0 1)` is 1 |
| Programs.AddSubBodyValue | tests/vm_test.rs:85-86 | the inner `let b` is true when a is 1 |
| Programs.AddSubProgramValue | tests/vm_test.rs:84-86 | the add/sub test program evaluates to true |
| Programs.AddSubRuns | tests/vm_test.rs:81-96 | the add/sub test program compiles and runs to true |
| Programs.ChoiceValue | tests/vm_test.rs:52 | `(if (eq 0 0) 1 0)` is 1 |
| Programs.SelProgramValue | tests/vm_test.rs:52 | `(puts (if (eq 0 0) 1 0))` is 1 and prints 1 |
| Programs.SelRuns | tests/vm_test.rs:49-61 | the conditional test halts with 1 on the stack, having printed 1 |
| Parser.IdPunctuationExactly | src/parser.rs:23-26 | the punctuation test is exactly membership in the source's punctuation list |
| Parser.IsIdExactly | src/parser.rs:23-26 | `is_id` is exactly membership in the source's character list |
| Parser.Scan | src/parser.rs:54-166 | the lexer never moves back, and a token it returns ends after the start and within the text |
| Parser.Word | src/parser.rs:93-147 | reading a number or identifier never fails, never moves back, and stays within the text when it returns a token |
| Parser.Push | src/parser.rs:187-195 | pushing a node appends it to the innermost open list only |
| Parser.Absorb | src/parser.rs:184-219 | a token the parser accepts leaves at least one open list and a non-negative depth |
| Parser.Parser.constructor | src/parser.rs:29-35 | a new parser starts at position 0, line 1, column 1 |
| Parser.Parser.IncLine | src/parser.rs:37-42 | `inc_line` moves to column 1 of the next line |
| Parser.Parser.IncWidth | src/parser.rs:44-48 | `inc_width` moves one column right |
| Parser.Parser.IncPos | src/parser.rs:50-52 | `inc_pos` advances one character |
| Parser.Parser.Lex | src/parser.rs:54-166 | `lex` returns `Scan`'s result; a peek restores position and line info, a read moves to where `Scan` stops |
| Parser.Parser.ReadWord | src/parser.rs:93-147 | the number and identifier loops return `Word`'s token and stop where it stops |
| Parser.Parser.Next | src/parser.rs:168-170 | `next` returns the next token and moves past it |
| Parser.Parser.Peek | src/parser.rs:172-174 | `peek` returns the next token and moves nothing |
| Parser.Parser.Shift | src/parser.rs:184-219 | one iteration of the parse loop performs `Absorb` as written |
| Parser.Parser.Finished | src/parser.rs:224-229 | the end of the parse reports "many '('" or returns the last top-level node |
| Parser.Parser.Parse | src/parser.rs:176-230 | `parse` returns what the parse loop as written returns |
| ParserFacts.SeparatorsAreNotId | src/parser.rs:23-26 | parentheses, space and newline are neither identifier characters nor digits |
| ParserFacts.WordCharIsId | src/parser.rs:93-147 | every character a number or identifier takes is an identifier character and not a newline |
| ParserFacts.AdvanceFlat | src/parser.rs:44-48 | text without newlines moves the column by its length |
| ParserFacts.AdvanceAppend | src/parser.rs:37-48 | moving over s then t is moving over s + t |
| ParserFacts.WordStops | src/parser.rs:93-147 | a number or identifier takes the longest run of its characters |
| ParserFacts.WordToken | src/parser.rs:93-147 | the token is the run's text, with the position after it; a run that reaches the end of the text is dropped |
| ParserFacts.WordShape | src/parser.rs:93-147 | the two facts above in one statement |
| ParserFacts.SkipBlank | src/parser.rs:83-91 | the blanks skipped form a maximal run |
| ParserFacts.ScanSkips | src/parser.rs:83-91 | scanning from a blank is scanning from the first non-blank, with lines and columns advanced over the blanks |
| ParserFacts.WordFrom | src/parser.rs:93-147 | a word starting at a word character is the maximal run from there |
| ParserFacts.ScanAt | src/parser.rs:54-166 | a scan from a non-blank gives a lexing error on a character that cannot start a token, the end of input, or a token that is exactly the text it covers |
| ParserFacts.ScanShape | src/parser.rs:54-166 | the same statement from any position, blanks included |
| ParserFacts.ScanNone | src/parser.rs:54-166 | the lexer reports no token exactly at the end of the text or on a trailing word with nothing after it |
| ParserFacts.WordCharStartsWord | src/parser.rs:93-147 | a word character is not a parenthesis or blank, and is a digit or identifier character |
| ParserFacts.AbsorbDepth | src/parser.rs:198-212 | the parser keeps one open list per unclosed `(` plus the top level |
| ParserFacts.ManyCloseUnreachable | src/parser.rs:203-219 | the parse loop as written never reports "many ')'" |
| ParserFacts.ParseNeverManyClose | src/parser.rs:217-219 | `parse` as written never reports "many ')'" |
| ParserFacts.AbsorbIntended | src/parser.rs:203-219 | the intended step differs from the written one only by reporting "many ')'" where the written one underflows |
| ParserFacts.IntendedAgrees | src/parser.rs:203-219 | the same for the whole parse |
| ParserFacts.ExcessClose | src/parser.rs:203-219 | `())` underflows as written and reports "many ')'" as intended |
| ParserFacts.ParseIsFeed | src/parser.rs:176-230 | the parse loop is the token stream fed to `Feed` |
| ParserFacts.LoneWordDropped | src/parser.rs:93-147 | a text that is a single word and nothing after it has no expression |
| ParserFacts.TokensCons | src/parser.rs:168-170 | the token stream is the scanned token followed by the stream after it |
| ParserFacts.SampleTokens | tests/lex_test.rs:5-19 | the lexer test's text lexes to the thirteen tokens the test expects, at their positions |
| ParserFacts.LexSampleLexes | tests/lex_test.rs:5-26 | the same, for the literal text of the test |
| RoundTrip.LocatedItems | src/parser.rs:184-212 | the located children are as many as the children |
| RoundTrip.StripItems | src/data.rs:26-37 | stripping positions keeps the number of children |
| RoundTrip.ScanBracket | src/parser.rs:61-81 | a parenthesis is one token, one column wide |
| RoundTrip.IdIsNotSeparator | src/parser.rs:23-26 | an identifier character is not a parenthesis or blank |
| RoundTrip.ScanWord | src/parser.rs:93-147 | a rendered number or atom followed by a space or `)` lexes as one token with its text |
| RoundTrip.TokensSkip | src/parser.rs:83-86 | a space produces no token and moves one column |
| RoundTrip.LexLeaf | src/data.rs:86-87 | the rendering of an atom or number lexes to its one token |
| RoundTrip.LexList | src/data.rs:88-98 | a parenthesised rendering lexes to `(`, the tokens inside, and `)` |
| RoundTrip.LexClose | src/parser.rs:61-81 | `)` lexes to one token |
| RoundTrip.LexShown | src/data.rs:83-102 | the rendering of a readable tree lexes to the tree's tokens |
| RoundTrip.LexShownList | src/data.rs:88-98 | the same, for a list |
| RoundTrip.LexShownItems | src/data.rs:90-97 | the same, for the children of a list |
| RoundTrip.LexAfterFirst | src/data.rs:90-97 | after the first child come a space and the rest of the children |
| RoundTrip.LexSpaceThenItems | src/data.rs:95 | a space and then rendered children lex to the children's tokens |
| RoundTrip.LexManyItems | src/data.rs:90-97 | two or more children lex to the first child's tokens and then the rest |
| RoundTrip.FeedCons | src/parser.rs:180-222 | feeding a token and then the rest is absorbing the token and feeding the rest |
| RoundTrip.FeedLeaf | src/parser.rs:186-196 | feeding an atom's or number's token pushes the located leaf |
| RoundTrip.FeedList | src/parser.rs:198-212 | feeding `(`, the inside, and `)` pushes the list node at the `)` position |
| RoundTrip.FeedShown | src/parser.rs:180-222 | feeding a tree's tokens pushes the tree, located |
| RoundTrip.FeedShownItems | src/parser.rs:180-222 | feeding the children's tokens appends the located children to the open list |
| RoundTrip.ReadShown | src/parser.rs:176-230 | reading the rendering of a readable list gives that list, located at the positions of the rendering |
| RoundTrip.StripLocated | src/data.rs:26-37 | locating a tree changes only positions |
| RoundTrip.StripLocatedItems | src/data.rs:26-37 | the same, for children |
| RoundTrip.ShowLocated | src/data.rs:83-102 | locating a tree does not change its rendering |
| RoundTrip.ShowLocatedItems | src/data.rs:90-97 | the same, for children |
| RoundTrip.RenderingReadsBack | tests/parser_test.rs:6-8 | reading back a rendering succeeds, gives the same tree up to positions, and renders the same |
| RoundTrip.StripQuote | src/data.rs:110-121 | the tree a printable value is written as carries no positions |
| RoundTrip.KeywordReadable | src/parser.rs:23-26 | `nil`, `true`, `false` and `cons` each lex as one identifier |
| RoundTrip.QuoteReadable | src/data.rs:110-121 | the tree of a printable value without negative integers reads back |
| RoundTrip.PrintedPairReadsBack | src/data.rs:117 | what `Display for Lisp` prints for such a pair parses back, by `Parser::parse`, to the `(cons car cdr)` tree of the pair |
| RoundTrip.AdvanceInLine | src/parser.rs:44-48 | text with no newline moves the position along its line by its length |
| RoundTrip.LocatedInLine | src/parser.rs:176-212 | a node rendered on one line is located at the column after its text |
| RoundTrip.LocatedItemsInLine | src/parser.rs:176-212 | the next child on a line starts after the previous child's text and one space |
| RoundTrip.TokensNewline | src/parser.rs:88-91 | a newline between tokens moves to the first column of the next line and produces no token |
| RoundTrip.ShowItemsAppend | src/data.rs:90-97 | two non-empty runs of children render as their renderings with one space between |
| RoundTrip.ShowFirstLine | tests/parser_test.rs:6 | the first line of the parser test is the rendering of its six children |
| RoundTrip.ParserTestInputLayout | tests/parser_test.rs:6 | the parser test's text is three lines of rendered children inside one pair of brackets |
| RoundTrip.ParserTestOutputLayout | tests/parser_test.rs:8 | the expected rendering is the same children, separated by single spaces, in brackets |
| RoundTrip.LexLine | src/parser.rs:54-91 | a line of rendered children and its newline lex to the children's tokens, then those of the next line |
| RoundTrip.LexLastLine | src/parser.rs:54-91 | the last line of children, `)` and the end of the text lex to the children's tokens and the `)` |
| RoundTrip.LexThreeLines | src/parser.rs:54-91 | the three lines in brackets lex to `(`, each line's tokens positioned from the start of its line, and `)` |
| RoundTrip.FeedClose | src/parser.rs:198-219 | a `)` closing the only open list makes `parse` return that list at the `)` position |
| RoundTrip.FeedThreeLines | src/parser.rs:176-230 | `parse` turns those tokens into one list holding the children of all three lines |
| RoundTrip.StripThreeLines | src/data.rs:26-37 | that list is the children of the three lines, up to positions |
| RoundTrip.ShowThreeLines | src/data.rs:90-97 | that list renders as the three lines' renderings joined by spaces |
| RoundTrip.ParserTestReadsBack | tests/parser_test.rs:5-9 | the parser test's text parses, to the list of its children up to positions, and renders as the expected one-line text |
| CompilerTest.ShowNode1 | src/data.rs:88-98 | a one-argument form renders as `(name arg)` |
| CompilerTest.ShowNode3 | src/data.rs:88-98 | a three-argument form renders as `(name x y z)` |
| CompilerTest.LocatedNode | src/parser.rs:176-212 | a form on one line is where the reader puts it when its head, its arguments and its `)` carry the reader's positions |
| CompilerTest.LocatedNode1 | src/parser.rs:176-212 | the same, for a one-argument form, from the widths of its parts |
| CompilerTest.LocatedNode3 | src/parser.rs:176-212 | the same, for a three-argument form |
| CompilerTest.ShowTestProgram | tests/compiler_test.rs:9 | the test program renders as the test's text |
| CompilerTest.LocatedTestProgram | tests/compiler_test.rs:9 | the test program's positions are those the reader gives when it reads the test's text |
| CompilerTest.ReadTestProgram | tests/compiler_test.rs:9-12 | `Parser::parse` of the test's text gives the test program |
| CompilerTest.CompilerTestProgram | tests/compiler_test.rs:9-52 | the test's text parses and compiles, and the code equals the nine expected instructions at `[0; 2]`, ignoring positions |
| Pipeline.LocatedItemsAt | src/parser.rs:184-212 | each located child is that child at some position |
| Pipeline.LocatedFirstOrder | src/compiler.rs:51-100 | positions do not decide whether a tree is first-order |
| Pipeline.RunLispAgrees | src/lib.rs:15-19 | `run_lisp` on the rendering of a first-order list gives the evaluator's value or error |

## Left out

- Rc and RefCell sharing are not modelled. The machine copies values and environments; the source shares them, but no modelled operation mutates a shared environment after the copy the source takes.
- `run_lisp_file` and `src/main.rs` (file and terminal I/O) are not part of this model.
- `PUTS` prints with `println!`. The model appends the value to an `out` log on the machine instead.
- Every run takes a step budget `fuel`; `Evaluate` returns `None` when it runs out. Non-termination (a `letrec` that calls itself forever) is not otherwise modelled.
- Error messages are modelled as error kinds with the position they are reported at, not as formatted strings.
- Source panics become explicit errors:
  - `IntOverflow`: an ADD or SUB result out of the i32 range, an overflow panic in a debug build;
  - `ArgCount`: AP or RAP with fewer arguments than parameters, where the source indexes out of range;
  - `NoResult`: `run` on an empty final stack, where the source unwraps `None`;
  - `NoExpression`: `parse` with no complete node, where the source unwraps `None`;
  - `IntRange`: a digit run outside i32, where the source unwraps the `parse` error.
- The text is a sequence of characters, and bytes are not distinguished from characters.
  - `is_id` is the source's ASCII list.
  - The digit test is `char::is_numeric` on a byte cast to a character (src/parser.rs:93 and :102). That test also accepts the bytes B2, B3, B9 and BC to BE. In UTF-8 text those bytes only follow a non-ASCII lead byte, and the lexer rejects the lead byte first. So only ASCII digits ever reach the test, and the model tests '0' to '9'.
- Data.ShowLisp: lists and closures are printed by Rust's debug formatter, which is not reproduced; their rendering is `None`.
- RoundTrip.PrintedPairReadsBack: it covers pairs without negative integers. A negative integer prints as `-n`, which reads back as an atom, and a lone constant or number is dropped by the lexer.
- Correctness.Compiled: the reference evaluator covers the first-order language only. `lambda`, `letrec` and application have no agreement proof.
  - For them, the static stack effect of the emitted code (`CompilerFacts.GenExprCode`) holds.
  - The call/return brackets (`VmFacts.ApRetBracket`, `VmFacts.RapRetBracket`) hold.
  - The tests `let_lambda_ap` and `letrec_rap` of tests/vm_test.rs are therefore not modelled.
- RoundTrip.ReadShown: it needs a list at the top level and readable leaves: atoms of identifier characters not starting with a digit, and non-negative numbers (a negative number renders as `-n`, which reads back as an atom). A lone top-level word is dropped by the lexer (`ParserFacts.LoneWordDropped`).
- Programs.LetRuns: the programs of tests/vm_test.rs are given as trees. Their positions are not those the reader assigns to the indented test text.
- CompilerFacts.GenExprCode: it states the static stack effect (`Effect`) of the emitted code, not a run of it. The run-level count is proved for code without branches or calls (`Correctness.StraightCodeEffect`) and, for first-order expressions, by `Correctness.Compiled`. For code with `lambda`, `letrec` or application no run-level count is proved.
- CompilerFacts.GenFormExprCode: a static count only, as for `CompilerFacts.GenExprCode`.
- CompilerFacts.GenIfExprCode: a static count only, as for `CompilerFacts.GenExprCode`.
- CompilerFacts.GenBindingExprCode: a static count only, as for `CompilerFacts.GenExprCode`.
- CompilerFacts.GenUnaryExprCode: a static count only, as for `CompilerFacts.GenExprCode`.
- CompilerFacts.GenBinaryExprCode: a static count only, as for `CompilerFacts.GenExprCode`.
- CompilerFacts.GenArgsCode: a static count only, as for `CompilerFacts.GenExprCode`.
- CompilerFacts.GenApplyExprCode: a static count only; a call's run-level effect is given by the brackets `VmFacts.ApRetBracket` and `VmFacts.RapRetBracket`, not tied to the compiled body.
- CompilerFacts.CallCode: a static count only, as for `CompilerFacts.GenApplyExprCode`.
- Pipeline.RunLisp: it uses the reader with the excess `)` defect corrected (see Findings).

## Findings

| source | as written | input that shows it | evidently intended | confidence | as-written member | corrected member |
|---|---|---|---|---|---|---|
| src/parser.rs:203-219 | on `)` the parser pops the innermost list and pushes it onto the enclosing one, which `unwrap`s `None` when no list is open; the `ps < 0` check for "many ')'" comes after that and is never reached | `())` | report the error "many ')'" | not executed | ParserFacts.ExcessClose | ParserFacts.IntendedAgrees |
