# penguinC in Dafny

A model of the penguinC compiler and its runtime, with proofs of what the code generator, the
reference counting, the front end and the threads keep. `dafny verify dfyconfig.toml` checks all of
it. Code that is expressions and recursion is modelled by functions; code that updates state in
place is a class or a method proved equal to such a function, about which the lemmas speak.

**Code generation.** `Syntax`, `Semantics` and `Typing` give the scalar fragment (64-bit integers
and Booleans) its meaning: a big-step semantics with the outcomes normal, break, continue and
return. `Ir` steps basic blocks. `Emit` and `EmitStmt` are the emitters as functions, `Codegen` is
the builder as a mutable class with the same result. `SimExpr`, `SimStmt`, `Names` and `Compile`
prove that the graph does what the source means, `Program` extends this to a whole program's
registry, `WellFormed` says exactly when the graph is well formed. Meaning and machine are compared
by fuel: a call has a result if some fuel suffices, and every number of steps is covered. `Arithmetic`,
`Defaults` and `Sums` say what is computed in numbers alone, without the functions that meaning and
machine share. `Acceptance` compares the static rules with the compiler's own checker.

**Reference counting.** `Arc` is the runtime with the notion of balance: each live object's count is
the number of references to it. `ArcCode` has a fragment with string variables, its meaning on plain
strings, its instrumented code and the machine for it. `ArcExact` proves both agree on every run,
`ArcLaws` states what follows for callers, `ArcLimits` says exactly when arguments, stored values,
concatenations, dropped results, returns and assigned globals break the balance, `ArcEmitter` emits
the code with loops, `Peephole` is the retain/release pass. The compiler does no analysis that would
keep a callee from returning a literal it was lent or from assigning a global it was lent, so each
function of the fragment carries a summary of both, which `ArcExact.ProgramOk` checks against its
body and its calls; `ArcFragment` says which programs the simplest summary fits. A tape supplies every condition and number, so a statement for all tapes is one
for all runs.

**Front end.** `Lexing`, `Lexer`, `Positions` and `Rendering` cover tokens and positions, `Grammar`,
`Parser`, `RoundTrip` and `SourceText` the expression grammar, `Splitting` the text of f-strings.
`Scanning` says character by character what a token is, `Precedence` operator by operator what an
expression is, both without the tables that reading and writing share; `Reparse` goes from tokens to
text and back.

**Checker.** `Types` and `Overloads` cover equality, coercion and overloads. `Outline` is statements as
far as names go, `Scopes` compares the checker's scopes with the code generator's flat list, which
statements behind a jump never reach, `Agreement` settles functions with different names, and
`Resolution` proves that flat list to be the registry the emitters build. `Discipline` covers `mut`,
`shared` and `using` over all statements of the outline, and `Lexical` says when the checker is content
without scopes, traces or counts.

**Runtime.** `Threads` interleaves any number of threads in single memory accesses; `Mutex` has the
calls as the C code makes them; `Decimal` is the conversion of integers to text and back.

Facts of the code that the model follows, some of them against what a reader would expect:

- `true` and `false` are integer literals; a declaration that initialises a Boolean with an integer
  truncates it, and a Boolean that initialises an integer is sign-extended, so `true` becomes -1. Assignments convert nothing.
- The left operand of a comparison pattern is never evaluated.
- A function that ends without `return` returns zero, `false` or nothing.
- A C-style loop's initialiser and a declaration in a `switch` case stay in the flat list of
  variables until the function ends, and parameters beyond that.
- `int_to_string` negates the least integer to itself and writes a lone minus sign.
- An operator token carries the position behind it.
- Where `codegen_arc_optimize` has deleted a pair it takes up the deleted release's successor field;
  the model goes on behind the pair.

## Model

| member | source | states |
|---|---|---|
| Compile.ReturnsIff | src/codegen/decl.c:6-151 | for every checked function, all arguments and every typed memory: a call has a value and a final memory in the source meaning if and only if the emitted graph, stepped from its entry, reaches a `ret` with that value and memory |
| Compile.FailsIff | src/codegen/decl.c:6-151 | the meaning goes wrong (unset variable, division by zero or with overflow) if and only if the graph traps |
| Compile.DivergesIff | src/codegen/decl.c:6-151 | the meaning never ends if and only if the graph never stops |
| Program.ProgramCorrect | src/codegen/decl.c:251-291 | the three equivalences for a function inside a program, compiled with the registry the declarations before it leave |
| Program.ResolvesIff | src/codegen/decl.c:88-146 | parameters stay registered after their function, so a later use of a global finds the global's slot if and only if no earlier parameter of that name has captured it |
| Program.GlobalsIff | src/codegen/ctx.c:154-170 | all globals are found where lexical scoping puts them if and only if none is captured |
| SimExpr.SimExpr | src/codegen/expr.c:132-157 | code of any nested expression yields the value, the stores in order and the failure of its meaning; each phi takes the value from the block where the operand's code ended |
| SimExpr.SimCompound | src/codegen/expr.c:387-395 | a compound assignment loads its target only after the right side has had its effects |
| SimStmt.SimSeq | src/codegen/stmt.c:849-924 | statements reach the block their outcome names (next, break target, continue target, `ret`) with the same memory, for any nesting |
| SimStmt.SimIf | src/codegen/stmt.c:208-235 | both arms meet in the merge block, or leave through a jump |
| SimStmt.SimSwitch | src/codegen/stmt.c:237-286 | the case chosen is the one with the value, else the last default wherever it stands, without fall-through |
| SimStmt.SimPattern | src/codegen/stmt.c:656-681 | the test of a pattern is the meaning's, in which a comparison ignores its left operand |
| SimStmt.SimMatchHead | src/codegen/stmt.c:636-710 | the chain of tests reaches the first case that holds, else the last default, else the end, with the effects of exactly the tests made |
| SimStmt.WhileRun | src/codegen/stmt.c:288-315 | the loop goes around as often as the meaning says, and break and continue leave or repeat it |
| SimStmt.DoRun | src/codegen/stmt.c:317-345 | the body comes before the first test; continue goes to the test |
| SimStmt.SimForInit | src/codegen/stmt.c:549-560 | a range's bounds are computed once and the loop variable starts at the lower one |
| SimStmt.ForRun | src/codegen/stmt.c:561-593 | the variable is tested and stepped in its slot, so assignments in the body count; the end is not computed again |
| SimStmt.CForRun | src/codegen/stmt.c:595-634 | continue goes to the update, and a missing condition is true |
| Arithmetic.EvalBinary | src/codegen/expr.c:159-214 | a binary operator on two 64-bit numbers gives `c` if and only if `c` is that number: congruent to the sum, difference or product, the quotient rounded toward zero, the remainder with the dividend's sign; comparisons give their truth; it fails if and only if the divisor is 0 or the quotient does not fit |
| Arithmetic.ExecBinary | src/codegen/expr.c:185-208 | the instruction emitted for the operator leaves the same number, truth value or failure, said in the same words |
| Arithmetic.CompiledBinary | src/codegen/expr.c:185-208 | compiled, `return a op b` returns `c` if and only if `c` is that number |
| Arithmetic.EvalUnary | src/codegen/expr.c:246-268 | `-n` is congruent to minus `n`, and `~n` and `n` add up to -1 |
| Arithmetic.EvalStep | src/codegen/expr.c:225-244 | `++` and `--` move the variable by one, with wrap-around, and give the new value in front of the name and the old one behind it; no other cell changes |
| Arithmetic.EvalSet | src/codegen/expr.c:361-386 | `x = e` gives the value of `e` and stores it in `x` and in no other cell |
| Arithmetic.EvalCompound | src/codegen/expr.c:387-395 | `x op= e` stores and gives what `op` makes of the value of `x` after `e` and the value of `e`, and changes no other cell |
| Arithmetic.DeclareRuns | src/codegen/stmt.c:171-191 | a declaration makes a new cell; a Boolean gets the lowest bit of a number, a number is -1 for `true`, and nothing else changes |
| Arithmetic.PatternTests | src/codegen/stmt.c:656-681 | a range pattern takes its lower bound and not its upper one; a comparison or value pattern tests the matched number on the left |
| Defaults.SwitchRuns | src/codegen/stmt.c:237-286 | a `switch` runs the first case with the value, without one the default that no later default follows, without one nothing |
| Defaults.MatchFallsBack | src/codegen/stmt.c:646-710 | so does a `match` none of whose tests holds, with their effects |
| Defaults.EndReturns | src/codegen/decl.c:136-144 | compiled code of a body that runs to its end returns 0, `false` or nothing |
| Sums.CompiledSum | src/codegen/stmt.c:288-634 | a range loop, a `while`, a C-style loop left by `break` and a `do` loop that add the numbers below `n`: compiled, each returns `v` if and only if `v` is congruent to that sum, for every `n` |
| Names.SeqNames | src/codegen/ctx.c:60-73 | whatever is emitted, every name in scope still resolves to its declaration and new entries are outside the scope |
| Typing.EvalTyped | src/codegen/expr.c:1750-1785 | evaluation keeps memory typed and gives a value of the static type, so stores need no conversion |
| Checking.ExecSeqTyped | src/frontend/typecheck.c:1091-1286 | statements that pass the rules keep every variable of its type and return a value of the function's type |
| Acceptance.TypeIff | src/frontend/typecheck.c:570-745 | the rules give an expression a type if and only if the compiler's checker, with its coercions and error count, reports nothing and no integer meets a Boolean in it |
| Acceptance.AcceptedIff | src/frontend/typecheck.c:1091-1239 | a function in which the checker reports nothing passes the rules if and only if nothing is coerced, no visible name is declared again, numbers are tested and returned where the function says, and no update of a C-style loop uses its body's names; what passes the rules has no error outside operands in front of patterns |
| WellFormed.WellFormedIff | src/codegen/stmt.c:849-893 | for any function, typed or not: every block ends in its only terminator, all targets exist and each phi lists exactly its predecessors, if and only if no `break` or `continue` directly follows a point that control cannot pass and every C-style loop's initialiser falls through |
| WellFormed.CleanIsWellFormed | src/codegen/decl.c:131-146 | the direction that tracks which blocks are still open through all mutually recursive emitters |
| WellFormed.SeqEnds | src/codegen/stmt.c:893-893 | control falls out of emitted statements exactly when the source predicate says it can |
| Codegen.Codegen.CodegenExpr | src/codegen/expr.c:1750-1785 | the mutable builder ends in the state the pure emitter describes, blocks, insert point, registry and next register included |
| Codegen.Codegen.CodegenStmt | src/codegen/stmt.c:849-924 | the same for statements, with break and continue targets restored |
| Codegen.Codegen.CodegenSwitch | src/codegen/stmt.c:237-286 | the loops over cases build the table and bodies of the pure emitter; the last default wins |
| Codegen.Codegen.CodegenChecks | src/codegen/stmt.c:646-691 | the loop over patterns emits the chain of tests |
| Codegen.Codegen.VarLookup | src/codegen/ctx.c:154-170 | the backward search finds the last entry of the name |
| Codegen.Codegen.CodegenFunc | src/codegen/decl.c:88-146 | a whole function; afterwards the registry has its parameters but none of its locals |
| Arc.Runtime.ArcRelease | runtime/arc.c:24-31 | the in-place decrement is the specified one; a null pointer changes nothing |
| Arc.Runtime.ArcRetain | runtime/arc.c:16-22 | the in-place increment, with no result on memory that is not a live object's |
| Arc.Runtime.StrConcat | stdlib/console/console.c:77-84 | a fresh object with count 1 holding both texts |
| ArcExact.StmtTied | src/codegen/stmt.c:849-924 | every statement of the fragment, on every run: the machine shows the source's strings, touches no dead object, and every count equals the references there are |
| ArcExact.AssignTied | src/codegen/expr.c:361-385 | the new value is built, the old one released, then the slot is set; nothing leaks and nothing is freed early, even in `s = s + s` |
| ArcExact.LoopTied | src/codegen/stmt.c:288-345 | loops with break, continue and early return keep counts exact on every iteration |
| ArcExact.RetTied | src/codegen/stmt.c:9-25 | a returned string survives the release of all locals with one more owner |
| ArcExact.CallTied | src/codegen/expr.c:1043-1092 | a call with literals, variables, globals and f-strings as arguments is exact: they are borrowed for the call and f-string objects are released after it; a literal goes only where the callee's summary allows one, a global only to a callee whose summary does not assign it, and f-string arguments make objects |
| ArcExact.CallMade | src/codegen/expr.c:1043-1086 | up to those releases the same holds of any f-string arguments, and each one that makes an object owns it |
| ArcExact.InvokeTied | src/codegen/decl.c:131-146 | a whole function with branches, loops, calls and early returns leaves exact counts for globals, result and the outside; its summary, which must fit it and all it calls, names the globals it may assign and the parameters that may be constants, which it then does not return |
| ArcExact.OwnsIff | src/codegen/expr.c:1571-1614 | the emitter's heap flag is set exactly for f-strings that make an object of their own |
| ArcLaws.CallExact | src/codegen/decl.c:131-146 | per object: count after minus count before is references gained minus lost by globals plus one if returned; live if and only if the count is positive |
| ArcLaws.ProgramExact | src/codegen/decl.c:251-291 | from an empty heap a program leaves exactly what its globals hold |
| ArcFragment.ProgramIff | src/codegen/stmt.c:849-924 | with the simplest summary, a program is one the theorems cover if and only if strings are declared outside branches and loops and every statement, however nested, stores strings of their own, lends no literal or assigned global, drops no string, and returns no local by name |
| ArcFragment.TameExact | src/codegen/decl.c:251-291 | so every run of such a program leaves what its globals hold and nothing else |
| ArcLaws.FStringExact | src/codegen/expr.c:1560-1615 | the concatenation of the parts in a fresh object of count 1; all other counts as before |
| ArcLaws.FStringText | src/codegen/expr.c:1529-1615 | the object holds, one behind the other, each text, each variable's value, each number as canonical decimal digits that read back as it, and `true` or `false` for each truth value |
| ArcLimits.CallIff | src/codegen/expr.c:1085-1090 | a call that means something leaves every count exact if and only if each f-string among its arguments makes an object: `f(f"")` and `f(f"{x}")` release a constant or an object that is only borrowed |
| ArcLimits.ArgumentIff | src/codegen/expr.c:1087-1090 | of one f-string: evaluating and releasing it changes nothing if and only if it makes an object |
| ArcLimits.StoredIff | src/codegen/stmt.c:183-187 | a declared value leaves slots and counts exact if and only if it is an object of its own: a copied variable shares its object uncounted, an empty f-string is a constant |
| ArcLimits.AssignedIff | src/codegen/expr.c:361-385 | the same for an assigned value, with the old one released before |
| ArcLimits.JoinsIff | src/codegen/expr.c:164-173 | a concatenation makes as many objects as it has joins and only the outermost is ever released: exact if and only if neither operand is a concatenation |
| ArcLimits.DroppedIff | src/codegen/expr.c:1085-1092 | a call as a statement leaves every count exact if and only if the function returns no string |
| ArcLimits.ReturnVarIff | src/codegen/stmt.c:12-25 | `return x` releases the locals before it retains: fine if and only if something other than the locals keeps the object; for a parameter that is so unless it is a constant, for a global always |
| ArcLimits.ReturnedLocalFreed | src/codegen/stmt.c:12-25 | concrete function that touches a freed local |
| ArcLimits.BareReturnIff | src/codegen/stmt.c:26-28 | a bare `return` leaves counts exact if and only if no string local is declared; each count is too high by the locals that refer to the object |
| ArcLimits.ReturnedConstant | src/codegen/stmt.c:10-25 | a returned literal is the constant itself, which no release can take |
| ArcLimits.ReturnedLiteralArgument | src/codegen/stmt.c:15-24 | `id("a")` with `return p` retains a constant though it means the text; no summary admits it |
| ArcLimits.OverwrittenIff | src/codegen/expr.c:361-385 | the text a global held, which a parameter may have been lent, outlives an assignment to the global if and only if there is another reference to it |
| ArcLimits.OverwrittenGlobalArgument | src/codegen/expr.c:361-385 | `f(g)` with `g = "b"; return p` touches the freed old text though it means it; no summary admits it |
| ArcEmitter.Emitter.FString | src/codegen/expr.c:1571-1614 | the loop with `result` and `result_is_heap` emits the specified operations |
| ArcEmitter.Emitter.ReleaseScope | src/codegen/stmt.c:12-14 | the reverse loop over the variables releases each local once |
| ArcEmitter.Emitter.Call | src/codegen/expr.c:1085-1092 | arguments in order, the call, then the releases of f-string arguments |
| ArcEmitter.Emitter.Function | src/codegen/decl.c:131-146 | a whole function is emitted as the proofs above take it |
| Peephole.PassPreserves | src/codegen/arc.c:113-154 | if the block does not fault, the optimised one runs if and only if no remaining instruction uses a removed result, and then ends with the same heap, slots and other results |
| Peephole.OptimizeIs | src/codegen/arc.c:113-154 | the pass deletes every retain directly followed by a release of the same operand, with that release, and nothing else: two instructions for each such pair of the original block |
| Peephole.RemovedIff | src/codegen/arc.c:113-154 | the results that are gone are those of exactly these retains |
| Peephole.PairIsIdentity | runtime/arc.c:16-31 | a retain followed by a release of one pointer restores the heap |
| Peephole.Block.ArcOptimize | src/codegen/arc.c:118-147 | the in-place walk deletes what one pass of the specification deletes |
| RoundTrip.ParsePrint | src/frontend/parser.c:1942-2131 | parsing the minimal-parenthesis tokens of any expression tree, followed by anything that cannot continue it, gives back exactly the tree and leaves the rest |
| RoundTrip.Exact | src/frontend/parser.c:1942-2131 | the same at every precedence level |
| Precedence.ParseNested | src/frontend/parser.c:1942-2062 | tokens without parentheses are parsed to the tree that nests as the ladder of operators, written out symbol by symbol, says |
| Precedence.TwoOperators | src/frontend/parser.c:1942-2042 | `x s y t z` for any two binary operators: the tighter one takes `y`; on one rung assignment and `**` group to the right, the others to the left, and a second `..` is left over |
| Precedence.PrefixFirst | src/frontend/parser.c:2044-2062 | prefix operators take their operand before any binary operator, on either side of it |
| Precedence.PostfixFirst | src/frontend/parser.c:2064-2131 | postfix operators come before binary and before prefix operators |
| Precedence.BeforeQuestion | src/frontend/parser.c:1961-1986 | `x s y ? z : w`: only an assignment takes the conditional as its right side |
| Precedence.InQuestion | src/frontend/parser.c:1961-1972 | `x ? y s z : w`: any operator, an assignment too, stays between `?` and `:` |
| Precedence.AfterQuestion | src/frontend/parser.c:1961-1986 | `x ? y : z s w`: only an assignment takes the conditional as its left side |
| Precedence.TwoQuestions | src/frontend/parser.c:1961-1972 | `x ? y : z ? v : w` groups to the right |
| Precedence.TextRung | src/frontend/parser.c:1951-2042 | the ladder as the operators are written |
| Precedence.Words | src/frontend/parser.c:2228-2236 | `true` and `false` are the numbers 1 and 0, `NULL` is a name |
| Precedence.Keyword | src/frontend/lexer.c:63-127 | no keyword is an expression, but names of types and `lock` are variables |
| Reparse.ParseAgain | src/frontend/parser.c:1942-2372 | whatever tree is parsed from any tokens: printed with no more parentheses than needed it is parsed to the same tree |
| Parser.ExprParser.ParseLevel | src/frontend/parser.c:1942-2062 | the recursive-descent functions over a moving position compute the specified parse |
| Parser.ExprParser.ParseSuffixes | src/frontend/parser.c:2064-2131 | the loop over calls, members, indices and postfix operators |
| Parser.ExprParser.ParsePrimary | src/frontend/parser.c:2205-2368 | literals, names, parentheses, tuples, lists and keywords |
| Rendering.LexRender | src/frontend/lexer.c:131-363 | lexing the spaced rendering of any token list gives back kinds and values |
| Rendering.LexSpaced | src/frontend/lexer.c:28-41 | the same with any white space and comments between the tokens |
| Rendering.SkipGap | src/frontend/lexer.c:28-41 | any sequence of blanks and whole comments is passed over |
| Rendering.SkipsGap | src/frontend/lexer.c:28-41 | and nothing else is, but a comment the text ends in; what comes next is no blank and no comment |
| Scanning.CommentSkipped | src/frontend/lexer.c:33-36 | `//`, any characters and the end of the line count for nothing, whatever the characters are |
| Scanning.LastCommentSkipped | src/frontend/lexer.c:33-36 | a comment the text ends in leaves no token |
| Scanning.BlankSkipped | src/frontend/lexer.c:31-32 | a space, tab, carriage return or newline counts for nothing |
| Scanning.NextAfter | src/frontend/lexer.c:131-136 | the next token is the one behind the blanks and comments, or the end |
| Scanning.WordTaken | src/frontend/lexer.c:186-199 | a word is the longest run of letters, digits and underscores |
| Scanning.NumberTaken | src/frontend/lexer.c:201-226 | a number is the longest run of digits, with a fraction if and only if a digit follows the point |
| Scanning.LiteralTaken | src/frontend/lexer.c:138-273 | a literal goes to the first quote that is not escaped; `n`, `t`, `r` and `0` behind a backslash are the characters 10, 9, 13 and 0, others themselves; 4095 characters are kept; without the quote it is an error |
| Scanning.OperatorTaken | src/frontend/lexer.c:275-362 | two characters that are an operator are taken together, else one, else it is an error, from the list of all operators |
| Scanning.RenderableIff | src/frontend/lexer.c:131-363 | a token can be rendered if and only if its rendering alone is read back as it |
| Lexing.Next | src/frontend/lexer.c:131-363 | every token before the end of file consumes at least one character |
| SourceText.TextRoundTrip | src/frontend/lexer.c:131-363 | lexing and parsing the written text of a tree gives the tree |
| SourceText.WriteInjective | src/frontend/parser.c:1942-2131 | no two trees are written alike |
| SourceText.SymIff | src/frontend/lexer.c:275-362 | a text stands for a symbol if and only if that is how the symbol is written |
| SourceText.SpelledIff | src/frontend/lexer.c:119-127 | a token can be written if and only if its spelling is read back as it |
| SourceText.WritableIff | src/frontend/parser.c:1942-2372 | a tree can be written if and only if each token of its printed form can |
| Lexer.Lexer.NextToken | src/frontend/lexer.c:131-363 | kind, value, line and column are those of the specification; `line` and `col` always fit `pos` |
| Lexer.Lexer.SkipWhitespaceAndComments | src/frontend/lexer.c:28-41 | stops at the first character that is neither blank nor in a comment |
| Lexer.BufferRefines | src/frontend/lexer.c:379-407 | under any sequence of current, peek, advance, match, save and restore, the tokens seen are those of an index into the fixed token sequence |
| Lexer.KindIff | src/frontend/lexer.c:379-407 | tokens match if and only if both are names, integers, floats, strings or f-strings, or they are the same keyword or symbol |
| Lexer.CaretIff | src/error.c:31-42 | the reported position is where the token begins, if and only if it is not an operator; for those it lies behind |
| Positions.FindLine | src/error.c:31-42 | line start plus column minus one is the offset, for every offset of the text |
| Positions.SameSpot | src/frontend/lexer.c:18-26 | line and column determine the offset |
| Positions.PlaceIs | src/frontend/lexer.c:18-26 | a line is one more than the newlines in front, a column one more than the characters behind the last of them |
| Splitting.SplitJoin | src/frontend/parser.c:2133-2203 | splitting the joined text of any normal part sequence gives it back, a lone text as a plain string |
| Splitting.SplitNormal | src/frontend/parser.c:2133-2203 | every split is normal, and joining gives back the input if and only if no stray brace or overlong text was dropped |
| Splitting.TextGathered | src/frontend/parser.c:2180-2184 | text is gathered up to 4095 characters and cut off behind them |
| Splitting.UnclosedFails | src/frontend/parser.c:2152-2161 | an opening brace that nothing closes is an error |
| Splitting.StopsAtBrace | src/frontend/parser.c:2178-2179 | a closing brace that closes nothing ends the scan; what follows is dropped |
| Splitting.ParseFString | src/frontend/parser.c:2133-2203 | the pointer, buffer and brace counter compute that split |
| Types.EqualIff | src/frontend/typecheck.c:60-78 | two types are equal if and only if both are complete and look the same |
| Types.EqualEquivalence | src/frontend/typecheck.c:60-78 | symmetric and transitive on all types, reflexive exactly on complete ones |
| Types.CoercibleSymmetric | src/frontend/typecheck.c:94-113 | coercion goes both ways at every depth of tuples |
| Types.ScalarsCoercible | src/frontend/typecheck.c:80-113 | of the scalar types: any two numbers, a Boolean and an integer, and equal types, no others |
| Types.CoercibleIff | src/frontend/typecheck.c:94-113 | of all types: if one is unknown or erroneous, both are complete and look the same, they are coercible scalars, or tuples coercible place by place |
| Overloads.ExactWins | src/frontend/typecheck.c:355-389 | with definite argument types a registered equal signature is the best wherever it stands, and alone in its score |
| Overloads.OrderFreeIff | src/frontend/typecheck.c:355-389 | for any table and arguments: no order of registration changes the overload chosen if and only if all entries of the highest score are the same |
| Overloads.ExactOrderFree | src/frontend/typecheck.c:355-389 | so it does not matter where a signature equal to definite argument types stands |
| Overloads.UnknownTakesFirst | src/frontend/typecheck.c:368-373 | with an argument of unknown type the order of registration decides |
| Overloads.ApplicableIff | src/frontend/typecheck.c:355-389 | an overload applies if and only if each argument is coercible to its parameter |
| Overloads.ScoreIs | src/frontend/typecheck.c:362-381 | its score is one a parameter, two more for each equal and known type and one more for each unknown one |
| Overloads.FuncTable.LookupBest | src/frontend/typecheck.c:355-389 | the loops return the first entry of maximal score, and none if and only if none applies |
| Overloads.FuncTable.Push | src/frontend/typecheck.c:315-342 | appends unless an equal signature is there |
| Scopes.AgreeIff | src/codegen/ctx.c:154-170 | scope stack and flat list agree on a name if and only if its last declaration on the flat list is still in an open scope and the one the checker finds is on the flat list |
| Scopes.FunctionAgreesIff | src/codegen/stmt.c:849-924 | in any function every compiled use the checker resolves is resolved alike by the code generator if and only if that holds at each such use; what stands behind a jump is bound by the checker and never put on the flat list |
| Agreement.FunctionAgrees | src/frontend/typecheck.c:1197-1209 | with all declared names different they agree if and only if no compiled update of a C-style loop uses a name its body declares behind a jump |
| Resolution.FailsIff | src/codegen/stmt.c:849-924 | for any scalar function and registry: the emitters register exactly the names declared in open blocks, in order, and fail if and only if a compiled use is of a name not registered by then |
| Resolution.FlatIsRegistry | src/codegen/ctx.c:60-73 | the flat list of the name resolution is the registry the emitters have built |
| Resolution.AgreedCompiles | src/codegen/expr.c:1750-1785 | a function whose names the checker resolves compiles without an undefined name where the two ways agree |
| Resolution.DeadUpdate | src/codegen/stmt.c:595-634 | `for (; ; y++) { return; int y; }`: the checker resolves every name and code generation fails |
| Scopes.ShadowedAfterBlock | src/codegen/stmt.c:121-124 | after a block that shadows, they differ |
| Scopes.DeadInBlock | src/codegen/stmt.c:893-893 | but not if the block declares the name behind a jump |
| Scopes.ScopeStack.LookupVar | src/frontend/typecheck.c:233-246 | the nested loops find the last entry of the innermost scope that has the name |
| Scopes.ScopeStack.AddVar | src/frontend/typecheck.c:209-231 | a name the innermost scope already has is refused |
| Scopes.VarList.VarLookupIndex | src/codegen/ctx.c:162-170 | the index of the last entry of the name |
| Discipline.SeqCodeIff | src/frontend/typecheck.c:727-788 | for any body, checked or not, of any statements: all emitted stores are allowed if and only if, at every compiled write, the last compiled declaration of the name may be written at that place |
| Discipline.ProgramDisciplined | src/frontend/typecheck.c:727-788 | for a program without reported errors: all stores are allowed if and only if those are that the checker does not settle, by `++` or `--` or to a name it resolves to another declaration than the code does; without the latter, if and only if `++` and `--` keep the rules |
| Discipline.CheckedRuns | src/frontend/typecheck.c:727-788 | for a program without reported errors whose unsettled writes are allowed: no run writes a non-`mut` variable after its declaration, and every write to a `shared mut` one happens while a `using` body is active |
| Lexical.SeqErrorsIff | src/frontend/typecheck.c:190-246 | for any body: the checker reports nothing if and only if, by lexical scoping alone, every name used is declared, every assigned variable is `mut`, and a `shared` one is assigned in `using` bodies only; behind it its scopes show what lexical scoping says can be seen |
| Lexical.ProgramErrorsIff | src/frontend/typecheck.c:727-788 | the same for programs |
| Lexical.LockedIncrement | src/frontend/typecheck.c:763-767 | `using (m) { counter = counter + 1; }` on a `shared mut` counter is accepted, and without the `using` it is not |
| Lexical.LockedWrite | src/codegen/stmt.c:739-843 | run, it makes exactly one write, with one `using` body active |
| Discipline.SeqDisciplined | src/frontend/typecheck.c:1091-1286 | the same equivalences for a body |
| Discipline.DistinctDisciplined | src/frontend/typecheck.c:1091-1286 | with different names, and no update of a C-style loop that uses what is not compiled, only `++` and `--` are left to ask about |
| Discipline.IncrementUnchecked | src/frontend/typecheck.c:688-698 | a `++` on a variable that is not `mut` is accepted |
| Discipline.RepeatedNameUnchecked | src/frontend/typecheck.c:209-217 | a repeated name in one scope lets a write reach the wrong declaration unreported |
| Discipline.ShadowedNameUnchecked | src/codegen/stmt.c:121-124 | so does a name shadowed in a block that has ended |
| Discipline.DeadShadowHarmless | src/codegen/stmt.c:893-893 | but not if the shadowing declaration is behind a jump |
| Discipline.DeadMutUnchecked | src/codegen/stmt.c:893-893 | and a `mut` declaration behind a jump does not hide one without `mut` that is compiled |
| Discipline.SharedParameter | src/frontend/typecheck.c:209-217 | two functions with a parameter of one name, both written, are covered by the theorem and disciplined |
| Discipline.Checker.TcBlock | src/frontend/typecheck.c:1091-1094 | the walk over the mutable context, through every kind of statement, counts exactly the specified errors and leaves scopes and `using` depth balanced |
| Discipline.Checker.TcCases | src/frontend/typecheck.c:1211-1256 | visiting each test before its body counts what the specification counts with all tests first, as they are compiled |
| Discipline.Checker.TcTarget | src/frontend/typecheck.c:747-774 | an assignment's errors against the declaration found, with the depth at that point |
| Threads.Exclusion | stdlib/mutex/mutex.c:25-39 | at every state of every interleaving at most one thread is in a `using` body and `lock_count` is 0 or 1 |
| Threads.NoLostUpdates | stdlib/threads/threads.c:15-54 | every interleaving that ends has the counter at its start plus all rounds, all handles freed and all results right |
| Threads.NeverStuck | stdlib/threads/threads.c:45-54 | until the end some thread can move |
| Threads.RunsEnd | stdlib/threads/threads.c:22-32 | the length of every interleaving is bounded by the number of threads and rounds alone |
| Threads.FollowKeeps | src/codegen/stmt.c:739-843 | the invariant that ties owner, `lock_count`, registers and handles to program points |
| Mutex.RoundIsSteps | src/codegen/stmt.c:739-843 | nine uninterrupted steps of a worker are one atomic round |
| Mutex.MutexHandle.TryEnter | stdlib/mutex/mutex.c:41-52 | takes the mutex if and only if it was free and changes nothing otherwise |
| Mutex.Counter.Round | stdlib/mutex/mutex.c:25-39 | a round adds one and leaves the mutex free |
| Decimal.ParseOfText | stdlib/console/console.c:117-119 | parsing the canonical decimal text gives back every 64-bit value |
| Decimal.ParseShape | stdlib/console/console.c:117-119 | any white space, a sign or none, digits and whatever follows: the result is the number the digits stand for, or the nearest 64-bit one; without digits 0 |
| Decimal.ShapeOf | stdlib/console/console.c:117-119 | and every text has that shape |
| Decimal.DigitsValue | stdlib/console/console.c:86-99 | the digits written are numerals that stand, place by place, for the number |
| Decimal.RoundTripIff | stdlib/console/console.c:86-99 | the round trip holds for every 64-bit value but the least |
| Decimal.NoLeadingZero | stdlib/console/console.c:86-99 | the text is canonical |
| Decimal.Fits | stdlib/console/console.c:86-99 | at most twenty characters, so the 32-byte buffer suffices |
| Decimal.IntToString | stdlib/console/console.c:86-99 | the backward digit loop stays inside its buffer and writes the canonical text; the least value gives a lone minus sign |

## Left out

- Checking.ExecSeqTyped: is about programs that pass `Checking.CheckStmt`, which refuses what the compiler's checker accepts with a coercion between integers and Booleans, and declarations of a name already in scope; `Acceptance.AcceptedIff` says what exactly it refuses.
- Parser.ExprParser.ParseSuffixes: does not model the `.to<T>` conversion, whose type is parsed by the declarations' grammar.
- Parser.ExprParser.ParsePrimary: does not model type arguments of `new`, nor f-strings, whose text `Splitting` takes apart without parsing the expressions in it.
- Floats, `**`, casts, `.to<T>`, `sizeof`, arrays, classes, inheritance, generics and `new`: their arithmetic is foreign or their layout and ownership follow no single rule.
- Labels and `goto`: a label in a dropped statement is never placed.
- LLVM beyond the instruction subset, its passes, debug information and object files; linking, files, imports and header scanning.
- Statements of the scalar fragment that declare a name already in scope: `Scopes` and `Discipline` say what happens to repeated and shadowed names.
- `++` and `--` on Booleans, and calls inside scalar expressions.
- A C-style loop whose update uses a variable of its body: the checker lets the two share a scope, `Checking` does not.
- A `switch` with two equal values, which LLVM refuses; in the model the first one counts.
- In the ARC fragment, declarations of strings stand at the top level of a function, and concatenations and string calls are not operands of f-strings or arguments of calls.
- The summaries of assigned globals and constant parameters are not part of the compiler; any that fits will do, and only the simplest one is inferred.
- Runs whose meaning goes wrong, such as reading a global string before it is set, are not claimed in `ArcExact`.
- Reference counts do not overflow, allocation does not fail, and the shared variants are not modelled apart.
- Keyword tokens as member names are not part of the expression grammar.
- The caret line of an error message beyond its position; colours and message texts.
- Overload resolution does not build types from their names; `types_equal` is taken on type values.
- Globals come before functions in `Discipline`, and calls there carry no arguments; leaving a `using` body by a jump ends it, though the exit call is then not made. Where that call is appended behind the jump the block counts as open again, as for the emitter, and the graph is malformed.
- In `Threads` each thread is joined once, through `thread_get`; `thread_join`, `mutex_try_enter` and `mutex_get_lock_count` are not steps of the protocol, memory is sequentially consistent, and handles are never null.
- `strtol` is modelled with white space, sign and clamping, but not for other bases.
- Repetition: where several source functions have the same lines, as for the arm of a conditional or the body of a loop, the model has one method.
