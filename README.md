# lelwel's Rust backend, modelled in Dafny

lelwel is an LL(1) parser generator. Its Rust backend (`src/backend/rust.rs`) turns an
analysed grammar into the source of a recursive-descent parser. Rule bodies are regex
trees whose nodes carry precomputed `first`, `follow`, `predict` and `cancel` sets. The
backend turns each body into Rust statements (`output_regex`, `output_error_handler`).
It wraps every used rule in a routine with a recursion-depth guard (`output_element`),
and it writes the module-wide parts around those routines:

- the token enumeration;
- the `pattern_*`, `default_*` and `consume_*` macros;
- the `Display` implementation;
- the `err!` and `check_limit!` macros;
- the preamble;
- the `parse` entry point.

This project models that backend and proves what the emitted text looks like:

- **Text utilities** (`Text`): the standard-library string operations the backend relies
  on, stated over `seq<char>`. This covers `lines`, `split`/`join`, `trim`, decimal
  formatting, and the round trips between them.
- **`Indent::indent`** (`Indentation`): a method with a loop, proved equal to a
  specification function. A lemma then characterises that function line by line.
- **`Generator::pattern` / `error`** (`Symbols`): the match alternatives and the expected
  lists of a symbol set. An ordered symbol set is a sequence with increasing ids.
- **The annotated grammar** (`Grammar`): the element arena, the regex tree and
  `get_predicate`. Element references are `Option<nat>` indices into the arena.
- **`par_to_arg`** (`Arguments`): turning a parameter declaration into argument names.
- **The regex compiler** (`Compiler`, `Output`):
  - a `ParserFile` class keeps the sequence of writes made to the output file;
  - an `Output*` method per case of `output_regex` appends exactly the writes of a
    specification function;
  - lemmas state the shape of those writes.
- **The module emitter** (`Sections`, `Emitter`): one method per `output_*` function,
  each proved against a writes function, and lemmas about the text those writes render to.
- **The emitted code's meaning** (`Runtime`): a small fuel-bounded interpreter. It runs a
  compiled regex over a list of token kinds, where `EOF` stands for everything past the
  end, and states what the emitted code does:
  - which `Or` arm runs;
  - how `is_first` changes a `Plus` loop;
  - how resynchronisation after an error tries `follow` before `cancel`;
  - when the depth guard fires, and what the recovery closure does with its error.

The file is modelled as a sequence of writes. A write is `Plain(s)` for
`write_all(s)` and `Block(s, level)` for `write_all(s.indent(level))`.
`Pieces.Render` gives the text the file then holds.

Where the code departs from what it evidently intends, the model follows the code:

- **Resynchronisation catches every `Err`.** A depth overflow is meant to be fatal,
  yet the `or_else` of a recovering node also catches the error the depth guard
  returns. After `finalize`, the closure passes that error on only if the stream then
  stands at `EOF` (`Runtime.DrainedOverflowPassesOn`). Otherwise it resynchronises and
  parsing goes on (`Runtime.OverflowRecovered`).
- **`parse` does not forward the start rule's own arguments.** It declares the `Start`
  element's own parameters but calls `start(0, input…)` with only the common arguments.
  `Sections.ParseLines` writes exactly that. The second row of "## Findings" states the
  correction.

## Model

| member | source | states |
|---|---|---|
| Text.Spaces | src/backend/rust.rs:19 | `"    ".repeat(level)` has `4 * level` characters, all spaces |
| Text.Split | src/backend/rust.rs:1031 | splitting at `c` gives one more piece than `s` has `c`s, and no piece holds `c` |
| Text.JoinSplit | src/backend/rust.rs:1031-1038 | joining the pieces of a split with the separator gives back the text |
| Text.SplitJoin | src/backend/rust.rs:1031-1038 | splitting a join of separator-free pieces gives back the pieces |
| Text.Lines | src/backend/rust.rs:15 | `str::lines`: no line holds a newline |
| Text.LinesUnlines | src/backend/rust.rs:15 | the lines of newline-terminated, newline-free lines are those lines |
| Text.LinesAppend | src/backend/rust.rs:15 | the lines of a text that ends with a newline, followed by more text, are the lines of each part |
| Text.LeadingSpaces | src/backend/rust.rs:318 | the white space `trim` removes at the front is a maximal run of white space |
| Text.Trim | src/backend/rust.rs:318 | `trim` neither starts nor ends with white space and keeps only characters of its input |
| Text.TrimStrips | src/backend/rust.rs:318 | `trim` removes a white-space prefix and a white-space suffix of its input and keeps everything between them |
| Text.NatToString | src/backend/rust.rs:862 | `{}` of a number is a non-empty string of decimal digits |
| Text.DecimalRoundTrip | src/backend/rust.rs:862 | the decimal text of a number reads back as that number |
| Indentation.Indent | src/backend/rust.rs:13-27 | the loop over the lines and the final `pop` compute `Indented(s, level)` |
| Indentation.IndentTextLines | src/backend/rust.rs:15-22 | walking the text and walking its lines build the same string |
| Indentation.IndentLinesUnlines | src/backend/rust.rs:15-22 | the loop writes the non-empty lines, in order, each prefixed by the indentation and terminated |
| Indentation.IndentedLines | src/backend/rust.rs:13-27 | the lines of `indent(s, level)` are exactly the non-empty lines of `s`, in order, each prefixed by `4*level` spaces. The result ends in a newline iff `s` does and `s` has a non-empty line |
| Indentation.NonEmpty | src/backend/rust.rs:16-18 | the lines kept are non-empty lines of the input |
| Indentation.PrefixedLines | src/backend/rust.rs:19-21 | every indented line is non-empty and holds no newline |
| Pieces.RenderAppend | src/backend/rust.rs:455-460 | the text of consecutive writes is the concatenation of their texts |
| Symbols.MatchesMember | src/backend/rust.rs:42-49 | a pattern matches a kind iff the kind names a member, or the set is empty and the kind is `EOF` |
| Symbols.Macros | src/backend/rust.rs:44 | one `prefix + kind + "!()"` per kind, in order |
| Symbols.JoinMacrosJoin | src/backend/rust.rs:44-45 | mapping each member to its macro and then joining gives the rendering |
| Symbols.RenderKinds | src/backend/rust.rs:42-57 | `pattern` and `error` join one macro per kind with `"\n"+spaces+"\| "` and `",\n"+spaces`; the empty set gives the `EOF` macro |
| Symbols.PatternLines | src/backend/rust.rs:42-49 | `pattern(S, l)` has one line per kind, in the set's order, which the `SymbolSet` type requires to be strictly ascending. Every line after the first starts with `4l` spaces and `"\| "` |
| Symbols.ErrorLines | src/backend/rust.rs:50-57 | `error(S, l)` has one line per kind in order. Every line but the last ends with `,`, and every line after the first starts with `4l` spaces |
| Symbols.MacroJoinLines | src/backend/rust.rs:44-45 | the lines of a join of macros with a separator holding one newline |
| Grammar.Unparen | src/backend/rust.rs:397 | looking through parentheses ends at a node that is not a `Paren` |
| Grammar.GetPredicateGuard | src/backend/rust.rs:381-400 | the guard is `" if "` plus the trimmed code exactly when the node under its parentheses is a `Concat` whose first operand is a `Predicate` resolving to predicate code; otherwise `""` |
| Arguments.AfterLast | src/backend/rust.rs:1036 | the text after the last `','` holds no `','` |
| Arguments.AfterLastSkips | src/backend/rust.rs:1036 | what comes before a `','` does not matter |
| Arguments.AfterLastWhole | src/backend/rust.rs:1036 | a piece without `','` is kept whole |
| Arguments.ParToArgNoParameters | src/backend/rust.rs:1030-1039 | without a `':'` the argument list is empty |
| Arguments.ParToArgArity | src/backend/rust.rs:1030-1039 | with `':'`s, the arguments split at `','` into one piece per `':'`, and none holds a `':'` |
| Arguments.ParToArgDeclaration | src/backend/rust.rs:1030-1039 | for a declaration list `n1:t1,…,nk:tk` of plain names and types, the arguments are `n1,…,nk` |
| Arguments.SplitDeclaration | src/backend/rust.rs:1031 | splitting a declaration list at `':'` gives the name-carrying pieces |
| Arguments.ColonPiecesNames | src/backend/rust.rs:1036 | the text after the last `','` of each piece is the next parameter's name |
| Arguments.CallArgsAsWrittenGlues | src/backend/rust.rs:464-471 | as written, a rule call with arguments but no common arguments renders `inputx` |
| Arguments.CallArgsSeparated | src/backend/rust.rs:464-475 | after `input`, the common arguments and the rule's arguments always begin with `", "` or are empty |
| Compiler.RuleCallDepth | src/backend/rust.rs:463-479 | an identifier resolving to a rule compiles to one call of that rule's routine at `depth + 1`, passing `input` and then the common arguments |
| Compiler.RuleCallGlued | src/backend/rust.rs:464-476 | with no common arguments, a call of a rule with arguments writes them right after `input`, with no separator |
| Compiler.ArmOperands | src/backend/rust.rs:541-546 | the operands that get an arm are exactly those that are not error handlers |
| Compiler.ArmOperandsAppend | src/backend/rust.rs:541-546 | selecting arm operands distributes over concatenation |
| Compiler.ArmsWritesInOrder | src/backend/rust.rs:541-561 | the loop over the operands writes one arm per non-error-handler operand, in operand order |
| Compiler.OrArms | src/backend/rust.rs:533-575 | an `Or` is the optional closure opening, the `match`, one arm per dispatched operand in order, the catch-all that fails with the node's own `predict`, and the recovery closure; the arms end with `Ok(())` iff the node recovers |
| Output.ParserFile.constructor | src/backend/rust.rs:455-460 | a new file has no writes |
| Output.ParserFile.Write | src/backend/rust.rs:750 | `write_all(s)` appends `s` |
| Output.ParserFile.WriteIndented | src/backend/rust.rs:472-478 | `write_all(s.indent(level))` appends `s` at `level` |
| Output.ParserFile.OutputRegex | src/backend/rust.rs:455-745 | `output_regex` appends exactly the writes of `Compiled` |
| Output.ParserFile.OutputLeaf | src/backend/rust.rs:462-499 | identifiers, literals, `Paren`, actions and error handlers append their leaf writes |
| Output.ParserFile.OutputConcat | src/backend/rust.rs:500-532 | a `Concat` appends its operands in order, inside a closure with recovery when it has an error regex |
| Output.ParserFile.OutputOperands | src/backend/rust.rs:507-527 | the operand loop appends every operand's writes, in order |
| Output.ParserFile.OutputOperand | src/backend/rust.rs:508-526 | an error-handler operand appends only a follow-set check |
| Output.ParserFile.OutputOpening | src/backend/rust.rs:501-506 | the closure opens when there is an error regex, and the level rises by one exactly then |
| Output.ParserFile.OutputClosing | src/backend/rust.rs:529-531 | the recovery closure is appended exactly when there is an error regex |
| Output.ParserFile.OutputOr | src/backend/rust.rs:533-575 | an `Or` appends the writes of `OrWrites` |
| Output.ParserFile.OutputArm | src/backend/rust.rs:547-560 | one arm: the operand's predict pattern and guard, its body, `Ok(())` when the `Or` recovers, the closing brace |
| Output.ParserFile.OutputStar | src/backend/rust.rs:576-604 | a `Star` appends the loop head, its operand at `level + 3`, and the follow/predict tail |
| Output.ParserFile.OutputPlus | src/backend/rust.rs:605-640 | a `Plus` appends the `is_first` loop head, its operand, and the tail that fails with `first` on the first round and with `first, follow` later |
| Output.ParserFile.OutputOption | src/backend/rust.rs:641-688 | an `Option` appends its head, binding the operand's name when it has one, the operand, `Some(name)`, and the tail |
| Output.ParserFile.OutputErrorHandler | src/backend/rust.rs:402-453 | the recovery closure: the EOF check, the follow arm running the error regex at `level + 3`, the cancel arm only when `cancel` is non-empty, and the skipping arm |
| Sections.TokensMembers | src/backend/rust.rs:770-778 | a declaration is listed iff some arena element is that token |
| Sections.VisibleMembers | src/backend/rust.rs:810-812 | a declaration is visible iff it is listed and its name does not start with `_` |
| Sections.Entries | src/backend/rust.rs:770-778 | one write per token entry, in order |
| Sections.TokensAppend | src/backend/rust.rs:770 | the tokens of consecutive arena parts are the tokens of each part |
| Sections.EntriesStep | src/backend/rust.rs:785-800 | each arena element adds at most its own entry, after those of the elements before it |
| Sections.RenderEntries | src/backend/rust.rs:785-800 | the entries render to the lines of the listing, entry by entry |
| Sections.TokensText | src/backend/rust.rs:764-780 | the enumeration lists `EOF` and then every token, with its payload type, in arena order |
| Sections.PatternsText | src/backend/rust.rs:783-802 | the `EOF` pattern macro, then one `pattern_` macro per token in arena order |
| Sections.DefaultsText | src/backend/rust.rs:805-828 | the `EOF` default macro, then one `default_` macro per token not starting with `_` |
| Sections.ConsumesText | src/backend/rust.rs:892-934 | one `consume_` macro per token not starting with `_`, in arena order |
| Sections.DisplayText | src/backend/rust.rs:937-966 | the display arms: `end of file` for `EOF`, then per token its `sym` label if any, else its name |
| Sections.TrimAll | src/backend/rust.rs:752-753 | every preamble line trimmed, one for one |
| Sections.RenderPreambleLines | src/backend/rust.rs:752-755 | the preamble loop writes each trimmed line followed by a newline |
| Sections.PreambleText | src/backend/rust.rs:748-761 | without a preamble the section is a blank line. Otherwise it is the `// preamble` comment, every line of the trimmed code trimmed, and a blank line |
| Sections.ErrorCodeOf | src/backend/rust.rs:830-840 | there is an error type exactly when the error reference resolves to an `ErrorCode` element |
| Sections.CheckLimitGuard | src/backend/rust.rs:843-862 | the guard compares `$depth` with a decimal that reads back as the grammar's limit, 128 by default |
| Sections.CheckLimitFires | src/backend/rust.rs:852-881 | when it fires, the guard calls `finalize()` and then returns `Err(E::from("exceeded recursion depth limit"))` for the error type `E`, if there is one. Otherwise it panics. In both cases the next line closes the `if` |
| Sections.CommonArgsForward | src/backend/rust.rs:970-987 | when the common parameters are a plain declaration list, calls forward exactly their names |
| Sections.StartRetLast | src/backend/rust.rs:995-1006 | the entry's return type is `()` when no `Start` declares one, else that of the last `Start` that does |
| Sections.StartParsLast | src/backend/rust.rs:995-1006 | the entry's extra parameters are empty when no `Start` declares any, else those of the last `Start` that does |
| Sections.ElementRoutine | src/backend/rust.rs:275-379 | an element writes something iff it is a used `Start` or `Rule`. Its routine is its head, its body compiled at level 2, and `}`. The head holds `check_limit!` iff it is a `Rule` |
| Sections.ElementsSnoc | src/backend/rust.rs:1024-1026 | the routines follow the arena order |
| Sections.ParserEntry | src/backend/rust.rs:1007-1027 | the entry point comes first. It advances, calls `start` at depth 0 with the common arguments, then fails unless at `EOF`. The routines follow, then the closing brace |
| Sections.ErrorTypeShared | src/backend/rust.rs:988-994 | one error type throughout. It is `Vec<TokenKind>` unless the grammar names one, and by default `err!` builds `Err(vec![…])` of token kinds. With a named type `E`, both `err!` and the guard build `Err(E::from(…))`. `parse` returns `Result<_, E>` |
| Sections.RoutineErrorType | src/backend/rust.rs:302-308 | the signature of every `start` and rule routine returns `Result<_, E>` for the error type it is given |
| Sections.StartArgsPaired | src/backend/rust.rs:995-1006 | the forwarding call has extra arguments exactly when `parse` declares extra parameters |
| Sections.StartArgsForward | src/backend/rust.rs:995-1006 | when the extra parameters are a plain declaration list, the forwarding arguments are exactly its names |
| Sections.ParseDropsStartArgs | src/backend/rust.rs:1012-1014 | as written, when a `Start` declares parameters, `parse` calls `start` with only the common arguments, which differs from the forwarding call |
| Sections.ParseForwardsStartArgs | src/backend/rust.rs:1012-1014 | corrected: some `Start` declares the plain parameters `ps` that `parse` declares, and the call passes exactly their names after the common arguments |
| Emitter.OutputPreamble | src/backend/rust.rs:748-761 | appends exactly `PreambleWrites` |
| Emitter.OutputPreambleLines | src/backend/rust.rs:752-755 | the loop appends each trimmed line and a newline |
| Emitter.OutputEntries | src/backend/rust.rs:785-800 | the loop over the arena appends the entries of the listed tokens |
| Emitter.OutputEntry | src/backend/rust.rs:786-799 | one arena element appends its entry, or nothing for a non-token or a hidden token of a listing that skips them |
| Emitter.OutputListing | src/backend/rust.rs:764-780 | a head, the entries, a tail |
| Emitter.OutputTokens | src/backend/rust.rs:764-780 | appends exactly `TokensWrites` |
| Emitter.OutputPatterns | src/backend/rust.rs:783-802 | appends exactly `PatternsWrites` |
| Emitter.OutputDefaults | src/backend/rust.rs:805-828 | appends exactly `DefaultsWrites` |
| Emitter.OutputConsumes | src/backend/rust.rs:892-934 | appends exactly `ConsumesWrites` |
| Emitter.OutputDisplay | src/backend/rust.rs:937-966 | appends exactly `DisplayWrites` |
| Emitter.OutputError | src/backend/rust.rs:830-840 | appends exactly `ErrorWrites` |
| Emitter.OutputCheckLimit | src/backend/rust.rs:842-889 | appends exactly `CheckLimitWrites` |
| Emitter.OutputAction | src/backend/rust.rs:309-325 | the routine's semantic action, when it resolves |
| Emitter.OutputRoutineHead | src/backend/rust.rs:286-325 | a signature, the depth guard for a rule, the action |
| Emitter.OutputElement | src/backend/rust.rs:275-379 | appends exactly `ElementWrites` |
| Emitter.OutputElements | src/backend/rust.rs:1024-1026 | the loop appends every element's routine, in arena order |
| Emitter.StartSignature | src/backend/rust.rs:995-1006 | the loop over the arena computes `StartRet` and `StartPars` |
| Emitter.CommonParameters | src/backend/rust.rs:970-987 | the common parameters and arguments |
| Emitter.OutputParser | src/backend/rust.rs:969-1028 | appends exactly `ParserWrites` |
| Runtime.Skip | src/backend/rust.rs:445-451 | skipping stops, if at all, at a position not before the start where the loop stops, with no more fuel than it had |
| Runtime.Dispatch | src/backend/rust.rs:541-561 | the index of the arm a `match` takes, at most the number of arms |
| Runtime.DispatchIsFirst | src/backend/rust.rs:541-561 | the arm taken is taken and no earlier arm is |
| Runtime.RunArmsSelected | src/backend/rust.rs:533-575 | an `Or` runs the first operand that is no error handler and whose pattern and guard hold, and else fails with its own `predict` |
| Runtime.SelectedIsDispatched | src/backend/rust.rs:541-561 | that operand is the arm the emitted `match` takes |
| Runtime.OrTakesFirstArm | src/backend/rust.rs:533-575 | running an `Or` runs the first of its emitted arms whose pattern and guard hold, or fails with the node's `predict`, inside recovery when there is an error regex |
| Runtime.PlusFirstRound | src/backend/rust.rs:605-640 | on the first round, a token the operand cannot start fails with the node's `first`, even when it is in `follow` |
| Runtime.PlusLaterRounds | src/backend/rust.rs:605-640 | after the first round a `Plus` behaves as a `Star` of its operand |
| Runtime.PlusIsOneThenStar | src/backend/rust.rs:605-640 | a successful `Plus` entered its operand once, then ran as a `Star` from where that stopped |
| Runtime.Reraised | src/backend/rust.rs:433-437 | the `cancel` arm's `Err(error_code)` is the original failure, of the same kind and with the same expected kinds, at the token reached |
| Runtime.RecoverPassesOn | src/backend/rust.rs:410-413 | a body that succeeded, panicked or ran out of fuel, or any `Err` at `EOF`, is passed on unchanged |
| Runtime.RecoverResyncs | src/backend/rust.rs:409-417 | any `Err` before `EOF`, a depth overflow included, starts the loop at the token where it happened |
| Runtime.SkipPasses | src/backend/rust.rs:445-451 | skipping over tokens at which the loop does not stop costs one fuel each |
| Runtime.StopsExactly | src/backend/rust.rs:418-444 | the loop leaves at exactly the kinds `follow` matches and, when the `cancel` arm is emitted, those `cancel` matches |
| Runtime.ResyncStops | src/backend/rust.rs:418-444 | `follow` is tested first and runs the error regex. `cancel` alone re-raises the original error there |
| Runtime.ResyncSkips | src/backend/rust.rs:444-451 | `n` tokens at which the loop does not stop leave it where it was, `n` tokens on and with `n` fuel fewer |
| Runtime.RecoverResumes | src/backend/rust.rs:402-453 | after an `Err` before `EOF` and `n` tokens outside `follow` and `cancel`, recovery is the loop started `n` tokens on |
| Runtime.PlusLaterRound | src/backend/rust.rs:605-640 | a later round whose operand's arm is not taken ends the loop at a `follow` token and otherwise fails expecting `first` then `follow` |
| Runtime.GuardFires | src/backend/rust.rs:862-880 | a call of a rule at `depth` runs its body at `depth + 1` unless `depth + 1` exceeds the limit, where it overflows: an `Err` with an error type and a panic without |
| Runtime.SelfCallOverflows | src/backend/rust.rs:474 | a rule whose body is a call of itself overflows, whatever the input, once it has more fuel than calls left below the limit: the call that would run it at `limit + 1` fires the guard |
| Runtime.DrainedOverflowPassesOn | src/backend/rust.rs:410-413 | when `finalize` leaves the stream at `EOF`, recovery passes the depth error on |
| Runtime.OverflowRecovered | src/backend/rust.rs:402-444 | otherwise, at a `follow` token, recovery runs the error regex and the node succeeds where it ends |
| Runtime.ParseConsumesInput | src/backend/rust.rs:1012-1018 | when no token is itself `EOF`, a successful `parse` has consumed the whole input, and a start routine that stops before the end makes `parse` fail expecting `EOF` |

## Left out

- I/O errors of `write_all`: writes are infallible appends to the write log.
- The panics of the generator write nothing further. These are `unwrap` of an unresolved
  element, `ops[0]` of an empty `Concat`, and three `unreachable!()` sites: an identifier
  that is neither rule nor token, a `Str` whose element is not a token (src/backend/rust.rs:498), and
  an `output_preamble` element that is not a `Preamble` (src/backend/rust.rs:757). In `get_predicate`, an empty `Concat` gives no guard.
- `create_parser` and the other `create_*` functions: file and directory creation and the
  fixed templates they copy.
- The frontend computes `first`, `follow`, `predict`, `cancel`, `used` and the symbol
  interning. These are given as fields of the grammar.
- `str::lines` is modelled on `'\n'` only, without `'\r\n'`. `trim` is modelled on four
  white-space characters (space, tab, `'\n'` and `'\r'`), not on the rest of Unicode's,
  form feed and vertical tab included.
- Code snippets, types and parameter lists are opaque strings.
- Runtime: a predicate guard is modelled as membership of its code in a set of codes that
  hold. Semantic actions, error-handler code and token payloads have no effect. An action
  or error handler that does not resolve is emitted as a `todo!` and so panics.
- Runtime: what `finalize` does to the token stream is left to the stream. The
  interpreter takes it as a parameter: `drains` says that the stream then stands at
  `EOF`, and otherwise it stays where the guard fired.
- Runtime: the depth is an unbounded `nat`, while the emitted routines declare
  `depth: u16`. So grammar limits of 65535 and above are not modelled. For those, the
  emitted guard can never fire, `depth + 1` can overflow, and a limit above 65535 does not
  even fit the `u16` comparison. `Runtime.GuardFires` and `Runtime.SelfCallOverflows` hold
  only for the unbounded counter.
- Runtime: fuel bounds loops and rule recursion besides the depth guard, and running out
  is its own outcome, `Exhausted`.
- Runtime.Skip: the resynchronisation loop can spin at `EOF` when neither `follow` nor
  `cancel` contains it. The model then ends as `Exhausted`, as it does when the fuel runs out.
- `Indent` for `String`: it only delegates to the `&str` implementation.

## Findings

| source | as written | input that shows it | evidently intended | confidence | as-written member | corrected member |
|---|---|---|---|---|---|---|
| src/backend/rust.rs:464-475 | with no common arguments, a rule's own arguments follow `input` with no separator | a grammar with no `Parameters` element calling a rule declared with `x: u8` renders `Self::r#rule(depth + 1, inputx)?` | the rule's arguments always follow `input` after `", "` | not executed | Compiler.RuleCallGlued, Arguments.CallArgsAsWrittenGlues | Arguments.CallArgs, Arguments.CallArgsSeparated |
| src/backend/rust.rs:1012-1014 | `parse` declares the `Start` element's parameters but calls `start` with only the common arguments | a grammar whose `Start` declares `x: u8` renders `pub fn parse<Input: TokenStream>(input: &mut Input, x: u8)`, which calls `Self::start(0, input)?`. That call does not match `fn start<Input: TokenStream>(depth: u16, input: &mut Input, x: u8)` | `parse` passes its `Start` parameters' names on to `start` | not executed | Sections.ParserEntry, Sections.ParseDropsStartArgs | Sections.ParseLinesForwarding, Sections.ParseForwardsStartArgs, Sections.StartArgsForward |

The compiler writes rule calls as the code does (`Compiler.RuleCall` uses
`Arguments.CallArgsAsWritten`), so every write log the emitters produce carries the
glued arguments. The corrected tail `Arguments.CallArgs` is stated beside it and used by
no emitter. Likewise `Sections.ParserWrites` writes the entry point as the code does.
The forwarding entry point `Sections.ParseLinesForwarding` is stated beside it and used
by no emitter.
