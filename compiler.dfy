/**
 * The regex compiler (`output_regex`, `output_error_handler`): the text each node of a
 * rule body compiles to, as functions of the node, the common call arguments and the
 * indentation level.
 */
module Compiler {
  import opened Wrappers
  import opened Text
  import opened Symbols
  import opened Indentation
  import opened Arguments
  import opened Grammar
  import opened Pieces

  /** User code spliced in place: verbatim if it spans lines, else trimmed behind one indentation. */
  function SplicedCode(code: string): string {
    if '\n' in code then code else "    " + Trim(code)
  }

  /**
   * A rule call: the rule's own arguments come after the common ones, at `depth + 1`,
   * with the separator as the code writes it (see `RuleCallGlued`).
   */
  function RuleCall(name: string, commonArgs: string, pars: string): string {
    "let r#" + name + " = Self::r#" + name + "(depth + 1, input" + commonArgs
    + CallArgsAsWritten(commonArgs, ParToArg(pars)) + ")?;\n"
  }

  /** A token match. */
  function ConsumeCall(name: string): string {
    "let r#" + name + " = consume_" + name + "!(input);\n"
  }

  /** An error handler operand of a `Concat`: only a check that the lookahead is in its follow set. */
  function FollowCheck(follow: SymbolSet): string {
    ("match input.current().kind {\n" + "    ") + Pattern(follow, 1) + " => {\n        Ok(())\n    }\n"
    + "    _ => {\n        return err![" + Error(follow, 5) + "]\n    }\n}\n"
  }

  /** The head of an `Or` arm: the branch's predict pattern and its guard. */
  function ArmHead(predict: SymbolSet, guard: string): string {
    Pattern(predict, 0) + guard + " => {\n"
  }

  /** The catch-all of an `Or`: fails with the node's own predict set. */
  function OrFooter(predict: SymbolSet): string {
    "    _ => {\n        return err![" + Error(predict, 5) + "]\n    }\n}\n"
  }

  function StarHead(first: SymbolSet, guard: string): string {
    ("loop {\n" + "    match input.current().kind " + "{\n        ") + Pattern(first, 2) + guard + " => {\n"
  }

  function StarTail(follow: SymbolSet, predict: SymbolSet): string {
    "        }\n        " + Pattern(follow, 2) + " => break,\n        _ => {\n"
    + "            return err![" + Error(predict, 6) + "]\n        }\n    }\n}\n"
  }

  function PlusHead(first: SymbolSet, guard: string): string {
    ("let mut is_first = true;\n" + "loop {\n" + "    match input.current().kind " + "{\n        ")
    + Pattern(first, 2) + guard + " => {\n"
  }

  function PlusTail(first: SymbolSet, follow: SymbolSet): string {
    "        }\n        " + Pattern(follow, 2) + " if !is_first => break,\n"
    + ("        _ if is_first => {\n" + "            return err![") + Error(first, 6) + "]\n        }\n"
    + ("        _ => {\n" + "            return err![") + Error(first, 6) + ",\n                        "
    + Error(follow, 6) + ("]\n        }\n" + "    }\n" + "    is_first = false;\n" + "}\n")
  }

  /** The name an `Option` binds: an identifier's, a literal's token's, or none. */
  function OptionName(es: seq<Element>, op: Regex): string {
    match op
    case Id(_, name, _) => name.name
    case Str(_, elem) =>
      (match Get(es, elem)
       case Some(Element(_, Token(name, _, _))) => name.name
       case _ => "")
    case _ => ""
  }

  function OptionHead(name: string, first: SymbolSet, guard: string): string {
    (if name != "" then "let r#" + name + " = " else "")
    + ("match input.current().kind {\n" + "    ") + Pattern(first, 1) + guard + " => {\n"
  }

  function OptionTail(name: string, follow: SymbolSet, predict: SymbolSet): string {
    "    }\n    " + Pattern(follow, 1) + " => " + (if name != "" then "None," else "{}")
    + "\n    _ => {\n        return err![" + Error(predict, 5) + "]\n    }\n}"
    + (if name != "" then ";" else "") + "\n"
  }

  /**
   * A splice point (`what` is "semantic action" or "error handler"): its comment, then
   * the code, or a `todo!` naming the splice and its position when it does not resolve.
   */
  function SpliceText(what: string, val: nat, at: string, code: Option<string>): string {
    "    // " + what + " " + NatToString(val) + "\n"
    + (if code.Some? then SplicedCode(code.value)
       else "    todo!(\"" + what + " " + NatToString(val) + " at " + at + "\");\n")
    + "\n"
  }

  function ActionCodeOf(es: seq<Element>, r: Ref): Option<string> {
    match Get(es, r)
    case Some(Element(_, ActionCode(code))) => Some(code)
    case _ => None
  }

  function HandlerCodeOf(es: seq<Element>, r: Ref): Option<string> {
    match Get(es, r)
    case Some(Element(_, ErrorHandlerCode(code))) => Some(code)
    case _ => None
  }

  function ResyncHead(follow: SymbolSet): string {
    ("})().or_else(|error_code| {\n" + "    // error handling\n")
    + ("    if input.current().kind == " + "TokenKind::EOF {\n" + "        return Err(error_code);\n" + "    }\n")
    + ("    let error_range = " + "input.current().range;\n" + "    loop {\n" + "        match " + "input.current().kind {\n")
    + "            " + Pattern(follow, 3) + " => {\n"
  }

  const ResyncResume: string := ("                return Ok(())\n" + "            }\n")

  function ResyncCancel(cancel: SymbolSet): string {
    "            " + Pattern(cancel, 3) + (" => {\n" + "                return " + "Err(error_code)\n" + "            }\n")
  }

  const ResyncSkip: string :=
    ("            _ => {\n" + "                input.advance();\n" + "            }\n" + "       }\n   }\n" + "})?;\n")

  /**
   * The writes `output_regex` makes for node `r` at indentation `level`: the recursive
   * definition `RegexWrites`, seen from outside the regex compiler.
   */
  function Compiled(es: seq<Element>, r: Regex, commonArgs: string, level: nat): seq<Piece>
    requires level >= 1
  {
    RegexWrites(es, r, commonArgs, level)
  }

  /** The text `output_regex` appends to the file. */
  function CompiledText(es: seq<Element>, r: Regex, commonArgs: string, level: nat): string
    requires level >= 1
  {
    Render(Compiled(es, r, commonArgs, level))
  }

  /** `output_regex` on node `r`, dispatched on its kind. */
  function RegexWrites(es: seq<Element>, r: Regex, commonArgs: string, level: nat): seq<Piece>
    requires level >= 1
    decreases r, 2
  {
    match r
    case Concat(_, _, _) => ConcatWrites(es, r, commonArgs, level)
    case Or(_, _, _) => OrWrites(es, r, commonArgs, level)
    case Star(_, _) => StarWrites(es, r, commonArgs, level)
    case Plus(_, _) => PlusWrites(es, r, commonArgs, level)
    case Optional(_, _) => OptionWrites(es, r, commonArgs, level)
    case _ => LeafWrites(es, r, commonArgs, level)
  }

  /**
   * The nodes without operands of their own, and `Paren`, which adds nothing: a rule
   * call or a token match for identifiers and literals, the spliced code for semantic
   * actions and error handlers, nothing for predicates (their code is the guard of the
   * enclosing arm). A reference that does not resolve to an element of the expected
   * kind, where the generator panics, writes nothing.
   */
  function LeafWrites(es: seq<Element>, r: Regex, commonArgs: string, level: nat): seq<Piece>
    requires level >= 1
    requires !(r.Concat? || r.Or? || r.Star? || r.Plus? || r.Optional?)
    decreases r, 1
  {
    match r
    case Id(_, name, elem) =>
      (match Get(es, elem)
       case Some(Element(_, Rule(_, _, pars, _, _))) => [Block(RuleCall(name.name, commonArgs, pars), level)]
       case Some(Element(_, Token(_, _, _))) => [Block(ConsumeCall(name.name), level)]
       case _ => [])
    case Str(_, elem) =>
      (match Get(es, elem)
       case Some(Element(_, Token(tok, _, _))) => [Block(ConsumeCall(tok.name), level)]
       case _ => [])
    case Paren(_, op) => RegexWrites(es, op, commonArgs, level)
    case Action(ann, val, elem) =>
      [Block(SpliceText("semantic action", val, ann.start, ActionCodeOf(es, elem)), level - 1)]
    case ErrorHandler(ann, val, elem) =>
      [Block(SpliceText("error handler", val, ann.start, HandlerCodeOf(es, elem)), level - 1)]
    case Predicate(_, _, _) => []
  }

  /** The recovery closure's opening, when the node has an error regex. */
  function Opening(r: Regex, level: nat): seq<Piece>
    requires r.Concat? || r.Or?
  {
    if r.error.Some? then [Block("(|| {\n", level)] else []
  }

  /** A `Concat`: its operands in order, inside a recovery closure when it has an error regex. */
  function ConcatWrites(es: seq<Element>, r: Regex, commonArgs: string, level: nat): seq<Piece>
    requires r.Concat? && level >= 1
    decreases r, 1
  {
    var lv := if r.error.Some? then level + 1 else level;
    Opening(r, level)
    + SeqWrites(es, r.ops, |r.ops|, commonArgs, lv)
    + (if r.error.Some? then RecoveryWrites(es, r.error.value, commonArgs, lv) else [])
  }

  /** An `Or`: a `match` with one arm per dispatched operand and a failing catch-all. */
  function OrWrites(es: seq<Element>, r: Regex, commonArgs: string, level: nat): seq<Piece>
    requires r.Or? && level >= 1
    decreases r, 1
  {
    var lv := if r.error.Some? then level + 1 else level;
    Opening(r, level)
    + [Block("match input.current().kind {\n", lv)]
    + ArmsWrites(es, r.ops, |r.ops|, r.error.Some?, commonArgs, lv)
    + [Block(OrFooter(r.ann.predict), lv)]
    + (if r.error.Some? then RecoveryWrites(es, r.error.value, commonArgs, lv) else [])
  }

  function StarWrites(es: seq<Element>, r: Regex, commonArgs: string, level: nat): seq<Piece>
    requires r.Star? && level >= 1
    decreases r, 1
  {
    [Block(StarHead(r.op.ann.first, GetPredicate(es, r.op)), level)]
    + RegexWrites(es, r.op, commonArgs, level + 3)
    + [Block(StarTail(r.ann.follow, r.ann.predict), level)]
  }

  function PlusWrites(es: seq<Element>, r: Regex, commonArgs: string, level: nat): seq<Piece>
    requires r.Plus? && level >= 1
    decreases r, 1
  {
    [Block(PlusHead(r.op.ann.first, GetPredicate(es, r.op)), level)]
    + RegexWrites(es, r.op, commonArgs, level + 3)
    + [Block(PlusTail(r.ann.first, r.ann.follow), level)]
  }

  /** The value an `Option` yields when its operand ran: `Some(name)` if it binds a name. */
  function OptionSome(name: string, level: nat): seq<Piece> {
    if name != "" then [Block("Some(" + name + ")\n", level)] else []
  }

  function OptionWrites(es: seq<Element>, r: Regex, commonArgs: string, level: nat): seq<Piece>
    requires r.Optional? && level >= 1
    decreases r, 1
  {
    var name := OptionName(es, r.op);
    [Block(OptionHead(name, r.op.ann.first, GetPredicate(es, r.op)), level)]
    + RegexWrites(es, r.op, commonArgs, level + 2)
    + OptionSome(name, level + 2)
    + [Block(OptionTail(name, r.ann.follow, r.ann.predict), level)]
  }

  /** The operands `ops[..n]` of a `Concat`, in order. */
  function SeqWrites(es: seq<Element>, ops: seq<Regex>, n: nat, commonArgs: string, level: nat): seq<Piece>
    requires n <= |ops| && level >= 1
    decreases ops, 1, n
  {
    if n == 0 then [] else SeqWrites(es, ops, n - 1, commonArgs, level) + OpWrites(es, ops[n - 1], commonArgs, level)
  }

  /** One operand of a `Concat`: an error handler operand only checks the follow set. */
  function OpWrites(es: seq<Element>, op: Regex, commonArgs: string, level: nat): seq<Piece>
    requires level >= 1
    decreases op, 3
  {
    if op.ErrorHandler? then [Block(FollowCheck(op.ann.follow), level)]
    else RegexWrites(es, op, commonArgs, level)
  }

  /** Whether an `Or` operand gets a dispatch arm. */
  predicate Dispatched(op: Regex) {
    !op.ErrorHandler?
  }

  /** `Ok(())` at the end of an arm of an `Or` that recovers. */
  function ArmOk(withOk: bool, level: nat): seq<Piece> {
    if withOk then [Block("Ok(())\n", level)] else []
  }

  /** One dispatch arm of an `Or`, marking success with `Ok(())` when the `Or` recovers. */
  function ArmWrites(es: seq<Element>, op: Regex, withOk: bool, commonArgs: string, level: nat): seq<Piece>
    requires level >= 1
    decreases op, 3
  {
    [Block(ArmHead(op.ann.predict, GetPredicate(es, op)), level + 1)]
    + RegexWrites(es, op, commonArgs, level + 2)
    + ArmOk(withOk, level + 2)
    + [Block("}\n", level + 1)]
  }

  /** The arms for the operands `ops[..n]` of an `Or`, in order. */
  function ArmsWrites(es: seq<Element>, ops: seq<Regex>, n: nat, withOk: bool, commonArgs: string, level: nat): seq<Piece>
    requires n <= |ops| && level >= 1
    decreases ops, 1, n
  {
    if n == 0 then []
    else
      ArmsWrites(es, ops, n - 1, withOk, commonArgs, level)
      + (if Dispatched(ops[n - 1]) then ArmWrites(es, ops[n - 1], withOk, commonArgs, level) else [])
  }

  /** The operands of an `Or` that get a dispatch arm, in order. */
  function ArmOperands(ops: seq<Regex>): (ds: seq<Regex>)
    ensures |ds| <= |ops|
    ensures forall op :: op in ds <==> op in ops && Dispatched(op)
  {
    if ops == [] then []
    else
      var last := ops[|ops| - 1];
      assert ops == ops[..|ops| - 1] + [last];
      ArmOperands(ops[..|ops| - 1]) + (if Dispatched(last) then [last] else [])
  }

  lemma {:induction false} ArmOperandsAppend(a: seq<Regex>, b: seq<Regex>)
    ensures ArmOperands(a + b) == ArmOperands(a) + ArmOperands(b)
    decreases |b|
  {
    if b == [] {
      assert a + b == a;
    } else {
      var last := b[|b| - 1];
      var front := b[..|b| - 1];
      assert (a + b)[..|a + b| - 1] == a + front;
      assert (a + b)[|a + b| - 1] == last;
      ArmOperandsAppend(a, front);
    }
  }

  /** The arms of the operands `ds`, one after the other. */
  function ArmSequence(es: seq<Element>, ds: seq<Regex>, withOk: bool, commonArgs: string, level: nat): seq<Piece>
    requires level >= 1
  {
    if ds == [] then []
    else ArmSequence(es, ds[..|ds| - 1], withOk, commonArgs, level) + ArmWrites(es, ds[|ds| - 1], withOk, commonArgs, level)
  }

  lemma ArmSequenceSnoc(es: seq<Element>, ds: seq<Regex>, tail: seq<Regex>, withOk: bool, commonArgs: string, level: nat)
    requires level >= 1 && |tail| <= 1
    ensures ArmSequence(es, ds + tail, withOk, commonArgs, level)
      == ArmSequence(es, ds, withOk, commonArgs, level) + (if tail == [] then [] else ArmWrites(es, tail[0], withOk, commonArgs, level))
  {
    if tail == [] {
      assert ds + tail == ds;
    } else {
      assert (ds + tail)[..|ds + tail| - 1] == ds;
    }
  }

  /**
   * The arms of an `Or` are the arms of its dispatched operands, in the operands' order
   * and nothing else: error handler operands get none.
   */
  lemma {:induction false} ArmsWritesInOrder(es: seq<Element>, ops: seq<Regex>, n: nat, withOk: bool, commonArgs: string, level: nat)
    requires n <= |ops| && level >= 1
    ensures ArmsWrites(es, ops, n, withOk, commonArgs, level) == ArmSequence(es, ArmOperands(ops[..n]), withOk, commonArgs, level)
  {
    if n > 0 {
      var pre := ops[..n - 1];
      var op := ops[n - 1];
      var tail := if Dispatched(op) then [op] else [];
      assert ops[..n][..n - 1] == pre;
      assert ArmOperands(ops[..n]) == ArmOperands(pre) + tail;
      calc {
        ArmsWrites(es, ops, n, withOk, commonArgs, level);
        ArmsWrites(es, ops, n - 1, withOk, commonArgs, level) + (if Dispatched(op) then ArmWrites(es, op, withOk, commonArgs, level) else []);
        { ArmsWritesInOrder(es, ops, n - 1, withOk, commonArgs, level); }
        ArmSequence(es, ArmOperands(pre), withOk, commonArgs, level) + (if Dispatched(op) then ArmWrites(es, op, withOk, commonArgs, level) else []);
        { ArmSequenceSnoc(es, ArmOperands(pre), tail, withOk, commonArgs, level); }
        ArmSequence(es, ArmOperands(pre) + tail, withOk, commonArgs, level);
      }
    } else {
      assert ops[..0] == [];
    }
  }

  /**
   * An `Or` writes exactly one arm per operand that is not an error handler, in operand
   * order, between the opening `match` and the catch-all that fails with the node's own
   * predict set; the arms end with `Ok(())` exactly when the node recovers.
   */
  lemma OrArms(es: seq<Element>, r: Regex, commonArgs: string, level: nat)
    requires r.Or? && level >= 1
    ensures var lv := if r.error.Some? then level + 1 else level;
      Compiled(es, r, commonArgs, level)
      == Opening(r, level)
      + [Block("match input.current().kind {\n", lv)]
      + ArmSequence(es, ArmOperands(r.ops), r.error.Some?, commonArgs, lv)
      + [Block(OrFooter(r.ann.predict), lv)]
      + (if r.error.Some? then RecoveryWrites(es, r.error.value, commonArgs, lv) else [])
  {
    var lv := if r.error.Some? then level + 1 else level;
    assert Compiled(es, r, commonArgs, level) == OrWrites(es, r, commonArgs, level);
    assert r.ops[..|r.ops|] == r.ops;
    ArmsWritesInOrder(es, r.ops, |r.ops|, r.error.Some?, commonArgs, lv);
  }

  /**
   * An identifier that resolves to a rule compiles to one call of the rule's routine,
   * one level deeper than the caller, passing the input and then the common arguments.
   */
  lemma RuleCallDepth(es: seq<Element>, r: Regex, commonArgs: string, level: nat)
    requires level >= 1 && r.Id? && IsRule(es, r.elem)
    ensures var n := r.name.name;
      var call := "let r#" + n + " = Self::r#" + n + "(depth + 1, input" + commonArgs;
      exists c :: Compiled(es, r, commonArgs, level) == [Block(c, level)] && |call| <= |c| && c[..|call|] == call
  {
    var n := r.name.name;
    var call := "let r#" + n + " = Self::r#" + n + "(depth + 1, input" + commonArgs;
    var c := RuleCall(n, commonArgs, Get(es, r.elem).value.kind.pars);
    assert c == call + (CallArgsAsWritten(commonArgs, ParToArg(Get(es, r.elem).value.kind.pars)) + ")?;\n");
    assert c[..|call|] == call;
    assert Compiled(es, r, commonArgs, level) == LeafWrites(es, r, commonArgs, level);
    assert Get(es, r.elem).Some? && Get(es, r.elem).value.kind.Rule?;
    assert LeafWrites(es, r, commonArgs, level) == [Block(c, level)];
  }

  /**
   * With no common arguments, a call of a rule that takes arguments writes them right
   * after `input`, with no separator.
   */
  lemma RuleCallGlued(es: seq<Element>, r: Regex, level: nat)
    requires level >= 1 && r.Id? && IsRule(es, r.elem) && ParToArg(Get(es, r.elem).value.kind.pars) != ""
    ensures var n := r.name.name;
      Compiled(es, r, "", level)
      == [Block("let r#" + n + " = Self::r#" + n + "(depth + 1, input" + ParToArg(Get(es, r.elem).value.kind.pars) + ")?;\n", level)]
  {
    var n, args := r.name.name, ParToArg(Get(es, r.elem).value.kind.pars);
    assert RuleCall(n, "", Get(es, r.elem).value.kind.pars)
      == "let r#" + n + " = Self::r#" + n + "(depth + 1, input" + args + ")?;\n";
    assert Compiled(es, r, "", level) == LeafWrites(es, r, "", level);
  }

  /** The token kinds that end recovery by giving up, when the error regex has any. */
  function Cancel(h: Regex, level: nat): seq<Piece> {
    if h.ann.cancel != [] then [Block(ResyncCancel(h.ann.cancel), level)] else []
  }

  /** `output_error_handler`: the recovery closure for the error regex `h`. */
  function RecoveryWrites(es: seq<Element>, h: Regex, commonArgs: string, level: nat): seq<Piece>
    requires level >= 1
    decreases h, 3
  {
    [Block(ResyncHead(h.ann.follow), level - 1)]
    + RegexWrites(es, h, commonArgs, level + 3)
    + [Block(ResyncResume, level - 1)]
    + Cancel(h, level - 1)
    + [Block(ResyncSkip, level - 1)]
  }
}
