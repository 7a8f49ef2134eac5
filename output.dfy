/**
 * The generated `parser.rs` as an output file that the generator writes to, and the
 * regex compiler (`output_regex`, `output_error_handler`) writing into it piece by
 * piece, each method proved to make exactly the writes its function describes.
 */
module Output {
  import opened Wrappers
  import opened Text
  import opened Indentation
  import opened Pieces
  import opened Grammar
  import opened Compiler

  /** The `File` the generator writes to, as the sequence of its `write_all` calls. */
  class ParserFile {
    var writes: seq<Piece>

    constructor ()
      ensures writes == []
    {
      writes := [];
    }

    /** The file's content. */
    function Contents(): string
      reads this
    {
      Render(writes)
    }

    /** `output.write_all(s)`, with its I/O failure left out. */
    method Write(s: string)
      modifies this
      ensures writes == old(writes) + [Plain(s)]
    {
      writes := writes + [Plain(s)];
    }

    /** `output.write_all(s.indent(level))`. */
    method WriteIndented(s: string, level: nat)
      modifies this
      ensures writes == old(writes) + [Block(s, level)]
    {
      writes := writes + [Block(s, level)];
    }

    /** `output_regex`. */
    method OutputRegex(es: seq<Element>, r: Regex, commonArgs: string, level: nat)
      requires level >= 1
      modifies this
      ensures writes == old(writes) + Compiled(es, r, commonArgs, level)
      decreases r, 2
    {
      if r.Concat? {
        OutputConcat(es, r, commonArgs, level);
      } else if r.Or? {
        OutputOr(es, r, commonArgs, level);
      } else if r.Star? {
        OutputStar(es, r, commonArgs, level);
      } else if r.Plus? {
        OutputPlus(es, r, commonArgs, level);
      } else if r.Optional? {
        OutputOption(es, r, commonArgs, level);
      } else {
        OutputLeaf(es, r, commonArgs, level);
      }
    }

    /** The cases of `output_regex` for nodes without operands of their own, and `Paren`. */
    method OutputLeaf(es: seq<Element>, r: Regex, commonArgs: string, level: nat)
      requires level >= 1
      requires !(r.Concat? || r.Or? || r.Star? || r.Plus? || r.Optional?)
      modifies this
      ensures writes == old(writes) + LeafWrites(es, r, commonArgs, level)
      decreases r, 1
    {
      var outer: nat := level - 1;
      match r
      case Id(_, name, elem) =>
        match Get(es, elem) {
          case Some(Element(_, Rule(_, _, pars, _, _))) => WriteIndented(RuleCall(name.name, commonArgs, pars), level);
          case Some(Element(_, Token(_, _, _))) => WriteIndented(ConsumeCall(name.name), level);
          case _ =>
        }
      case Str(_, elem) =>
        match Get(es, elem) {
          case Some(Element(_, Token(tok, _, _))) => WriteIndented(ConsumeCall(tok.name), level);
          case _ =>
        }
      case Paren(_, op) => OutputRegex(es, op, commonArgs, level);
      case Action(ann, val, elem) =>
        WriteIndented(SpliceText("semantic action", val, ann.start, ActionCodeOf(es, elem)), outer);
      case ErrorHandler(ann, val, elem) =>
        WriteIndented(SpliceText("error handler", val, ann.start, HandlerCodeOf(es, elem)), outer);
      case Predicate(_, _, _) =>
    }

    /** The `Star` case: a loop that runs the operand while the next token can start it. */
    method OutputStar(es: seq<Element>, r: Regex, commonArgs: string, level: nat)
      requires r.Star? && level >= 1
      modifies this
      ensures writes == old(writes) + StarWrites(es, r, commonArgs, level)
      decreases r, 1
    {
      ghost var o := writes;
      var head := Block(StarHead(r.op.ann.first, GetPredicate(es, r.op)), level);
      WriteIndented(head.s, level);
      OutputRegex(es, r.op, commonArgs, level + 3);
      ghost var body := Compiled(es, r.op, commonArgs, level + 3);
      PiecesAssoc(o, [head], body);
      var tail := Block(StarTail(r.ann.follow, r.ann.predict), level);
      WriteIndented(tail.s, level);
      PiecesAssoc(o, [head] + body, [tail]);
    }

    /** The `Plus` case: the operand once, then a loop like `Star`'s. */
    method OutputPlus(es: seq<Element>, r: Regex, commonArgs: string, level: nat)
      requires r.Plus? && level >= 1
      modifies this
      ensures writes == old(writes) + PlusWrites(es, r, commonArgs, level)
      decreases r, 1
    {
      ghost var o := writes;
      var head := Block(PlusHead(r.op.ann.first, GetPredicate(es, r.op)), level);
      WriteIndented(head.s, level);
      OutputRegex(es, r.op, commonArgs, level + 3);
      ghost var body := Compiled(es, r.op, commonArgs, level + 3);
      PiecesAssoc(o, [head], body);
      var tail := Block(PlusTail(r.ann.first, r.ann.follow), level);
      WriteIndented(tail.s, level);
      PiecesAssoc(o, [head] + body, [tail]);
    }

    /** The recovery closure's opening of a `Concat` or an `Or`; the level inside it. */
    method OutputOpening(r: Regex, level: nat) returns (lv: nat)
      requires r.Concat? || r.Or?
      modifies this
      ensures writes == old(writes) + Opening(r, level)
      ensures lv == if r.error.Some? then level + 1 else level
    {
      lv := level;
      if r.error.Some? {
        WriteIndented("(|| {\n", level);
        lv := level + 1;
      } else {
        PiecesEmpty(writes);
      }
    }

    /** The recovery closure's end of a `Concat` or an `Or`, when it has an error regex. */
    method OutputClosing(es: seq<Element>, r: Regex, commonArgs: string, lv: nat)
      requires (r.Concat? || r.Or?) && lv >= 1
      modifies this
      ensures writes == old(writes) + (if r.error.Some? then RecoveryWrites(es, r.error.value, commonArgs, lv) else [])
      decreases r, 0
    {
      if r.error.Some? {
        OutputErrorHandler(es, r.error.value, commonArgs, lv);
      } else {
        PiecesEmpty(writes);
      }
    }

    /** The `Concat` case: the operands in order, then the recovery closure, if any. */
    method OutputConcat(es: seq<Element>, r: Regex, commonArgs: string, level: nat)
      requires r.Concat? && level >= 1
      modifies this
      ensures writes == old(writes) + ConcatWrites(es, r, commonArgs, level)
      decreases r, 1
    {
      ghost var o := writes;
      var lv := OutputOpening(r, level);
      OutputOperands(es, r.ops, commonArgs, lv);
      OutputClosing(es, r, commonArgs, lv);
      PiecesAssoc(o, Opening(r, level), SeqWrites(es, r.ops, |r.ops|, commonArgs, lv));
      PiecesAssoc(o, Opening(r, level) + SeqWrites(es, r.ops, |r.ops|, commonArgs, lv),
        if r.error.Some? then RecoveryWrites(es, r.error.value, commonArgs, lv) else []);
    }

    /** The loop of the `Concat` case over its operands. */
    method OutputOperands(es: seq<Element>, ops: seq<Regex>, commonArgs: string, level: nat)
      requires level >= 1
      modifies this
      ensures writes == old(writes) + SeqWrites(es, ops, |ops|, commonArgs, level)
      decreases ops, 2
    {
      ghost var o := writes;
      for i := 0 to |ops|
        invariant writes == o + SeqWrites(es, ops, i, commonArgs, level)
      {
        OutputOperand(es, ops[i], commonArgs, level);
        PiecesAssoc(o, SeqWrites(es, ops, i, commonArgs, level), OpWrites(es, ops[i], commonArgs, level));
      }
    }

    /** One operand of a `Concat`. */
    method OutputOperand(es: seq<Element>, op: Regex, commonArgs: string, level: nat)
      requires level >= 1
      modifies this
      ensures writes == old(writes) + OpWrites(es, op, commonArgs, level)
      decreases op, 4
    {
      if op.ErrorHandler? {
        WriteIndented(FollowCheck(op.ann.follow), level);
      } else {
        OutputRegex(es, op, commonArgs, level);
      }
    }

    /** The `Or` case: a `match` with one arm per operand that is not an error handler. */
    method OutputOr(es: seq<Element>, r: Regex, commonArgs: string, level: nat)
      requires r.Or? && level >= 1
      modifies this
      ensures writes == old(writes) + OrWrites(es, r, commonArgs, level)
      decreases r, 1
    {
      ghost var o := writes;
      var lv := OutputOpening(r, level);
      var dispatch := Block("match input.current().kind {\n", lv);
      WriteIndented(dispatch.s, lv);
      ghost var head := o + Opening(r, level) + [dispatch];
      for i := 0 to |r.ops|
        invariant writes == head + ArmsWrites(es, r.ops, i, r.error.Some?, commonArgs, lv)
      {
        var op := r.ops[i];
        if !Dispatched(op) {
          PiecesEmpty(head + ArmsWrites(es, r.ops, i, r.error.Some?, commonArgs, lv));
          continue;
        }
        OutputArm(es, op, r.error.Some?, commonArgs, lv);
        PiecesAssoc(head, ArmsWrites(es, r.ops, i, r.error.Some?, commonArgs, lv), ArmWrites(es, op, r.error.Some?, commonArgs, lv));
      }
      var footer := Block(OrFooter(r.ann.predict), lv);
      WriteIndented(footer.s, lv);
      OutputClosing(es, r, commonArgs, lv);
      ghost var arms := ArmsWrites(es, r.ops, |r.ops|, r.error.Some?, commonArgs, lv);
      ghost var close := if r.error.Some? then RecoveryWrites(es, r.error.value, commonArgs, lv) else [];
      OrAssoc(o, Opening(r, level), [dispatch], arms, [footer], close);
    }

    /** One dispatch arm of an `Or`. */
    method OutputArm(es: seq<Element>, op: Regex, withOk: bool, commonArgs: string, level: nat)
      requires level >= 1
      modifies this
      ensures writes == old(writes) + ArmWrites(es, op, withOk, commonArgs, level)
      decreases op, 4
    {
      ghost var o := writes;
      var head := Block(ArmHead(op.ann.predict, GetPredicate(es, op)), level + 1);
      WriteIndented(head.s, level + 1);
      OutputRegex(es, op, commonArgs, level + 2);
      ghost var body := Compiled(es, op, commonArgs, level + 2);
      PiecesAssoc(o, [head], body);
      if withOk {
        WriteIndented("Ok(())\n", level + 2);
      } else {
        PiecesEmpty(o + [head] + body);
      }
      PiecesAssoc(o, [head] + body, ArmOk(withOk, level + 2));
      var close := Block("}\n", level + 1);
      WriteIndented(close.s, level + 1);
      PiecesAssoc(o, [head] + body + ArmOk(withOk, level + 2), [close]);
    }

    /** The `Option` case: a `match` binding the operand's value when it has a name. */
    method OutputOption(es: seq<Element>, r: Regex, commonArgs: string, level: nat)
      requires r.Optional? && level >= 1
      modifies this
      ensures writes == old(writes) + OptionWrites(es, r, commonArgs, level)
      decreases r, 1
    {
      ghost var o := writes;
      var name := OptionName(es, r.op);
      var head := Block(OptionHead(name, r.op.ann.first, GetPredicate(es, r.op)), level);
      WriteIndented(head.s, level);
      OutputRegex(es, r.op, commonArgs, level + 2);
      ghost var body := Compiled(es, r.op, commonArgs, level + 2);
      PiecesAssoc(o, [head], body);
      if name != "" {
        WriteIndented("Some(" + name + ")\n", level + 2);
      } else {
        PiecesEmpty(o + [head] + body);
      }
      PiecesAssoc(o, [head] + body, OptionSome(name, level + 2));
      var tail := Block(OptionTail(name, r.ann.follow, r.ann.predict), level);
      WriteIndented(tail.s, level);
      PiecesAssoc(o, [head] + body + OptionSome(name, level + 2), [tail]);
    }

    /** `output_error_handler`. */
    method OutputErrorHandler(es: seq<Element>, h: Regex, commonArgs: string, level: nat)
      requires level >= 1
      modifies this
      ensures writes == old(writes) + RecoveryWrites(es, h, commonArgs, level)
      decreases h, 3
    {
      var outer: nat := level - 1;
      ghost var o := writes;
      var head := Block(ResyncHead(h.ann.follow), outer);
      WriteIndented(head.s, outer);
      OutputRegex(es, h, commonArgs, level + 3);
      ghost var body := Compiled(es, h, commonArgs, level + 3);
      PiecesAssoc(o, [head], body);
      var resume := Block(ResyncResume, outer);
      WriteIndented(resume.s, outer);
      PiecesAssoc(o, [head] + body, [resume]);
      if h.ann.cancel != [] {
        WriteIndented(ResyncCancel(h.ann.cancel), outer);
      } else {
        PiecesEmpty(o + [head] + body + [resume]);
      }
      PiecesAssoc(o, [head] + body + [resume], Cancel(h, outer));
      var skip := Block(ResyncSkip, outer);
      WriteIndented(skip.s, outer);
      PiecesAssoc(o, [head] + body + [resume] + Cancel(h, outer), [skip]);
    }
  }

  lemma OrAssoc(o: seq<Piece>, a: seq<Piece>, b: seq<Piece>, c: seq<Piece>, d: seq<Piece>, e: seq<Piece>)
    ensures o + a + b + c + d + e == o + (a + b + c + d + e)
  {
  }
}
