/**
 * The emitters of the sections of `parser.rs` outside the rule bodies, each writing to
 * the output file step by step and proved to make exactly the writes of its section.
 */
module Emitter {
  import opened Wrappers
  import opened Text
  import opened Arguments
  import opened Grammar
  import opened Pieces
  import opened Compiler
  import opened Sections
  import opened Output

  /** `output_preamble`. */
  method OutputPreamble(m: Module, out: ParserFile)
    modifies out
    ensures out.writes == old(out.writes) + PreambleWrites(m)
  {
    ghost var o := out.writes;
    match Get(m.elements, m.preamble) {
      case None =>
        out.Write("\n");
      case Some(e) =>
        out.Write("// preamble\n");
        match e.kind {
          case Preamble(code) =>
            var ls := Lines(Trim(code));
            OutputPreambleLines(ls, out);
            out.Write("\n");
            PiecesAssoc(o, [Plain("// preamble\n")], PreambleLines(ls));
            PiecesAssoc(o, [Plain("// preamble\n")] + PreambleLines(ls), [Plain("\n")]);
          case _ =>
        }
    }
  }

  /** The loop of `output_preamble` over the lines of the preamble. */
  method OutputPreambleLines(ls: seq<string>, out: ParserFile)
    modifies out
    ensures out.writes == old(out.writes) + PreambleLines(ls)
  {
    ghost var o := out.writes;
    for i := 0 to |ls|
      invariant out.writes == o + PreambleLines(ls[..i])
    {
      var line := Trim(ls[i]);
      out.Write(line);
      out.Write("\n");
      PreambleLinesStep(o, ls, i);
    }
    assert ls[..|ls|] == ls;
  }

  /**
   * The loop shared by `output_tokens`, `output_patterns`, `output_defaults`,
   * `output_consumes` and `output_display`: the entry of every token element, in arena
   * order, leaving out the hidden ones in the listings that skip them.
   */
  method OutputEntries(es: seq<Element>, k: Listing, out: ParserFile)
    modifies out
    ensures out.writes == old(out.writes) + Entries(k, Listed(k, Tokens(es)))
  {
    ghost var o := out.writes;
    assert Entries(k, Listed(k, Tokens(es[..0]))) == [] by {
      assert es[..0] == [];
    }
    PiecesEmpty(o);
    for i := 0 to |es|
      invariant out.writes == o + Entries(k, Listed(k, Tokens(es[..i])))
    {
      EntriesStep(o, k, es, i);
      OutputEntry(es[i], k, out);
    }
    assert es[..|es|] == es;
  }

  /** One step of that loop: the entry of a token element, unless listing `k` skips it. */
  method OutputEntry(e: Element, k: Listing, out: ParserFile)
    modifies out
    ensures out.writes == old(out.writes) + EntryOf(k, e)
  {
    var kind := e.kind;
    if kind.Token? {
      var t := TokenDecl(kind.name.name, kind.ty, kind.sym);
      if Skips(k) && Hidden(t) {
        return;
      }
      out.Write(Entry(k, t));
    }
  }

  /** A head, the entries of listing `k`, a tail. */
  method OutputListing(es: seq<Element>, head: seq<string>, k: Listing, tail: seq<string>, out: ParserFile)
    modifies out
    ensures out.writes == old(out.writes) + ([Plain(Unlines(head))] + Entries(k, Listed(k, Tokens(es))) + [Plain(Unlines(tail))])
  {
    ghost var o := out.writes;
    out.Write(Unlines(head));
    OutputEntries(es, k, out);
    out.Write(Unlines(tail));
    ghost var body := Entries(k, Listed(k, Tokens(es)));
    PiecesAssoc(o, [Plain(Unlines(head))], body);
    PiecesAssoc(o, [Plain(Unlines(head))] + body, [Plain(Unlines(tail))]);
  }

  /** `output_tokens`. */
  method OutputTokens(m: Module, out: ParserFile)
    modifies out
    ensures out.writes == old(out.writes) + TokensWrites(m.elements)
  {
    OutputListing(m.elements, TokensHead, Variants, TokensTail, out);
  }

  /** `output_patterns`. */
  method OutputPatterns(m: Module, out: ParserFile)
    modifies out
    ensures out.writes == old(out.writes) + PatternsWrites(m.elements)
  {
    OutputListing(m.elements, PatternsHead, Patterns, BlankLine, out);
  }

  /** `output_defaults`. */
  method OutputDefaults(m: Module, out: ParserFile)
    modifies out
    ensures out.writes == old(out.writes) + DefaultsWrites(m.elements)
  {
    OutputListing(m.elements, DefaultsHead, Defaults, BlankLine, out);
  }

  /** `output_consumes`. */
  method OutputConsumes(m: Module, out: ParserFile)
    modifies out
    ensures out.writes == old(out.writes) + ConsumesWrites(m.elements)
  {
    OutputEntries(m.elements, Consumes, out);
    out.Write(Unlines(BlankLine));
  }

  /** `output_display`. */
  method OutputDisplay(m: Module, out: ParserFile)
    modifies out
    ensures out.writes == old(out.writes) + DisplayWrites(m.elements)
  {
    OutputListing(m.elements, DisplayHead, Labels, DisplayTail, out);
  }

  /** `output_error`. */
  method OutputError(m: Module, out: ParserFile)
    modifies out
    ensures out.writes == old(out.writes) + ErrorWrites(m)
  {
    var e := Get(m.elements, m.error);
    if e.Some? && e.value.kind.ErrorCode? {
      out.Write(Unlines(ErrLines(Some(Trim(e.value.kind.code)))));
    } else {
      out.Write(Unlines(ErrLines(None)));
    }
  }

  /** `output_check_limit`. */
  method OutputCheckLimit(m: Module, out: ParserFile)
    modifies out
    ensures out.writes == old(out.writes) + CheckLimitWrites(m)
  {
    var limit: nat := 128;
    var l := Get(m.elements, m.limit);
    if l.Some? && l.value.kind.Limit? {
      limit := l.value.kind.depth;
    }
    var e := Get(m.elements, m.error);
    if e.Some? && e.value.kind.ErrorCode? {
      out.Write(Unlines(CheckLimitLines(limit, Some(Trim(e.value.kind.code)))));
    } else {
      out.Write(Unlines(CheckLimitLines(limit, None)));
    }
  }

  /** The semantic action of a rule, spliced before its body when it resolves. */
  method OutputAction(es: seq<Element>, action: Ref, out: ParserFile)
    modifies out
    ensures out.writes == old(out.writes) + ActionWrites(es, action)
  {
    match Get(es, action) {
      case Some(Element(_, ActionCode(code))) =>
        var spliced := if '\n' in code then code else "    " + Trim(code);
        out.WriteIndented("    // semantic action 0\n" + spliced + "\n", 1);
      case _ =>
        PiecesEmpty(out.writes);
    }
  }

  /** The head of a routine: its signature, the depth guard of a rule, the action. */
  method OutputRoutineHead(es: seq<Element>, e: Element, commonPars: string, errorType: string, out: ParserFile)
    requires e.kind.Start? || e.kind.Rule?
    modifies out
    ensures out.writes == old(out.writes) + RoutineHead(es, e, commonPars, errorType)
  {
    ghost var o := out.writes;
    match e.kind {
      case Start(ret, pars, _, action) =>
        out.Write(Signature("start", commonPars, pars, ret, errorType));
        OutputAction(es, action, out);
        PiecesAssoc(o, [Plain(Signature("start", commonPars, pars, ret, errorType))], ActionWrites(es, action));
      case Rule(name, ret, pars, _, action) =>
        var signature := Signature("r#" + name.name, commonPars, pars, ret, errorType);
        out.Write(signature);
        out.WriteIndented(CheckLimitCall, 2);
        OutputAction(es, action, out);
        PiecesAssoc(o, [Plain(signature), Block(CheckLimitCall, 2)], ActionWrites(es, action));
    }
  }

  /** `output_element`. */
  method OutputElement(es: seq<Element>, e: Element, commonPars: string, commonArgs: string, errorType: string,
                       out: ParserFile)
    modifies out
    ensures out.writes == old(out.writes) + ElementWrites(es, e, commonPars, commonArgs, errorType)
  {
    if !e.used {
      PiecesEmpty(out.writes);
      return;
    }
    if !(e.kind.Start? || e.kind.Rule?) {
      PiecesEmpty(out.writes);
      return;
    }
    ghost var o := out.writes;
    OutputRoutineHead(es, e, commonPars, errorType, out);
    out.OutputRegex(es, e.kind.regex, commonArgs, 2);
    out.Write("    }\n");
    ghost var head := RoutineHead(es, e, commonPars, errorType);
    ghost var body := Compiled(es, e.kind.regex, commonArgs, 2);
    PiecesAssoc(o, head, body);
    PiecesAssoc(o, head + body, [Plain("    }\n")]);
  }

  /** The loop of `output_parser` over the elements. */
  method OutputElements(es: seq<Element>, commonPars: string, commonArgs: string, errorType: string,
                        out: ParserFile)
    modifies out
    ensures out.writes == old(out.writes) + ElementsWrites(es, es, commonPars, commonArgs, errorType)
  {
    ghost var o := out.writes;
    for i := 0 to |es|
      invariant out.writes == o + ElementsWrites(es, es[..i], commonPars, commonArgs, errorType)
    {
      OutputElement(es, es[i], commonPars, commonArgs, errorType, out);
      ElementsSnoc(es, es[..i], es[i], commonPars, commonArgs, errorType);
      assert es[..i + 1] == es[..i] + [es[i]];
      PiecesAssoc(o, ElementsWrites(es, es[..i], commonPars, commonArgs, errorType),
        ElementWrites(es, es[i], commonPars, commonArgs, errorType));
    }
    assert es[..|es|] == es;
  }

  /**
   * The loop of `output_parser` that finds the return type and the extra parameters of
   * the entry point among the `Start` elements.
   */
  method StartSignature(es: seq<Element>) returns (ret: string, pars: string)
    ensures ret == StartRet(es) && pars == StartPars(es)
  {
    ret, pars := "()", "";
    for i := 0 to |es|
      invariant ret == StartRet(es[..i]) && pars == StartPars(es[..i])
    {
      assert es[..i + 1][..i] == es[..i];
      match es[i].kind {
        case Start(r, p, _, _) =>
          if r != "" {
            ret := r;
          }
          if p != "" {
            pars := ", " + p;
          }
        case _ =>
      }
    }
    assert es[..|es|] == es;
  }

  /** The common parameters and arguments `output_parser` computes from `module.parameters`. */
  method CommonParameters(m: Module) returns (commonPars: string, commonArgs: string)
    ensures commonPars == CommonPars(m) && commonArgs == CommonArgs(m)
  {
    commonPars, commonArgs := "", "";
    var p := Get(m.elements, m.parameters);
    if p.Some? && p.value.kind.Parameters? {
      var code := Trim(p.value.kind.code);
      commonPars := ", " + code;
      commonArgs := ", " + ParToArg(code);
    }
  }

  /** The error type `output_parser` computes from `module.error`. */
  method ErrorTypeOf(m: Module) returns (errorType: string)
    ensures errorType == ErrorType(m)
  {
    errorType := "Vec<TokenKind>";
    var e := Get(m.elements, m.error);
    if e.Some? && e.value.kind.ErrorCode? {
      errorType := Trim(e.value.kind.code);
    }
  }

  /** `output_parser`. */
  method OutputParser(m: Module, out: ParserFile)
    modifies out
    ensures out.writes == old(out.writes) + ParserWrites(m)
  {
    var commonPars, commonArgs := CommonParameters(m);
    var errorType := ErrorTypeOf(m);
    var startRet, startPars := StartSignature(m.elements);
    ghost var o := out.writes;
    var head := Unlines(ParseLines(commonPars, startPars, startRet, commonArgs, errorType));
    out.Write(head);
    OutputElements(m.elements, commonPars, commonArgs, errorType, out);
    out.Write("}\n");
    ghost var body := ElementsWrites(m.elements, m.elements, commonPars, commonArgs, errorType);
    PiecesAssoc(o, [Plain(head)], body);
    PiecesAssoc(o, [Plain(head)] + body, [Plain("}\n")]);
  }
}
