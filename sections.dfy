/**
 * The sections of the generated `parser.rs` that do not come from rule bodies: the
 * preamble, the `TokenKind` enumeration and its macros, the error and depth-limit
 * macros, the `Display` implementation and the `Parser` with one routine per rule.
 * Each section is the sequence of writes its emitter makes; every template is given
 * as its list of lines.
 */
module Sections {
  import opened Wrappers
  import opened Text
  import opened Symbols
  import opened Arguments
  import opened Grammar
  import opened Pieces
  import opened Compiler

  /** A token element as the emitters read it: its name, value type and display symbol. */
  datatype TokenDecl = TokenDecl(name: string, ty: string, sym: string)

  /** The declaration of `e` when it is a token element. */
  function TokenOf(e: Element): seq<TokenDecl> {
    match e.kind
    case Token(name, ty, sym) => [TokenDecl(name.name, ty, sym)]
    case _ => []
  }

  /** The token elements of the arena, in arena order. */
  function Tokens(es: seq<Element>): seq<TokenDecl> {
    if es == [] then [] else Tokens(es[..|es| - 1]) + TokenOf(es[|es| - 1])
  }

  lemma TokensSnoc(es: seq<Element>, e: Element)
    ensures Tokens(es + [e]) == Tokens(es) + TokenOf(e)
  {
    assert (es + [e])[..|es|] == es;
  }

  /** The token declarations of two arenas, one after the other, keep the arena order. */
  lemma {:induction false} TokensAppend(a: seq<Element>, b: seq<Element>)
    ensures Tokens(a + b) == Tokens(a) + Tokens(b)
  {
    if b == [] {
      assert a + b == a;
    } else {
      var init, last := b[..|b| - 1], b[|b| - 1];
      assert b == init + [last];
      assert a + b == (a + init) + [last];
      TokensAppend(a, init);
      TokensSnoc(a + init, last);
      TokensSnoc(init, last);
    }
  }

  /** The declarations are exactly those of the token elements of the arena. */
  lemma {:induction false} TokensMembers(es: seq<Element>, t: TokenDecl)
    ensures t in Tokens(es) <==> exists k :: 0 <= k < |es| && t in TokenOf(es[k])
  {
    if es != [] {
      var init, last := es[..|es| - 1], es[|es| - 1];
      TokensMembers(init, t);
      if exists k :: 0 <= k < |es| && t in TokenOf(es[k]) {
        var k :| 0 <= k < |es| && t in TokenOf(es[k]);
        if k < |init| {
          assert t in TokenOf(init[k]);
        }
      }
      if exists k :: 0 <= k < |init| && t in TokenOf(init[k]) {
        var k :| 0 <= k < |init| && t in TokenOf(init[k]);
        assert es[k] == init[k];
      }
    }
  }

  /** A token whose name starts with `_`: it gets no `default_` and no `consume_` macro. */
  predicate Hidden(t: TokenDecl) {
    |t.name| > 0 && t.name[0] == '_'
  }

  /** The declarations that are not hidden, in order. */
  function Visible(ts: seq<TokenDecl>): seq<TokenDecl> {
    if ts == [] then []
    else Visible(ts[..|ts| - 1]) + (if Hidden(ts[|ts| - 1]) then [] else [ts[|ts| - 1]])
  }

  lemma VisibleSnoc(ts: seq<TokenDecl>, t: TokenDecl)
    ensures Visible(ts + [t]) == Visible(ts) + (if Hidden(t) then [] else [t])
  {
    assert (ts + [t])[..|ts|] == ts;
  }

  lemma {:induction false} VisibleMembers(ts: seq<TokenDecl>, t: TokenDecl)
    ensures t in Visible(ts) <==> t in ts && !Hidden(t)
  {
    if ts != [] {
      var init, last := ts[..|ts| - 1], ts[|ts| - 1];
      assert ts == init + [last];
      VisibleMembers(init, t);
    }
  }

  /** The five listings with one entry per token. */
  datatype Listing = Variants | Patterns | Defaults | Consumes | Labels

  /** The label `Display` prints for a token: its symbol, or its name when it has none. */
  function Label(t: TokenDecl): string {
    if t.sym == "" then t.name else t.sym
  }

  /** The lines of the entry of token `t` in listing `k`. */
  function EntryLines(k: Listing, t: TokenDecl): seq<string> {
    var n := t.name;
    match k
    case Variants =>
      ["    " + n + (if t.ty == "" then "" else "(" + t.ty + ")") + ","]
    case Patterns =>
      ["macro_rules! pattern_" + n + " { () => { TokenKind::" + n
       + (if t.ty == "" then "" else "(_)") + " } }"]
    case Defaults =>
      ["macro_rules! default_" + n + " { () => { TokenKind::" + n
       + (if t.ty == "" then "" else "(" + t.ty + "::default())") + " } }"]
    case Consumes =>
      ["macro_rules! consume_" + n + " {",
       "    ($input:ident) => {",
       "        if let TokenKind::" + n + (if t.ty == "" then "" else "(value)")
       + " = $input.current().kind {",
       ("            let range = " + "$input.current().range;"),
       "            $input.advance();",
       "            " + (if t.ty == "" then "range" else "(value, range)"),
       "        } else {",
       "            return err![default_" + n + "!()]",
       "        }",
       "    }",
       "}"]
    case Labels =>
      ["            pattern_" + n + "!() => write!(f, \"{}\", r###\"" + Label(t) + "\"###),"]
  }

  /** The one write that emits the entry of `t`. */
  function Entry(k: Listing, t: TokenDecl): string {
    Unlines(EntryLines(k, t))
  }

  /** The entries of `ts`, one write each, in order. */
  function Entries(k: Listing, ts: seq<TokenDecl>): (ps: seq<Piece>)
    ensures |ps| == |ts|
    ensures forall i :: 0 <= i < |ts| ==> ps[i] == Plain(Entry(k, ts[i]))
  {
    if ts == [] then [] else Entries(k, ts[..|ts| - 1]) + [Plain(Entry(k, ts[|ts| - 1]))]
  }

  lemma EntriesSnoc(k: Listing, ts: seq<TokenDecl>, t: TokenDecl)
    ensures Entries(k, ts + [t]) == Entries(k, ts) + [Plain(Entry(k, t))]
  {
    assert (ts + [t])[..|ts|] == ts;
  }

  /** The lines of all entries of `ts`, in order. */
  function ListingLines(k: Listing, ts: seq<TokenDecl>): seq<string> {
    if ts == [] then [] else ListingLines(k, ts[..|ts| - 1]) + EntryLines(k, ts[|ts| - 1])
  }

  /** Whether a listing leaves hidden tokens out. */
  predicate Skips(k: Listing) {
    k.Defaults? || k.Consumes?
  }

  /** The tokens listing `k` has an entry for, in order. */
  function Listed(k: Listing, ts: seq<TokenDecl>): seq<TokenDecl> {
    if Skips(k) then Visible(ts) else ts
  }

  lemma ListedSnoc(k: Listing, ts: seq<TokenDecl>, t: TokenDecl)
    ensures Listed(k, ts + [t]) == Listed(k, ts) + (if Skips(k) && Hidden(t) then [] else [t])
  {
    VisibleSnoc(ts, t);
  }

  /** The entry element `e` contributes to listing `k`: none, or one for its token. */
  function EntryOf(k: Listing, e: Element): seq<Piece> {
    if e.kind.Token? then
      var t := TokenDecl(e.kind.name.name, e.kind.ty, e.kind.sym);
      if Skips(k) && Hidden(t) then [] else [Plain(Entry(k, t))]
    else []
  }

  /** After writes `o`, the entries of one more arena element extend those of the elements before it. */
  lemma EntriesStep(o: seq<Piece>, k: Listing, es: seq<Element>, i: nat)
    requires i < |es|
    ensures o + Entries(k, Listed(k, Tokens(es[..i + 1]))) == o + Entries(k, Listed(k, Tokens(es[..i]))) + EntryOf(k, es[i])
  {
    var before := Listed(k, Tokens(es[..i]));
    assert es[..i + 1] == es[..i] + [es[i]];
    TokensSnoc(es[..i], es[i]);
    if es[i].kind.Token? {
      var t := TokenDecl(es[i].kind.name.name, es[i].kind.ty, es[i].kind.sym);
      assert TokenOf(es[i]) == [t];
      ListedSnoc(k, Tokens(es[..i]), t);
      if Skips(k) && Hidden(t) {
        assert Listed(k, Tokens(es[..i + 1])) == before by {
          assert before + [] == before;
        }
        PiecesEmpty(o + Entries(k, before));
      } else {
        assert Listed(k, Tokens(es[..i + 1])) == before + [t];
        EntriesSnoc(k, before, t);
        PiecesAssoc(o, Entries(k, before), [Plain(Entry(k, t))]);
      }
    } else {
      assert Listed(k, Tokens(es[..i + 1])) == before by {
        assert TokenOf(es[i]) == [];
        assert Tokens(es[..i]) + [] == Tokens(es[..i]);
      }
      PiecesEmpty(o + Entries(k, before));
    }
  }

  /** The entries' text is the entries' lines, each terminated. */
  lemma {:induction false} RenderEntries(k: Listing, ts: seq<TokenDecl>)
    ensures Render(Entries(k, ts)) == Unlines(ListingLines(k, ts))
  {
    if ts != [] {
      var init, last := ts[..|ts| - 1], ts[|ts| - 1];
      RenderEntries(k, init);
      RenderSnoc(Entries(k, init), Plain(Entry(k, last)));
      UnlinesAppend(ListingLines(k, init), EntryLines(k, last));
    }
  }

  /** Three writes: a head, the entries, a tail. */
  lemma RenderListing(head: seq<string>, k: Listing, ts: seq<TokenDecl>, tail: seq<string>)
    ensures Render([Plain(Unlines(head))] + Entries(k, ts) + [Plain(Unlines(tail))])
            == Unlines(head + ListingLines(k, ts) + tail)
  {
    var es := Entries(k, ts);
    RenderAppend([Plain(Unlines(head))] + es, [Plain(Unlines(tail))]);
    RenderAppend([Plain(Unlines(head))], es);
    RenderSingle(Plain(Unlines(head)));
    RenderSingle(Plain(Unlines(tail)));
    RenderEntries(k, ts);
    UnlinesAppend(head, ListingLines(k, ts));
    UnlinesAppend(head + ListingLines(k, ts), tail);
  }

  // ----- output_tokens, output_patterns, output_defaults, output_consumes, output_display

  const TokensHead: seq<string> := [("#[derive(PartialEq, Clone, " + "Debug)]"), "pub enum TokenKind {", "    EOF,"]
  const TokensTail: seq<string> := ["}", ""]

  /** `output_tokens`: the enumeration, `EOF` first, then one variant per token element. */
  function TokensWrites(es: seq<Element>): seq<Piece> {
    [Plain(Unlines(TokensHead))] + Entries(Variants, Tokens(es)) + [Plain(Unlines(TokensTail))]
  }

  const PatternsHead: seq<string> := [("macro_rules! pattern_EOF { () " + "=> { TokenKind::EOF } }")]
  const DefaultsHead: seq<string> := [("macro_rules! default_EOF { () " + "=> { TokenKind::EOF } }")]
  const BlankLine: seq<string> := [""]

  /** `output_patterns`: the `EOF` macro, then one `pattern_` macro per token element. */
  function PatternsWrites(es: seq<Element>): seq<Piece> {
    [Plain(Unlines(PatternsHead))] + Entries(Patterns, Tokens(es)) + [Plain(Unlines(BlankLine))]
  }

  /** `output_defaults`: the `EOF` macro, then one `default_` macro per visible token. */
  function DefaultsWrites(es: seq<Element>): seq<Piece> {
    [Plain(Unlines(DefaultsHead))] + Entries(Defaults, Visible(Tokens(es))) + [Plain(Unlines(BlankLine))]
  }

  /** `output_consumes`: one `consume_` macro per visible token. */
  function ConsumesWrites(es: seq<Element>): seq<Piece> {
    Entries(Consumes, Visible(Tokens(es))) + [Plain(Unlines(BlankLine))]
  }

  const DisplayHead: seq<string> :=
    ["use std::fmt;",
     ("impl fmt::Display for TokenKind " + "{"),
     ("    fn fmt(&self, f: &mut " + "fmt::Formatter) -> fmt::Result {"),
     "        match self {",
     ("            pattern_EOF!() => " + "write!(f, \"end of file\"),")]
  const DisplayTail: seq<string> := ["        }", "    }", "}", ""]

  /** `output_display`: `end of file` for `EOF`, then one arm per token element. */
  function DisplayWrites(es: seq<Element>): seq<Piece> {
    [Plain(Unlines(DisplayHead))] + Entries(Labels, Tokens(es)) + [Plain(Unlines(DisplayTail))]
  }

  /** The enumeration lists `EOF` first and then every token element, in arena order. */
  lemma TokensText(es: seq<Element>)
    ensures Render(TokensWrites(es)) == Unlines(TokensHead + ListingLines(Variants, Tokens(es)) + TokensTail)
  {
    RenderListing(TokensHead, Variants, Tokens(es), TokensTail);
  }

  /** A `pattern_` macro for `EOF` and then for every token element, in arena order. */
  lemma PatternsText(es: seq<Element>)
    ensures Render(PatternsWrites(es)) == Unlines(PatternsHead + ListingLines(Patterns, Tokens(es)) + BlankLine)
  {
    RenderListing(PatternsHead, Patterns, Tokens(es), BlankLine);
  }

  /**
   * A `default_` macro for `EOF` and then for every token element that is not hidden,
   * in arena order; a hidden token is left out.
   */
  lemma DefaultsText(es: seq<Element>, t: TokenDecl)
    ensures Render(DefaultsWrites(es))
            == Unlines(DefaultsHead + ListingLines(Defaults, Visible(Tokens(es))) + BlankLine)
    ensures t in Visible(Tokens(es)) <==> t in Tokens(es) && !Hidden(t)
  {
    RenderListing(DefaultsHead, Defaults, Visible(Tokens(es)), BlankLine);
    VisibleMembers(Tokens(es), t);
  }

  /** A `consume_` macro for every token element that is not hidden, in arena order. */
  lemma ConsumesText(es: seq<Element>, t: TokenDecl)
    ensures Render(ConsumesWrites(es)) == Unlines(ListingLines(Consumes, Visible(Tokens(es))) + BlankLine)
    ensures t in Visible(Tokens(es)) <==> t in Tokens(es) && !Hidden(t)
  {
    var ts := Visible(Tokens(es));
    RenderAppend(Entries(Consumes, ts), [Plain(Unlines(BlankLine))]);
    RenderSingle(Plain(Unlines(BlankLine)));
    RenderEntries(Consumes, ts);
    UnlinesAppend(ListingLines(Consumes, ts), BlankLine);
    VisibleMembers(Tokens(es), t);
  }

  /** `EOF` displays as `end of file`, every token element by its label, in arena order. */
  lemma DisplayText(es: seq<Element>)
    ensures Render(DisplayWrites(es)) == Unlines(DisplayHead + ListingLines(Labels, Tokens(es)) + DisplayTail)
  {
    RenderListing(DisplayHead, Labels, Tokens(es), DisplayTail);
  }

  // ----- output_preamble

  /** Each line trimmed. */
  function TrimAll(ls: seq<string>): (r: seq<string>)
    ensures |r| == |ls|
    ensures forall i :: 0 <= i < |ls| ==> r[i] == Trim(ls[i])
  {
    if ls == [] then [] else TrimAll(ls[..|ls| - 1]) + [Trim(ls[|ls| - 1])]
  }

  /** The loop of `output_preamble` over the lines `ls`: each trimmed line, then a terminator. */
  function PreambleLines(ls: seq<string>): seq<Piece> {
    if ls == [] then [] else PreambleLines(ls[..|ls| - 1]) + [Plain(Trim(ls[|ls| - 1])), Plain("\n")]
  }

  lemma PreambleLinesSnoc(ls: seq<string>, l: string)
    ensures PreambleLines(ls + [l]) == PreambleLines(ls) + [Plain(Trim(l)), Plain("\n")]
  {
    assert (ls + [l])[..|ls|] == ls;
  }

  /** After writes `o`, the writes for one more preamble line extend those for the lines before it. */
  lemma PreambleLinesStep(o: seq<Piece>, ls: seq<string>, i: nat)
    requires i < |ls|
    ensures o + PreambleLines(ls[..i + 1]) == o + PreambleLines(ls[..i]) + [Plain(Trim(ls[i]))] + [Plain("\n")]
  {
    var p, a, b := PreambleLines(ls[..i]), Plain(Trim(ls[i])), Plain("\n");
    assert PreambleLines(ls[..i + 1]) == p + [a, b] by {
      assert ls[..i + 1] == ls[..i] + [ls[i]];
      PreambleLinesSnoc(ls[..i], ls[i]);
    }
    assert o + (p + [a, b]) == o + p + [a] + [b];
  }

  /**
   * `output_preamble`: when the grammar has a preamble, a comment and its code's lines,
   * trimmed; then a blank line. A preamble reference to another kind of element, where
   * the generator panics, ends the section after the comment.
   */
  function PreambleWrites(m: Module): seq<Piece> {
    match Get(m.elements, m.preamble)
    case None => [Plain("\n")]
    case Some(Element(_, Preamble(code))) =>
      [Plain("// preamble\n")] + PreambleLines(Lines(Trim(code))) + [Plain("\n")]
    case Some(_) => [Plain("// preamble\n")]
  }

  lemma {:induction false} RenderPreambleLines(ls: seq<string>)
    ensures Render(PreambleLines(ls)) == Unlines(TrimAll(ls))
  {
    if ls != [] {
      var init, last := ls[..|ls| - 1], ls[|ls| - 1];
      RenderPreambleLines(init);
      var ps := PreambleLines(init);
      assert PreambleLines(ls) == (ps + [Plain(Trim(last))]) + [Plain("\n")];
      RenderSnoc(ps + [Plain(Trim(last))], Plain("\n"));
      RenderSnoc(ps, Plain(Trim(last)));
      UnlinesSnoc(TrimAll(init), Trim(last));
      assert TrimAll(ls) == TrimAll(init) + [Trim(last)];
    }
  }

  /** The writes of a present preamble, as lines. */
  lemma PreambleBody(ls: seq<string>)
    ensures Render([Plain("// preamble\n")] + PreambleLines(ls) + [Plain("\n")])
            == Unlines(["// preamble"] + TrimAll(ls) + [""])
  {
    var body := PreambleLines(ls);
    RenderAppend([Plain("// preamble\n")] + body, [Plain("\n")]);
    RenderAppend([Plain("// preamble\n")], body);
    RenderSingle(Plain("// preamble\n"));
    RenderSingle(Plain("\n"));
    RenderPreambleLines(ls);
    assert Unlines(["// preamble"]) == "// preamble\n";
    assert Unlines([""]) == "\n";
    UnlinesAppend(["// preamble"], TrimAll(ls));
    UnlinesAppend(["// preamble"] + TrimAll(ls), [""]);
  }

  /**
   * The preamble section is the comment line, the preamble's lines (of its trimmed code)
   * each trimmed, and a blank line; without a preamble it is the blank line alone.
   */
  lemma PreambleText(m: Module)
    ensures Get(m.elements, m.preamble).None? ==> Render(PreambleWrites(m)) == Unlines([""])
    ensures Get(m.elements, m.preamble).Some? && Get(m.elements, m.preamble).value.kind.Preamble? ==>
      var code := Get(m.elements, m.preamble).value.kind.code;
      Render(PreambleWrites(m)) == Unlines(["// preamble"] + TrimAll(Lines(Trim(code))) + [""])
  {
    match Get(m.elements, m.preamble)
    case None =>
      RenderSingle(Plain("\n"));
      assert Unlines([""]) == "\n";
    case Some(Element(_, Preamble(code))) =>
      PreambleBody(Lines(Trim(code)));
    case Some(_) =>
  }

  // ----- output_error and output_check_limit

  /** The grammar's error type, trimmed, when `module.error` resolves to one. */
  function ErrorCodeOf(m: Module): (c: Option<string>)
    ensures c.Some? <==> HasErrorCode(m)
  {
    match Get(m.elements, m.error)
    case Some(Element(_, ErrorCode(code))) => Some(Trim(code))
    case _ => None
  }

  /** `output_error`: the `err!` macro, converting the expected kinds into the error type. */
  function ErrLines(code: Option<string>): seq<string> {
    if code.Some? then [("macro_rules! err { " + "[$($tk:expr),*] => { Err(") + code.value + "::from(vec![$($tk),*])) } }", ""]
    else [("macro_rules! err { " + "[$($tk:expr),*] => { " + "Err(vec![$($tk),*]) } }"), ""]
  }

  function ErrorWrites(m: Module): seq<Piece> {
    [Plain(Unlines(ErrLines(ErrorCodeOf(m))))]
  }

  const GuardPrefix: string := "        if $depth > "

  /** What the depth guard does when it fires: report through the error type, or panic. */
  function Overflow(code: Option<string>): seq<string> {
    if code.Some? then
      ["            $input.finalize();",
       "            return Err(" + code.value + ("::from(\"exceeded recursion " + "depth limit\"));")]
    else [("            panic!(\"exceeded " + "recursion depth limit\");")]
  }

  /** `output_check_limit`: the `check_limit!` macro for the depth limit `limit`. */
  function CheckLimitLines(limit: nat, code: Option<string>): seq<string> {
    ["#[allow(unused_macros)]",
     "macro_rules! check_limit {",
     ("    ($input:ident, $depth:expr) " + "=> {"),
     GuardPrefix + NatToString(limit) + " {"]
    + Overflow(code)
    + ["        }", "    }", "}", ""]
  }

  function CheckLimitWrites(m: Module): seq<Piece> {
    [Plain(Unlines(CheckLimitLines(DepthLimit(m), ErrorCodeOf(m))))]
  }

  /** `line` is the guard's test, with a run of decimal digits that reads back as `limit`. */
  predicate ComparesWith(line: string, limit: nat) {
    |line| > |GuardPrefix| + 2 && line[..|GuardPrefix|] == GuardPrefix &&
    var digits := line[|GuardPrefix|..|line| - 2];
    (forall i :: 0 <= i < |digits| ==> '0' <= digits[i] <= '9') && DecimalValue(digits) == limit
  }

  /**
   * The guard's fourth line compares the depth with a decimal that reads back as the
   * grammar's limit, 128 when it declares none.
   */
  lemma CheckLimitGuard(m: Module)
    ensures var ls := CheckLimitLines(DepthLimit(m), ErrorCodeOf(m));
      |ls| >= 4 && ComparesWith(ls[3], DepthLimit(m)) &&
      (!(Get(m.elements, m.limit).Some? && Get(m.elements, m.limit).value.kind.Limit?) ==> DepthLimit(m) == 128)
  {
    var limit := DepthLimit(m);
    var ls := CheckLimitLines(limit, ErrorCodeOf(m));
    var line := GuardPrefix + NatToString(limit) + " {";
    assert ls[3] == line;
    assert line[..|GuardPrefix|] == GuardPrefix;
    assert line[|GuardPrefix|..|line| - 2] == NatToString(limit);
    DecimalRoundTrip(limit);
  }

  /**
   * When the guard fires, it finalizes the input and returns an error converted into the
   * grammar's error type when it has one, and panics otherwise; then the `if` closes.
   */
  lemma CheckLimitFires(m: Module)
    ensures var ls := CheckLimitLines(DepthLimit(m), ErrorCodeOf(m));
      |ls| >= 6 &&
      (HasErrorCode(m) ==>
         |ls| >= 7 && ls[4] == "            $input.finalize();"
         && ls[5] == "            return Err(" + ErrorCodeOf(m).value + ("::from(\"exceeded recursion " + "depth limit\"));")
         && ls[6] == "        }") &&
      (!HasErrorCode(m) ==>
         ls[4] == ("            panic!(\"exceeded " + "recursion depth limit\");")
         && ls[5] == "        }")
  {
  }

  // ----- output_parser and output_element

  /** The grammar's common parameters, trimmed, when `module.parameters` resolves to them. */
  function ParametersOf(m: Module): Option<string> {
    match Get(m.elements, m.parameters)
    case Some(Element(_, Parameters(code))) => Some(Trim(code))
    case _ => None
  }

  /** The common parameters every routine declares after `input`. */
  function CommonPars(m: Module): string {
    if ParametersOf(m).Some? then ", " + ParametersOf(m).value else ""
  }

  /** The common arguments every call passes after `input`. */
  function CommonArgs(m: Module): string {
    if ParametersOf(m).Some? then ", " + ParToArg(ParametersOf(m).value) else ""
  }

  /** The error type of every routine's `Result`. */
  function ErrorType(m: Module): string {
    if ErrorCodeOf(m).Some? then ErrorCodeOf(m).value else "Vec<TokenKind>"
  }

  /**
   * Calls forward what routines declare: when the common parameters are a declaration
   * list of plain names and types, the common arguments are their names, in order.
   */
  lemma CommonArgsForward(m: Module, ps: seq<Param>)
    requires ParametersOf(m) == Some(Declaration(ps)) && |ps| > 0 && PlainParams(ps)
    ensures CommonPars(m) == ", " + Declaration(ps)
    ensures CommonArgs(m) == ", " + Forwarding(ps)
  {
    ParToArgDeclaration(ps);
  }

  /** The return type of `parse`: that of the last `Start` element that declares one, or `()`. */
  function StartRet(es: seq<Element>): string {
    if es == [] then "()"
    else
      match es[|es| - 1].kind
      case Start(ret, _, _, _) => if ret != "" then ret else StartRet(es[..|es| - 1])
      case _ => StartRet(es[..|es| - 1])
  }

  /** The extra parameters of `parse`: those of the last `Start` element that declares any. */
  function StartPars(es: seq<Element>): string {
    if es == [] then ""
    else
      match es[|es| - 1].kind
      case Start(_, pars, _, _) => if pars != "" then ", " + pars else StartPars(es[..|es| - 1])
      case _ => StartPars(es[..|es| - 1])
  }

  predicate DeclaresRet(e: Element) {
    e.kind.Start? && e.kind.ret != ""
  }

  predicate DeclaresPars(e: Element) {
    e.kind.Start? && e.kind.pars != ""
  }

  /**
   * The loop's result: `()` when no `Start` element declares a return type, and
   * otherwise the return type of the last one that does.
   */
  lemma {:induction false} StartRetLast(es: seq<Element>)
    ensures (forall k :: 0 <= k < |es| ==> !DeclaresRet(es[k])) ==> StartRet(es) == "()"
    ensures (exists k :: 0 <= k < |es| && DeclaresRet(es[k])) ==>
      exists k :: 0 <= k < |es| && DeclaresRet(es[k]) && StartRet(es) == es[k].kind.ret
        && forall j :: k < j < |es| ==> !DeclaresRet(es[j])
  {
    if es != [] {
      var init, last := es[..|es| - 1], es[|es| - 1];
      StartRetLast(init);
      assert forall k :: 0 <= k < |init| ==> init[k] == es[k];
      if !DeclaresRet(last) {
        if exists k :: 0 <= k < |es| && DeclaresRet(es[k]) {
          var k :| 0 <= k < |es| && DeclaresRet(es[k]);
          assert DeclaresRet(init[k]);
        }
      } else {
        assert DeclaresRet(es[|es| - 1]);
      }
    }
  }

  /**
   * Likewise for the parameters: none when no `Start` element declares any, and
   * otherwise `", "` and the parameters of the last one that does.
   */
  lemma {:induction false} StartParsLast(es: seq<Element>)
    ensures (forall k :: 0 <= k < |es| ==> !DeclaresPars(es[k])) ==> StartPars(es) == ""
    ensures (exists k :: 0 <= k < |es| && DeclaresPars(es[k])) ==>
      exists k :: 0 <= k < |es| && DeclaresPars(es[k]) && StartPars(es) == ", " + es[k].kind.pars
        && forall j :: k < j < |es| ==> !DeclaresPars(es[j])
  {
    if es != [] {
      var init, last := es[..|es| - 1], es[|es| - 1];
      StartParsLast(init);
      assert forall k :: 0 <= k < |init| ==> init[k] == es[k];
      if !DeclaresPars(last) {
        if exists k :: 0 <= k < |es| && DeclaresPars(es[k]) {
          var k :| 0 <= k < |es| && DeclaresPars(es[k]);
          assert DeclaresPars(init[k]);
        }
      } else {
        assert DeclaresPars(es[|es| - 1]);
      }
    }
  }

  /**
   * The `Parser` struct and the `parse` entry point: it reads the first token, calls
   * `start` at depth 0 with the common arguments, and fails unless the input is then
   * at its end.
   */
  function ParseLines(commonPars: string, startPars: string, startRet: string, commonArgs: string,
                      errorType: string): seq<string> {
    ["pub struct Parser;",
     "",
     "impl<'a> Parser {",
     ("    pub fn parse<Input: " + "TokenStream>(input: &mut Input") + commonPars + startPars
     + ") -> Result<" + startRet + ", " + errorType + "> {",
     "        input.advance();",
     ("        let out = " + "Self::start(0, input") + commonArgs + ")?;",
     ("        if input.current().kind " + "!= TokenKind::EOF {"),
     ("            return " + "err![default_EOF!()]"),
     "        }",
     "        Ok(out)",
     "    }"]
  }

  /** A routine's signature: named `fnName`, with depth, input, common and own parameters. */
  function Signature(fnName: string, commonPars: string, pars: string, ret: string, errorType: string): string {
    "    fn " + fnName + ("<Input: TokenStream>(depth: " + "u16, input: &mut Input") + commonPars
    + (if pars == "" then "" else ", " + pars)
    + ") -> Result<" + (if ret == "" then "()" else ret) + ", " + errorType + "> {\n"
  }

  /** The depth guard at the top of a rule routine. */
  const CheckLimitCall: string := "check_limit!(input, depth);\n"

  /** The rule's own semantic action, spliced before its body, when it resolves. */
  function ActionWrites(es: seq<Element>, action: Ref): seq<Piece> {
    match ActionCodeOf(es, action)
    case Some(code) => [Block("    // semantic action 0\n" + SplicedCode(code) + "\n", 1)]
    case None => []
  }

  /** What a routine writes before its body: the signature, the guard of a rule, the action. */
  function RoutineHead(es: seq<Element>, e: Element, commonPars: string, errorType: string): seq<Piece>
    requires e.kind.Start? || e.kind.Rule?
  {
    match e.kind
    case Start(ret, pars, _, action) =>
      [Plain(Signature("start", commonPars, pars, ret, errorType))] + ActionWrites(es, action)
    case Rule(name, ret, pars, _, action) =>
      [Plain(Signature("r#" + name.name, commonPars, pars, ret, errorType)), Block(CheckLimitCall, 2)]
      + ActionWrites(es, action)
  }

  /** `output_element`: the routine of a used `Start` or `Rule` element; nothing for others. */
  function ElementWrites(es: seq<Element>, e: Element, commonPars: string, commonArgs: string,
                         errorType: string): seq<Piece> {
    if !e.used then []
    else
      match e.kind
      case Start(_, _, regex, _) =>
        RoutineHead(es, e, commonPars, errorType) + Compiled(es, regex, commonArgs, 2) + [Plain("    }\n")]
      case Rule(_, _, _, regex, _) =>
        RoutineHead(es, e, commonPars, errorType) + Compiled(es, regex, commonArgs, 2) + [Plain("    }\n")]
      case _ => []
  }

  /**
   * An element gets a routine exactly when it is a used `Start` or `Rule`; a routine is
   * its head, its body compiled at level 2, and its closing brace; and the depth guard
   * is in the head of a rule's routine and not in that of the start routine.
   */
  lemma ElementRoutine(es: seq<Element>, e: Element, commonPars: string, commonArgs: string, errorType: string)
    ensures ElementWrites(es, e, commonPars, commonArgs, errorType) != []
            <==> e.used && (e.kind.Start? || e.kind.Rule?)
    ensures e.used && (e.kind.Start? || e.kind.Rule?) ==>
      ElementWrites(es, e, commonPars, commonArgs, errorType)
        == RoutineHead(es, e, commonPars, errorType) + Compiled(es, e.kind.regex, commonArgs, 2) + [Plain("    }\n")]
      && (Block(CheckLimitCall, 2) in RoutineHead(es, e, commonPars, errorType) <==> e.kind.Rule?)
  {
  }

  /** The routines of the elements `xs`, in order. */
  function ElementsWrites(es: seq<Element>, xs: seq<Element>, commonPars: string, commonArgs: string,
                          errorType: string): seq<Piece> {
    if xs == [] then []
    else ElementsWrites(es, xs[..|xs| - 1], commonPars, commonArgs, errorType)
         + ElementWrites(es, xs[|xs| - 1], commonPars, commonArgs, errorType)
  }

  lemma ElementsSnoc(es: seq<Element>, xs: seq<Element>, x: Element, commonPars: string, commonArgs: string,
                     errorType: string)
    ensures ElementsWrites(es, xs + [x], commonPars, commonArgs, errorType)
            == ElementsWrites(es, xs, commonPars, commonArgs, errorType) + ElementWrites(es, x, commonPars, commonArgs, errorType)
  {
    assert (xs + [x])[..|xs|] == xs;
  }

  /** `output_parser`: the entry point, a routine per element in arena order, the closing brace. */
  function ParserWrites(m: Module): seq<Piece> {
    var es := m.elements;
    [Plain(Unlines(ParseLines(CommonPars(m), StartPars(es), StartRet(es), CommonArgs(m), ErrorType(m))))]
    + ElementsWrites(es, es, CommonPars(m), CommonArgs(m), ErrorType(m))
    + [Plain("}\n")]
  }

  /**
   * The entry point comes first: after advancing to the first token it calls the start
   * routine at depth 0 with the common arguments, and only then fails unless the input
   * is at `EOF`; the routines of the elements follow, and the closing brace ends the file.
   */
  lemma ParserEntry(m: Module)
    ensures var es := m.elements;
      var ls := ParseLines(CommonPars(m), StartPars(es), StartRet(es), CommonArgs(m), ErrorType(m));
      var ws := ParserWrites(m);
      |ls| == 11 && |ws| >= 2 && ws[0] == Plain(Unlines(ls))
      && ls[4] == "        input.advance();"
      && ls[5] == ("        let out = " + "Self::start(0, input") + CommonArgs(m) + ")?;"
      && ls[6] == ("        if input.current().kind " + "!= TokenKind::EOF {")
      && ls[7] == ("            return " + "err![default_EOF!()]")
      && ls[9] == "        Ok(out)"
      && ws[1..|ws| - 1] == ElementsWrites(es, es, CommonPars(m), CommonArgs(m), ErrorType(m))
      && ws[|ws| - 1] == Plain("}\n")
  {
    var es := m.elements;
    var ws := ParserWrites(m);
    var body := ElementsWrites(es, es, CommonPars(m), CommonArgs(m), ErrorType(m));
    assert ws[1..|ws| - 1] == body;
  }

  // ----- the error type

  /** `s` ends with `t`. */
  predicate EndsWith(s: string, t: string) {
    |t| <= |s| && s[|s| - |t|..] == t
  }

  lemma AppendEndsWith(p: string, t: string)
    ensures EndsWith(p + t, t)
  {
    assert (p + t)[|p|..] == t;
  }

  /** Every routine signature returns `Result<_, errorType>`. */
  lemma SignatureErrorType(fnName: string, commonPars: string, pars: string, ret: string, errorType: string)
    ensures EndsWith(Signature(fnName, commonPars, pars, ret, errorType), ", " + errorType + "> {\n")
  {
    var p := "    fn " + fnName + ("<Input: TokenStream>(depth: " + "u16, input: &mut Input") + commonPars
             + (if pars == "" then "" else ", " + pars)
             + ") -> Result<" + (if ret == "" then "()" else ret);
    assert Signature(fnName, commonPars, pars, ret, errorType) == p + (", " + errorType + "> {\n");
    AppendEndsWith(p, ", " + errorType + "> {\n");
  }

  /** The head of every `Start` and `Rule` routine is its signature, so it returns `errorType`. */
  lemma RoutineErrorType(es: seq<Element>, e: Element, commonPars: string, errorType: string)
    requires e.kind.Start? || e.kind.Rule?
    ensures var h := RoutineHead(es, e, commonPars, errorType);
      |h| >= 1 && h[0].Plain? && EndsWith(h[0].s, ", " + errorType + "> {\n")
  {
    match e.kind
    case Start(ret, pars, _, _) => SignatureErrorType("start", commonPars, pars, ret, errorType);
    case Rule(name, ret, pars, _, _) => SignatureErrorType("r#" + name.name, commonPars, pars, ret, errorType);
  }

  /** The signature of `parse` returns `Result<_, errorType>`. */
  lemma ParseErrorType(commonPars: string, startPars: string, startRet: string, commonArgs: string,
                       errorType: string)
    ensures EndsWith(ParseLines(commonPars, startPars, startRet, commonArgs, errorType)[3], ", " + errorType + "> {")
  {
    var p := ("    pub fn parse<Input: " + "TokenStream>(input: &mut Input") + commonPars + startPars
             + ") -> Result<" + startRet;
    assert ParseLines(commonPars, startPars, startRet, commonArgs, errorType)[3] == p + (", " + errorType + "> {");
    AppendEndsWith(p, ", " + errorType + "> {");
  }

  /** The `Err` values `err!` and the guard build, for an error code `code` or for none. */
  lemma MacroErrorType(limit: nat, code: Option<string>)
    ensures code.None? ==>
      ErrLines(code)[0] == ("macro_rules! err { " + "[$($tk:expr),*] => { " + "Err(vec![$($tk),*]) } }")
    ensures code.Some? ==>
      ErrLines(code)[0] == ("macro_rules! err { " + "[$($tk:expr),*] => { Err(") + code.value + "::from(vec![$($tk),*])) } }"
      && |CheckLimitLines(limit, code)| >= 6
      && CheckLimitLines(limit, code)[5]
         == "            return Err(" + code.value + ("::from(\"exceeded recursion " + "depth limit\"));")
  {
  }

  /**
   * One error type throughout: `Vec<TokenKind>` unless the grammar names one, and the type
   * `parse` returns is the type `err!` and the `check_limit!` guard build their `Err` of:
   * `vec![…]` of token kinds by default, and a conversion `from` it into the named type.
   */
  lemma ErrorTypeShared(m: Module)
    ensures var e := ErrorType(m);
      var code := ErrorCodeOf(m);
      var es := m.elements;
      (!HasErrorCode(m) ==>
         e == "Vec<TokenKind>"
         && ErrLines(code)[0] == ("macro_rules! err { " + "[$($tk:expr),*] => { " + "Err(vec![$($tk),*]) } }"))
      && (HasErrorCode(m) ==>
            ErrLines(code)[0] == ("macro_rules! err { " + "[$($tk:expr),*] => { Err(") + e + "::from(vec![$($tk),*])) } }"
            && |CheckLimitLines(DepthLimit(m), code)| >= 6
            && CheckLimitLines(DepthLimit(m), code)[5]
               == "            return Err(" + e + ("::from(\"exceeded recursion " + "depth limit\"));"))
      && EndsWith(ParseLines(CommonPars(m), StartPars(es), StartRet(es), CommonArgs(m), e)[3], ", " + e + "> {")
  {
    MacroErrorType(DepthLimit(m), ErrorCodeOf(m));
    ParseErrorType(CommonPars(m), StartPars(m.elements), StartRet(m.elements), CommonArgs(m), ErrorType(m));
  }

  // ----- forwarding the start rule's arguments

  /**
   * The arguments that match the start routine's own parameters: `", "` and the names
   * declared by the last `Start` element that declares parameters, or nothing.
   */
  function StartArgs(es: seq<Element>): string {
    if es == [] then ""
    else
      match es[|es| - 1].kind
      case Start(_, pars, _, _) => if pars != "" then ", " + ParToArg(pars) else StartArgs(es[..|es| - 1])
      case _ => StartArgs(es[..|es| - 1])
  }

  /** The entry point with a call to `start` that passes on the start rule's arguments too. */
  function ParseLinesForwarding(m: Module): seq<string> {
    var es := m.elements;
    ParseLines(CommonPars(m), StartPars(es), StartRet(es), CommonArgs(m) + StartArgs(es), ErrorType(m))
  }

  /** `parse` declares extra parameters exactly when the forwarding call has extra arguments. */
  lemma {:induction false} StartArgsPaired(es: seq<Element>)
    ensures StartPars(es) == "" <==> StartArgs(es) == ""
  {
    if es != [] {
      StartArgsPaired(es[..|es| - 1]);
    }
  }

  /** The forwarding arguments are the names of the parameters `parse` declares for `start`. */
  lemma {:induction false} StartArgsForward(es: seq<Element>, ps: seq<Param>)
    requires StartPars(es) == ", " + Declaration(ps) && |ps| > 0 && PlainParams(ps)
    ensures StartArgs(es) == ", " + Forwarding(ps)
  {
    var init, last := es[..|es| - 1], es[|es| - 1];
    if DeclaresPars(last) {
      var pars := last.kind.pars;
      assert pars == Declaration(ps) by {
        assert pars == (", " + pars)[2..];
        assert Declaration(ps) == (", " + Declaration(ps))[2..];
      }
      ParToArgDeclaration(ps);
    } else {
      StartArgsForward(init, ps);
    }
  }

  /** Some `Start` element declares the parameters `parse` declares for `start`. */
  lemma StartDeclares(es: seq<Element>, pars: string)
    requires StartPars(es) == ", " + pars
    ensures exists k :: 0 <= k < |es| && DeclaresPars(es[k]) && es[k].kind.pars == pars
  {
    StartParsLast(es);
    if forall k :: 0 <= k < |es| ==> !DeclaresPars(es[k]) {
      assert false;
    }
    var k :| 0 <= k < |es| && DeclaresPars(es[k]) && StartPars(es) == ", " + es[k].kind.pars;
    assert es[k].kind.pars == pars by {
      assert es[k].kind.pars == (", " + es[k].kind.pars)[2..];
      assert pars == (", " + pars)[2..];
    }
  }

  /**
   * With the forwarding call, when the `Start` parameters `parse` declares are a plain
   * declaration `ps`, some `Start` element declares `ps` for its `start` routine, and the
   * call passes, after the common arguments, exactly the names `ps` declares.
   */
  lemma ParseForwardsStartArgs(m: Module, ps: seq<Param>)
    requires StartPars(m.elements) == ", " + Declaration(ps) && |ps| > 0 && PlainParams(ps)
    ensures var es := m.elements;
      exists k :: 0 <= k < |es| && DeclaresPars(es[k]) && es[k].kind.pars == Declaration(ps)
    ensures var ls := ParseLinesForwarding(m);
      |ls| == 11 && ls[5] == ("        let out = " + "Self::start(0, input") + CommonArgs(m) + (", " + Forwarding(ps)) + ")?;"
  {
    var es := m.elements;
    StartDeclares(es, Declaration(ps));
    StartArgsForward(es, ps);
    var x, a, b := ("        let out = " + "Self::start(0, input"), CommonArgs(m), ", " + Forwarding(ps);
    ParseCallLine(CommonPars(m), StartPars(es), StartRet(es), a + b, ErrorType(m));
    assert x + (a + b) == x + a + b;
  }

  lemma ParseCallLine(commonPars: string, startPars: string, startRet: string, commonArgs: string,
                      errorType: string)
    ensures var ls := ParseLines(commonPars, startPars, startRet, commonArgs, errorType);
      |ls| == 11 && ls[5] == ("        let out = " + "Self::start(0, input") + commonArgs + ")?;"
  {
  }

  /**
   * As written, the call drops the start rule's arguments: whenever a `Start` element
   * declares parameters, `parse` declares them but calls `start` with nothing after the
   * common arguments, so its call differs from the forwarding one.
   */
  lemma ParseDropsStartArgs(m: Module)
    requires exists k :: 0 <= k < |m.elements| && DeclaresPars(m.elements[k])
    ensures var es := m.elements;
      var ls := ParseLines(CommonPars(m), StartPars(es), StartRet(es), CommonArgs(m), ErrorType(m));
      StartPars(es) != "" && StartArgs(es) != ""
      && ls[5] == ("        let out = " + "Self::start(0, input") + CommonArgs(m) + ")?;"
      && ls[5] != ParseLinesForwarding(m)[5]
  {
    var es := m.elements;
    StartParsLast(es);
    StartArgsPaired(es);
    var ls := ParseLines(CommonPars(m), StartPars(es), StartRet(es), CommonArgs(m), ErrorType(m));
    assert |ls[5]| < |ParseLinesForwarding(m)[5]|;
  }
}
