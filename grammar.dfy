/**
 * The annotated grammar the backend compiles: an arena of elements, and rule bodies
 * as regular-expression trees whose nodes carry their precomputed lookahead sets.
 */
module Grammar {
  import opened Wrappers
  import opened Text
  import opened Symbols

  /** A reference into the element arena; `None` when it does not resolve. */
  type Ref = Option<nat>

  /** The sets the analysis attached to a node, and the rendered start of its range. */
  datatype Ann = Ann(first: SymbolSet, follow: SymbolSet, predict: SymbolSet, cancel: SymbolSet, start: string)

  /** `RegexKind`: a rule body. */
  datatype Regex =
    | Id(ann: Ann, name: Symbol, elem: Ref)
    | Str(ann: Ann, elem: Ref)
    | Concat(ann: Ann, ops: seq<Regex>, error: Option<Regex>)
    | Or(ann: Ann, ops: seq<Regex>, error: Option<Regex>)
    | Star(ann: Ann, op: Regex)
    | Plus(ann: Ann, op: Regex)
    | Optional(ann: Ann, op: Regex)
    | Paren(ann: Ann, op: Regex)
    | Action(ann: Ann, val: nat, elem: Ref)
    | ErrorHandler(ann: Ann, val: nat, elem: Ref)
    | Predicate(ann: Ann, val: nat, elem: Ref)

  /**
   * `ElementKind`. The three code snippets a regex refers to are called `ActionCode`,
   * `ErrorHandlerCode` and `PredicateCode` here, apart from the regex nodes.
   */
  datatype ElementKind =
    | Start(ret: string, pars: string, regex: Regex, action: Ref)
    | Rule(name: Symbol, ret: string, pars: string, regex: Regex, action: Ref)
    | Token(name: Symbol, ty: string, sym: string)
    | ActionCode(code: string)
    | ErrorHandlerCode(code: string)
    | PredicateCode(code: string)
    | Preamble(code: string)
    | Parameters(code: string)
    | ErrorCode(code: string)
    | Limit(depth: nat)

  datatype Element = Element(used: bool, kind: ElementKind)

  /** The grammar: its elements and the references to its singleton elements. */
  datatype Module = Module(elements: seq<Element>, start: Ref, preamble: Ref,
                           parameters: Ref, error: Ref, limit: Ref)

  /** `elem.get()`. */
  function Get(es: seq<Element>, r: Ref): (e: Option<Element>)
    ensures e.Some? <==> r.Some? && r.value < |es|
    ensures e.Some? ==> e.value == es[r.value]
  {
    if r.Some? && r.value < |es| then Some(es[r.value]) else None
  }

  /** The recursion depth limit of the generated parser: the `Limit` element's, or 128. */
  function DepthLimit(m: Module): (l: nat)
    ensures (Get(m.elements, m.limit).Some? && Get(m.elements, m.limit).value.kind.Limit?)
      ==> l == Get(m.elements, m.limit).value.kind.depth
    ensures !(Get(m.elements, m.limit).Some? && Get(m.elements, m.limit).value.kind.Limit?)
      ==> l == 128
  {
    match Get(m.elements, m.limit)
    case Some(Element(_, Limit(depth))) => depth
    case _ => 128
  }

  /** Whether the grammar declares an error type (`module.error` resolves to an `ErrorCode`). */
  predicate HasErrorCode(m: Module) {
    Get(m.elements, m.error).Some? && Get(m.elements, m.error).value.kind.ErrorCode?
  }

  /** `Paren` nodes are transparent: the node underneath them. */
  function Unparen(r: Regex): (u: Regex)
    ensures !u.Paren?
  {
    if r.Paren? then Unparen(r.op) else r
  }

  /** `get_predicate`: the guard a node's dispatch arm carries. */
  function GetPredicate(es: seq<Element>, r: Regex): string {
    match r
    case Concat(_, ops, _) =>
      if |ops| == 0 then "" else
      (match ops[0]
       case Predicate(_, _, elem) =>
         (match Get(es, elem)
          case Some(Element(_, PredicateCode(code))) => " if " + Trim(code)
          case _ => "")
       case _ => "")
    case Paren(_, op) => GetPredicate(es, op)
    case _ => ""
  }

  /**
   * The guard is `" if "` and the trimmed predicate code exactly when the node under
   * its parentheses is a `Concat` whose first operand is a `Predicate` resolving to
   * predicate code; in every other case there is no guard.
   */
  lemma {:induction false} GetPredicateGuard(es: seq<Element>, r: Regex)
    ensures var u := Unparen(r); var g := GetPredicate(es, r);
      if u.Concat? && |u.ops| > 0 && u.ops[0].Predicate?
         && Get(es, u.ops[0].elem).Some? && Get(es, u.ops[0].elem).value.kind.PredicateCode?
      then g == " if " + Trim(Get(es, u.ops[0].elem).value.kind.code)
      else g == ""
  {
    if r.Paren? {
      GetPredicateGuard(es, r.op);
    }
  }

  /** Whether `r` refers to a token element. */
  predicate IsToken(es: seq<Element>, r: Ref) {
    Get(es, r).Some? && Get(es, r).value.kind.Token?
  }

  /** Whether `r` refers to a rule element. */
  predicate IsRule(es: seq<Element>, r: Ref) {
    Get(es, r).Some? && Get(es, r).value.kind.Rule?
  }
}
