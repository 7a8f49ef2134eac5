/**
 * Interned symbols, ordered symbol sets, and the two renderings of a set that the
 * generated parser uses: a match pattern and a list of expected token kinds.
 */
module Symbols {
  import opened Text

  /** An interned name: `id` is its place in the symbols' total order, `name` its text. */
  datatype Symbol = Symbol(id: nat, name: string)

  /** `Symbol::EMPTY`, the symbol that stands for no name. */
  const EMPTY: Symbol := Symbol(0, "")

  /** Iteration order of a `BTreeSet`: strictly ascending. */
  predicate Ordered(s: seq<Symbol>) {
    forall i, j :: 0 <= i < j < |s| ==> s[i].id < s[j].id
  }

  /** A `BTreeSet<Symbol>`, as the sequence of its members in iteration order. */
  type SymbolSet = s: seq<Symbol> | Ordered(s) witness []

  predicate OneLineNames(s: SymbolSet) {
    forall x <- s :: '\n' !in x.name
  }

  /** The members' names, in order. */
  function Names(s: SymbolSet): (ns: seq<string>)
    ensures |ns| == |s|
    ensures forall i :: 0 <= i < |s| ==> ns[i] == s[i].name
  {
    seq(|s|, i requires 0 <= i < |s| => s[i].name)
  }

  /**
   * The token kinds a rendered set stands for: the members' names in order, or `EOF`
   * alone for the empty set.
   */
  function Kinds(s: SymbolSet): (ks: seq<string>)
    ensures |ks| == if s == [] then 1 else |s|
    ensures s == [] ==> ks == ["EOF"]
    ensures forall i :: 0 <= i < |s| ==> ks[i] == s[i].name
  {
    if s == [] then ["EOF"] else Names(s)
  }

  /** Whether a token of kind `kind` matches the rendered pattern of `s`. */
  predicate Matches(s: SymbolSet, kind: string) {
    kind in Kinds(s)
  }

  lemma MatchesMember(s: SymbolSet, kind: string)
    ensures Matches(s, kind) <==> (s == [] && kind == "EOF") || exists x <- s :: x.name == kind
  {
    if s != [] && kind in Kinds(s) {
      var i :| 0 <= i < |s| && Kinds(s)[i] == kind;
      assert s[i] in s;
    }
    if exists x <- s :: x.name == kind {
      var x :| x in s && x.name == kind;
      var i :| 0 <= i < |s| && s[i] == x;
      assert Kinds(s)[i] == kind;
    }
  }

  /** A macro invocation `{prefix}{kind}!()` per kind. */
  function Macros(prefix: string, ks: seq<string>): (r: seq<string>)
    ensures |r| == |ks|
    ensures forall i :: 0 <= i < |ks| ==> r[i] == prefix + ks[i] + "!()"
  {
    if ks == [] then [] else [prefix + ks[0] + "!()"] + Macros(prefix, ks[1..])
  }

  /** `s.iter().map(|x| format!("{prefix}{x}!()")).collect().join(sep)`. */
  function JoinMacros(prefix: string, s: SymbolSet, sep: string): string {
    if |s| == 0 then ""
    else if |s| == 1 then prefix + s[0].name + "!()"
    else prefix + s[0].name + "!()" + sep + JoinMacros(prefix, s[1..], sep)
  }

  /** `Generator::pattern`: `pattern_x!()` per member, joined as match alternatives. */
  function Pattern(s: SymbolSet, level: nat): string {
    if s != [] then JoinMacros("pattern_", s, "\n" + Spaces(level) + "| ")
    else "pattern_EOF!()"
  }

  /** `Generator::error`: `default_x!()` per member, joined as a list. */
  function Error(s: SymbolSet, level: nat): string {
    if s != [] then JoinMacros("default_", s, ",\n" + Spaces(level))
    else "default_EOF!()"
  }

  /** The rendering maps every member to its macro, then joins the macros. */
  lemma {:induction false} JoinMacrosJoin(prefix: string, s: SymbolSet, sep: string)
    ensures JoinMacros(prefix, s, sep) == Join(Macros(prefix, Names(s)), sep)
  {
    if |s| > 1 {
      JoinMacrosJoin(prefix, s[1..], sep);
      assert Macros(prefix, Names(s))[1..] == Macros(prefix, Names(s[1..]));
    } else if |s| == 1 {
      assert Macros(prefix, Names(s)) == [prefix + s[0].name + "!()"];
    }
  }

  /** Both renderings are one macro per kind of `Kinds(s)`: the empty set renders as `EOF`. */
  lemma RenderKinds(s: SymbolSet, level: nat)
    ensures Pattern(s, level) == Join(Macros("pattern_", Kinds(s)), "\n" + Spaces(level) + "| ")
    ensures Error(s, level) == Join(Macros("default_", Kinds(s)), ",\n" + Spaces(level))
  {
    if s == [] {
      var p := Macros("pattern_", ["EOF"]);
      assert |p| == 1 && p[0] == "pattern_" + "EOF" + "!()";
      assert p[0] == "pattern_EOF!()";
      var d := Macros("default_", ["EOF"]);
      assert |d| == 1 && d[0] == "default_" + "EOF" + "!()";
      assert d[0] == "default_EOF!()";
    } else {
      JoinMacrosJoin("pattern_", s, "\n" + Spaces(level) + "| ");
      JoinMacrosJoin("default_", s, ",\n" + Spaces(level));
    }
  }

  lemma NotInConcat(a: string, b: string, c: string, ch: char)
    requires ch !in a && ch !in b && ch !in c
    ensures ch !in a + b + c
  {
  }

  lemma MacroLine(h: string, prefix: string, kind: string, t: string)
    ensures h + (prefix + kind + "!()") + t == h + prefix + kind + "!()" + t
  {
  }

  /** The lines of a join of macros whose separator holds one line break. */
  lemma MacroJoinLines(prefix: string, ks: seq<string>, a: string, p: string)
    requires |ks| > 0 && '\n' !in prefix && '\n' !in a && '\n' !in p
    requires forall k <- ks :: '\n' !in k
    ensures var ls := Lines(Join(Macros(prefix, ks), a + "\n" + p));
      |ls| == |ks| &&
      forall k :: 0 <= k < |ks| ==>
        ls[k] == (if k == 0 then "" else p) + prefix + ks[k] + "!()" + (if k < |ks| - 1 then a else "")
  {
    var xs := Macros(prefix, ks);
    forall x <- xs ensures '\n' !in x {
      var i :| 0 <= i < |xs| && xs[i] == x;
      assert ks[i] in ks;
      NotInConcat(prefix, ks[i], "!()", '\n');
    }
    LinesOfJoin("", xs, a, p);
    var j := Join(xs, a + "\n" + p);
    assert "" + j == j;
    var ls := Lines(j);
    forall k | 0 <= k < |ks|
      ensures ls[k] == (if k == 0 then "" else p) + prefix + ks[k] + "!()" + (if k < |ks| - 1 then a else "")
    {
      MacroLine(if k == 0 then "" else p, prefix, ks[k], if k < |ks| - 1 then a else "");
    }
  }

  lemma KindsOneLine(s: SymbolSet)
    requires OneLineNames(s)
    ensures forall k <- Kinds(s) :: '\n' !in k
  {
    forall k <- Kinds(s) ensures '\n' !in k {
      var i :| 0 <= i < |Kinds(s)| && Kinds(s)[i] == k;
      if s != [] {
        assert s[i] in s;
      }
    }
  }

  lemma PatternSeparator(level: nat)
    ensures "\n" + Spaces(level) + "| " == "" + "\n" + (Spaces(level) + "| ")
  {
  }

  lemma ErrorSeparator(level: nat)
    ensures ",\n" + Spaces(level) == "," + "\n" + Spaces(level)
  {
  }

  /**
   * The rendered pattern has one line per kind of `Kinds(s)`, in order: the first is
   * `pattern_k!()`, each later one `| pattern_k!()` behind `4 * level` spaces.
   */
  lemma PatternLines(s: SymbolSet, level: nat)
    requires OneLineNames(s)
    ensures var ls := Lines(Pattern(s, level)); var ks := Kinds(s);
      |ls| == |ks| &&
      forall k :: 0 <= k < |ks| ==>
        ls[k] == (if k == 0 then "" else Spaces(level) + "| ") + "pattern_" + ks[k] + "!()" + ""
  {
    var ks := Kinds(s);
    var p := Spaces(level) + "| ";
    var j := Join(Macros("pattern_", ks), "" + "\n" + p);
    assert Pattern(s, level) == j by {
      RenderKinds(s, level);
      PatternSeparator(level);
    }
    var ls := Lines(j);
    assert |ls| == |ks| && forall k :: 0 <= k < |ks| ==>
      ls[k] == (if k == 0 then "" else p) + "pattern_" + ks[k] + "!()" + (if k < |ks| - 1 then "" else "") by {
      KindsOneLine(s);
      SpacesOnly(level);
      MacroJoinLines("pattern_", ks, "", p);
    }
  }

  /**
   * The rendered list has one line per kind of `Kinds(s)`, in order:
   * `default_k!()`, behind `4 * level` spaces from the second on, and followed by a
   * comma on every line but the last.
   */
  lemma ErrorLines(s: SymbolSet, level: nat)
    requires OneLineNames(s)
    ensures var ls := Lines(Error(s, level)); var ks := Kinds(s);
      |ls| == |ks| &&
      forall k :: 0 <= k < |ks| ==>
        ls[k] == (if k == 0 then "" else Spaces(level)) + "default_" + ks[k] + "!()"
                 + (if k < |ks| - 1 then "," else "")
  {
    RenderKinds(s, level);
    KindsOneLine(s);
    SpacesOnly(level);
    ErrorSeparator(level);
    MacroJoinLines("default_", Kinds(s), ",", Spaces(level));
  }
}
