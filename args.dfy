/**
 * Turning a Rust parameter list into the argument list that forwards it
 * (`RustOutput::par_to_arg`), and the argument tail of a rule call.
 */
module Arguments {
  import opened Text

  /** `s.rsplit(c).next()`: the text after the last `c`. */
  function AfterLast(s: string, c: char): (t: string)
    ensures c !in t
  {
    var ps := Split(s, c);
    ps[|ps| - 1]
  }

  /**
   * `par_to_arg`: split at every `':'`, drop the piece after the last one, keep from
   * every other piece its text after the last `','`, and join those with `","`.
   */
  function ParToArg(pars: string): string {
    var ps := Split(pars, ':');
    Join(seq(|ps| - 1, i requires 0 <= i < |ps| - 1 => AfterLast(ps[i], ',')), ",")
  }

  /** The pieces of a split only hold characters of the split text. */
  lemma {:induction false} SplitPiecesFree(s: string, c: char, d: char)
    requires d !in s
    ensures forall x <- Split(s, c) :: d !in x
    decreases |s|
  {
    var i := IndexOf(s, c);
    if i < |s| {
      assert forall x <- s[..i] :: x in s;
      assert forall x <- s[i + 1..] :: x in s;
      SplitPiecesFree(s[i + 1..], c, d);
    }
  }

  lemma {:induction false} JoinFree(xs: seq<string>, sep: string, d: char)
    requires d !in sep && forall x <- xs :: d !in x
    ensures d !in Join(xs, sep)
  {
    if |xs| > 0 {
      assert xs[0] in xs;
    }
    if |xs| > 1 {
      assert forall x <- xs[1..] :: x in xs;
      JoinFree(xs[1..], sep, d);
    }
  }

  /** The text after the first `c` keeps the text after the last `c`. */
  lemma AfterLastCons(a: string, c: char, b: string)
    requires c !in a
    ensures AfterLast(a + [c] + b, c) == AfterLast(b, c)
  {
    SplitCons(a, c, b);
  }

  /** Everything before the last `c` is irrelevant to `AfterLast`. */
  lemma {:induction false} AfterLastSkips(a: string, c: char, b: string)
    ensures AfterLast(a + [c] + b, c) == AfterLast(b, c)
    decreases |a|
  {
    var i := IndexOf(a, c);
    if i == |a| {
      IndexOfAbsent(a, c);
      AfterLastCons(a, c, b);
    } else {
      var a1, a2 := a[..i], a[i + 1..];
      calc {
        AfterLast(a + [c] + b, c);
        { assert a + [c] + b == a1 + [c] + (a2 + [c] + b); }
        AfterLast(a1 + [c] + (a2 + [c] + b), c);
        { AfterLastCons(a1, c, a2 + [c] + b); }
        AfterLast(a2 + [c] + b, c);
        { AfterLastSkips(a2, c, b); }
        AfterLast(b, c);
      }
    }
  }

  lemma AfterLastWhole(s: string, c: char)
    requires c !in s
    ensures AfterLast(s, c) == s
  {
    SplitSingle(s, c);
  }

  lemma {:induction false} CountPresent(s: string, c: char)
    requires c in s
    ensures Count(s, c) > 0
  {
    if s[0] != c {
      assert c in s[1..];
      CountPresent(s[1..], c);
    }
  }

  /** A parameter list without a `':'` forwards no arguments. */
  lemma ParToArgNoParameters(pars: string)
    requires ':' !in pars
    ensures ParToArg(pars) == ""
  {
    SplitSingle(pars, ':');
  }

  /**
   * One argument per `':'`, none of them holding a `':'` or a `','`; so the
   * arguments read back from the joined list are exactly the ones produced.
   */
  lemma ParToArgArity(pars: string)
    requires ':' in pars
    ensures var args := Split(ParToArg(pars), ',');
      |args| == Count(pars, ':') && forall a <- args :: ':' !in a
  {
    var ps := Split(pars, ':');
    var xs := seq(|ps| - 1, i requires 0 <= i < |ps| - 1 => AfterLast(ps[i], ','));
    CountPresent(pars, ':');
    forall x <- xs ensures ':' !in x && ',' !in x {
      var i :| 0 <= i < |xs| && xs[i] == x;
      assert ps[i] in ps;
      SplitPiecesFree(ps[i], ',', ':');
    }
    SplitJoin(xs, ',');
    assert ParToArg(pars) == Join(xs, [',']);
  }

  /** One declared parameter `name: ty` (the spacing belongs to the two texts). */
  datatype Param = Param(name: string, ty: string)

  /** A parameter declaration list, as written in the grammar: `a: A,b: B`. */
  function Declaration(ps: seq<Param>): string {
    Join(seq(|ps|, i requires 0 <= i < |ps| => ps[i].name + ":" + ps[i].ty), ",")
  }

  /** The argument list that forwards `ps`: their names, joined by `","`. */
  function Forwarding(ps: seq<Param>): string {
    Join(seq(|ps|, i requires 0 <= i < |ps| => ps[i].name), ",")
  }

  predicate PlainParams(ps: seq<Param>) {
    forall p <- ps :: ':' !in p.name && ',' !in p.name && ':' !in p.ty
  }

  /** The pieces that splitting `pre + Declaration(ps)` at `':'` produces. */
  function ColonPieces(pre: string, ps: seq<Param>): (r: seq<string>)
    requires |ps| > 0
    ensures |r| == |ps| + 1
    decreases |ps|
  {
    if |ps| == 1 then [pre + ps[0].name, ps[0].ty]
    else [pre + ps[0].name] + ColonPieces(ps[0].ty + ",", ps[1..])
  }

  lemma DeclarationCons(ps: seq<Param>)
    requires |ps| > 1
    ensures Declaration(ps) == ps[0].name + ":" + ps[0].ty + "," + Declaration(ps[1..])
  {
    var xs := seq(|ps|, i requires 0 <= i < |ps| => ps[i].name + ":" + ps[i].ty);
    assert xs[1..] == seq(|ps[1..]|, i requires 0 <= i < |ps[1..]| => ps[1..][i].name + ":" + ps[1..][i].ty);
  }

  lemma {:induction false} SplitDeclaration(pre: string, ps: seq<Param>)
    requires |ps| > 0 && ':' !in pre && PlainParams(ps)
    ensures Split(pre + Declaration(ps), ':') == ColonPieces(pre, ps)
    decreases |ps|
  {
    var head := pre + ps[0].name;
    assert ':' !in head && ':' !in ps[0].ty by {
      assert ps[0] in ps;
    }
    if |ps| == 1 {
      calc {
        Split(pre + Declaration(ps), ':');
        { assert pre + Declaration(ps) == head + [':'] + ps[0].ty; }
        Split(head + [':'] + ps[0].ty, ':');
        { SplitCons(head, ':', ps[0].ty); SplitSingle(ps[0].ty, ':'); }
        [head, ps[0].ty];
      }
    } else {
      var pre' := ps[0].ty + ",";
      var rest := pre' + Declaration(ps[1..]);
      assert PlainParams(ps[1..]) by {
        assert forall p <- ps[1..] :: p in ps;
      }
      calc {
        Split(pre + Declaration(ps), ':');
        { DeclarationCons(ps); assert pre + Declaration(ps) == head + [':'] + rest; }
        Split(head + [':'] + rest, ':');
        { SplitCons(head, ':', rest); }
        [head] + Split(rest, ':');
        { SplitDeclaration(pre', ps[1..]); }
        [head] + ColonPieces(pre', ps[1..]);
      }
    }
  }

  lemma {:induction false} ColonPiecesNames(pre: string, ps: seq<Param>, i: nat)
    requires 0 <= i < |ps| && PlainParams(ps)
    requires pre == "" || (|pre| > 0 && pre[|pre| - 1] == ',')
    ensures AfterLast(ColonPieces(pre, ps)[i], ',') == ps[i].name
    decreases |ps|
  {
    assert ps[0] in ps;
    if i == 0 {
      if pre == "" {
        assert pre + ps[0].name == ps[0].name;
        AfterLastWhole(ps[0].name, ',');
      } else {
        assert pre + ps[0].name == pre[..|pre| - 1] + [','] + ps[0].name;
        AfterLastSkips(pre[..|pre| - 1], ',', ps[0].name);
        AfterLastWhole(ps[0].name, ',');
      }
    } else {
      assert forall p <- ps[1..] :: p in ps;
      ColonPiecesNames(ps[0].ty + ",", ps[1..], i - 1);
    }
  }

  /**
   * Round trip: forwarding a declaration list gives back its parameter names, joined
   * as they were declared, whenever no name holds a `':'` or a `','` and no type a
   * `':'`.
   */
  lemma ParToArgDeclaration(ps: seq<Param>)
    requires |ps| > 0 && PlainParams(ps)
    ensures ParToArg(Declaration(ps)) == Forwarding(ps)
  {
    var cs := Split(Declaration(ps), ':');
    assert cs == ColonPieces("", ps) by {
      SplitDeclaration("", ps);
      assert "" + Declaration(ps) == Declaration(ps);
    }
    var xs := seq(|cs| - 1, i requires 0 <= i < |cs| - 1 => AfterLast(cs[i], ','));
    var names := seq(|ps|, i requires 0 <= i < |ps| => ps[i].name);
    assert xs == names by {
      forall i | 0 <= i < |ps| ensures xs[i] == names[i] {
        ColonPiecesNames("", ps, i);
      }
    }
    calc {
      ParToArg(Declaration(ps));
      Join(xs, ",");
      Join(names, ",");
      Forwarding(ps);
    }
  }

  /**
   * The argument tail of a rule call, `input{common_args}{args}`, as the code builds
   * it: the rule's own arguments get a `", "` in front only when there are common
   * arguments.
   */
  function CallArgsAsWritten(commonArgs: string, args: string): string {
    if args == "" then "" else if commonArgs == "" then args else ", " + args
  }

  /** With no common arguments, the rule's first argument is glued to `input`. */
  lemma CallArgsAsWrittenGlues()
    ensures "input" + "" + CallArgsAsWritten("", "x") == "inputx"
  {
  }

  /** The argument tail as intended: every forwarded argument list opens with `", "`. */
  function CallArgs(commonArgs: string, args: string): (t: string)
    ensures args == "" ==> t == ""
    ensures args != "" ==> t == ", " + args
  {
    if args == "" then "" else ", " + args
  }

  /**
   * When the common arguments are themselves empty or a `", "`-led list, the whole
   * call tail is empty or `", "`-led, so `input` is always properly separated.
   */
  lemma CallArgsSeparated(commonArgs: string, args: string)
    requires commonArgs == "" || (|commonArgs| >= 2 && commonArgs[..2] == ", ")
    ensures var tail := commonArgs + CallArgs(commonArgs, args);
      tail == "" || (|tail| >= 2 && tail[..2] == ", ")
  {
    var tail := commonArgs + CallArgs(commonArgs, args);
    if commonArgs != "" {
      assert tail[..2] == commonArgs[..2];
    }
  }
}
