/**
 * `Indent::indent`: re-indents text line by line, dropping empty lines, and the
 * shape of text that consists of indented complete lines.
 */
module Indentation {
  import opened Text

  /** One step of the loop of `indent`: an empty line adds nothing. */
  function IndentLine(l: string, level: nat): string {
    if l == "" then "" else Spaces(level) + l + "\n"
  }

  /** What the loop of `indent` has built after the lines `ls`. */
  function IndentLines(ls: seq<string>, level: nat): string {
    if ls == [] then "" else IndentLines(ls[..|ls| - 1], level) + IndentLine(ls[|ls| - 1], level)
  }

  /** `IndentLines(Lines(s), level)`, computed line by line along `s` itself. */
  function IndentText(s: string, level: nat): string
    decreases |s|
  {
    if s == "" then ""
    else
      var i := IndexOf(s, '\n');
      if i == |s| then IndentLine(s, level)
      else IndentLine(s[..i], level) + IndentText(s[i + 1..], level)
  }

  /**
   * The value of `s.indent(level)`: the loop over `s.lines()`, then one `pop`
   * when `s` does not end in a line terminator (a `pop` of an empty string does nothing).
   */
  function Indented(s: string, level: nat): string {
    var t := IndentText(s, level);
    if !EndsWithNewline(s) && t != "" then t[..|t| - 1] else t
  }

  method Indent(s: string, level: nat) returns (result: string)
    ensures result == Indented(s, level)
  {
    var lines := Lines(s);
    result := "";
    for i := 0 to |lines|
      invariant result == IndentLines(lines[..i], level)
    {
      var l := lines[i];
      IndentLinesStep(lines, i, level);
      if l == "" {
        continue;
      }
      ghost var before := result;
      result := result + Spaces(level);
      result := result + l;
      result := result + "\n";
      Regroup3(before, Spaces(level), l);
    }
    assert lines[..|lines|] == lines;
    IndentTextLines(s, level);
    if !EndsWithNewline(s) {
      if result != "" {
        result := result[..|result| - 1];
      }
    }
  }

  lemma IndentLinesStep(ls: seq<string>, i: nat, level: nat)
    requires i < |ls|
    ensures IndentLines(ls[..i + 1], level) == IndentLines(ls[..i], level) + IndentLine(ls[i], level)
  {
    assert ls[..i + 1][..i] == ls[..i];
  }

  lemma IndentLinesSnoc(ls: seq<string>, l: string, level: nat)
    ensures IndentLines(ls + [l], level) == IndentLines(ls, level) + IndentLine(l, level)
  {
    assert (ls + [l])[..|ls|] == ls;
  }

  /** The loop over two lists of lines is the loop over the first, then over the second. */
  lemma {:induction false} IndentLinesAppend(a: seq<string>, b: seq<string>, level: nat)
    ensures IndentLines(a + b, level) == IndentLines(a, level) + IndentLines(b, level)
  {
    if b == [] {
      assert a + b == a;
    } else {
      var init, last := b[..|b| - 1], b[|b| - 1];
      assert b == init + [last];
      assert a + b == (a + init) + [last];
      IndentLinesAppend(a, init, level);
      IndentLinesSnoc(a + init, last, level);
      IndentLinesSnoc(init, last, level);
      AppendAssoc(IndentLines(a, level), IndentLines(init, level), IndentLine(last, level));
    }
  }

  lemma IndentLinesSingle(l: string, level: nat)
    ensures IndentLines([l], level) == IndentLine(l, level)
  {
    assert [l][..0] == [];
  }

  lemma {:induction false} IndentTextLines(s: string, level: nat)
    ensures IndentText(s, level) == IndentLines(Lines(s), level)
    decreases |s|
  {
    if s != "" {
      var i := IndexOf(s, '\n');
      if i == |s| {
        assert Lines(s) == [s];
        IndentLinesSingle(s, level);
      } else {
        var h, rest := s[..i], s[i + 1..];
        assert Lines(s) == [h] + Lines(rest);
        assert IndentText(s, level) == IndentLine(h, level) + IndentText(rest, level);
        IndentTextLines(rest, level);
        IndentLinesAppend([h], Lines(rest), level);
        IndentLinesSingle(h, level);
      }
    }
  }

  lemma Regroup3(a: string, b: string, c: string)
    ensures a + b + c + "\n" == a + (b + c + "\n")
  {
  }

  /** The non-empty members of `ls`, in order. */
  function NonEmpty(ls: seq<string>): (r: seq<string>)
    ensures forall l <- r :: l != "" && l in ls
  {
    if ls == [] then []
    else
      var init := NonEmpty(ls[..|ls| - 1]);
      assert forall l <- init :: l in ls;
      if ls[|ls| - 1] == "" then init else init + [ls[|ls| - 1]]
  }

  /** Every member of `ls` with `p` in front. */
  function Prefixed(ls: seq<string>, p: string): (r: seq<string>)
    ensures |r| == |ls|
    ensures forall k :: 0 <= k < |ls| ==> r[k] == p + ls[k]
  {
    seq(|ls|, k requires 0 <= k < |ls| => p + ls[k])
  }

  lemma {:induction false} IndentLinesUnlines(ls: seq<string>, level: nat)
    ensures IndentLines(ls, level) == Unlines(Prefixed(NonEmpty(ls), Spaces(level)))
  {
    if ls != [] {
      var init, last := ls[..|ls| - 1], ls[|ls| - 1];
      IndentLinesUnlines(init, level);
      var xs := Prefixed(NonEmpty(init), Spaces(level));
      if last != "" {
        assert Prefixed(NonEmpty(ls), Spaces(level)) == xs + [Spaces(level) + last];
        UnlinesSnoc(xs, Spaces(level) + last);
        AppendAssoc(Unlines(xs), Spaces(level) + last, "\n");
      }
    }
  }

  lemma PrefixedLines(s: string, level: nat)
    ensures var xs := Prefixed(NonEmpty(Lines(s)), Spaces(level));
      forall x <- xs :: '\n' !in x && x != ""
  {
    var ne := NonEmpty(Lines(s));
    var xs := Prefixed(ne, Spaces(level));
    SpacesOnly(level);
    forall x <- xs ensures '\n' !in x && x != "" {
      var k :| 0 <= k < |xs| && xs[k] == x;
      assert ne[k] in ne;
      assert ne[k] in Lines(s);
      assert x == Spaces(level) + ne[k];
    }
  }

  /**
   * `s.indent(level)` keeps exactly the non-empty lines of `s`, in order, each with
   * `4 * level` spaces in front, and ends in a line terminator exactly when `s` does
   * and `s` has a non-empty line.
   */
  lemma IndentedLines(s: string, level: nat)
    ensures Lines(Indented(s, level)) == Prefixed(NonEmpty(Lines(s)), Spaces(level))
    ensures EndsWithNewline(Indented(s, level)) <==> EndsWithNewline(s) && NonEmpty(Lines(s)) != []
  {
    var xs := Prefixed(NonEmpty(Lines(s)), Spaces(level));
    var t := IndentLines(Lines(s), level);
    IndentTextLines(s, level);
    IndentLinesUnlines(Lines(s), level);
    PrefixedLines(s, level);
    UnlinesEmpty(xs);
    if xs == [] {
      LinesEmpty();
    } else if EndsWithNewline(s) {
      LinesUnlines(xs);
    } else {
      UnlinesJoin(xs);
      assert t[..|t| - 1] == Join(xs, "\n");
      LinesOfPoppedJoin(xs);
    }
  }

  /** The `pop` case of `indent`: the lines joined without a final terminator. */
  lemma LinesOfPoppedJoin(xs: seq<string>)
    requires |xs| > 0
    requires forall x <- xs :: '\n' !in x && x != ""
    ensures Lines(Join(xs, "\n")) == xs
    ensures !EndsWithNewline(Join(xs, "\n"))
  {
    LinesOfNewlineJoin(xs);
    var last := xs[|xs| - 1];
    assert last in xs;
    JoinLastChar(xs, "\n");
    assert last[|last| - 1] in last;
  }

  /** A join ends with the last character of its last piece. */
  lemma JoinLastChar(xs: seq<string>, sep: string)
    requires |xs| > 0 && xs[|xs| - 1] != ""
    ensures var j := Join(xs, sep); var last := xs[|xs| - 1];
      |j| > 0 && j[|j| - 1] == last[|last| - 1]
  {
    JoinSuffix(xs, sep);
    var j := Join(xs, sep);
    var last := xs[|xs| - 1];
    var suffix := j[|j| - |last|..];
    assert suffix[|last| - 1] == j[|j| - 1];
  }

  lemma LinesOfNewlineJoin(xs: seq<string>)
    requires |xs| > 0
    requires forall x <- xs :: '\n' !in x && x != ""
    ensures Lines(Join(xs, "\n")) == xs
  {
    assert xs[|xs| - 1] in xs;
    LinesOfJoin("", xs, "", "");
    assert "" + "\n" + "" == "\n";
    var j := Join(xs, "\n");
    assert "" + j == j;
    var ls := Lines(j);
    assert |ls| == |xs|;
    forall k | 0 <= k < |xs| ensures ls[k] == xs[k] {
      assert ls[k] == "" + xs[k] + "";
    }
  }
}
