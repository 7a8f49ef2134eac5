/**
 * What the generator writes to its output file, one `write_all` call at a time: plain
 * text, or text passed through `indent(level)` first. The file's content is the
 * concatenation of the rendered pieces.
 */
module Pieces {
  import opened Text
  import opened Indentation

  /** One `write_all` call: `Plain(s)` writes `s`, `Block(s, level)` writes `s.indent(level)`. */
  datatype Piece = Plain(s: string) | Block(s: string, level: nat)

  /** The bytes one write appends. */
  function PieceText(p: Piece): string {
    match p
    case Plain(s) => s
    case Block(s, level) => Indented(s, level)
  }

  /** The content of a file after the writes `ps`, in order. */
  function Render(ps: seq<Piece>): string {
    if ps == [] then "" else Render(ps[..|ps| - 1]) + PieceText(ps[|ps| - 1])
  }

  lemma RenderSnoc(ps: seq<Piece>, p: Piece)
    ensures Render(ps + [p]) == Render(ps) + PieceText(p)
  {
    assert (ps + [p])[..|ps|] == ps;
  }

  lemma RenderSingle(p: Piece)
    ensures Render([p]) == PieceText(p)
  {
    assert [p][..0] == [];
  }

  /** Writing `a` and then `b` leaves the content of `a` followed by the content of `b`. */
  lemma {:induction false} RenderAppend(a: seq<Piece>, b: seq<Piece>)
    ensures Render(a + b) == Render(a) + Render(b)
  {
    if b == [] {
      assert a + b == a;
    } else {
      var init, last := b[..|b| - 1], b[|b| - 1];
      assert b == init + [last];
      assert a + b == (a + init) + [last];
      RenderAppend(a, init);
      RenderSnoc(a + init, last);
      RenderSnoc(init, last);
      AppendAssoc(Render(a), Render(init), PieceText(last));
    }
  }

  lemma PiecesAssoc(a: seq<Piece>, b: seq<Piece>, c: seq<Piece>)
    ensures a + b + c == a + (b + c)
  {
  }

  lemma PiecesEmpty(a: seq<Piece>)
    ensures a + [] == a
  {
  }
}
