// The value seen on a board: what each square holds, as the games and the
// movement strategies observe it. The object model (module Modele) is tied
// to these values by Plateau.Contents().
module Grille {
  import opened Lang

  /** The concrete Piece subclass, as `instanceof` tests distinguish them. */
  datatype Kind = Roi | Reine | Tour | Fou | Cavalier | Pion | PionPuissance4 | PionTicTacToe

  /**
   * What a square shows of its piece: the subclass, the colour string and the
   * aDejaBouge flag (kept by Roi and Tour; false for every other piece).
   */
  datatype PieceVal = PieceVal(kind: Kind, couleur: string, aDejaBouge: bool)

  /** A (row, column) pair: posX is the row, posY the column. */
  datatype Pos = Pos(x: int, y: int)

  /** Rows of squares; None is an empty square. */
  type Grid = seq<seq<Option<PieceVal>>>

  predicate Rect(g: Grid, sx: int, sy: int)
  {
    |g| == sx && forall x :: 0 <= x < sx ==> |g[x]| == sy
  }

  predicate InBounds(g: Grid, p: Pos)
  {
    0 <= p.x < |g| && 0 <= p.y < |g[p.x]|
  }

  function At(g: Grid, p: Pos): Option<PieceVal>
    requires InBounds(g, p)
  {
    g[p.x][p.y]
  }

  predicate Occupied(g: Grid, p: Pos) { InBounds(g, p) && At(g, p).Some? }

  predicate Empty(g: Grid, p: Pos) { InBounds(g, p) && At(g, p).None? }

  /** Plateau.getCasePR: the square at an offset from p, or None off the board. */
  function Rel(g: Grid, p: Pos, dx: int, dy: int): (r: Option<Pos>)
    ensures r.Some? <==> InBounds(g, Pos(p.x + dx, p.y + dy))
    ensures r.Some? ==> r.value == Pos(p.x + dx, p.y + dy)
  {
    var q := Pos(p.x + dx, p.y + dy);
    if InBounds(g, q) then Some(q) else None
  }

  /** The board with square p set to v and nothing else changed. */
  function Set(g: Grid, p: Pos, v: Option<PieceVal>): (r: Grid)
    requires InBounds(g, p)
    ensures |r| == |g| && forall x :: 0 <= x < |g| ==> |r[x]| == |g[x]|
    ensures At(r, p) == v
    ensures forall q :: InBounds(g, q) && q != p ==> At(r, q) == At(g, q)
  {
    g[p.x := g[p.x][p.y := v]]
  }

  /** A board of sx rows and sy columns with every square empty. */
  function Vide(sx: nat, sy: nat): (g: Grid)
    ensures Rect(g, sx, sy)
    ensures forall p :: InBounds(g, p) ==> At(g, p).None?
  {
    seq(sx, x => seq(sy, y => None))
  }

  lemma SetSameShape(g: Grid, p: Pos, v: Option<PieceVal>, sx: int, sy: int)
    requires Rect(g, sx, sy) && InBounds(g, p)
    ensures Rect(Set(g, p, v), sx, sy)
  {
  }

  /** Two squares overwritten, then each given back its old content: the board is unchanged. */
  lemma SetRetour(g: Grid, p: Pos, q: Pos, u: Option<PieceVal>, v: Option<PieceVal>, sx: int, sy: int)
    requires Rect(g, sx, sy) && InBounds(g, p) && InBounds(g, q) && p != q
    ensures Set(Set(Set(Set(g, p, u), q, v), q, At(g, q)), p, At(g, p)) == g
  {
    var h1 := Set(g, p, u);
    var h2 := Set(h1, q, v);
    var h3 := Set(h2, q, At(g, q));
    SetSameShape(g, p, u, sx, sy);
    SetSameShape(h1, q, v, sx, sy);
    SetSameShape(h2, q, At(g, q), sx, sy);
    SetSameShape(h3, p, At(g, p), sx, sy);
    GridExt(Set(h3, p, At(g, p)), g, sx, sy);
  }

  /** A square written twice holds the second value only. */
  lemma SetEcrase(g: Grid, p: Pos, u: Option<PieceVal>, v: Option<PieceVal>, sx: int, sy: int)
    requires Rect(g, sx, sy) && InBounds(g, p)
    ensures Set(Set(g, p, u), p, v) == Set(g, p, v)
  {
    SetSameShape(g, p, u, sx, sy);
    SetSameShape(Set(g, p, u), p, v, sx, sy);
    SetSameShape(g, p, v, sx, sy);
    GridExt(Set(Set(g, p, u), p, v), Set(g, p, v), sx, sy);
  }

  /** Boards of one shape are equal when they agree on every square. */
  lemma GridExt(g: Grid, h: Grid, sx: int, sy: int)
    requires Rect(g, sx, sy) && Rect(h, sx, sy)
    requires forall p :: InBounds(g, p) ==> At(g, p) == At(h, p)
    ensures g == h
  {
    forall x | 0 <= x < sx ensures g[x] == h[x] {
      forall y | 0 <= y < sy ensures g[x][y] == h[x][y] {
        assert At(g, Pos(x, y)) == At(h, Pos(x, y));
      }
    }
  }
}
