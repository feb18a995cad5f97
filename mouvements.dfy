// The squares each movement strategy (DecCasesAccessibles and its
// subclasses) offers from a square, as functions of the board value. The
// imperative strategies in module Modele are proved to return exactly these.
module Mouvements {
  import opened Lang
  import opened Grille

  /** The concrete DecCasesAccessibles subclass. */
  datatype DecKind = DecLigne | DecDiag | DecCava | DecRoi | DecPion
                   | DecPuissance4 | DecTicTacToe | DecTicTacToe3D

  /** The chess strategies read the piece standing on their starting square. */
  predicate LitLaPiece(k: DecKind)
  {
    k == DecLigne || k == DecDiag || k == DecCava || k == DecRoi || k == DecPion
  }

  /** A piece's strategy: its own decorator and the base it was built on, if any. */
  datatype Strategie = Strategie(own: DecKind, base: Option<DecKind>)

  /** The strategy each Piece subclass passes to the Piece constructor. */
  function StrategieDe(k: Kind): (s: Strategie)
    ensures k == Reine ==> s == Strategie(DecDiag, Some(DecLigne))
    ensures k != Reine ==> s.base.None?
  {
    match k
    case Roi => Strategie(DecRoi, None)
    case Reine => Strategie(DecDiag, Some(DecLigne))
    case Tour => Strategie(DecLigne, None)
    case Fou => Strategie(DecDiag, None)
    case Cavalier => Strategie(DecCava, None)
    case Pion => Strategie(DecPion, None)
    case PionPuissance4 => Strategie(DecPuissance4, None)
    case PionTicTacToe => Strategie(DecTicTacToe, None)
  }

  /** The previous move, as DecPion reads it: where it started and where it ended. */
  datatype Trajet = Trajet(dep: Pos, arr: Pos)

  /** Directions scanned by DecLigne: right, left, down, up. */
  const LIGNE_DIRS: seq<(int, int)> := [(0, 1), (0, -1), (1, 0), (-1, 0)]
  /** Directions scanned by DecDiag: up-right, up-left, down-right, down-left. */
  const DIAG_DIRS: seq<(int, int)> := [(-1, 1), (-1, -1), (1, 1), (1, -1)]
  /** Offsets tried by DecCava, in source order. */
  const CAVA_SAUTS: seq<(int, int)> := [(-2, -1), (-1, -2), (-2, 1), (-1, 2), (2, -1), (1, -2), (2, 1), (1, 2)]
  /** Offsets tried by DecRoi, in source order. */
  const ROI_PAS: seq<(int, int)> := [(0, 1), (0, -1), (1, 0), (-1, 0), (-1, 1), (-1, -1), (1, 1), (1, -1)]

  /**
   * One direction of a sliding walk, from distance i to distance 7: empty
   * squares are taken, the first occupied square is taken when it holds a
   * piece of another colour than col, and the walk ends there or at the edge.
   */
  function Rayon(g: Grid, c: Pos, col: string, dx: int, dy: int, i: nat): (r: seq<Pos>)
    ensures forall q :: q in r ==> InBounds(g, q) && Atteignable(g, q, col)
    decreases 8 - i
  {
    if i >= 8 || !InBounds(g, Pas(c, dx, dy, i)) then []
    else
      var q := Pas(c, dx, dy, i);
      if At(g, q).None? then [q] + Rayon(g, c, col, dx, dy, i + 1)
      else if At(g, q).value.couleur == col then []
      else [q]
  }

  /** The square i steps from c along (dx, dy), as getCasePR(c, {dx*i, dy*i}) computes it. */
  function Pas(c: Pos, dx: int, dy: int, i: nat): Pos
  {
    Pos(c.x + Fois(dx, i), c.y + Fois(dy, i))
  }

  /**
   * a * k by repeated addition: written this way, one more step along a
   * direction is a linear fact. FoisProduit shows it is the product.
   */
  function Fois(a: int, k: nat): int
  {
    if k == 0 then 0 else Fois(a, k - 1) + a
  }

  lemma {:induction false} FoisProduit(a: int, k: nat)
    ensures Fois(a, k) == a * k
  {
    if k > 0 {
      FoisProduit(a, k - 1);
      assert a * k == a * (k - 1) + a;
    }
  }

  /**
   * The state of DecLigne's and DecDiag's inner loop after n steps along
   * (dx, dy): the squares collected so far and whether the loop has left by
   * a break (edge, own piece, or a capture).
   */
  function Marche(g: Grid, c: Pos, col: string, dx: int, dy: int, n: nat): (seq<Pos>, bool)
  {
    if n == 0 then ([], false)
    else
      var m := Marche(g, c, col, dx, dy, n - 1);
      if m.1 then m
      else
        var q := Pas(c, dx, dy, n);
        if !InBounds(g, q) then (m.0, true)
        else if At(g, q).None? then (m.0 + [q], false)
        else if At(g, q).value.couleur == col then (m.0, true)
        else (m.0 + [q], true)
  }

  /** The walks along each direction, concatenated in the order given. */
  function Rayons(g: Grid, c: Pos, col: string, dirs: seq<(int, int)>): (r: seq<Pos>)
    ensures forall q :: q in r ==> InBounds(g, q) && Atteignable(g, q, col)
  {
    if |dirs| == 0 then []
    else Rayons(g, c, col, dirs[..|dirs| - 1]) + Rayon(g, c, col, dirs[|dirs| - 1].0, dirs[|dirs| - 1].1, 1)
  }

  /** A square a jumping piece of colour col may land on: empty or held by another colour. */
  predicate Atteignable(g: Grid, q: Pos, col: string)
    requires InBounds(g, q)
  {
    At(g, q).None? || At(g, q).value.couleur != col
  }

  /** The on-board, reachable squares among c plus each offset, in the order given. */
  function Sauts(g: Grid, c: Pos, col: string, offs: seq<(int, int)>): (r: seq<Pos>)
    ensures forall q :: q in r ==> InBounds(g, q) && Atteignable(g, q, col)
  {
    if |offs| == 0 then []
    else Sauts(g, c, col, offs[..|offs| - 1]) + Saut(g, c, col, offs[|offs| - 1])
  }

  /** One offset: the square at c + o when it is on the board and reachable, else nothing. */
  function Saut(g: Grid, c: Pos, col: string, o: (int, int)): (r: seq<Pos>)
    ensures forall q :: q in r ==> InBounds(g, q) && Atteignable(g, q, col)
  {
    match Rel(g, c, o.0, o.1)
    case None => []
    case Some(q) => if Atteignable(g, q, col) then [q] else []
  }

  /** The square holds a Roi or a Tour whose aDejaBouge flag is false. */
  predicate NonBouge(g: Grid, q: Pos, k: Kind)
  {
    Occupied(g, q) && At(g, q).value.kind == k && !At(g, q).value.aDejaBouge
  }

  /** DecRoi's short castling test (rook three files to the right). */
  predicate PetitRoque(g: Grid, c: Pos)
  {
    c.y == 4 && NonBouge(g, c, Roi) && NonBouge(g, Pos(c.x, c.y + 3), Tour)
    && Empty(g, Pos(c.x, c.y + 1)) && Empty(g, Pos(c.x, c.y + 2))
  }

  /** DecRoi's long castling test (rook four files to the left). */
  predicate GrandRoque(g: Grid, c: Pos)
  {
    c.y == 4 && NonBouge(g, c, Roi) && NonBouge(g, Pos(c.x, c.y - 4), Tour)
    && Empty(g, Pos(c.x, c.y - 1)) && Empty(g, Pos(c.x, c.y - 2)) && Empty(g, Pos(c.x, c.y - 3))
  }

  function RoiCA(g: Grid, c: Pos, col: string): (r: seq<Pos>)
    ensures forall q :: q in r ==> InBounds(g, q) && Atteignable(g, q, col)
  {
    Sauts(g, c, col, ROI_PAS)
    + (if PetitRoque(g, c) then [Pos(c.x, c.y + 2)] else [])
    + (if GrandRoque(g, c) then [Pos(c.x, c.y - 2)] else [])
  }

  /** A pawn of colour exactly "Blanc" moves towards row 0; any other colour towards higher rows. */
  function Direction(col: string): int { if col == "Blanc" then -1 else 1 }

  function LigneDepart(col: string): int { if col == "Blanc" then 6 else 1 }

  /**
   * DecPion dereferences the square two rows ahead without a null test once
   * the square ahead is free and the pawn stands on its start row; this is
   * the case in which that square exists.
   */
  predicate PionDefini(g: Grid, c: Pos)
  {
    Occupied(g, c)
    && var col := At(g, c).value.couleur;
       var d := Direction(col);
       (Empty(g, Pos(c.x + d, c.y)) && c.x == LigneDepart(col) ==> InBounds(g, Pos(c.x + 2 * d, c.y)))
  }

  /** The squares a pawn offers, and the en-passant victim's square it records. */
  datatype PionCoups = PionCoups(cases: seq<Pos>, enPassant: Option<Pos>)

  /** The forward squares: one row ahead when free, and two rows ahead from the start row when both are free. */
  function PionAvance(g: Grid, c: Pos, col: string): (r: seq<Pos>)
    requires PionDefini(g, c) && At(g, c).value.couleur == col
    ensures var d := Direction(col);
      && (Pos(c.x + d, c.y) in r <==> Empty(g, Pos(c.x + d, c.y)))
      && (Pos(c.x + 2 * d, c.y) in r <==>
            Empty(g, Pos(c.x + d, c.y)) && c.x == LigneDepart(col) && Empty(g, Pos(c.x + 2 * d, c.y)))
      && forall q :: q in r ==> q.y == c.y && Empty(g, q)
  {
    var d := Direction(col);
    match Rel(g, c, d, 0)
    case None => []
    case Some(n) =>
      if At(g, n).Some? then []
      else if c.x == LigneDepart(col) && At(g, Pos(c.x + 2 * d, c.y)).None? then [n, Pos(c.x + 2 * d, c.y)]
      else [n]
  }

  /** A diagonal capture one row ahead, dy columns aside: offered iff that square holds another colour. */
  function PionPrise(g: Grid, c: Pos, col: string, dy: int): (r: seq<Pos>)
    ensures var q := Pos(c.x + Direction(col), c.y + dy);
      (r != [] <==> Occupied(g, q) && At(g, q).value.couleur != col) && (r != [] ==> r == [q])
  {
    match Rel(g, c, Direction(col), dy)
    case None => []
    case Some(q) => if At(g, q).Some? && At(g, q).value.couleur != col then [q] else []
  }

  function Abs(n: int): nat { if n < 0 then -n else n }

  /** The en-passant conditions on the previous move, before the target square is looked at. */
  predicate EnPassantPossible(g: Grid, c: Pos, t: Trajet)
    requires InBounds(g, t.arr)
  {
    At(g, t.arr).Some? && At(g, t.arr).value.kind == Pion
    && Abs(t.arr.x - t.dep.x) == 2 && t.arr.x == c.x && Abs(t.arr.y - c.y) == 1
  }

  predicate DernierCoupSurPlateau(g: Grid, last: Option<Trajet>)
  {
    last.Some? ==> InBounds(g, last.value.arr)
  }

  function PionCA(g: Grid, c: Pos, last: Option<Trajet>): (r: PionCoups)
    requires PionDefini(g, c) && DernierCoupSurPlateau(g, last)
    ensures forall q :: q in r.cases ==> InBounds(g, q) && Atteignable(g, q, At(g, c).value.couleur)
    ensures r.enPassant.Some? ==> InBounds(g, r.enPassant.value)
  {
    var col := At(g, c).value.couleur;
    var base := PionAvance(g, c, col) + PionPrise(g, c, col, -1) + PionPrise(g, c, col, 1);
    match PriseEnPassant(g, c, last)
    case None => PionCoups(base, None)
    case Some(ep) => PionCoups(base + [ep.0], Some(ep.1))
  }

  /**
   * En passant: the square the pawn moves to and the square of the pawn it
   * takes, when the previous move allows it and the target square is free.
   */
  function PriseEnPassant(g: Grid, c: Pos, last: Option<Trajet>): (r: Option<(Pos, Pos)>)
    requires PionDefini(g, c) && DernierCoupSurPlateau(g, last)
    ensures r.Some? ==> InBounds(g, r.value.0) && At(g, r.value.0).None? && InBounds(g, r.value.1)
    ensures r.Some? <==>
      last.Some? && EnPassantPossible(g, c, last.value)
      && Empty(g, Pos(last.value.arr.x + Direction(At(g, c).value.couleur), last.value.arr.y))
    ensures r.Some? ==>
      r.value == (Pos(last.value.arr.x + Direction(At(g, c).value.couleur), last.value.arr.y), last.value.arr)
  {
    var col := At(g, c).value.couleur;
    if last.Some? && EnPassantPossible(g, c, last.value) then
      match Rel(g, last.value.arr, Direction(col), 0)
      case None => None
      case Some(e) => if At(g, e).None? then Some((e, last.value.arr)) else None
    else None
  }

  /** What getMesCA of a strategy of kind k needs in order not to dereference null. */
  predicate MesCADefini(k: DecKind, g: Grid, c: Pos, last: Option<Trajet>)
  {
    (LitLaPiece(k) ==> Occupied(g, c))
    && (k == DecPion ==> PionDefini(g, c) && DernierCoupSurPlateau(g, last))
  }

  /** getMesCA: the squares a strategy of kind k offers by itself. */
  function MesCA(k: DecKind, g: Grid, c: Pos, last: Option<Trajet>): (r: seq<Pos>)
    requires MesCADefini(k, g, c, last)
    ensures !LitLaPiece(k) ==> r == []
    ensures forall q :: q in r ==> InBounds(g, q) && Atteignable(g, q, At(g, c).value.couleur)
  {
    match k
    case DecLigne => Rayons(g, c, At(g, c).value.couleur, LIGNE_DIRS)
    case DecDiag => Rayons(g, c, At(g, c).value.couleur, DIAG_DIRS)
    case DecCava => Sauts(g, c, At(g, c).value.couleur, CAVA_SAUTS)
    case DecRoi => RoiCA(g, c, At(g, c).value.couleur)
    case DecPion => PionCA(g, c, last).cases
    case DecPuissance4 => []
    case DecTicTacToe => []
    case DecTicTacToe3D => []
  }

  predicate CADefini(s: Strategie, g: Grid, c: Pos, last: Option<Trajet>)
  {
    MesCADefini(s.own, g, c, last) && (s.base.Some? ==> MesCADefini(s.base.value, g, c, last))
  }

  /** getCA: the own squares, then those the base offers by itself (one level only). */
  function CA(s: Strategie, g: Grid, c: Pos, last: Option<Trajet>): (r: seq<Pos>)
    requires CADefini(s, g, c, last)
    ensures s.base.None? ==> r == MesCA(s.own, g, c, last)
    ensures |r| == |MesCA(s.own, g, c, last)| + (if s.base.Some? then |MesCA(s.base.value, g, c, last)| else 0)
    ensures forall q :: q in r ==> InBounds(g, q)
  {
    MesCA(s.own, g, c, last) + (if s.base.Some? then MesCA(s.base.value, g, c, last) else [])
  }

  /** What a chess piece's getCA needs: a piece on c and, for a pawn, a defined double step. */
  predicate PieceCADefini(g: Grid, c: Pos, last: Option<Trajet>)
  {
    Occupied(g, c) && CADefini(StrategieDe(At(g, c).value.kind), g, c, last)
  }

  /** getCA of the strategy belonging to the piece on c. */
  function CAde(g: Grid, c: Pos, last: Option<Trajet>): seq<Pos>
    requires PieceCADefini(g, c, last)
  {
    CA(StrategieDe(At(g, c).value.kind), g, c, last)
  }

  // ---------------------------------------------------------------- walks

  /**
   * A walk is the run of squares at distances i, i+1, ... from c, all on the
   * board; all but the last are empty and the last is empty or holds another
   * colour.
   */
  lemma RayonForme(g: Grid, c: Pos, col: string, dx: int, dy: int, i: nat)
    requires 1 <= i
    ensures var r := Rayon(g, c, col, dx, dy, i);
      && |r| <= (if i < 8 then 8 - i else 0)
      && (forall j :: 0 <= j < |r| ==> r[j] == Pas(c, dx, dy, i + j) && InBounds(g, r[j]))
      && (forall j :: 0 <= j < |r| - 1 ==> At(g, r[j]).None?)
      && (|r| > 0 ==> Atteignable(g, r[|r| - 1], col))
  {
    var r := Rayon(g, c, col, dx, dy, i);
    RayonLongueur(g, c, col, dx, dy, i);
    RayonPas(g, c, col, dx, dy, i);
    RayonVide(g, c, col, dx, dy, i);
    if |r| > 0 {
      assert r[|r| - 1] in r;
    }
  }

  lemma {:induction false} RayonLongueur(g: Grid, c: Pos, col: string, dx: int, dy: int, i: nat)
    ensures |Rayon(g, c, col, dx, dy, i)| <= (if i < 8 then 8 - i else 0)
    decreases 8 - i
  {
    if i < 8 && InBounds(g, Pas(c, dx, dy, i)) && At(g, Pas(c, dx, dy, i)).None? {
      RayonLongueur(g, c, col, dx, dy, i + 1);
    }
  }

  lemma {:induction false} RayonPas(g: Grid, c: Pos, col: string, dx: int, dy: int, i: nat)
    ensures forall j :: 0 <= j < |Rayon(g, c, col, dx, dy, i)| ==>
      Rayon(g, c, col, dx, dy, i)[j] == Pas(c, dx, dy, i + j)
    decreases 8 - i
  {
    if i < 8 && InBounds(g, Pas(c, dx, dy, i)) && At(g, Pas(c, dx, dy, i)).None? {
      RayonPas(g, c, col, dx, dy, i + 1);
      var r' := Rayon(g, c, col, dx, dy, i + 1);
      var r := Rayon(g, c, col, dx, dy, i);
      assert r == [Pas(c, dx, dy, i)] + r';
      forall j | 0 < j < |r| ensures r[j] == Pas(c, dx, dy, i + j) {
        assert r[j] == r'[j - 1];
        assert (i + 1) + (j - 1) == i + j;
      }
    }
  }

  lemma {:induction false} RayonVide(g: Grid, c: Pos, col: string, dx: int, dy: int, i: nat)
    ensures forall j :: 0 <= j < |Rayon(g, c, col, dx, dy, i)| - 1 ==>
      At(g, Rayon(g, c, col, dx, dy, i)[j]).None?
    decreases 8 - i
  {
    if i < 8 && InBounds(g, Pas(c, dx, dy, i)) && At(g, Pas(c, dx, dy, i)).None? {
      RayonVide(g, c, col, dx, dy, i + 1);
      var r' := Rayon(g, c, col, dx, dy, i + 1);
      var r := Rayon(g, c, col, dx, dy, i);
      assert r == [Pas(c, dx, dy, i)] + r';
      forall j | 0 < j < |r| - 1 ensures At(g, r[j]).None? {
        assert r[j] == r'[j - 1];
      }
    }
  }

  /** The square k steps along (dx, dy) ends a walk: off the board or held by the walker's colour. */
  predicate Bloque(g: Grid, c: Pos, col: string, dx: int, dy: int, k: nat)
  {
    var n := Pas(c, dx, dy, k);
    !InBounds(g, n) || (At(g, n).Some? && At(g, n).value.couleur == col)
  }

  /**
   * A walk stops short of distance 7 only after a capture or in front of a
   * square that blocks it.
   */
  lemma {:induction false} RayonArret(g: Grid, c: Pos, col: string, dx: int, dy: int, i: nat)
    requires 1 <= i < 8
    ensures i + |Rayon(g, c, col, dx, dy, i)| < 8 && Ouvert(g, Rayon(g, c, col, dx, dy, i)) ==>
      Bloque(g, c, col, dx, dy, i + |Rayon(g, c, col, dx, dy, i)|)
    decreases 8 - i
  {
    var q := Pas(c, dx, dy, i);
    if InBounds(g, q) && At(g, q).None? && i + 1 < 8 {
      RayonArret(g, c, col, dx, dy, i + 1);
      var r' := Rayon(g, c, col, dx, dy, i + 1);
      var r := Rayon(g, c, col, dx, dy, i);
      assert r == [q] + r';
      if |r'| > 0 {
        assert r[|r| - 1] == r'[|r'| - 1];
      }
    }
  }

  /** A walk that is empty or whose last square is empty: it did not end on a capture. */
  predicate Ouvert(g: Grid, r: seq<Pos>)
  {
    |r| == 0 || Empty(g, r[|r| - 1])
  }

  /** Once the loop has broken out, further steps change nothing. */
  lemma {:induction false} MarcheFinie(g: Grid, c: Pos, col: string, dx: int, dy: int, n: nat, m: nat)
    requires n <= m && Marche(g, c, col, dx, dy, n).1
    ensures Marche(g, c, col, dx, dy, m) == Marche(g, c, col, dx, dy, n)
    decreases m
  {
    if m > n {
      MarcheFinie(g, c, col, dx, dy, n, m - 1);
    }
  }

  /** While the loop runs, what it has collected followed by the rest of the walk is the whole walk. */
  lemma {:induction false} MarcheReste(g: Grid, c: Pos, col: string, dx: int, dy: int, n: nat)
    requires n <= 7 && !Marche(g, c, col, dx, dy, n).1
    ensures Marche(g, c, col, dx, dy, 7).0 == Marche(g, c, col, dx, dy, n).0 + Rayon(g, c, col, dx, dy, n + 1)
    decreases 7 - n
  {
    if n < 7 {
      var ps := Marche(g, c, col, dx, dy, n).0;
      var q := Pas(c, dx, dy, n + 1);
      if !InBounds(g, q) || (At(g, q).Some? && At(g, q).value.couleur == col) {
        MarcheFinie(g, c, col, dx, dy, n + 1, 7);
      } else if At(g, q).None? {
        MarcheReste(g, c, col, dx, dy, n + 1);
        assert Rayon(g, c, col, dx, dy, n + 1) == [q] + Rayon(g, c, col, dx, dy, n + 2);
        assert ps + [q] + Rayon(g, c, col, dx, dy, n + 2) == ps + ([q] + Rayon(g, c, col, dx, dy, n + 2));
      } else {
        MarcheFinie(g, c, col, dx, dy, n + 1, 7);
      }
    }
  }

  /** Seven steps of the loop, breaks included, collect exactly the walk from distance 1. */
  lemma MarcheRayon(g: Grid, c: Pos, col: string, dx: int, dy: int)
    ensures Marche(g, c, col, dx, dy, 7).0 == Rayon(g, c, col, dx, dy, 1)
  {
    MarcheReste(g, c, col, dx, dy, 0);
  }

  /** k steps along a direction whose components are 0 or ±1. */
  lemma PasUnitaire(c: Pos, dx: int, dy: int, k: nat)
    requires -1 <= dx <= 1 && -1 <= dy <= 1
    ensures Pas(c, dx, dy, k).x == c.x + (if dx == 1 then k as int else if dx == -1 then -(k as int) else 0)
    ensures Pas(c, dx, dy, k).y == c.y + (if dy == 1 then k as int else if dy == -1 then -(k as int) else 0)
  {
    FoisProduit(dx, k);
    FoisProduit(dy, k);
  }

  /** No square a walk offers holds a piece of the walker's colour. */
  lemma RayonSansAllie(g: Grid, c: Pos, col: string, dx: int, dy: int, q: Pos)
    requires q in Rayon(g, c, col, dx, dy, 1)
    ensures InBounds(g, q) && Atteignable(g, q, col)
  {
    RayonForme(g, c, col, dx, dy, 1);
  }

  /** Each square of a set of walks lies on one of the directions, 1 to 7 steps away. */
  lemma {:induction false} RayonsSurDirections(g: Grid, c: Pos, col: string, dirs: seq<(int, int)>, q: Pos)
    requires q in Rayons(g, c, col, dirs)
    ensures InBounds(g, q) && Atteignable(g, q, col)
    ensures exists d, k :: d in dirs && 1 <= k <= 7 && q == Pas(c, d.0, d.1, k)
  {
    var last := dirs[|dirs| - 1];
    var r := Rayon(g, c, col, last.0, last.1, 1);
    if q in Rayons(g, c, col, dirs[..|dirs| - 1]) {
      RayonsSurDirections(g, c, col, dirs[..|dirs| - 1], q);
      var d, k :| d in dirs[..|dirs| - 1] && 1 <= k <= 7 && q == Pas(c, d.0, d.1, k);
      assert d in dirs;
    } else {
      assert q in r;
      RayonForme(g, c, col, last.0, last.1, 1);
      var j :| 0 <= j < |r| && r[j] == q;
      assert q == Pas(c, last.0, last.1, 1 + j);
    }
  }

  lemma {:induction false} RayonsLongueur(g: Grid, c: Pos, col: string, dirs: seq<(int, int)>)
    ensures |Rayons(g, c, col, dirs)| <= 7 * |dirs|
  {
    if |dirs| > 0 {
      RayonsLongueur(g, c, col, dirs[..|dirs| - 1]);
      RayonForme(g, c, col, dirs[|dirs| - 1].0, dirs[|dirs| - 1].1, 1);
    }
  }

  /**
   * DecLigne: every square offered lies in c's row or column, differs from c,
   * is on the board and holds no piece of the mover's colour; there are at
   * most 7 per direction and 28 in all.
   */
  lemma LigneCAForme(g: Grid, c: Pos, last: Option<Trajet>)
    requires Occupied(g, c)
    ensures var r := MesCA(DecLigne, g, c, last);
      && |r| <= 28
      && forall q :: q in r ==>
           InBounds(g, q) && Atteignable(g, q, At(g, c).value.couleur)
           && q != c && (q.x == c.x || q.y == c.y)
  {
    var col := At(g, c).value.couleur;
    RayonsLongueur(g, c, col, LIGNE_DIRS);
    forall q | q in Rayons(g, c, col, LIGNE_DIRS)
      ensures InBounds(g, q) && Atteignable(g, q, col) && q != c && (q.x == c.x || q.y == c.y)
    {
      RayonsSurDirections(g, c, col, LIGNE_DIRS, q);
      var d, k :| d in LIGNE_DIRS && 1 <= k <= 7 && q == Pas(c, d.0, d.1, k);
      PasUnitaire(c, d.0, d.1, k);
    }
  }

  /**
   * DecDiag: every square offered is on a diagonal through c, between 1 and 7
   * steps away, on the board and free of the mover's colour; at most 28.
   */
  lemma DiagCAForme(g: Grid, c: Pos, last: Option<Trajet>)
    requires Occupied(g, c)
    ensures var r := MesCA(DecDiag, g, c, last);
      && |r| <= 28
      && forall q :: q in r ==>
           InBounds(g, q) && Atteignable(g, q, At(g, c).value.couleur)
           && Abs(q.x - c.x) == Abs(q.y - c.y) && 1 <= Abs(q.x - c.x) <= 7
  {
    var col := At(g, c).value.couleur;
    RayonsLongueur(g, c, col, DIAG_DIRS);
    forall q | q in Rayons(g, c, col, DIAG_DIRS)
      ensures InBounds(g, q) && Atteignable(g, q, col)
        && Abs(q.x - c.x) == Abs(q.y - c.y) && 1 <= Abs(q.x - c.x) <= 7
    {
      RayonsSurDirections(g, c, col, DIAG_DIRS, q);
      var d, k :| d in DIAG_DIRS && 1 <= k <= 7 && q == Pas(c, d.0, d.1, k);
      PasUnitaire(c, d.0, d.1, k);
    }
  }

  /**
   * The queen's getCA (DecDiag over DecLigne) is the diagonal squares followed
   * by the orthogonal ones, and no square appears in both parts.
   */
  lemma ReineCAForme(g: Grid, c: Pos, last: Option<Trajet>)
    requires Occupied(g, c) && At(g, c).value.kind == Reine
    ensures CAde(g, c, last) == MesCA(DecDiag, g, c, last) + MesCA(DecLigne, g, c, last)
    ensures forall q :: q in MesCA(DecDiag, g, c, last) ==> q !in MesCA(DecLigne, g, c, last)
  {
    forall q | q in MesCA(DecDiag, g, c, last) ensures q !in MesCA(DecLigne, g, c, last) {
      DiagCAForme(g, c, last);
      LigneCAForme(g, c, last);
    }
  }

  // ---------------------------------------------------------------- jumps

  /** A jump target is offered exactly when it is on the board, empty or held by another colour, and its offset is listed. */
  lemma {:induction false} SautsExact(g: Grid, c: Pos, col: string, offs: seq<(int, int)>, q: Pos)
    ensures q in Sauts(g, c, col, offs) <==>
      InBounds(g, q) && Atteignable(g, q, col) && (q.x - c.x, q.y - c.y) in offs
  {
    if |offs| > 0 {
      var init := offs[..|offs| - 1];
      SautsExact(g, c, col, init, q);
      assert offs == init + [offs[|offs| - 1]];
    }
  }

  lemma {:induction false} SautsLongueur(g: Grid, c: Pos, col: string, offs: seq<(int, int)>)
    ensures |Sauts(g, c, col, offs)| <= |offs|
  {
    if |offs| > 0 { SautsLongueur(g, c, col, offs[..|offs| - 1]); }
  }

  predicate SansDoublon<T(==)>(s: seq<T>)
  {
    forall i, j :: 0 <= i < j < |s| ==> s[i] != s[j]
  }

  /** Distinct offsets give distinct targets, so a list of jumps repeats no square. */
  lemma {:induction false} SautsSansDoublon(g: Grid, c: Pos, col: string, offs: seq<(int, int)>)
    requires SansDoublon(offs)
    ensures SansDoublon(Sauts(g, c, col, offs))
  {
    if |offs| > 0 {
      var init := offs[..|offs| - 1];
      var o := offs[|offs| - 1];
      assert SansDoublon(init);
      SautsSansDoublon(g, c, col, init);
      var q := Pos(c.x + o.0, c.y + o.1);
      SautsExact(g, c, col, init, q);
      assert q !in Sauts(g, c, col, init);
    }
  }

  /** The knight's offsets are the eight pairs {|dx|, |dy|} = {1, 2}. */
  lemma CavaSauts(o: (int, int))
    ensures o in CAVA_SAUTS <==> (Abs(o.0) == 1 && Abs(o.1) == 2) || (Abs(o.0) == 2 && Abs(o.1) == 1)
  {
  }

  /** The king's offsets are the eight non-zero pairs with components in -1..1. */
  lemma RoiPas(o: (int, int))
    ensures o in ROI_PAS <==> o != (0, 0) && Abs(o.0) <= 1 && Abs(o.1) <= 1
  {
  }

  /**
   * DecCava: a square is offered iff it is a knight's jump ({|dx|,|dy|} = {1,2})
   * from c, on the board, and empty or held by another colour; at most 8, no repeats.
   */
  lemma CavaCAExact(g: Grid, c: Pos, last: Option<Trajet>, q: Pos)
    requires Occupied(g, c)
    ensures var r := MesCA(DecCava, g, c, last);
      && |r| <= 8 && SansDoublon(r)
      && (q in r <==>
            InBounds(g, q) && Atteignable(g, q, At(g, c).value.couleur)
            && ((Abs(q.x - c.x) == 1 && Abs(q.y - c.y) == 2) || (Abs(q.x - c.x) == 2 && Abs(q.y - c.y) == 1)))
  {
    var col := At(g, c).value.couleur;
    SautsLongueur(g, c, col, CAVA_SAUTS);
    SautsSansDoublon(g, c, col, CAVA_SAUTS);
    SautsExact(g, c, col, CAVA_SAUTS, q);
    CavaSauts((q.x - c.x, q.y - c.y));
  }

  // ---------------------------------------------------------------- king

  /** DecRoi's step squares: exactly the on-board squares one king step away that are free of the mover's colour. */
  lemma RoiPasExact(g: Grid, c: Pos, col: string, q: Pos)
    ensures q in Sauts(g, c, col, ROI_PAS) <==>
      InBounds(g, q) && Atteignable(g, q, col) && q != c && Abs(q.x - c.x) <= 1 && Abs(q.y - c.y) <= 1
  {
    SautsExact(g, c, col, ROI_PAS, q);
    RoiPas((q.x - c.x, q.y - c.y));
  }

  /**
   * DecRoi: (x, y+2) and (x, y-2) are offered iff the short and long
   * castling tests hold; those tests look at moved flags and emptiness only,
   * never at attacks or at the rook's colour. At most 10 squares.
   */
  lemma RoiCAExact(g: Grid, c: Pos, last: Option<Trajet>)
    requires Occupied(g, c)
    ensures var r := MesCA(DecRoi, g, c, last);
      && |r| <= 10
      && (Pos(c.x, c.y + 2) in r <==> PetitRoque(g, c))
      && (Pos(c.x, c.y - 2) in r <==> GrandRoque(g, c))
  {
    var col := At(g, c).value.couleur;
    SautsLongueur(g, c, col, ROI_PAS);
    RoiPasExact(g, c, col, Pos(c.x, c.y + 2));
    RoiPasExact(g, c, col, Pos(c.x, c.y - 2));
  }

  // ---------------------------------------------------------------- pawn

  /**
   * DecPion, forward moves: one row ahead (row - 1 for "Blanc", row + 1
   * otherwise) is offered iff it is on the board and empty; two rows ahead
   * only if, in addition, the pawn is on its start row (6 or 1) and that
   * square is empty too.
   */
  lemma PionAvanceExact(g: Grid, c: Pos, last: Option<Trajet>)
    requires PionDefini(g, c) && DernierCoupSurPlateau(g, last)
    ensures var col := At(g, c).value.couleur;
      var d := Direction(col);
      var r := PionCA(g, c, last).cases;
      && (Pos(c.x + d, c.y) in r <==> Empty(g, Pos(c.x + d, c.y)))
      && (Pos(c.x + 2 * d, c.y) in r <==>
            Empty(g, Pos(c.x + d, c.y)) && c.x == LigneDepart(col) && Empty(g, Pos(c.x + 2 * d, c.y)))
  {
    var col := At(g, c).value.couleur;
    var avance := PionAvance(g, c, col);
    var r := PionCA(g, c, last).cases;
    assert forall q :: q in r && q.y == c.y ==> q in avance;
  }

  /**
   * DecPion, the rest of the list: a diagonal square one row ahead is offered
   * iff it holds a piece of another colour, unless it is the en-passant
   * square; the en-passant square is offered, and its victim recorded, iff
   * the previous move took a Pion two rows to a square beside c and the
   * square behind it is free. Without en passant no victim is recorded. At
   * most 4 squares are offered, none holding the pawn's own colour.
   */
  lemma PionCAForme(g: Grid, c: Pos, last: Option<Trajet>)
    requires PionDefini(g, c) && DernierCoupSurPlateau(g, last)
    ensures var col := At(g, c).value.couleur;
      var d := Direction(col);
      var res := PionCA(g, c, last);
      && |res.cases| <= 4
      && (forall q :: q in res.cases ==> InBounds(g, q) && Atteignable(g, q, col))
      && (Occupied(g, Pos(c.x + d, c.y - 1)) ==>
            (Pos(c.x + d, c.y - 1) in res.cases <==> At(g, Pos(c.x + d, c.y - 1)).value.couleur != col))
      && (Occupied(g, Pos(c.x + d, c.y + 1)) ==>
            (Pos(c.x + d, c.y + 1) in res.cases <==> At(g, Pos(c.x + d, c.y + 1)).value.couleur != col))
      && (res.enPassant.Some? <==>
            last.Some? && EnPassantPossible(g, c, last.value)
            && Empty(g, Pos(last.value.arr.x + d, last.value.arr.y)))
      && (res.enPassant.Some? ==>
            res.enPassant.value == last.value.arr
            && res.cases[|res.cases| - 1] == Pos(last.value.arr.x + d, last.value.arr.y))
  {
  }
}
