// Chess: the king search, attacks and check, the trial move jouerPartie
// makes before accepting a move, the move itself (en passant, castling,
// promotion, moved flags), the end-of-game scan and the starting layout.
// The board values come first; class JeuEchec is proved against them.
module Echecs {
  import opened Lang
  import opened Grille
  import opened Mouvements
  import opened Modele
  import opened Partie

  // ================================================================ board values

  /** The chess board: 8 rows of 8 squares. */
  predicate Echiquier(g: Grid)
  {
    Rect(g, 8, 8)
  }

  /** A square of the 8 by 8 board. */
  predicate Case8(p: Pos)
  {
    0 <= p.x < 8 && 0 <= p.y < 8
  }

  /** The board and the previous move the strategies read are consistent. */
  predicate Echiquier8(g: Grid, last: Option<Trajet>)
  {
    Echiquier(g) && (last.Some? ==> Case8(last.value.arr))
  }

  /** The square holds a piece of the player: its colour string equals the player's colour name ignoring case. */
  predicate DuCamp(g: Grid, p: Pos, col: Couleur)
  {
    Occupied(g, p) && EqualsIgnoreCase(At(g, p).value.couleur, col.Name())
  }

  /** The square holds the player's Roi. */
  predicate RoiDuCamp(g: Grid, p: Pos, col: Couleur)
  {
    DuCamp(g, p, col) && At(g, p).value.kind == Roi
  }

  /**
   * On the 8 by 8 board every piece's getCA is defined: a pawn on its start
   * row always has the square two rows ahead.
   */
  lemma Defini8(g: Grid, p: Pos, last: Option<Trajet>)
    requires Echiquier8(g, last) && Occupied(g, p)
    ensures PieceCADefini(g, p, last)
  {
  }

  /** No strategy offers the square it starts from. */
  lemma CAdeSansDepart(g: Grid, p: Pos, last: Option<Trajet>)
    requires PieceCADefini(g, p, last)
    ensures p !in CAde(g, p, last)
  {
    var s := StrategieDe(At(g, p).value.kind);
    assert p !in MesCA(s.own, g, p, last);
    if s.base.Some? {
      assert p !in MesCA(s.base.value, g, p, last);
    }
  }

  // ---------------------------------------------------------------- the king search

  /** The inner loop of estEnEchec's king search over row x, from column y on: the first king of the player. */
  function RoiDansLigne(g: Grid, col: Couleur, x: int, y: nat): (r: Option<Pos>)
    requires Echiquier(g) && 0 <= x < 8
    ensures r.Some? ==> r.value.x == x && y <= r.value.y < 8 && RoiDuCamp(g, r.value, col)
    ensures r.Some? ==> forall j :: y <= j < r.value.y ==> !RoiDuCamp(g, Pos(x, j), col)
    ensures r.None? ==> forall j :: y <= j < 8 ==> !RoiDuCamp(g, Pos(x, j), col)
    decreases 8 - y
  {
    if y >= 8 then None
    else if RoiDuCamp(g, Pos(x, y), col) then Some(Pos(x, y))
    else RoiDansLigne(g, col, x, y + 1)
  }

  /**
   * The outer loop over rows 0 to n - 1: the break only leaves the inner
   * loop, so a king found in a later row replaces one found earlier.
   */
  function RoiTrouve(g: Grid, col: Couleur, n: nat): Option<Pos>
    requires Echiquier(g) && n <= 8
  {
    if n == 0 then None
    else match RoiDansLigne(g, col, n - 1, 0)
      case Some(p) => Some(p)
      case None => RoiTrouve(g, col, n - 1)
  }

  /**
   * The king search finds nothing exactly when the player has no Roi on the
   * board; otherwise it finds the first Roi of the LAST row holding one.
   */
  lemma {:induction false} RoiTrouveExact(g: Grid, col: Couleur, n: nat)
    requires Echiquier(g) && n <= 8
    ensures RoiTrouve(g, col, n).None? <==>
      forall p: Pos :: 0 <= p.x < n && 0 <= p.y < 8 ==> !RoiDuCamp(g, p, col)
    ensures RoiTrouve(g, col, n).Some? ==>
      var k := RoiTrouve(g, col, n).value;
      && Case8(k) && k.x < n && RoiDuCamp(g, k, col)
      && forall p: Pos :: 0 <= p.x < n && 0 <= p.y < 8 && RoiDuCamp(g, p, col) ==> p.x < k.x || (p.x == k.x && k.y <= p.y)
  {
    if n > 0 {
      RoiTrouveExact(g, col, n - 1);
      var r := RoiDansLigne(g, col, n - 1, 0);
      if r.None? {
        forall p: Pos | 0 <= p.x < n && 0 <= p.y < 8 && RoiDuCamp(g, p, col) ensures p.x < n - 1 {
          assert p == Pos(p.x, p.y);
        }
      } else {
        var k := r.value;
        forall p: Pos | 0 <= p.x < n && 0 <= p.y < 8 && RoiDuCamp(g, p, col) ensures p.x < k.x || (p.x == k.x && k.y <= p.y) {
          assert p == Pos(p.x, p.y);
        }
      }
    }
  }

  // ---------------------------------------------------------------- attacks and check

  /**
   * Square p holds a piece the player does not own (the colour string does
   * not equal the player's name, ignoring case) whose getCA contains t.
   */
  ghost predicate Attaquant(g: Grid, col: Couleur, p: Pos, t: Pos, last: Option<Trajet>)
    requires Echiquier8(g, last)
  {
    Case8(p) && Occupied(g, p) && !EqualsIgnoreCase(At(g, p).value.couleur, col.Name())
    && (Defini8(g, p, last); t in CAde(g, p, last))
  }

  /** caseMenacee: some piece the player does not own can reach t. */
  ghost predicate Attaque(g: Grid, col: Couleur, t: Pos, last: Option<Trajet>)
    requires Echiquier8(g, last)
  {
    exists p :: Attaquant(g, col, p, t, last)
  }

  /** estEnEchec: the king the search finds is attacked; a player without a king is never in check. */
  ghost predicate EnEchec(g: Grid, col: Couleur, last: Option<Trajet>)
    requires Echiquier8(g, last)
  {
    match RoiTrouve(g, col, 8)
    case None => false
    case Some(k) => Attaque(g, col, k, last)
  }

  /** A player without a Roi on the board is not in check. */
  lemma SansRoiPasEchec(g: Grid, col: Couleur, last: Option<Trajet>)
    requires Echiquier8(g, last)
    requires forall p: Pos :: Case8(p) ==> !RoiDuCamp(g, p, col)
    ensures !EnEchec(g, col, last)
  {
    RoiTrouveExact(g, col, 8);
  }

  // ---------------------------------------------------------------- coupEstLegal

  /** The plain move coupEstLegal tries: the origin emptied, its piece put on the destination. */
  function Deplace(g: Grid, p: Pos, q: Pos): (r: Grid)
    requires InBounds(g, p) && InBounds(g, q)
    ensures |r| == |g| && forall x :: 0 <= x < |g| ==> |r[x]| == |g[x]|
  {
    Set(Set(g, p, None), q, At(g, p))
  }

  /** coupEstLegal: a move between two squares of the board after which the player is not in check. */
  ghost predicate CoupLegal(g: Grid, col: Couleur, p: Pos, q: Pos, last: Option<Trajet>)
  {
    Echiquier8(g, last) && Case8(p) && Case8(q) && !EnEchec(Deplace(g, p, q), col, last)
  }

  /** Some square getCA offers to the player's piece on p passes coupEstLegal. */
  ghost predicate CaseJouable(g: Grid, col: Couleur, p: Pos, last: Option<Trajet>)
    requires Echiquier8(g, last) && Case8(p)
  {
    DuCamp(g, p, col)
    && (Defini8(g, p, last);
        exists q :: q in CAde(g, p, last) && CoupLegal(g, col, p, q, last))
  }

  /** estTermine's scan: some piece of the player has a move that passes coupEstLegal. */
  ghost predicate PeutJouer(g: Grid, col: Couleur, last: Option<Trajet>)
    requires Echiquier8(g, last)
  {
    exists p :: Case8(p) && CaseJouable(g, col, p, last)
  }

  // ---------------------------------------------------------------- jouerPartie's move

  /** The en-passant victim's square: recorded by a pawn's strategy only. */
  function EnPassantDe(g: Grid, dep: Pos, last: Option<Trajet>): (r: Option<Pos>)
    requires PieceCADefini(g, dep, last)
    ensures r.Some? ==> InBounds(g, r.value)
  {
    if At(g, dep).value.kind == Pion then PionCA(g, dep, last).enPassant else None
  }

  /**
   * A Roi moving two columns along its row castles: to the right the rook
   * goes from column 7 to column 5, to the left from column 0 to column 3.
   */
  function RoqueDe(k: Kind, dep: Pos, arr: Pos): Option<(Pos, Pos)>
  {
    if k == Roi && arr.x == dep.x && arr.y == dep.y + 2 then Some((Pos(dep.x, 7), Pos(dep.x, 5)))
    else if k == Roi && arr.x == dep.x && arr.y == dep.y - 2 then Some((Pos(dep.x, 0), Pos(dep.x, 3)))
    else None
  }

  /** The move takes en passant: a pawn with a recorded victim goes to an empty square of another column. */
  predicate EnPassantPris(g: Grid, dep: Pos, arr: Pos, ep: Option<Pos>)
    requires InBounds(g, dep) && InBounds(g, arr)
  {
    At(g, dep).Some? && At(g, dep).value.kind == Pion && ep.Some? && At(g, arr).None? && arr.y != dep.y
  }

  /** Castling moves the rook only when a Tour stands on the rook's square. */
  predicate TourDeplacee(g: Grid, roque: Option<(Pos, Pos)>)
    requires roque.Some? ==> InBounds(g, roque.value.0)
  {
    roque.Some? && At(g, roque.value.0).Some? && At(g, roque.value.0).value.kind == Tour
  }

  /**
   * The first half of the move jouerPartie makes: the origin is emptied, an
   * en-passant victim removed when a pawn goes to an empty square of another
   * column, and the piece put on the destination.
   */
  function Avance(g: Grid, dep: Pos, arr: Pos, ep: Option<Pos>): (r: Grid)
    requires InBounds(g, dep) && InBounds(g, arr)
    requires ep.Some? ==> InBounds(g, ep.value)
    ensures |r| == |g| && forall x :: 0 <= x < |g| ==> |r[x]| == |g[x]|
  {
    var p := At(g, dep);
    var g1 := Set(g, dep, None);
    var g2 := if p.Some? && p.value.kind == Pion && ep.Some? && At(g1, arr).None? && arr.y != dep.y
              then Set(g1, ep.value, None) else g1;
    Set(g2, arr, p)
  }

  /** The second half: a Tour on the rook's square is carried to its castled square. */
  function Roque(g: Grid, roque: Option<(Pos, Pos)>): (r: Grid)
    requires roque.Some? ==> InBounds(g, roque.value.0) && InBounds(g, roque.value.1)
    ensures |r| == |g| && forall x :: 0 <= x < |g| ==> |r[x]| == |g[x]|
  {
    if roque.Some? && At(g, roque.value.0).Some? && At(g, roque.value.0).value.kind == Tour
    then Set(Set(g, roque.value.0, None), roque.value.1, At(g, roque.value.0))
    else g
  }

  /** Squares the first half does not name keep what they held. */
  lemma AvanceAilleurs(g: Grid, dep: Pos, arr: Pos, ep: Option<Pos>, q: Pos)
    requires InBounds(g, dep) && InBounds(g, arr) && InBounds(g, q)
    requires ep.Some? ==> InBounds(g, ep.value) && q != ep.value
    requires q != dep && q != arr
    ensures At(Avance(g, dep, arr, ep), q) == At(g, q)
  {
  }

  /** The move as jouerPartie makes it, both for the trial and for real. */
  function SimuleAvec(g: Grid, dep: Pos, arr: Pos, ep: Option<Pos>, roque: Option<(Pos, Pos)>): (r: Grid)
    requires InBounds(g, dep) && InBounds(g, arr)
    requires ep.Some? ==> InBounds(g, ep.value)
    requires roque.Some? ==> InBounds(g, roque.value.0) && InBounds(g, roque.value.1)
    ensures |r| == |g| && forall x :: 0 <= x < |g| ==> |r[x]| == |g[x]|
  {
    Roque(Avance(g, dep, arr, ep), roque)
  }

  /**
   * Square by square: the destination gets the piece, the origin is empty,
   * the en-passant victim is gone, a castled rook has moved, and every other
   * square is as it was.
   */
  lemma SimuleAvecAt(g: Grid, dep: Pos, arr: Pos, ep: Option<Pos>, roque: Option<(Pos, Pos)>, q: Pos)
    requires InBounds(g, dep) && InBounds(g, arr) && dep != arr && InBounds(g, q)
    requires ep.Some? ==> InBounds(g, ep.value) && ep.value != dep && ep.value != arr
    requires roque.Some? ==> InBounds(g, roque.value.0) && InBounds(g, roque.value.1)
    requires roque.Some? ==> roque.value.0 != roque.value.1 && roque.value.0 !in {dep, arr} && roque.value.1 !in {dep, arr}
    requires ep.None? || roque.None?
    ensures At(SimuleAvec(g, dep, arr, ep, roque), q) ==
      if q == arr then At(g, dep)
      else if q == dep then None
      else if EnPassantPris(g, dep, arr, ep) && q == ep.value then None
      else if TourDeplacee(g, roque) && q == roque.value.0 then None
      else if TourDeplacee(g, roque) && q == roque.value.1 then At(g, roque.value.0)
      else At(g, q)
  {
  }

  /**
   * jouerPartie's undo as a value, on the board h the move left: the
   * destination and the origin get back what g showed there, the
   * en-passant square too when a victim was lifted, and a carried rook
   * goes home, leaving its castled square empty.
   */
  function Defait(h: Grid, g: Grid, dep: Pos, arr: Pos, ep: Option<Pos>, roque: Option<(Pos, Pos)>, victime: bool, tour: bool): (r: Grid)
    requires |h| == |g| && forall x :: 0 <= x < |g| ==> |h[x]| == |g[x]|
    requires InBounds(g, dep) && InBounds(g, arr)
    requires victime ==> ep.Some? && InBounds(g, ep.value)
    requires tour ==> roque.Some? && InBounds(g, roque.value.0) && InBounds(g, roque.value.1)
    ensures |r| == |g| && forall x :: 0 <= x < |g| ==> |r[x]| == |g[x]|
  {
    var h1 := Set(Set(h, arr, At(g, arr)), dep, At(g, dep));
    var h2 := if victime then Set(h1, ep.value, At(g, ep.value)) else h1;
    if tour then Set(Set(h2, roque.value.1, None), roque.value.0, At(g, roque.value.0)) else h2
  }

  /** Square by square: the undo writes the squares it names and keeps every other square of h. */
  lemma DefaitAt(h: Grid, g: Grid, dep: Pos, arr: Pos, ep: Option<Pos>, roque: Option<(Pos, Pos)>, victime: bool, tour: bool, q: Pos)
    requires |h| == |g| && forall x :: 0 <= x < |g| ==> |h[x]| == |g[x]|
    requires InBounds(g, dep) && InBounds(g, arr) && InBounds(g, q)
    requires victime ==> ep.Some? && InBounds(g, ep.value)
    requires tour ==> roque.Some? && InBounds(g, roque.value.0) && InBounds(g, roque.value.1)
    ensures At(Defait(h, g, dep, arr, ep, roque, victime, tour), q) ==
      if tour && q == roque.value.0 then At(g, q)
      else if tour && q == roque.value.1 then None
      else if victime && q == ep.value then At(g, q)
      else if q == dep || q == arr then At(g, q)
      else At(h, q)
  {
  }

  /**
   * The undo restores the board: after the move of SimuleAvec, Defait gives
   * back g, provided the victim is put back whenever one was lifted and the
   * rook's castled square was empty.
   */
  lemma DefaitSimule(g: Grid, sx: int, sy: int, dep: Pos, arr: Pos, ep: Option<Pos>, roque: Option<(Pos, Pos)>, victime: bool, tour: bool)
    requires Rect(g, sx, sy) && InBounds(g, dep) && InBounds(g, arr) && dep != arr
    requires ep.Some? ==> InBounds(g, ep.value) && ep.value != dep && ep.value != arr
    requires roque.Some? ==> InBounds(g, roque.value.0) && InBounds(g, roque.value.1)
    requires roque.Some? ==> roque.value.0 != roque.value.1 && roque.value.0 !in {dep, arr} && roque.value.1 !in {dep, arr}
    requires ep.None? || roque.None?
    requires victime ==> EnPassantPris(g, dep, arr, ep)
    requires EnPassantPris(g, dep, arr, ep) && !victime ==> At(g, ep.value).None?
    requires tour <==> TourDeplacee(g, roque)
    requires tour ==> At(g, roque.value.1).None?
    ensures Defait(SimuleAvec(g, dep, arr, ep, roque), g, dep, arr, ep, roque, victime, tour) == g
  {
    var h := SimuleAvec(g, dep, arr, ep, roque);
    var r := Defait(h, g, dep, arr, ep, roque, victime, tour);
    forall q | InBounds(g, q) ensures At(r, q) == At(g, q) {
      SimuleAvecAt(g, dep, arr, ep, roque, q);
      DefaitAt(h, g, dep, arr, ep, roque, victime, tour, q);
    }
    GridExt(r, g, sx, sy);
  }

  /** The trial move jouerPartie makes for the piece on dep. */
  function Simule(g: Grid, dep: Pos, arr: Pos, last: Option<Trajet>): (r: Grid)
    requires Echiquier8(g, last) && Case8(dep) && Case8(arr) && Occupied(g, dep)
    ensures Echiquier8(r, last)
  {
    Defini8(g, dep, last);
    SimuleAvec(g, dep, arr, EnPassantDe(g, dep, last), RoqueDe(At(g, dep).value.kind, dep, arr))
  }

  /**
   * The real move: the trial move, then a Pion reaching row 0 or 7 replaced
   * by a fresh Reine of its colour, then a moved Roi or Tour flagged.
   */
  function Applique(g: Grid, dep: Pos, arr: Pos, ep: Option<Pos>, roque: Option<(Pos, Pos)>): (r: Grid)
    requires Occupied(g, dep) && InBounds(g, arr)
    requires ep.Some? ==> InBounds(g, ep.value)
    requires roque.Some? ==> InBounds(g, roque.value.0) && InBounds(g, roque.value.1)
    ensures |r| == |g| && forall x :: 0 <= x < |g| ==> |r[x]| == |g[x]|
  {
    var p := At(g, dep).value;
    var g4 := SimuleAvec(g, dep, arr, ep, roque);
    var g5 := if p.kind == Pion && (arr.x == 0 || arr.x == 7) then Set(g4, arr, Some(PieceVal(Reine, p.couleur, false))) else g4;
    if p.kind == Roi || p.kind == Tour then Set(g5, arr, Some(PieceVal(p.kind, p.couleur, true))) else g5
  }

  /** The board after jouerPartie accepts the move of the piece on dep to arr. */
  function Joue(g: Grid, dep: Pos, arr: Pos, last: Option<Trajet>): (r: Grid)
    requires Echiquier8(g, last) && Case8(dep) && Case8(arr) && Occupied(g, dep)
    ensures Echiquier8(r, last)
  {
    Defini8(g, dep, last);
    Applique(g, dep, arr, EnPassantDe(g, dep, last), RoqueDe(At(g, dep).value.kind, dep, arr))
  }

  /** The checks jouerPartie makes before castling: a piece of the player on dep, and arr among its getCA squares. */
  ghost predicate Admis(g: Grid, col: Couleur, dep: Pos, arr: Pos, last: Option<Trajet>)
    requires Echiquier8(g, last) && Case8(dep)
  {
    Occupied(g, dep) && EqualsIgnoreCase(At(g, dep).value.couleur, col.Name())
    && (Defini8(g, dep, last); arr in CAde(g, dep, last))
  }

  /** Why jouerPartie refuses a move (the listener's messages). */
  datatype Refus = CoupIncomplet | AucunePiece | PasSonTour | CoupInvalide | RoqueMenace | RoiEnEchec

  /** A king castling crosses, or lands on, a square some piece of the other side can reach. */
  ghost predicate RoqueTraverseMenace(g: Grid, col: Couleur, dep: Pos, arr: Pos, last: Option<Trajet>)
    requires Echiquier8(g, last) && Occupied(g, dep)
  {
    match RoqueDe(At(g, dep).value.kind, dep, arr)
    case None => false
    case Some(_) =>
      var s := if arr.y > dep.y then 1 else -1;
      Attaque(g, col, Pos(dep.x, dep.y + s), last) || Attaque(g, col, Pos(dep.x, dep.y + 2 * s), last)
  }

  /**
   * jouerPartie's checks in order: a piece on the origin, of the player to
   * move, the destination offered by its getCA, a castling king not
   * crossing an attacked square, and the trial move not leaving the
   * player's king in check. None means the move is played.
   */
  ghost function Verdict(g: Grid, col: Couleur, dep: Pos, arr: Pos, last: Option<Trajet>): Option<Refus>
    requires Echiquier8(g, last) && Case8(dep) && Case8(arr)
  {
    if !Occupied(g, dep) then Some(AucunePiece)
    else if !EqualsIgnoreCase(At(g, dep).value.couleur, col.Name()) then Some(PasSonTour)
    else if (Defini8(g, dep, last); arr !in CAde(g, dep, last)) then Some(CoupInvalide)
    else if RoqueTraverseMenace(g, col, dep, arr, last) then Some(RoqueMenace)
    else if EnEchec(Simule(g, dep, arr, last), col, last) then Some(RoiEnEchec)
    else None
  }

  /** A piece of the player's own colour on dep passes the first two checks. */
  lemma VerdictSaisi(g: Grid, col: Couleur, dep: Pos, arr: Pos, last: Option<Trajet>)
    requires Echiquier8(g, last) && Case8(dep) && Case8(arr)
    requires Occupied(g, dep) && EqualsIgnoreCase(At(g, dep).value.couleur, col.Name())
    ensures Verdict(g, col, dep, arr, last) !in {Some(AucunePiece), Some(PasSonTour)}
  {
  }

  /** Past the first three checks, the verdict is decided by the castling test and then by the trial move. */
  lemma VerdictAdmis(g: Grid, col: Couleur, dep: Pos, arr: Pos, last: Option<Trajet>)
    requires Echiquier8(g, last) && Case8(dep) && Case8(arr) && Admis(g, col, dep, arr, last)
    ensures Verdict(g, col, dep, arr, last) ==
      if RoqueTraverseMenace(g, col, dep, arr, last) then Some(RoqueMenace)
      else if EnEchec(Simule(g, dep, arr, last), col, last) then Some(RoiEnEchec)
      else None
  {
  }

  // ---------------------------------------------------------------- the starting position

  /** The back row from column 0 to column 7: Tour, Cavalier, Fou, Reine, Roi, Fou, Cavalier, Tour. */
  function Arriere(y: int): Kind
  {
    if y == 0 || y == 7 then Tour
    else if y == 1 || y == 6 then Cavalier
    else if y == 2 || y == 5 then Fou
    else if y == 3 then Reine
    else Roi
  }

  /**
   * The position initialiserPieces sets up: "Noir" on rows 0 (back row)
   * and 1 (pawns), "Blanc" on rows 6 (pawns) and 7 (back row), no piece
   * marked as moved, rows 2 to 5 empty.
   */
  function Depart(): (g: Grid)
    ensures Echiquier(g)
  {
    seq(8, x => seq(8, y =>
      if x == 0 then Some(PieceVal(Arriere(y), "Noir", false))
      else if x == 1 then Some(PieceVal(Pion, "Noir", false))
      else if x == 6 then Some(PieceVal(Pion, "Blanc", false))
      else if x == 7 then Some(PieceVal(Arriere(y), "Blanc", false))
      else None))
  }

  /** What a square of the starting position holds, row by row. */
  lemma DepartAt(p: Pos)
    requires Case8(p)
    ensures At(Depart(), p) ==
      if p.x == 0 then Some(PieceVal(Arriere(p.y), "Noir", false))
      else if p.x == 1 then Some(PieceVal(Pion, "Noir", false))
      else if p.x == 6 then Some(PieceVal(Pion, "Blanc", false))
      else if p.x == 7 then Some(PieceVal(Arriere(p.y), "Blanc", false))
      else None
  {
  }

  /**
   * The starting position is the same for both sides seen from their own
   * end: a square and its mirror across the middle rows hold the same kind
   * of piece, or are both empty; the near side is "Blanc", the far side "Noir".
   */
  lemma DepartSymetrique(p: Pos)
    requires Case8(p)
    ensures Occupied(Depart(), p) <==> Occupied(Depart(), Pos(7 - p.x, p.y))
    ensures Occupied(Depart(), p) ==>
      At(Depart(), p).value.kind == At(Depart(), Pos(7 - p.x, p.y)).value.kind
      && (DuCamp(Depart(), p, BLANC) <==> DuCamp(Depart(), Pos(7 - p.x, p.y), NOIR))
      && (DuCamp(Depart(), p, BLANC) <==> p.x >= 6)
  {
    EqualsIgnoreCaseNoms();
    DepartAt(p);
    DepartAt(Pos(7 - p.x, p.y));
  }

  /** "Blanc" is the name of BLANC and "Noir" of NOIR, ignoring case, and of no other colour. */
  lemma EqualsIgnoreCaseNoms()
    ensures EqualsIgnoreCase("Blanc", BLANC.Name()) && !EqualsIgnoreCase("Blanc", NOIR.Name())
    ensures EqualsIgnoreCase("Noir", NOIR.Name()) && !EqualsIgnoreCase("Noir", BLANC.Name())
  {
    assert ToLower("Blanc"[0]) != ToLower(NOIR.Name()[0]);
    assert ToLower("Noir"[0]) != ToLower(BLANC.Name()[0]);
  }

  /**
   * At the start each side has exactly one Roi, on column 4 of its back
   * row, and the Rois and Tours that castling needs have not moved.
   */
  lemma DepartRois()
    ensures RoiDuCamp(Depart(), Pos(7, 4), BLANC) && RoiDuCamp(Depart(), Pos(0, 4), NOIR)
    ensures forall p :: Case8(p) && Occupied(Depart(), p) && At(Depart(), p).value.kind == Roi ==> p == Pos(7, 4) || p == Pos(0, 4)
    ensures NonBouge(Depart(), Pos(7, 4), Roi) && NonBouge(Depart(), Pos(7, 0), Tour) && NonBouge(Depart(), Pos(7, 7), Tour)
    ensures NonBouge(Depart(), Pos(0, 4), Roi) && NonBouge(Depart(), Pos(0, 0), Tour) && NonBouge(Depart(), Pos(0, 7), Tour)
  {
    EqualsIgnoreCaseNoms();
    DepartAt(Pos(7, 4));
    DepartAt(Pos(0, 4));
    DepartAt(Pos(7, 0));
    DepartAt(Pos(7, 7));
    DepartAt(Pos(0, 0));
    DepartAt(Pos(0, 7));
    forall p | Case8(p) && Occupied(Depart(), p) && At(Depart(), p).value.kind == Roi ensures p == Pos(7, 4) || p == Pos(0, 4) {
      DepartAt(p);
    }
  }

  /**
   * A board built square by square towards the starting position: the
   * squares of S hold what they hold at the start, every other square is
   * empty.
   */
  ghost predicate Partiel(g: Grid, S: set<Pos>)
  {
    Echiquier(g) && forall p :: Case8(p) ==> At(g, p) == if p in S then At(Depart(), p) else None
  }

  /** The squares of the back rows, as initialiserPieces fills them before the pawns. */
  function Arrieres(): set<Pos>
  {
    {Pos(7, 4), Pos(0, 4), Pos(7, 3), Pos(0, 3)}
    + {Pos(7, 0), Pos(7, 7), Pos(0, 0), Pos(0, 7)}
    + {Pos(7, 2), Pos(7, 5), Pos(0, 2), Pos(0, 5)}
    + {Pos(7, 1), Pos(7, 6), Pos(0, 1), Pos(0, 6)}
  }

  /** The pawns' squares of the first i columns, on rows 6 and 1. */
  function Pions(i: int): set<Pos>
  {
    (set j | 0 <= j < i :: Pos(6, j)) + (set j | 0 <= j < i :: Pos(1, j))
  }

  /** Once the back rows and all eight columns of pawns are filled, the board is the starting position. */
  lemma PartielComplet(g: Grid)
    requires Partiel(g, Arrieres() + Pions(8))
    ensures g == Depart()
  {
    forall p | InBounds(g, p) ensures At(g, p) == At(Depart(), p) {
      assert Case8(p);
      if p.x == 0 || p.x == 7 {
        assert p in Arrieres() by {
          assert p.y in {0, 1, 2, 3, 4, 5, 6, 7};
        }
      } else if p.x == 1 || p.x == 6 {
        assert p in Pions(8);
      }
    }
    GridExt(g, Depart(), 8, 8);
  }

  // ---------------------------------------------------------------- what a valid move touches

  /** Every square a pawn offers lies in another row; its en-passant victim stands beside it in its own row. */
  lemma PionRangees(g: Grid, c: Pos, last: Option<Trajet>)
    requires PionDefini(g, c) && DernierCoupSurPlateau(g, last)
    ensures forall q :: q in PionCA(g, c, last).cases ==> q.x != c.x
    ensures PionCA(g, c, last).enPassant.Some? ==>
      PionCA(g, c, last).enPassant.value.x == c.x && PionCA(g, c, last).enPassant.value.y != c.y
  {
    var col := At(g, c).value.couleur;
    var d := Direction(col);
    var avance := PionAvance(g, c, col);
    assert forall q :: q in avance ==> q.x == c.x + d || q.x == c.x + 2 * d;
    PionCAForme(g, c, last);
  }

  /**
   * A Roi offered a square two columns away along its row is castling: it
   * stands on column 4 and the castling test of that side holds.
   */
  lemma RoqueColonne4(g: Grid, dep: Pos, arr: Pos, last: Option<Trajet>)
    requires PieceCADefini(g, dep, last) && At(g, dep).value.kind == Roi && arr in CAde(g, dep, last)
    requires RoqueDe(Roi, dep, arr).Some?
    ensures dep.y == 4
    ensures arr.y == dep.y + 2 ==> PetitRoque(g, dep)
    ensures arr.y == dep.y - 2 ==> GrandRoque(g, dep)
  {
    RoiCAExact(g, dep, last);
    RoiPasExact(g, dep, At(g, dep).value.couleur, arr);
  }

  /**
   * For a destination getCA offers, the origin, the destination, the
   * en-passant victim and the rook's two squares are distinct squares of
   * the board, and no move both takes en passant and castles.
   */
  lemma CoupDistinct(g: Grid, dep: Pos, arr: Pos, last: Option<Trajet>)
    requires Echiquier8(g, last) && Case8(dep) && Occupied(g, dep)
    requires (Defini8(g, dep, last); arr in CAde(g, dep, last))
    ensures Case8(arr) && arr != dep
    ensures var ep := EnPassantDe(g, dep, last);
      ep.Some? ==> Case8(ep.value) && ep.value != dep && ep.value != arr && ep.value.x == dep.x && arr.x != dep.x
    ensures var roque := RoqueDe(At(g, dep).value.kind, dep, arr);
      roque.Some? ==>
        && Case8(roque.value.0) && Case8(roque.value.1) && roque.value.0 != roque.value.1
        && roque.value.0 !in {dep, arr} && roque.value.1 !in {dep, arr}
    ensures EnPassantDe(g, dep, last).None? || RoqueDe(At(g, dep).value.kind, dep, arr).None?
  {
    CAdeSansDepart(g, dep, last);
    assert InBounds(g, arr);
    var k := At(g, dep).value.kind;
    if k == Pion {
      PionDistinct(g, dep, arr, last);
    } else {
      assert EnPassantDe(g, dep, last).None?;
      if RoqueDe(k, dep, arr).Some? {
        RoqueColonne4(g, dep, arr, last);
      }
    }
  }

  /** A pawn's destination is in another row; its en-passant victim is in its own row, beside it. */
  lemma PionDistinct(g: Grid, dep: Pos, arr: Pos, last: Option<Trajet>)
    requires Echiquier8(g, last) && Case8(dep) && Occupied(g, dep) && At(g, dep).value.kind == Pion
    requires (Defini8(g, dep, last); arr in CAde(g, dep, last))
    ensures arr.x != dep.x
    ensures var ep := EnPassantDe(g, dep, last);
      ep.Some? ==> Case8(ep.value) && ep.value != dep && ep.value.x == dep.x
  {
    PionRangees(g, dep, last);
    assert CAde(g, dep, last) == PionCA(g, dep, last).cases;
  }

  /** The coordinates of a square jouerPartie may leave null. */
  function PositionDe(k: Case?): Option<Pos>
  {
    if k == null then None else Some(k.Position())
  }

  /** The rook's two squares of a castling move, when both are set. */
  function RoqueCases(tD: Case?, tA: Case?): Option<(Pos, Pos)>
  {
    if tD == null || tA == null then None else Some((tD.Position(), tA.Position()))
  }

  /** A square jouerPartie may leave null, as a set of at most one square. */
  function Seule(k: Case?): set<Case>
  {
    if k == null then {} else {k}
  }

  /** A piece jouerPartie may leave null, as a set of at most one piece. */
  function UnePiece(p: Piece?): set<Piece>
  {
    if p == null then {} else {p}
  }

  /** The piece standing on the rook's departure square, if any: the only other piece a move relocates. */
  ghost function TourSur(tD: Case?): set<Piece>
    reads if tD == null then {} else {tD}
  {
    if tD == null || tD.piece == null then {} else {tD.piece}
  }

  /** A chess piece's getCA writes at most its own strategy object. */
  lemma EcritSeul(p: Piece)
    requires p.Valid()
    ensures p.dCA.Ecrit() <= {p.dCA}
  {
  }

  /** The squares a move names, where it names them, are squares of the 8 by 8 board. */
  predicate Sur8(coup: Coup)
  {
    (coup.depart != null ==> Case8(coup.depart.Position())) && (coup.arrivee != null ==> Case8(coup.arrivee.Position()))
  }

  /** jouerPartie's verdict on a move whose squares may be missing: one lacking either square is incomplete. */
  ghost function VerdictCoup(g: Grid, col: Couleur, dep: Option<Pos>, arr: Option<Pos>, last: Option<Trajet>): Option<Refus>
    requires Echiquier8(g, last) && (dep.Some? ==> Case8(dep.value)) && (arr.Some? ==> Case8(arr.value))
  {
    if dep.None? || arr.None? then Some(CoupIncomplet) else Verdict(g, col, dep.value, arr.value, last)
  }

  // ---------------------------------------------------------------- jouerPartie's move on the board

  /**
   * The squares a move touches, all on the board: origin and destination
   * apart, an en-passant victim elsewhere, the rook's two squares set
   * together and apart from the rest, and never both kinds of extra square.
   */
  ghost predicate Coins(pl: Plateau, o: Case, d: Case, ep: Case?, tD: Case?, tA: Case?)
  {
    o in pl.Cells && d in pl.Cells && o != d
    && (ep != null ==> ep in pl.Cells && ep != o && ep != d)
    && (tD == null <==> tA == null)
    && (tD != null ==> tD in pl.Cells && tA in pl.Cells && tD != tA && tD != o && tD != d && tA != o && tA != d)
    && (ep == null || tD == null)
  }

  /** The squares a move may write: origin, destination, en-passant square, the rook's two squares. */
  function Touchees(o: Case, d: Case, ep: Case?, tD: Case?, tA: Case?): set<Case>
  {
    {o, d} + Seule(ep) + Seule(tD) + Seule(tA)
  }

  /** The pieces a move may shift: the moved piece, the captured one, the en-passant victim, the rook. */
  function Jouees(piece: Piece, capturee: Piece?, victime: Piece?, tour: Piece?): set<Piece>
  {
    {piece} + UnePiece(capturee) + UnePiece(victime) + UnePiece(tour)
  }

  /** The first half of the move: origin emptied, en-passant victim lifted, piece on the destination. */
  method Lever(pl: Plateau, o: Case, d: Case, piece: Piece, ep: Case?) returns (victime: Piece?)
    requires pl.Valid() && Coins(pl, o, d, ep, null, null) && o.piece == piece
    modifies o`piece, d`piece, Seule(ep)`piece, piece`c, pl`Contents
    ensures pl.Valid() && o.piece == null && d.piece == piece && piece.c == d
    ensures pl.Contents == Avance(old(pl.Contents), o.Position(), d.Position(), PositionDe(ep))
    ensures victime == if ep != null && EnPassantPris(old(pl.Contents), o.Position(), d.Position(), PositionDe(ep))
                       then old(ep.piece) else null
    ensures victime != null ==> ep != null && ep.piece == null && victime in pl.Pieces && victime.c == ep && victime.Valid()
    ensures victime == null && ep != null ==> ep.piece == old(ep.piece)
    ensures old(d.piece) != null ==> old(d.piece) in pl.Pieces && old(d.piece).c == d && old(d.piece).Valid()
    ensures Vue(piece) == At(old(pl.Contents), o.Position()) && Vue(old(d.piece)) == At(old(pl.Contents), d.Position())
    ensures ep != null ==> Vue(old(ep.piece)) == At(old(pl.Contents), ep.Position())
  {
    pl.Voir(o);
    pl.Voir(d);
    if ep != null {
      pl.Voir(ep);
    }
    pl.Poser(o, null);
    victime := null;
    if piece.kind == Pion && ep != null && d.piece == null && d.posY != o.posY {
      victime := ep.piece;
      pl.Poser(ep, null);
    }
    pl.Installer(d, piece);
  }

  /** The second half: the piece on tD, when it is a Tour, carried to tA. */
  method PorterTour(pl: Plateau, tD: Case, tA: Case, tour: Piece?)
    requires pl.Valid() && tD in pl.Cells && tA in pl.Cells && tD != tA && tour == tD.piece
    modifies tD`piece, tA`piece, (if tour == null then {} else {tour})`c, pl`Contents
    ensures pl.Valid()
    ensures pl.Contents == Roque(old(pl.Contents), Some((tD.Position(), tA.Position())))
    ensures tour != null && tour.kind == Tour ==> tD.piece == null && tA.piece == tour && tour.c == tA
    ensures !(tour != null && tour.kind == Tour) ==> tD.piece == old(tD.piece) && tA.piece == old(tA.piece)
    ensures Vue(tour) == At(old(pl.Contents), tD.Position())
    ensures old(tA.piece) == null ==> At(old(pl.Contents), tA.Position()).None?
  {
    pl.Voir(tD);
    pl.Voir(tA);
    if tour != null && tour.kind == Tour {
      pl.Transporter(tD, tA, tour);
    }
  }

  /**
   * What the undo needs after the move of SimuleAvec from g: the moved
   * piece on the destination, the captured piece, the lifted victim and
   * the carried rook each still recording its square and showing what g
   * showed there, and the rook's castled square empty in g.
   */
  ghost predicate Annulable(pl: Plateau, g: Grid, o: Case, d: Case, piece: Piece, capturee: Piece?, ep: Case?, victime: Piece?,
                            tD: Case?, tA: Case?, tour: Piece?)
    reads pl`Contents, pl`Pieces, pl.cases, Touchees(o, d, ep, tD, tA)`piece,
          Jouees(piece, capturee, victime, tour)`c,
          Jouees(piece, capturee, victime, tour)`aDejaBouge
  {
    && Coins(pl, o, d, ep, tD, tA)
    && Rect(g, pl.sizeX, pl.sizeY)
    && pl.Forme()
    && pl.Contents == SimuleAvec(g, o.Position(), d.Position(), PositionDe(ep), RoqueCases(tD, tA))
    && o.piece == null && d.piece == piece && piece.c == d && Vue(piece) == At(g, o.Position())
    && (capturee != null ==> capturee in pl.Pieces && capturee.c == d && capturee.Valid() && capturee != piece)
    && Vue(capturee) == At(g, d.Position())
    && (victime != null ==> ep != null && ep.piece == null && victime in pl.Pieces && victime.c == ep && victime.Valid())
    && (victime != null ==> EnPassantPris(g, o.Position(), d.Position(), PositionDe(ep)))
    && (ep != null && EnPassantPris(g, o.Position(), d.Position(), PositionDe(ep)) ==> Vue(victime) == At(g, ep.Position()))
    && (TourDeplacee(g, RoqueCases(tD, tA)) <==> tD != null && tA != null && tour != null && tour.kind == Tour)
    && (TourDeplacee(g, RoqueCases(tD, tA)) ==>
          tD != null && tA != null && tour != null && tD.piece == null && tA.piece == tour && tour.c == tA
          && Vue(tour) == At(g, tD.Position()) && At(g, tA.Position()).None?)
  }

  /**
   * jouerPartie's undo of the trial move: the captured piece and the moved
   * piece back on their squares, the en-passant victim put back, the rook
   * carried home. The board is again the one before the trial.
   */
  method Restaurer(pl: Plateau, ghost g: Grid, o: Case, d: Case, piece: Piece, capturee: Piece?, ep: Case?, victime: Piece?,
                   tD: Case?, tA: Case?, tour: Piece?)
    requires pl.Valid() && Annulable(pl, g, o, d, piece, capturee, ep, victime, tD, tA, tour)
    modifies o`piece, d`piece, Seule(ep)`piece, Seule(tD)`piece, Seule(tA)`piece, piece`c, UnePiece(tour)`c, pl`Contents
    ensures pl.Valid() && pl.Contents == g && o.piece == piece && piece.c == o
    ensures d.piece == capturee && (victime != null ==> ep != null && ep.piece == victime)
    ensures victime == null && ep != null ==> ep.piece == old(ep.piece)
    ensures tD != null && tour != null && tour.kind == Tour ==> tD.piece == tour && tA.piece == null
    ensures tD != null && !(tour != null && tour.kind == Tour) ==> tD.piece == old(tD.piece) && tA.piece == old(tA.piece)
  {
    if tD == null {
      RestaurerSansRoque(pl, g, o, d, piece, capturee, ep, victime, tD, tA, tour);
    } else {
      RestaurerRoque(pl, g, o, d, piece, capturee, tD, tA, tour);
    }
  }

  /** The undo of a move that did not castle: the en-passant victim put back if there was one. */
  method RestaurerSansRoque(pl: Plateau, ghost g: Grid, o: Case, d: Case, piece: Piece, capturee: Piece?, ep: Case?, victime: Piece?,
                   tD: Case?, tA: Case?, tour: Piece?)
    requires tD == null
    requires pl.Valid() && Annulable(pl, g, o, d, piece, capturee, ep, victime, tD, tA, tour)
    modifies o`piece, d`piece, Seule(ep)`piece, Seule(tD)`piece, Seule(tA)`piece, piece`c, UnePiece(tour)`c, pl`Contents
    ensures pl.Valid() && pl.Contents == g && o.piece == piece && piece.c == o
    ensures d.piece == capturee && (victime != null ==> ep != null && ep.piece == victime)
    ensures victime == null && ep != null ==> ep.piece == old(ep.piece)
  {
    pl.Rendre(o, d, piece, capturee);
    if victime != null && ep != null {
      pl.Poser(ep, victime);
    }
    DefaitSimule(g, pl.sizeX, pl.sizeY, o.Position(), d.Position(), PositionDe(ep), RoqueCases(tD, tA),
                 victime != null, TourDeplacee(g, RoqueCases(tD, tA)));
  }

  /** The undo of a move that may have castled: the rook carried home if it moved. */
  method RestaurerRoque(pl: Plateau, ghost g: Grid, o: Case, d: Case, piece: Piece, capturee: Piece?, tD: Case, tA: Case?, tour: Piece?)
    requires pl.Valid() && Annulable(pl, g, o, d, piece, capturee, null, null, tD, tA, tour)
    modifies o`piece, d`piece, tD`piece, Seule(tA)`piece, piece`c, UnePiece(tour)`c, pl`Contents
    ensures pl.Valid() && pl.Contents == g && o.piece == piece && piece.c == o && d.piece == capturee
    ensures tour != null && tour.kind == Tour ==> tD.piece == tour && tA.piece == null
    ensures !(tour != null && tour.kind == Tour) ==> tD.piece == old(tD.piece) && tA.piece == old(tA.piece)
  {
    pl.Rendre(o, d, piece, capturee);
    if tA != null && tour != null && tour.kind == Tour {
      pl.Transporter(tA, tD, tour);
    }
    DefaitSimule(g, pl.sizeX, pl.sizeY, o.Position(), d.Position(), None, RoqueCases(tD, tA),
                 false, TourDeplacee(g, RoqueCases(tD, tA)));
  }

  /**
   * What the move did to the pieces of its squares: the captured piece is
   * the one the destination held, the victim the one the en-passant square
   * held, and squares the move left alone hold what they held.
   */
  twostate predicate Releve(d: Case, ep: Case?, tD: Case?, tA: Case?, new capturee: Piece?, new victime: Piece?, new tour: Piece?)
    reads d, Seule(ep), Seule(tD), Seule(tA)
  {
    && capturee == old(d.piece)
    && (victime != null ==> ep != null && victime == old(ep.piece))
    && (victime == null && ep != null ==> ep.piece == old(ep.piece))
    && (tD != null && !(tour != null && tour.kind == Tour) ==> tA != null && tD.piece == old(tD.piece) && tA.piece == old(tA.piece))
  }

  /**
   * The move as jouerPartie makes it, for the trial and for real: the
   * origin emptied, the en-passant victim lifted, the piece put on the
   * destination, the rook carried; what the undo needs is returned. A move
   * that castles never takes en passant, so the two extra steps are
   * followed on separate paths.
   */
  method Avancer(pl: Plateau, o: Case, d: Case, piece: Piece, ep: Case?, tD: Case?, tA: Case?) returns (capturee: Piece?, victime: Piece?, tour: Piece?)
    requires pl.Valid() && Coins(pl, o, d, ep, tD, tA) && o.piece == piece
    requires tA != null ==> tA.piece == null
    modifies o`piece, d`piece, Seule(ep)`piece, Seule(tD)`piece, Seule(tA)`piece, piece`c, TourSur(tD)`c, pl`Contents
    ensures pl.Valid()
    ensures pl.Contents == SimuleAvec(old(pl.Contents), o.Position(), d.Position(), PositionDe(ep), RoqueCases(tD, tA))
    ensures Annulable(pl, old(pl.Contents), o, d, piece, capturee, ep, victime, tD, tA, tour)
    ensures tour == if tD != null then old(tD.piece) else null
    ensures Releve(d, ep, tD, tA, capturee, victime, tour)
  {
    if tD == null {
      capturee, victime := AvancerSansRoque(pl, o, d, piece, ep);
      tour := null;
    } else {
      capturee, tour := AvancerRoque(pl, o, d, piece, tD, tA);
      victime := null;
    }
  }

  /** The move without castling: origin emptied, en-passant victim lifted, piece on the destination. */
  method AvancerSansRoque(pl: Plateau, o: Case, d: Case, piece: Piece, ep: Case?) returns (capturee: Piece?, victime: Piece?)
    requires pl.Valid() && Coins(pl, o, d, ep, null, null) && o.piece == piece
    modifies o`piece, d`piece, Seule(ep)`piece, piece`c, pl`Contents
    ensures pl.Valid()
    ensures pl.Contents == SimuleAvec(old(pl.Contents), o.Position(), d.Position(), PositionDe(ep), None)
    ensures Annulable(pl, old(pl.Contents), o, d, piece, capturee, ep, victime, null, null, null)
    ensures capturee == old(d.piece) && (victime != null ==> ep != null && victime == old(ep.piece))
    ensures victime == null && ep != null ==> ep.piece == old(ep.piece)
  {
    capturee := d.piece;
    victime := Lever(pl, o, d, piece, ep);
  }

  /** The castling move: origin emptied, king on the destination, then the rook carried. */
  method AvancerRoque(pl: Plateau, o: Case, d: Case, piece: Piece, tD: Case, tA: Case) returns (capturee: Piece?, tour: Piece?)
    requires pl.Valid() && Coins(pl, o, d, null, tD, tA) && o.piece == piece && tA.piece == null
    modifies o`piece, d`piece, tD`piece, tA`piece, piece`c, TourSur(tD)`c, pl`Contents
    ensures pl.Valid()
    ensures pl.Contents == SimuleAvec(old(pl.Contents), o.Position(), d.Position(), None, RoqueCases(tD, tA))
    ensures Annulable(pl, old(pl.Contents), o, d, piece, capturee, null, null, tD, tA, tour)
    ensures tour == old(tD.piece) && capturee == old(d.piece)
    ensures !(tour != null && tour.kind == Tour) ==> tD.piece == old(tD.piece) && tA.piece == old(tA.piece)
  {
    ghost var g := pl.Contents;
    capturee := d.piece;
    var victime := Lever(pl, o, d, piece, null);
    tour := Tourner(pl, g, o, d, piece, capturee, tD, tA);
  }

  /** The king moved, the rook's half of castling: the piece on tD carried to tA. */
  method Tourner(pl: Plateau, ghost g: Grid, o: Case, d: Case, piece: Piece, capturee: Piece?, tD: Case, tA: Case) returns (tour: Piece?)
    requires pl.Valid() && Coins(pl, o, d, null, tD, tA) && Rect(g, pl.sizeX, pl.sizeY)
    requires pl.Contents == Avance(g, o.Position(), d.Position(), None)
    requires o.piece == null && d.piece == piece && piece.c == d && Vue(piece) == At(g, o.Position())
    requires capturee != null ==> capturee in pl.Pieces && capturee.c == d && capturee.Valid() && capturee != piece
    requires Vue(capturee) == At(g, d.Position())
    requires At(g, tD.Position()) == Vue(tD.piece) && tA.piece == null && At(g, tA.Position()).None?
    modifies tD`piece, tA`piece, TourSur(tD)`c, pl`Contents
    ensures Annulable(pl, g, o, d, piece, capturee, null, null, tD, tA, tour)
    ensures pl.Valid() && tour == old(tD.piece)
    ensures !(tour != null && tour.kind == Tour) ==> tD.piece == old(tD.piece) && tA.piece == old(tA.piece)
  {
    AvanceAilleurs(g, o.Position(), d.Position(), None, tD.Position());
    AvanceAilleurs(g, o.Position(), d.Position(), None, tA.Position());
    tour := tD.piece;
    PorterTour(pl, tD, tA, tour);
  }

  /**
   * Promotion: a Pion standing on row 0 or 7 is taken off its square and a
   * new Reine of its colour, not yet moved, is created there.
   */
  method Promouvoir(pl: Plateau, d: Case, piece: Piece) returns (reine: Piece?)
    requires pl.Valid() && d in pl.Cells && d.piece == piece
    modifies d`piece, pl`Pieces, pl`Contents
    ensures pl.Valid() && pl.Pieces == old(pl.Pieces) + UnePiece(reine)
    ensures reine != null ==> fresh(reine) && fresh(reine.dCA)
    ensures pl.Contents == if piece.kind == Pion && (d.posX == 0 || d.posX == 7)
                           then Set(old(pl.Contents), d.Position(), Some(PieceVal(Reine, piece.couleur, false)))
                           else old(pl.Contents)
    ensures !(piece.kind == Pion && (d.posX == 0 || d.posX == 7)) ==> d.piece == piece
  {
    reine := null;
    if piece.kind == Pion && (d.posX == 0 || d.posX == 7) {
      ghost var g := pl.Contents;
      pl.Poser(d, null);
      reine := new Piece(piece.couleur, Reine, pl, d);
      SetEcrase(g, d.Position(), None, Some(PieceVal(Reine, piece.couleur, false)), pl.sizeX, pl.sizeY);
    }
  }

  /**
   * The move jouerPartie makes for real once the trial passed: the same
   * move as the trial, then the promotion, then a moved Roi or Tour
   * flagged as having moved.
   */
  method Appliquer(pl: Plateau, o: Case, d: Case, piece: Piece, ep: Case?, tD: Case?, tA: Case?) returns (reine: Piece?)
    requires pl.Valid() && Coins(pl, o, d, ep, tD, tA) && o.piece == piece
    requires tA != null ==> tA.piece == null
    modifies o`piece, d`piece, Seule(ep)`piece, Seule(tD)`piece, Seule(tA)`piece, piece`c, piece`aDejaBouge,
             TourSur(tD)`c, pl`Contents, pl`Pieces
    ensures pl.Valid() && pl.Pieces == old(pl.Pieces) + UnePiece(reine)
    ensures reine != null ==> fresh(reine) && fresh(reine.dCA)
    ensures pl.Contents == Applique(old(pl.Contents), o.Position(), d.Position(), PositionDe(ep), RoqueCases(tD, tA))
  {
    pl.Voir(o);
    var capturee, victime, tour := Avancer(pl, o, d, piece, ep, tD, tA);
    reine := Promouvoir(pl, d, piece);
    if piece.kind == Roi || piece.kind == Tour {
      pl.Marquer(piece, true);
    }
  }

  // ---------------------------------------------------------------- initialiserPieces

  /** new Roi/Reine/...(couleur, plateau, getCase(x, y)): one piece of the starting position created on its square. */
  method Creer(pl: Plateau, couleur: string, kind: Kind, x: int, y: int, ghost S: set<Pos>)
    requires pl.Valid() && pl.sizeX == 8 && pl.sizeY == 8 && Case8(Pos(x, y))
    requires Partiel(pl.Contents, S) && At(Depart(), Pos(x, y)) == Some(PieceVal(kind, couleur, false))
    modifies pl.Cells`piece, pl`Pieces, pl`Contents
    ensures pl.Valid() && Partiel(pl.Contents, S + {Pos(x, y)})
  {
    var piece := new Piece(couleur, kind, pl, pl.GetCase(x, y));
  }

  /** The pawn squares of one more column. */
  lemma PionsSuivants(i: int)
    requires 0 <= i
    ensures Pions(i) + {Pos(6, i)} + {Pos(1, i)} == Pions(i + 1)
  {
  }

  /** The Rois and the Reines. */
  method CreerRoyaux(pl: Plateau, ghost S: set<Pos>)
    requires pl.Valid() && pl.sizeX == 8 && pl.sizeY == 8 && Partiel(pl.Contents, S)
    modifies pl.Cells`piece, pl`Pieces, pl`Contents
    ensures pl.Valid() && Partiel(pl.Contents, S + {Pos(7, 4), Pos(0, 4), Pos(7, 3), Pos(0, 3)})
  {
    DepartAt(Pos(7, 4));
    DepartAt(Pos(0, 4));
    DepartAt(Pos(7, 3));
    DepartAt(Pos(0, 3));
    Creer(pl, "Blanc", Roi, 7, 4, S);
    Creer(pl, "Noir", Roi, 0, 4, S + {Pos(7, 4)});
    Creer(pl, "Blanc", Reine, 7, 3, S + {Pos(7, 4), Pos(0, 4)});
    Creer(pl, "Noir", Reine, 0, 3, S + {Pos(7, 4), Pos(0, 4), Pos(7, 3)});
  }

  /** Four pieces of one kind on columns y1 and y2 of both back rows, "Blanc" first. */
  method CreerPaire(pl: Plateau, kind: Kind, y1: int, y2: int, ghost S: set<Pos>)
    requires pl.Valid() && pl.sizeX == 8 && pl.sizeY == 8 && Partiel(pl.Contents, S)
    requires 0 <= y1 < 8 && 0 <= y2 < 8 && Arriere(y1) == kind && Arriere(y2) == kind
    modifies pl.Cells`piece, pl`Pieces, pl`Contents
    ensures pl.Valid() && Partiel(pl.Contents, S + {Pos(7, y1), Pos(7, y2), Pos(0, y1), Pos(0, y2)})
  {
    DepartAt(Pos(7, y1));
    DepartAt(Pos(7, y2));
    DepartAt(Pos(0, y1));
    DepartAt(Pos(0, y2));
    Creer(pl, "Blanc", kind, 7, y1, S);
    Creer(pl, "Blanc", kind, 7, y2, S + {Pos(7, y1)});
    Creer(pl, "Noir", kind, 0, y1, S + {Pos(7, y1), Pos(7, y2)});
    Creer(pl, "Noir", kind, 0, y2, S + {Pos(7, y1), Pos(7, y2), Pos(0, y1)});
  }

  /** initialiserPieces on an emptied board: the back rows kind by kind, then the pawns column by column. */
  method InitialiserPieces(pl: Plateau)
    requires pl.Valid() && pl.sizeX == 8 && pl.sizeY == 8 && pl.Contents == Vide(8, 8)
    modifies pl.Cells`piece, pl`Pieces, pl`Contents
    ensures pl.Valid() && pl.Contents == Depart()
  {
    CreerArrieres(pl);
    CreerPions(pl, Arrieres());
    PartielComplet(pl.Contents);
  }

  /** The back rows: Rois and Reines, then Tours, Fous and Cavaliers, "Blanc" before "Noir" each time. */
  method CreerArrieres(pl: Plateau)
    requires pl.Valid() && pl.sizeX == 8 && pl.sizeY == 8 && Partiel(pl.Contents, {})
    modifies pl.Cells`piece, pl`Pieces, pl`Contents
    ensures pl.Valid() && Partiel(pl.Contents, Arrieres())
  {
    CreerRoyaux(pl, {});
    ghost var S := {Pos(7, 4), Pos(0, 4), Pos(7, 3), Pos(0, 3)};
    CreerPaire(pl, Tour, 0, 7, S);
    S := S + {Pos(7, 0), Pos(7, 7), Pos(0, 0), Pos(0, 7)};
    CreerPaire(pl, Fou, 2, 5, S);
    S := S + {Pos(7, 2), Pos(7, 5), Pos(0, 2), Pos(0, 5)};
    CreerPaire(pl, Cavalier, 1, 6, S);
    S := S + {Pos(7, 1), Pos(7, 6), Pos(0, 1), Pos(0, 6)};
  }

  /** The pawns, column by column: "Blanc" on row 6, then "Noir" on row 1. */
  method CreerPions(pl: Plateau, ghost S: set<Pos>)
    requires pl.Valid() && pl.sizeX == 8 && pl.sizeY == 8 && Partiel(pl.Contents, S)
    modifies pl.Cells`piece, pl`Pieces, pl`Contents
    ensures pl.Valid() && Partiel(pl.Contents, S + Pions(8))
  {
    for i := 0 to 8
      invariant pl.Valid() && Partiel(pl.Contents, S + Pions(i))
    {
      DepartAt(Pos(6, i));
      DepartAt(Pos(1, i));
      Creer(pl, "Blanc", Pion, 6, i, S + Pions(i));
      Creer(pl, "Noir", Pion, 1, i, S + Pions(i) + {Pos(6, i)});
      PionsSuivants(i);
    }
  }

  // ================================================================ JeuEchec

  /** JeuEchec: the shared game state over the 8 by 8 board. */
  class JeuEchec {
    const jeu: Jeu

    ghost predicate Valid()
      reads this, jeu, jeu.session, jeu.plateau, jeu.plateau.cases, jeu.plateau.Cells, jeu.plateau.Pieces
    {
      jeu.Valid() && jeu.plateau.Valid() && jeu.plateau.sizeX == 8 && jeu.plateau.sizeY == 8
      && DernierCoupDefini(jeu.plateau, jeu.GetDernierCoup())
      && Echiquier8(jeu.plateau.Contents, Dernier())
    }

    /** The previous move the strategies read: the last move of the history, if any. */
    ghost function Dernier(): Option<Trajet>
      reads jeu.session
    {
      TrajetDe(jeu.GetDernierCoup())
    }

    /** The strategy objects of the board's pieces: the only objects the scans write. */
    ghost function Strategies(): set<DecCasesAccessibles>
      reads jeu.plateau`Pieces
    {
      set q | q in jeu.plateau.Pieces :: q.dCA
    }

    /**
     * new JeuEchec(plateau): a new game on the 8 by 8 board, reset at once:
     * the starting position, white to move, no winner.
     */
    constructor (plateau: Plateau, session: Session)
      requires plateau.Valid() && plateau.sizeX == 8 && plateau.sizeY == 8
      requires session.historiqueCoups != [] ==> DernierCoupDefini(plateau, Some(session.historiqueCoups[|session.historiqueCoups| - 1]))
      modifies session`instance, plateau.Cells, plateau`Pieces, plateau`Contents
      ensures Valid() && jeu.plateau == plateau && jeu.session == session && session.instance == jeu
      ensures jeu.plateau.Contents == Depart() && jeu.joueurCourant == jeu.JOUEUR_BLANC && jeu.gagnant == null
    {
      jeu := new Jeu(plateau, session);
      new;
      ReinitialiserPartie();
    }

    /** reinitialiserPartie: white to move, no winner, every square emptied, then the pieces set up. */
    method ReinitialiserPartie()
      requires Valid()
      modifies jeu`joueurCourant, jeu`gagnant, jeu.plateau.Cells, jeu.plateau`Pieces, jeu.plateau`Contents
      ensures Valid() && jeu.plateau.Contents == Depart()
      ensures jeu.joueurCourant == jeu.JOUEUR_BLANC && jeu.gagnant == null
    {
      jeu.joueurCourant := jeu.JOUEUR_BLANC;
      jeu.gagnant := null;
      jeu.plateau.ToutVider();
      InitialiserPieces(jeu.plateau);
    }

    // ---------------------------------------------------------------- caseMenacee

    /** The body of caseMenacee's scan for square k: a piece the player does not own whose getCA contains c. */
    method Attaquer(k: Case, c: Case, joueur: Joueur) returns (b: bool)
      requires Valid() && k in jeu.plateau.Cells && c in jeu.plateau.Cells
      modifies Strategies()`caseAPrendreEnPassant
      ensures Valid()
      ensures b == Attaquant(jeu.plateau.Contents, joueur.couleur, k.Position(), c.Position(), Dernier())
    {
      var pl := jeu.plateau;
      pl.Voir(k);
      var p := k.piece;
      b := false;
      if p != null && !EqualsIgnoreCase(p.couleur, joueur.couleur.Name()) {
        var acces := Destinations(p);
        pl.Designe(acces, c);
        b := c in acces;
      }
    }

    /** One more square of row x holds no attacker: the attacker-free prefix grows by one. */
    lemma NonAttaquant(g: Grid, col: Couleur, x: int, y: int, t: Pos, last: Option<Trajet>)
      requires Echiquier8(g, last) && !Attaquant(g, col, Pos(x, y), t, last)
      requires forall j :: 0 <= j < y ==> !Attaquant(g, col, Pos(x, j), t, last)
      ensures forall j :: 0 <= j < y + 1 ==> !Attaquant(g, col, Pos(x, j), t, last)
    {
    }

    /** caseMenacee's inner loop over row x. */
    method MenaceeLigne(x: int, c: Case, joueur: Joueur) returns (b: bool)
      requires Valid() && 0 <= x < 8 && c in jeu.plateau.Cells
      modifies Strategies()`caseAPrendreEnPassant
      ensures Valid()
      ensures b <==> exists y :: 0 <= y < 8 && Attaquant(jeu.plateau.Contents, joueur.couleur, Pos(x, y), c.Position(), Dernier())
    {
      ghost var g := jeu.plateau.Contents;
      ghost var last := Dernier();
      for y := 0 to 8
        invariant Valid() && jeu.plateau.Contents == g && Dernier() == last
        invariant forall j :: 0 <= j < y ==> !Attaquant(g, joueur.couleur, Pos(x, j), c.Position(), last)
      {
        var k := jeu.plateau.GetCase(x, y);
        b := Attaquer(k, c, joueur);
        if b {
          return;
        }
        NonAttaquant(g, joueur.couleur, x, y, c.Position(), last);
      }
      b := false;
    }

    /** caseMenacee: some piece the player does not own has c among the squares its getCA returns. */
    method CaseMenacee(c: Case, joueur: Joueur) returns (b: bool)
      requires Valid() && c in jeu.plateau.Cells
      modifies Strategies()`caseAPrendreEnPassant
      ensures Valid()
      ensures b == Attaque(jeu.plateau.Contents, joueur.couleur, c.Position(), Dernier())
    {
      ghost var g := jeu.plateau.Contents;
      ghost var last := Dernier();
      for x := 0 to 8
        invariant Valid() && jeu.plateau.Contents == g && Dernier() == last
        invariant forall p: Pos :: p.x < x ==> !Attaquant(g, joueur.couleur, p, c.Position(), last)
      {
        b := MenaceeLigne(x, c, joueur);
        if b {
          return;
        }
        forall p: Pos | p.x == x ensures !Attaquant(g, joueur.couleur, p, c.Position(), last) {
          assert p == Pos(x, p.y);
        }
      }
      b := false;
    }

    // ---------------------------------------------------------------- estEnEchec

    /** The inner loop of estEnEchec's king search over row x: the first Roi of the player, then break. */
    method RoiLigne(x: int, joueur: Joueur) returns (roi: Piece?)
      requires Valid() && 0 <= x < 8
      ensures roi == null <==> RoiDansLigne(jeu.plateau.Contents, joueur.couleur, x, 0).None?
      ensures roi != null ==>
        roi.c in jeu.plateau.Cells && roi.c.piece == roi
        && roi.c.Position() == RoiDansLigne(jeu.plateau.Contents, joueur.couleur, x, 0).value
    {
      ghost var g := jeu.plateau.Contents;
      roi := null;
      for y := 0 to 8
        invariant roi == null && RoiDansLigne(g, joueur.couleur, x, y) == RoiDansLigne(g, joueur.couleur, x, 0)
      {
        var k := jeu.plateau.GetCase(x, y);
        jeu.plateau.Voir(k);
        var p := k.piece;
        if p != null && p.kind == Roi && EqualsIgnoreCase(p.couleur, joueur.couleur.Name()) {
          roi := p;
          break;
        }
      }
    }

    /** estEnEchec's king search: rows 0 to 7, a king found in a later row replacing an earlier one. */
    method TrouverRoi(joueur: Joueur) returns (roi: Piece?)
      requires Valid()
      ensures roi == null <==> RoiTrouve(jeu.plateau.Contents, joueur.couleur, 8).None?
      ensures roi != null ==>
        roi.c in jeu.plateau.Cells && roi.c.piece == roi
        && roi.c.Position() == RoiTrouve(jeu.plateau.Contents, joueur.couleur, 8).value
    {
      ghost var g := jeu.plateau.Contents;
      roi := null;
      for x := 0 to 8
        invariant roi == null <==> RoiTrouve(g, joueur.couleur, x).None?
        invariant roi != null ==>
          roi.c in jeu.plateau.Cells && roi.c.piece == roi && roi.c.Position() == RoiTrouve(g, joueur.couleur, x).value
      {
        var r := RoiLigne(x, joueur);
        if r != null {
          roi := r;
        }
      }
    }

    /**
     * estEnEchec: the square of the king the search finds is reached by a
     * piece the player does not own (the attack scan is caseMenacee's); no
     * king, no check.
     */
    method EstEnEchec(joueur: Joueur) returns (b: bool)
      requires Valid()
      modifies Strategies()`caseAPrendreEnPassant
      ensures Valid()
      ensures b == EnEchec(jeu.plateau.Contents, joueur.couleur, Dernier())
    {
      var roi := TrouverRoi(joueur);
      if roi == null {
        return false;
      }
      var caseRoi := roi.c;
      b := CaseMenacee(caseRoi, joueur);
    }

    // ---------------------------------------------------------------- coupEstLegal

    /**
     * coupEstLegal: the plain move (no en passant, no rook) is tried, the
     * check verified, and every square and the piece's square restored.
     */
    method CoupEstLegal(piece: Piece, destination: Case, joueur: Joueur) returns (legal: bool)
      requires Valid() && piece.c in jeu.plateau.Cells && piece.c.piece == piece
      requires destination in jeu.plateau.Cells && destination != piece.c
      modifies jeu.plateau.Cells`piece, piece`c, jeu.plateau`Contents, Strategies()`caseAPrendreEnPassant
      ensures Valid() && jeu.plateau.Contents == old(jeu.plateau.Contents)
      ensures piece.c == old(piece.c) && piece.c.piece == piece
      ensures forall k :: k in jeu.plateau.Cells ==> k.piece == old(k.piece)
      ensures legal == CoupLegal(old(jeu.plateau.Contents), joueur.couleur, old(piece.c).Position(), destination.Position(), Dernier())
    {
      jeu.plateau.Voir(piece.c);
      jeu.plateau.Voir(destination);
      var roiEnDanger := Tenter(piece, destination, joueur);
      legal := !roiEnDanger;
    }

    /** The plain move made on the board, the check made, the move undone. */
    method Tenter(piece: Piece, destination: Case, joueur: Joueur) returns (echec: bool)
      requires Valid() && piece.c in jeu.plateau.Cells && piece.c.piece == piece
      requires destination in jeu.plateau.Cells && destination != piece.c
      modifies jeu.plateau.Cells`piece, piece`c, jeu.plateau`Contents, Strategies()`caseAPrendreEnPassant
      ensures Valid() && jeu.plateau.Contents == old(jeu.plateau.Contents)
      ensures piece.c == old(piece.c) && piece.c.piece == piece
      ensures forall k :: k in jeu.plateau.Cells ==> k.piece == old(k.piece)
      ensures Case8(piece.c.Position()) && Case8(destination.Position())
      ensures echec == EnEchec(Deplace(jeu.plateau.Contents, piece.c.Position(), destination.Position()), joueur.couleur, Dernier())
    {
      var pl := jeu.plateau;
      ghost var g := pl.Contents;
      var origine := piece.c;
      var pieceCapturee := destination.piece;
      pl.Voir(origine);
      pl.Voir(destination);
      assert pieceCapturee != piece;
      echec := Regarder(origine, destination, piece, joueur);
      pl.Rendre(origine, destination, piece, pieceCapturee);
      SetRetour(g, origine.Position(), destination.Position(), None, At(g, origine.Position()), 8, 8);
    }

    /** The plain move made on the board and the check evaluated there; the board is left with the move made. */
    method Regarder(origine: Case, destination: Case, piece: Piece, joueur: Joueur) returns (echec: bool)
      requires Valid() && origine in jeu.plateau.Cells && destination in jeu.plateau.Cells && origine != destination
      requires origine.piece == piece
      modifies origine`piece, destination`piece, piece`c, jeu.plateau`Contents, Strategies()`caseAPrendreEnPassant
      ensures Valid() && origine.piece == null && destination.piece == piece && piece.c == destination
      ensures jeu.plateau.Contents == Deplace(old(jeu.plateau.Contents), origine.Position(), destination.Position())
      ensures echec == EnEchec(jeu.plateau.Contents, joueur.couleur, Dernier())
    {
      jeu.plateau.Transporter(origine, destination, piece);
      echec := EstEnEchec(joueur);
    }

    // ---------------------------------------------------------------- estTermine

    /**
     * estTermine's body for square k: when it holds a piece of the player,
     * the squares its getCA returns are tried in order with coupEstLegal
     * until one passes.
     */
    method Jouable(k: Case, joueur: Joueur) returns (trouve: bool)
      requires Valid() && k in jeu.plateau.Cells
      modifies jeu.plateau.Cells`piece, jeu.plateau.Pieces`c, jeu.plateau`Contents, Strategies()`caseAPrendreEnPassant
      ensures Valid() && jeu.plateau.Contents == old(jeu.plateau.Contents)
      ensures forall k :: k in jeu.plateau.Cells ==> k.piece == old(k.piece)
      ensures trouve == CaseJouable(jeu.plateau.Contents, joueur.couleur, k.Position(), Dernier())
    {
      var pl := jeu.plateau;
      pl.Voir(k);
      var piece := k.piece;
      trouve := false;
      if piece != null && EqualsIgnoreCase(piece.couleur, joueur.couleur.Name()) {
        trouve := EssayerPiece(piece, joueur);
      }
    }

    /** The moves of one piece of the player: getCA, then the destinations tried in order. */
    method EssayerPiece(piece: Piece, joueur: Joueur) returns (trouve: bool)
      requires Valid() && piece.c in jeu.plateau.Cells && piece.c.piece == piece
      modifies jeu.plateau.Cells`piece, piece`c, jeu.plateau`Contents, Strategies()`caseAPrendreEnPassant
      ensures Valid() && jeu.plateau.Contents == old(jeu.plateau.Contents)
      ensures piece.c == old(piece.c) && forall k :: k in jeu.plateau.Cells ==> k.piece == old(k.piece)
      ensures Case8(piece.c.Position()) && Occupied(jeu.plateau.Contents, piece.c.Position())
      ensures trouve <==> (Defini8(jeu.plateau.Contents, piece.c.Position(), Dernier());
                           exists q :: q in CAde(jeu.plateau.Contents, piece.c.Position(), Dernier())
                             && CoupLegal(jeu.plateau.Contents, joueur.couleur, piece.c.Position(), q, Dernier()))
    {
      var deplacements := Destinations(piece);
      trouve := Essayer(piece, deplacements, joueur);
    }

    /** getCA of the piece: the squares its strategy offers, in order. */
    method Destinations(piece: Piece) returns (deplacements: seq<Case>)
      requires Valid() && piece.c in jeu.plateau.Cells && piece.c.piece == piece
      modifies Strategies()`caseAPrendreEnPassant
      ensures Valid() && Case8(piece.c.Position()) && Occupied(jeu.plateau.Contents, piece.c.Position())
      ensures jeu.plateau.Parmi(deplacements)
      ensures forall j :: 0 <= j < |deplacements| ==> deplacements[j] != piece.c
      ensures forall q :: q in Positions(deplacements) ==> Case8(q)
      ensures (Defini8(jeu.plateau.Contents, piece.c.Position(), Dernier());
               Positions(deplacements) == CAde(jeu.plateau.Contents, piece.c.Position(), Dernier()))
      ensures piece.kind == Pion ==>
        (Defini8(jeu.plateau.Contents, piece.c.Position(), Dernier());
         piece.dCA.caseAPrendreEnPassant == jeu.plateau.CaseOpt(EnPassantDe(jeu.plateau.Contents, piece.c.Position(), Dernier())))
    {
      var pl := jeu.plateau;
      ghost var g := pl.Contents;
      ghost var last := Dernier();
      var k := piece.c;
      pl.Voir(k);
      Defini8(g, k.Position(), last);
      EcritSeul(piece);
      deplacements := piece.dCA.GetCA(pl, k, jeu.GetDernierCoup());
      PositionsIndex(deplacements);
      CAdeSansDepart(g, k.Position(), last);
    }

    /** One more destination refused: the refused prefix grows by one. */
    lemma Refuse(g: Grid, col: Couleur, o: Pos, cibles: seq<Pos>, i: nat, last: Option<Trajet>)
      requires i < |cibles| && !CoupLegal(g, col, o, cibles[i], last)
      requires forall j :: 0 <= j < i ==> !CoupLegal(g, col, o, cibles[j], last)
      ensures forall j :: 0 <= j < i + 1 ==> !CoupLegal(g, col, o, cibles[j], last)
    {
    }

    /** All destinations refused: none of them passes coupEstLegal. */
    lemma Refuses(g: Grid, col: Couleur, o: Pos, cibles: seq<Pos>, last: Option<Trajet>)
      requires forall j :: 0 <= j < |cibles| ==> !CoupLegal(g, col, o, cibles[j], last)
      ensures !exists q :: q in cibles && CoupLegal(g, col, o, q, last)
    {
    }

    /** estTermine's innermost loop: the squares getCA returned, tried in order with coupEstLegal. */
    method Essayer(piece: Piece, deplacements: seq<Case>, joueur: Joueur) returns (trouve: bool)
      requires Valid() && piece.c in jeu.plateau.Cells && piece.c.piece == piece && jeu.plateau.Parmi(deplacements)
      requires forall j :: 0 <= j < |deplacements| ==> deplacements[j] != piece.c
      modifies jeu.plateau.Cells`piece, piece`c, jeu.plateau`Contents, Strategies()`caseAPrendreEnPassant
      ensures Valid() && jeu.plateau.Contents == old(jeu.plateau.Contents) && piece.c == old(piece.c)
      ensures forall k :: k in jeu.plateau.Cells ==> k.piece == old(k.piece)
      ensures trouve <==> (exists q :: q in Positions(deplacements)
                             && CoupLegal(jeu.plateau.Contents, joueur.couleur, piece.c.Position(), q, Dernier()))
    {
      var pl := jeu.plateau;
      ghost var g := pl.Contents;
      ghost var last := Dernier();
      var origine := piece.c;
      ghost var o := origine.Position();
      ghost var cibles := Positions(deplacements);
      PositionsIndex(deplacements);
      for i := 0 to |deplacements|
        invariant Valid() && pl.Contents == g && Dernier() == last && origine.piece == piece && piece.c == origine
        invariant forall k :: k in pl.Cells ==> k.piece == old(k.piece)
        invariant forall j :: 0 <= j < i ==> !CoupLegal(g, joueur.couleur, o, cibles[j], last)
      {
        var legal := CoupEstLegal(piece, deplacements[i], joueur);
        if legal {
          assert cibles[i] in cibles;
          return true;
        }
        Refuse(g, joueur.couleur, o, cibles, i, last);
      }
      Refuses(g, joueur.couleur, o, cibles, last);
      trouve := false;
    }

    /** One more square of row x offers the player no move: the prefix grows by one. */
    lemma NonJouable(g: Grid, col: Couleur, x: int, y: int, last: Option<Trajet>)
      requires Echiquier8(g, last) && 0 <= x < 8 && 0 <= y < 8 && !CaseJouable(g, col, Pos(x, y), last)
      requires forall j :: 0 <= j < y ==> !CaseJouable(g, col, Pos(x, j), last)
      ensures forall j :: 0 <= j < y + 1 ==> !CaseJouable(g, col, Pos(x, j), last)
    {
    }

    /** estTermine's loop over the squares of row x. */
    method JouableLigne(x: int, joueur: Joueur) returns (trouve: bool)
      requires Valid() && 0 <= x < 8
      modifies jeu.plateau.Cells`piece, jeu.plateau.Pieces`c, jeu.plateau`Contents, Strategies()`caseAPrendreEnPassant
      ensures Valid() && jeu.plateau.Contents == old(jeu.plateau.Contents)
      ensures forall k :: k in jeu.plateau.Cells ==> k.piece == old(k.piece)
      ensures trouve <==> exists y :: 0 <= y < 8 && CaseJouable(jeu.plateau.Contents, joueur.couleur, Pos(x, y), Dernier())
    {
      var pl := jeu.plateau;
      ghost var g := pl.Contents;
      ghost var last := Dernier();
      for y := 0 to 8
        invariant Valid() && pl.Contents == g && Dernier() == last
        invariant forall k :: k in pl.Cells ==> k.piece == old(k.piece)
        invariant forall j :: 0 <= j < y ==> !CaseJouable(g, joueur.couleur, Pos(x, j), last)
      {
        var k := pl.GetCase(x, y);
        trouve := Jouable(k, joueur);
        if trouve {
          return;
        }
        NonJouable(g, joueur.couleur, x, y, last);
      }
      trouve := false;
    }

    /** estTermine's scan of the board: some piece of the player has a move passing coupEstLegal. */
    method ChercherCoup(joueur: Joueur) returns (trouve: bool)
      requires Valid()
      modifies jeu.plateau.Cells`piece, jeu.plateau.Pieces`c, jeu.plateau`Contents, Strategies()`caseAPrendreEnPassant
      ensures Valid() && jeu.plateau.Contents == old(jeu.plateau.Contents)
      ensures forall k :: k in jeu.plateau.Cells ==> k.piece == old(k.piece)
      ensures trouve == PeutJouer(jeu.plateau.Contents, joueur.couleur, Dernier())
    {
      var pl := jeu.plateau;
      ghost var g := pl.Contents;
      ghost var last := Dernier();
      for x := 0 to 8
        invariant Valid() && pl.Contents == g && Dernier() == last
        invariant forall k :: k in pl.Cells ==> k.piece == old(k.piece)
        invariant forall p: Pos :: Case8(p) && p.x < x ==> !CaseJouable(g, joueur.couleur, p, last)
      {
        trouve := JouableLigne(x, joueur);
        if trouve {
          return;
        }
        forall p: Pos | Case8(p) && p.x == x ensures !CaseJouable(g, joueur.couleur, p, last) {
          assert p == Pos(x, p.y);
        }
      }
      trouve := false;
    }

    /**
     * estTermine, for the player whose turn it is: when no piece of theirs
     * has a move passing coupEstLegal the game is over, won by the other
     * player if they are in check, drawn (no winner) otherwise. The board
     * is left as it was.
     */
    method EstTermine() returns (fini: bool)
      requires Valid()
      modifies jeu.plateau.Cells`piece, jeu.plateau.Pieces`c, jeu.plateau`Contents, Strategies()`caseAPrendreEnPassant, jeu`gagnant
      ensures Valid() && jeu.plateau.Contents == old(jeu.plateau.Contents)
      ensures forall k :: k in jeu.plateau.Cells ==> k.piece == old(k.piece)
      ensures fini == !PeutJouer(jeu.plateau.Contents, jeu.joueurCourant.couleur, Dernier())
      ensures fini ==>
        jeu.gagnant == if EnEchec(jeu.plateau.Contents, jeu.joueurCourant.couleur, Dernier()) then jeu.Adversaire(jeu.joueurCourant) else null
      ensures !fini ==> jeu.gagnant == old(jeu.gagnant)
    {
      var joueur := jeu.joueurCourant;
      var enEchec := EstEnEchec(joueur);
      var trouve := ChercherCoup(joueur);
      if trouve {
        return false;
      }
      Conclure(joueur, enEchec);
      fini := true;
    }

    /** No legal move left for joueur: the other player wins if joueur is in check, nobody otherwise. */
    method Conclure(joueur: Joueur, enEchec: bool)
      requires Valid() && (joueur == jeu.JOUEUR_BLANC || joueur == jeu.JOUEUR_NOIR)
      modifies jeu`gagnant
      ensures Valid() && jeu.gagnant == if enEchec then jeu.Adversaire(joueur) else null
    {
      if enEchec {
        jeu.gagnant := jeu.Adversaire(joueur);
      } else {
        jeu.gagnant := null;
      }
    }

    /**
     * jouerPartie's trial: the move made with its en-passant capture and its
     * rook, the check evaluated for the player to move, the move undone.
     */
    method Simuler(o: Case, d: Case, piece: Piece, ep: Case?, tD: Case?, tA: Case?) returns (illegal: bool)
      requires Valid() && Coins(jeu.plateau, o, d, ep, tD, tA) && o.piece == piece
      requires tA != null ==> tA.piece == null
      modifies o`piece, d`piece, Seule(ep)`piece, Seule(tD)`piece, Seule(tA)`piece, piece`c, TourSur(tD)`c, jeu.plateau`Contents, Strategies()`caseAPrendreEnPassant
      ensures Valid() && jeu.plateau.Contents == old(jeu.plateau.Contents) && o.piece == piece && piece.c == o
      ensures d.piece == old(d.piece) && (ep != null ==> ep.piece == old(ep.piece))
      ensures tD != null ==> tD.piece == old(tD.piece) && tA.piece == old(tA.piece)
      ensures illegal == EnEchec(SimuleAvec(jeu.plateau.Contents, o.Position(), d.Position(), PositionDe(ep), RoqueCases(tD, tA)),
                                 jeu.joueurCourant.couleur, Dernier())
    {
      if ep != null {
        illegal := EssaiPassant(o, d, piece, ep);
      } else {
        illegal := EssaiRoque(o, d, piece, tD, tA);
      }
    }

    /** The trial of a move that may take en passant, undone. */
    method EssaiPassant(o: Case, d: Case, piece: Piece, ep: Case) returns (illegal: bool)
      requires Valid() && Coins(jeu.plateau, o, d, ep, null, null) && o.piece == piece
      modifies o`piece, d`piece, ep`piece, piece`c, jeu.plateau`Contents, Strategies()`caseAPrendreEnPassant
      ensures Valid() && jeu.plateau.Contents == old(jeu.plateau.Contents) && o.piece == piece && piece.c == o
      ensures d.piece == old(d.piece) && ep.piece == old(ep.piece)
      ensures illegal == EnEchec(SimuleAvec(jeu.plateau.Contents, o.Position(), d.Position(), PositionDe(ep), None),
                                 jeu.joueurCourant.couleur, Dernier())
    {
      ghost var g := jeu.plateau.Contents;
      var capturee, victime, tour;
      capturee, victime, tour := Avancer(jeu.plateau, o, d, piece, ep, null, null);
      illegal := Controler(g, o, d, piece, capturee, ep, victime, null, null, tour);
    }

    /** The trial of a move that may castle, undone. */
    method EssaiRoque(o: Case, d: Case, piece: Piece, tD: Case?, tA: Case?) returns (illegal: bool)
      requires Valid() && Coins(jeu.plateau, o, d, null, tD, tA) && o.piece == piece
      requires tA != null ==> tA.piece == null
      modifies o`piece, d`piece, Seule(tD)`piece, Seule(tA)`piece, piece`c, TourSur(tD)`c, jeu.plateau`Contents, Strategies()`caseAPrendreEnPassant
      ensures Valid() && jeu.plateau.Contents == old(jeu.plateau.Contents) && o.piece == piece && piece.c == o
      ensures d.piece == old(d.piece) && (tD != null ==> tD.piece == old(tD.piece) && tA.piece == old(tA.piece))
      ensures illegal == EnEchec(SimuleAvec(jeu.plateau.Contents, o.Position(), d.Position(), None, RoqueCases(tD, tA)),
                                 jeu.joueurCourant.couleur, Dernier())
    {
      ghost var g := jeu.plateau.Contents;
      var capturee, victime, tour;
      capturee, victime, tour := Avancer(jeu.plateau, o, d, piece, null, tD, tA);
      illegal := Controler(g, o, d, piece, capturee, null, victime, tD, tA, tour);
    }

    /** The undo of the trial: the board before it, and with it the game state, restored. */
    method Annuler(ghost g: Grid, o: Case, d: Case, piece: Piece, capturee: Piece?, ep: Case?, victime: Piece?,
                   tD: Case?, tA: Case?, tour: Piece?)
      requires Valid() && Echiquier8(g, Dernier()) && Annulable(jeu.plateau, g, o, d, piece, capturee, ep, victime, tD, tA, tour)
      modifies o`piece, d`piece, Seule(ep)`piece, Seule(tD)`piece, Seule(tA)`piece, piece`c, UnePiece(tour)`c, jeu.plateau`Contents
      ensures Valid() && jeu.plateau.Contents == g && o.piece == piece && piece.c == o
      ensures d.piece == capturee && (victime != null ==> ep != null && ep.piece == victime)
      ensures victime == null && ep != null ==> ep.piece == old(ep.piece)
      ensures tD != null && tour != null && tour.kind == Tour ==> tD.piece == tour && tA.piece == null
      ensures tD != null && !(tour != null && tour.kind == Tour) ==> tD.piece == old(tD.piece) && tA.piece == old(tA.piece)
    {
      Restaurer(jeu.plateau, g, o, d, piece, capturee, ep, victime, tD, tA, tour);
    }

    /** The check evaluated on the board the trial move left, then the undo. */
    method Controler(ghost g: Grid, o: Case, d: Case, piece: Piece, capturee: Piece?, ep: Case?, victime: Piece?,
                     tD: Case?, tA: Case?, tour: Piece?) returns (illegal: bool)
      requires Valid() && Echiquier8(g, Dernier()) && Annulable(jeu.plateau, g, o, d, piece, capturee, ep, victime, tD, tA, tour)
      modifies o`piece, d`piece, Seule(ep)`piece, Seule(tD)`piece, Seule(tA)`piece, piece`c, UnePiece(tour)`c, jeu.plateau`Contents,
               Strategies()`caseAPrendreEnPassant
      ensures illegal == old(EnEchec(jeu.plateau.Contents, jeu.joueurCourant.couleur, Dernier()))
      ensures Valid() && jeu.plateau.Contents == g && o.piece == piece && piece.c == o
      ensures d.piece == capturee && (victime != null ==> ep != null && ep.piece == victime)
      ensures victime == null && ep != null ==> ep.piece == old(ep.piece)
      ensures tD != null && tour != null && tour.kind == Tour ==> tD.piece == tour && tA.piece == null
      ensures tD != null && !(tour != null && tour.kind == Tour) ==> tD.piece == old(tD.piece) && tA.piece == old(tA.piece)
    {
      illegal := Verifier(g, o, d, piece, capturee, ep, victime, tD, tA, tour);
      Annuler(g, o, d, piece, capturee, ep, victime, tD, tA, tour);
    }

    /** estEnEchec on the board the trial move left, which it does not change. */
    method Verifier(ghost g: Grid, o: Case, d: Case, piece: Piece, capturee: Piece?, ep: Case?, victime: Piece?,
                    tD: Case?, tA: Case?, tour: Piece?) returns (illegal: bool)
      requires Valid() && Annulable(jeu.plateau, g, o, d, piece, capturee, ep, victime, tD, tA, tour)
      modifies Strategies()`caseAPrendreEnPassant
      ensures Valid() && Annulable(jeu.plateau, g, o, d, piece, capturee, ep, victime, tD, tA, tour)
      ensures illegal == EnEchec(jeu.plateau.Contents, jeu.joueurCourant.couleur, Dernier())
    {
      illegal := EstEnEchec(jeu.joueurCourant);
    }

    // ---------------------------------------------------------------- jouerPartie

    /**
     * jouerPartie's first three refusals: no piece on dep, a piece of the
     * other colour, arr not among the squares its getCA offers.
     */
    method Admettre(dep: Case, arr: Case) returns (refus: Option<Refus>, piece: Piece?)
      requires Valid() && dep in jeu.plateau.Cells && arr in jeu.plateau.Cells
      modifies Strategies()`caseAPrendreEnPassant
      ensures Valid() && Case8(dep.Position()) && Case8(arr.Position())
      ensures refus.None? <==> Admis(jeu.plateau.Contents, jeu.joueurCourant.couleur, dep.Position(), arr.Position(), Dernier())
      ensures refus.Some? ==> refus == Verdict(jeu.plateau.Contents, jeu.joueurCourant.couleur, dep.Position(), arr.Position(), Dernier())
      ensures refus.None? ==> piece != null && piece == dep.piece && piece.c == dep && Vue(piece) == At(jeu.plateau.Contents, dep.Position())
      ensures refus.None? && piece != null && piece.kind == Pion ==>
        (Defini8(jeu.plateau.Contents, dep.Position(), Dernier());
         piece.dCA.caseAPrendreEnPassant == jeu.plateau.CaseOpt(EnPassantDe(jeu.plateau.Contents, dep.Position(), Dernier())))
    {
      var pl := jeu.plateau;
      pl.Voir(dep);
      pl.Voir(arr);
      piece := dep.piece;
      if piece == null {
        return Some(AucunePiece), piece;
      }
      if !EqualsIgnoreCase(piece.couleur, jeu.joueurCourant.couleur.Name()) {
        return Some(PasSonTour), piece;
      }
      var deplacements := Destinations(piece);
      pl.Designe(deplacements, arr);
      if arr !in deplacements {
        return Some(CoupInvalide), piece;
      }
      refus := None;
    }

    /**
     * caseMenacee on the square a castling Roi crosses and, only when that
     * one is safe, on the square it lands on.
     */
    method Traverse(dep: Case, s: int) returns (menace: bool)
      requires Valid() && dep in jeu.plateau.Cells && (s == 1 || s == -1) && 0 <= dep.posY + 2 * s < 8
      modifies Strategies()`caseAPrendreEnPassant
      ensures Valid()
      ensures menace == (Attaque(jeu.plateau.Contents, jeu.joueurCourant.couleur, Pos(dep.posX, dep.posY + s), Dernier())
                         || Attaque(jeu.plateau.Contents, jeu.joueurCourant.couleur, Pos(dep.posX, dep.posY + 2 * s), Dernier()))
    {
      var c1 := jeu.plateau.GetCase(dep.posX, dep.posY + s);
      var c2 := jeu.plateau.GetCase(dep.posX, dep.posY + 2 * s);
      menace := CaseMenacee(c1, jeu.joueurCourant);
      if !menace {
        menace := CaseMenacee(c2, jeu.joueurCourant);
      }
    }

    /**
     * jouerPartie's castling step for a Roi: moved two columns to the right
     * or to the left along its row, it is refused when the crossed or the
     * landing square is reachable by the other side, and otherwise the rook
     * goes from column 7 to 5 or from column 0 to 3. Any other move of the
     * Roi sets no rook squares.
     */
    method Roquer(dep: Case, arr: Case) returns (menace: bool, tD: Case?, tA: Case?)
      requires Valid() && dep in jeu.plateau.Cells && arr in jeu.plateau.Cells && Case8(dep.Position())
      requires Admis(jeu.plateau.Contents, jeu.joueurCourant.couleur, dep.Position(), arr.Position(), Dernier())
      requires At(jeu.plateau.Contents, dep.Position()).value.kind == Roi
      modifies Strategies()`caseAPrendreEnPassant
      ensures Valid()
      ensures menace == RoqueTraverseMenace(jeu.plateau.Contents, jeu.joueurCourant.couleur, dep.Position(), arr.Position(), Dernier())
      ensures !menace ==> RoqueCases(tD, tA) == RoqueDe(Roi, dep.Position(), arr.Position()) && (tD == null <==> tA == null)
      ensures !menace && tD != null && tA != null ==> tD in jeu.plateau.Cells && tA in jeu.plateau.Cells && tA.piece == null
    {
      var dx := arr.posX - dep.posX;
      var dy := arr.posY - dep.posY;
      menace, tD, tA := false, null, null;
      if dx == 0 && dy == 2 {
        menace, tD, tA := RoquerVers(dep, arr, 1, 7, 5);
      } else if dx == 0 && dy == -2 {
        menace, tD, tA := RoquerVers(dep, arr, -1, 0, 3);
      }
    }

    /**
     * One side of the castling step: the king crossing column y + s to land
     * on y + 2s; when neither square is threatened, the rook's squares are
     * columns yT and yA of the king's row.
     */
    method RoquerVers(dep: Case, arr: Case, s: int, yT: int, yA: int) returns (menace: bool, tD: Case?, tA: Case?)
      requires Valid() && dep in jeu.plateau.Cells && arr in jeu.plateau.Cells && Case8(dep.Position())
      requires Admis(jeu.plateau.Contents, jeu.joueurCourant.couleur, dep.Position(), arr.Position(), Dernier())
      requires At(jeu.plateau.Contents, dep.Position()).value.kind == Roi
      requires arr.posX == dep.posX && arr.posY == dep.posY + 2 * s
      requires (s == 1 && yT == 7 && yA == 5) || (s == -1 && yT == 0 && yA == 3)
      modifies Strategies()`caseAPrendreEnPassant
      ensures Valid()
      ensures menace == RoqueTraverseMenace(jeu.plateau.Contents, jeu.joueurCourant.couleur, dep.Position(), arr.Position(), Dernier())
      ensures !menace ==> tD != null && tA != null && tD.Position() == Pos(dep.posX, yT) && tA.Position() == Pos(dep.posX, yA)
      ensures !menace ==> tD in jeu.plateau.Cells && tA in jeu.plateau.Cells && tA.piece == null
    {
      var pl := jeu.plateau;
      ghost var g := pl.Contents;
      ghost var last := Dernier();
      Defini8(g, dep.Position(), last);
      RoqueColonne4(g, dep.Position(), arr.Position(), last);
      menace := Traverse(dep, s);
      tD, tA := null, null;
      if !menace {
        tD := pl.GetCase(dep.posX, yT);
        tA := pl.GetCase(dep.posX, yA);
        pl.Voir(tA);
      }
    }

    /**
     * All of jouerPartie's checks on the move from dep to arr, in its order,
     * the trial move last; for a move that passes, what the real move
     * needs: the piece, its en-passant square and the rook's squares.
     */
    method Valider(dep: Case, arr: Case) returns (refus: Option<Refus>, piece: Piece?, ep: Case?, tD: Case?, tA: Case?)
      requires Valid() && dep in jeu.plateau.Cells && arr in jeu.plateau.Cells
      modifies jeu.plateau.Cells`piece, jeu.plateau.Pieces`c, jeu.plateau`Contents, Strategies()`caseAPrendreEnPassant
      ensures Valid() && jeu.plateau.Contents == old(jeu.plateau.Contents) && Case8(dep.Position()) && Case8(arr.Position())
      ensures refus == Verdict(jeu.plateau.Contents, jeu.joueurCourant.couleur, dep.Position(), arr.Position(), Dernier())
      ensures refus.None? ==> piece != null && dep.piece == piece && Coins(jeu.plateau, dep, arr, ep, tD, tA) && (tA != null ==> tA.piece == null)
      ensures refus.None? ==>
        (Defini8(jeu.plateau.Contents, dep.Position(), Dernier());
         PositionDe(ep) == EnPassantDe(jeu.plateau.Contents, dep.Position(), Dernier())
         && RoqueCases(tD, tA) == RoqueDe(At(jeu.plateau.Contents, dep.Position()).value.kind, dep.Position(), arr.Position()))
    {
      ep, tD, tA := null, null, null;
      refus, piece := Admettre(dep, arr);
      if refus.Some? {
        return;
      }
      refus, ep, tD, tA := Confirmer(dep, arr, piece);
    }

    /**
     * The checks after the first three: the castling step, then the trial
     * move with the en-passant square the pawn's strategy recorded.
     */
    method Confirmer(dep: Case, arr: Case, piece: Piece) returns (refus: Option<Refus>, ep: Case?, tD: Case?, tA: Case?)
      requires Valid() && dep in jeu.plateau.Cells && arr in jeu.plateau.Cells && Case8(dep.Position()) && Case8(arr.Position())
      requires Admis(jeu.plateau.Contents, jeu.joueurCourant.couleur, dep.Position(), arr.Position(), Dernier())
      requires piece == dep.piece && piece.c == dep && Vue(piece) == At(jeu.plateau.Contents, dep.Position())
      requires piece.kind == Pion ==>
        (Defini8(jeu.plateau.Contents, dep.Position(), Dernier());
         piece.dCA.caseAPrendreEnPassant == jeu.plateau.CaseOpt(EnPassantDe(jeu.plateau.Contents, dep.Position(), Dernier())))
      modifies jeu.plateau.Cells`piece, jeu.plateau.Pieces`c, jeu.plateau`Contents, Strategies()`caseAPrendreEnPassant
      ensures Valid() && jeu.plateau.Contents == old(jeu.plateau.Contents) && dep.piece == piece
      ensures refus == Verdict(jeu.plateau.Contents, jeu.joueurCourant.couleur, dep.Position(), arr.Position(), Dernier())
      ensures refus.None? ==> Coins(jeu.plateau, dep, arr, ep, tD, tA) && (tA != null ==> tA.piece == null)
      ensures refus.None? ==>
        (Defini8(jeu.plateau.Contents, dep.Position(), Dernier());
         PositionDe(ep) == EnPassantDe(jeu.plateau.Contents, dep.Position(), Dernier())
         && RoqueCases(tD, tA) == RoqueDe(At(jeu.plateau.Contents, dep.Position()).value.kind, dep.Position(), arr.Position()))
    {
      ghost var g, col, last := jeu.plateau.Contents, jeu.joueurCourant.couleur, Dernier();
      var menace;
      menace, ep, tD, tA := Preparer(dep, arr, piece);
      if menace {
        refus := Some(RoqueMenace);
      } else {
        refus := Juger(dep, arr, piece, ep, tD, tA);
      }
      VerdictAdmis(g, col, dep.Position(), arr.Position(), last);
    }

    /**
     * The castling step for a Roi, then the en-passant square of a Pion as
     * its strategy recorded it; the squares found are the move's squares.
     */
    method Preparer(dep: Case, arr: Case, piece: Piece) returns (menace: bool, ep: Case?, tD: Case?, tA: Case?)
      requires Valid() && dep in jeu.plateau.Cells && arr in jeu.plateau.Cells && Case8(dep.Position()) && Case8(arr.Position())
      requires Admis(jeu.plateau.Contents, jeu.joueurCourant.couleur, dep.Position(), arr.Position(), Dernier())
      requires piece == dep.piece && piece.c == dep && Vue(piece) == At(jeu.plateau.Contents, dep.Position())
      requires piece.kind == Pion ==>
        (Defini8(jeu.plateau.Contents, dep.Position(), Dernier());
         piece.dCA.caseAPrendreEnPassant == jeu.plateau.CaseOpt(EnPassantDe(jeu.plateau.Contents, dep.Position(), Dernier())))
      modifies Strategies()`caseAPrendreEnPassant
      ensures Valid()
      ensures menace == RoqueTraverseMenace(jeu.plateau.Contents, jeu.joueurCourant.couleur, dep.Position(), arr.Position(), Dernier())
      ensures !menace ==> Coins(jeu.plateau, dep, arr, ep, tD, tA) && (tA != null ==> tA.piece == null)
      ensures !menace ==>
        (Defini8(jeu.plateau.Contents, dep.Position(), Dernier());
         PositionDe(ep) == EnPassantDe(jeu.plateau.Contents, dep.Position(), Dernier())
         && RoqueCases(tD, tA) == RoqueDe(At(jeu.plateau.Contents, dep.Position()).value.kind, dep.Position(), arr.Position()))
    {
      ghost var g := jeu.plateau.Contents;
      ghost var last := Dernier();
      Defini8(g, dep.Position(), last);
      CoupDistinct(g, dep.Position(), arr.Position(), last);
      menace, ep, tD, tA := false, null, null, null;
      if piece.kind == Roi {
        menace, tD, tA := Roquer(dep, arr);
      }
      if piece.kind == Pion {
        ep := piece.dCA.caseAPrendreEnPassant;
      }
    }

    /** The last check: the trial move must not leave the player's Roi in check. */
    method Juger(dep: Case, arr: Case, piece: Piece, ep: Case?, tD: Case?, tA: Case?) returns (refus: Option<Refus>)
      requires Valid() && Coins(jeu.plateau, dep, arr, ep, tD, tA) && dep.piece == piece
      requires tA != null ==> tA.piece == null
      requires Case8(dep.Position()) && Case8(arr.Position()) && Occupied(jeu.plateau.Contents, dep.Position())
      requires (Defini8(jeu.plateau.Contents, dep.Position(), Dernier());
                PositionDe(ep) == EnPassantDe(jeu.plateau.Contents, dep.Position(), Dernier())
                && RoqueCases(tD, tA) == RoqueDe(At(jeu.plateau.Contents, dep.Position()).value.kind, dep.Position(), arr.Position()))
      modifies jeu.plateau.Cells`piece, jeu.plateau.Pieces`c, jeu.plateau`Contents, Strategies()`caseAPrendreEnPassant
      ensures Valid() && jeu.plateau.Contents == old(jeu.plateau.Contents) && dep.piece == piece
      ensures tA != null ==> tA.piece == null
      ensures refus == if EnEchec(Simule(jeu.plateau.Contents, dep.Position(), arr.Position(), Dernier()), jeu.joueurCourant.couleur, Dernier())
                       then Some(RoiEnEchec) else None
    {
      if tA != null {
        jeu.plateau.Voir(tA);
      }
      var illegal := Simuler(dep, arr, piece, ep, tD, tA);
      refus := if illegal then Some(RoiEnEchec) else None;
      if tA != null {
        jeu.plateau.Voir(tA);
      }
    }

    /** The real move on the game's board, which stays an 8 by 8 chess board. */
    method Executer(o: Case, d: Case, piece: Piece, ep: Case?, tD: Case?, tA: Case?) returns (reine: Piece?)
      requires Valid() && Coins(jeu.plateau, o, d, ep, tD, tA) && o.piece == piece
      requires tA != null ==> tA.piece == null
      modifies o`piece, d`piece, Seule(ep)`piece, Seule(tD)`piece, Seule(tA)`piece, piece`c, piece`aDejaBouge,
               TourSur(tD)`c, jeu.plateau`Contents, jeu.plateau`Pieces
      ensures Valid() && jeu.plateau.Pieces == old(jeu.plateau.Pieces) + UnePiece(reine)
      ensures reine != null ==> fresh(reine) && fresh(reine.dCA)
      ensures jeu.plateau.Contents == Applique(old(jeu.plateau.Contents), o.Position(), d.Position(), PositionDe(ep), RoqueCases(tD, tA))
    {
      reine := Appliquer(jeu.plateau, o, d, piece, ep, tD, tA);
    }

    /**
     * The game after a move by j: over when j has no move passing
     * coupEstLegal, won by the other player if j is in check and drawn
     * otherwise; if not over, the other player's turn with the winner as it
     * was.
     */
    ghost predicate Suite(j: Joueur, gagnant0: Joueur?)
      reads this, jeu, jeu.session, jeu.plateau, jeu.plateau.cases, jeu.plateau.Cells, jeu.plateau.Pieces
      requires Valid()
    {
      var fini := !PeutJouer(jeu.plateau.Contents, j.couleur, Dernier());
      && jeu.joueurCourant == (if fini then j else jeu.Adversaire(j))
      && (fini ==> jeu.gagnant == if EnEchec(jeu.plateau.Contents, j.couleur, Dernier()) then jeu.Adversaire(j) else null)
      && (!fini ==> jeu.gagnant == gagnant0)
    }

    /**
     * The end of an accepted move: estTermine, still for the player who
     * moved since the turn has not passed yet, then, if the game goes on,
     * the turn passed to the other player.
     */
    method Clore() returns (fini: bool)
      requires Valid()
      modifies jeu.plateau.Cells`piece, jeu.plateau.Pieces`c, jeu.plateau`Contents, Strategies()`caseAPrendreEnPassant,
               jeu`gagnant, jeu`joueurCourant
      ensures Valid() && jeu.plateau.Contents == old(jeu.plateau.Contents)
      ensures fini == !PeutJouer(jeu.plateau.Contents, old(jeu.joueurCourant).couleur, Dernier())
      ensures Suite(old(jeu.joueurCourant), old(jeu.gagnant))
    {
      fini := EstTermine();
      if !fini {
        jeu.Alterner();
      }
    }

    /**
     * jouerPartie on a move whose two squares are given: the move is played
     * exactly when it passes every check, and a refused move changes
     * nothing the game shows.
     */
    method Jouer(dep: Case, arr: Case) returns (joue: bool)
      requires Valid() && dep in jeu.plateau.Cells && arr in jeu.plateau.Cells
      modifies jeu.plateau.Cells`piece, jeu.plateau.Pieces`c, jeu.plateau.Pieces`aDejaBouge, jeu.plateau`Contents, jeu.plateau`Pieces,
               Strategies()`caseAPrendreEnPassant, jeu`gagnant, jeu`joueurCourant
      ensures Valid() && Case8(dep.Position()) && Case8(arr.Position())
      ensures joue <==> Verdict(old(jeu.plateau.Contents), old(jeu.joueurCourant).couleur, dep.Position(), arr.Position(), Dernier()).None?
      ensures !joue ==> jeu.plateau.Contents == old(jeu.plateau.Contents) && jeu.joueurCourant == old(jeu.joueurCourant)
                        && jeu.gagnant == old(jeu.gagnant)
      ensures joue ==> jeu.plateau.Contents == Joue(old(jeu.plateau.Contents), dep.Position(), arr.Position(), Dernier())
      ensures joue ==> Suite(old(jeu.joueurCourant), old(jeu.gagnant))
    {
      var refus, piece, ep, tD, tA := Valider(dep, arr);
      if refus.Some? {
        return false;
      }
      Accomplir(dep, arr, piece, ep, tD, tA);
      joue := true;
    }

    /** An accepted move: played on the board, then the end of the game decided and the turn passed. */
    method Accomplir(o: Case, d: Case, piece: Piece, ep: Case?, tD: Case?, tA: Case?)
      requires Valid() && Coins(jeu.plateau, o, d, ep, tD, tA) && o.piece == piece
      requires tA != null ==> tA.piece == null
      modifies jeu.plateau.Cells`piece, jeu.plateau.Pieces`c, jeu.plateau.Pieces`aDejaBouge, jeu.plateau`Contents, jeu.plateau`Pieces,
               Strategies()`caseAPrendreEnPassant, jeu`gagnant, jeu`joueurCourant
      ensures Valid()
      ensures jeu.plateau.Contents == Applique(old(jeu.plateau.Contents), o.Position(), d.Position(), PositionDe(ep), RoqueCases(tD, tA))
      ensures Suite(old(jeu.joueurCourant), old(jeu.gagnant))
    {
      var reine := Executer(o, d, piece, ep, tD, tA);
      var fini := Clore();
    }

    /** The squares a move names, where it names them, are squares of this game's board. */
    ghost predicate SurPlateau(coup: Coup)
    {
      (coup.depart != null ==> coup.depart in jeu.plateau.Cells) && (coup.arrivee != null ==> coup.arrivee in jeu.plateau.Cells)
    }

    /**
     * jouerPartie: no move, or a move lacking a square, is refused; any
     * other move is played exactly when it passes every check. A refused
     * move leaves the board, the turn and the winner as they were; a played
     * one leaves the board Joue describes, and the game as Suite says for
     * the player who moved.
     */
    method JouerPartie(premierCoup: Option<Coup>) returns (joue: bool)
      requires Valid() && (premierCoup.Some? ==> SurPlateau(premierCoup.value))
      modifies jeu.plateau.Cells`piece, jeu.plateau.Pieces`c, jeu.plateau.Pieces`aDejaBouge, jeu.plateau`Contents, jeu.plateau`Pieces,
               Strategies()`caseAPrendreEnPassant, jeu`gagnant, jeu`joueurCourant
      ensures Valid() && (premierCoup.Some? ==> Sur8(premierCoup.value))
      ensures joue <==> (premierCoup.Some? &&
                         VerdictCoup(old(jeu.plateau.Contents), old(jeu.joueurCourant).couleur, PositionDe(premierCoup.value.depart),
                                     PositionDe(premierCoup.value.arrivee), Dernier()).None?)
      ensures !joue ==> jeu.plateau.Contents == old(jeu.plateau.Contents) && jeu.joueurCourant == old(jeu.joueurCourant)
                        && jeu.gagnant == old(jeu.gagnant)
      ensures joue ==> premierCoup.Some? && premierCoup.value.depart != null && premierCoup.value.arrivee != null
      ensures joue ==> jeu.plateau.Contents == Joue(old(jeu.plateau.Contents), premierCoup.value.depart.Position(),
                                                    premierCoup.value.arrivee.Position(), Dernier())
      ensures joue ==> Suite(old(jeu.joueurCourant), old(jeu.gagnant))
    {
      if premierCoup.None? {
        return false;
      }
      var caseDepart := premierCoup.value.depart;
      var caseArrivee := premierCoup.value.arrivee;
      if caseDepart == null || caseArrivee == null {
        return false;
      }
      joue := Jouer(caseDepart, caseArrivee);
    }
  }
}
