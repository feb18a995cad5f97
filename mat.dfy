// The game JeuEchecTest plays from the starting position: f2-f3, e7-e5,
// g2-g4, d8-h4. Each move passes jouerPartie's checks, the side that moved
// can still play after each of them, so the turn passes, and after the fourth the
// white king is in check with no move that coupEstLegal accepts: estTermine
// ends the game and names the black player the winner. The history of
// moves the pawns read is never appended to, so the previous move is None
// throughout.
module MatDuLion {
  import opened Lang
  import opened Grille
  import opened Mouvements
  import opened Partie
  import opened Echecs

  // ---------------------------------------------------------------- where a piece can go

  /**
   * The squares a piece of kind k and colour col on c can be offered, by
   * geometry alone: a king's step or castling jump, a line, a diagonal, a
   * knight's jump, a pawn's step, double step or diagonal.
   */
  predicate Portee(k: Kind, col: string, c: Pos, q: Pos)
  {
    var dx := q.x - c.x;
    var dy := q.y - c.y;
    match k
    case Roi => (Abs(dx) <= 1 && Abs(dy) <= 1) || (dx == 0 && Abs(dy) == 2)
    case Reine => dx == 0 || dy == 0 || Abs(dx) == Abs(dy)
    case Tour => dx == 0 || dy == 0
    case Fou => Abs(dx) == Abs(dy)
    case Cavalier => (Abs(dx) == 1 && Abs(dy) == 2) || (Abs(dx) == 2 && Abs(dy) == 1)
    case Pion => (dx == Direction(col) && Abs(dy) <= 1) || (dx == 2 * Direction(col) && dy == 0)
    case PionPuissance4 => false
    case PionTicTacToe => false
  }

  /** Every square getCA offers is within the piece's reach and holds no piece of its colour. */
  lemma CAPortee(g: Grid, c: Pos, last: Option<Trajet>, q: Pos)
    requires PieceCADefini(g, c, last) && q in CAde(g, c, last)
    ensures InBounds(g, q) && Atteignable(g, q, At(g, c).value.couleur)
    ensures Portee(At(g, c).value.kind, At(g, c).value.couleur, c, q)
  {
    var p := At(g, c).value;
    var s := StrategieDe(p.kind);
    if p.kind == Reine {
      ReineCAForme(g, c, last);
      if q in MesCA(DecDiag, g, c, last) {
        DiagCAForme(g, c, last);
      } else {
        LigneCAForme(g, c, last);
      }
    } else {
      assert q in MesCA(s.own, g, c, last);
      MesCAPortee(s.own, g, c, last, q);
    }
  }

  /** The same, strategy by strategy, for the pieces other than the queen. */
  lemma MesCAPortee(k: DecKind, g: Grid, c: Pos, last: Option<Trajet>, q: Pos)
    requires MesCADefini(k, g, c, last) && q in MesCA(k, g, c, last)
    requires StrategieDe(At(g, c).value.kind) == Strategie(k, None)
    ensures InBounds(g, q) && Atteignable(g, q, At(g, c).value.couleur)
    ensures Portee(At(g, c).value.kind, At(g, c).value.couleur, c, q)
  {
    match k
    case DecLigne => LigneCAForme(g, c, last);
    case DecDiag => DiagCAForme(g, c, last);
    case DecCava => CavaCAExact(g, c, last, q);
    case DecRoi =>
      var col := At(g, c).value.couleur;
      if q in Sauts(g, c, col, ROI_PAS) {
        RoiPasExact(g, c, col, q);
      }
    case DecPion => PionPortee(g, c, last, q);
  }

  /** A pawn's squares: one or two rows ahead in its column, or one row ahead in a neighbouring column. */
  lemma PionPortee(g: Grid, c: Pos, last: Option<Trajet>, q: Pos)
    requires PionDefini(g, c) && DernierCoupSurPlateau(g, last) && q in PionCA(g, c, last).cases
    ensures var col := At(g, c).value.couleur;
      var d := Direction(col);
      (q.x == c.x + d && Abs(q.y - c.y) <= 1) || (q.x == c.x + 2 * d && q.y == c.y)
  {
    var col := At(g, c).value.couleur;
    var d := Direction(col);
    var avance := PionAvance(g, c, col);
    assert forall r :: r in avance ==> r.x == c.x + d || r.x == c.x + 2 * d;
    PionCAForme(g, c, last);
  }

  // ---------------------------------------------------------------- the boards of the game

  const F2 := Pos(6, 5)
  const F3 := Pos(5, 5)
  const E7 := Pos(1, 4)
  const E5 := Pos(3, 4)
  const G2 := Pos(6, 6)
  const G4 := Pos(4, 6)
  const D8 := Pos(0, 3)
  const H4 := Pos(4, 7)
  const E1 := Pos(7, 4)
  const E8 := Pos(0, 4)
  const G3 := Pos(5, 6)
  const H1 := Pos(7, 7)
  const H2 := Pos(6, 7)

  const PION_BLANC: Option<PieceVal> := Some(PieceVal(Pion, "Blanc", false))
  const PION_NOIR: Option<PieceVal> := Some(PieceVal(Pion, "Noir", false))
  const REINE_NOIRE: Option<PieceVal> := Some(PieceVal(Reine, "Noir", false))

  /** The square each side's king starts on. */
  function Camp(col: Couleur): Pos
  {
    if col == BLANC then E1 else E8
  }

  /** The kings stand on their starting squares and nowhere else holds a king. */
  ghost predicate RoisDeDepart(g: Grid)
  {
    Echiquier(g) && At(g, E1) == At(Depart(), E1) && At(g, E8) == At(Depart(), E8) &&
    forall r :: Case8(r) && Occupied(g, r) && At(g, r).value.kind == Roi ==> r == E1 || r == E8
  }

  /** Moving a piece other than a king to a square other than the kings' keeps them where they are. */
  lemma DeplaceRois(g: Grid, dep: Pos, arr: Pos)
    requires RoisDeDepart(g) && Case8(dep) && Case8(arr) && Occupied(g, dep)
    requires At(g, dep).value.kind != Roi && arr != E1 && arr != E8
    ensures RoisDeDepart(Deplace(g, dep, arr))
  {
    DepartAt(E1);
    DepartAt(E8);
  }

  /** On such a board each side's only king is on its starting square. */
  lemma RoiSeul(g: Grid, col: Couleur)
    requires RoisDeDepart(g)
    ensures RoiDuCamp(g, Camp(col), col)
    ensures forall r :: Case8(r) && RoiDuCamp(g, r, col) ==> r == Camp(col)
  {
    EqualsIgnoreCaseNoms();
    DepartRois();
    DepartAt(E1);
    DepartAt(E8);
  }

  /**
   * The board h after some plain displacements from the start: the squares
   * in vides were left empty, the squares in moved hold the pieces that
   * arrived there, and every other square holds what it held at the start.
   */
  ghost predicate Depuis(h: Grid, moved: set<Pos>, vides: set<Pos>)
  {
    Echiquier(h) && forall p :: Case8(p) && p !in moved ==> At(h, p) == if p in vides then None else At(Depart(), p)
  }

  /** A displacement from a square not yet moved to one not yet vacated. */
  lemma DeplaceDepuis(g: Grid, dep: Pos, arr: Pos, moved: set<Pos>, vides: set<Pos>)
    requires Depuis(g, moved, vides) && Case8(dep) && Case8(arr) && dep != arr
    requires dep !in moved && arr !in vides
    ensures Depuis(Deplace(g, dep, arr), moved + {arr}, vides + {dep})
  {
  }

  /** The starting position, and the boards after one, two, three and four of the game's moves. */
  ghost predicate Apres0(h: Grid)
  {
    RoisDeDepart(h) && Depuis(h, {}, {})
  }

  ghost predicate Apres1(h: Grid)
  {
    RoisDeDepart(h) && Depuis(h, {F3}, {F2}) && At(h, F3) == PION_BLANC
  }

  ghost predicate Apres2(h: Grid)
  {
    RoisDeDepart(h) && Depuis(h, {F3, E5}, {F2, E7}) && At(h, F3) == PION_BLANC && At(h, E5) == PION_NOIR
  }

  ghost predicate Apres3(h: Grid)
  {
    RoisDeDepart(h) && Depuis(h, {F3, E5, G4}, {F2, E7, G2})
    && At(h, F3) == PION_BLANC && At(h, E5) == PION_NOIR && At(h, G4) == PION_BLANC
  }

  ghost predicate Apres4(h: Grid)
  {
    RoisDeDepart(h) && Depuis(h, {F3, E5, G4, H4}, {F2, E7, G2, D8})
    && At(h, F3) == PION_BLANC && At(h, E5) == PION_NOIR && At(h, G4) == PION_BLANC && At(h, H4) == REINE_NOIRE
  }

  /** initialiserPieces' board is the starting position. */
  lemma DepartApres0()
    ensures Apres0(Depart())
  {
    DepartRois();
    DepartAt(E1);
    DepartAt(E8);
  }

  /** Each move takes the board described before it to the board described after it. */
  lemma Apres1De(g: Grid)
    requires Apres0(g)
    ensures Apres1(Deplace(g, F2, F3))
  {
    DepartAt(F2);
    DeplaceRois(g, F2, F3);
    DeplaceDepuis(g, F2, F3, {}, {});
    assert {} + {F3} == {F3} && {} + {F2} == {F2};
  }

  lemma Apres2De(g: Grid)
    requires Apres1(g)
    ensures Apres2(Deplace(g, E7, E5))
  {
    DepartAt(E7);
    DeplaceRois(g, E7, E5);
    DeplaceDepuis(g, E7, E5, {F3}, {F2});
    assert {F3} + {E5} == {F3, E5} && {F2} + {E7} == {F2, E7};
  }

  lemma Apres3De(g: Grid)
    requires Apres2(g)
    ensures Apres3(Deplace(g, G2, G4))
  {
    DepartAt(G2);
    DeplaceRois(g, G2, G4);
    DeplaceDepuis(g, G2, G4, {F3, E5}, {F2, E7});
    assert {F3, E5} + {G4} == {F3, E5, G4} && {F2, E7} + {G2} == {F2, E7, G2};
  }

  lemma Apres4De(g: Grid)
    requires Apres3(g)
    ensures Apres4(Deplace(g, D8, H4))
  {
    DepartAt(D8);
    DeplaceRois(g, D8, H4);
    DeplaceDepuis(g, D8, H4, {F3, E5, G4}, {F2, E7, G2});
    assert {F3, E5, G4} + {H4} == {F3, E5, G4, H4} && {F2, E7, G2} + {D8} == {F2, E7, G2, D8};
  }

  /**
   * A move of a piece other than a king or a rook that promotes nothing,
   * with no previous move recorded: the trial move and the real move are
   * the plain displacement.
   */
  lemma JoueSimple(g: Grid, dep: Pos, arr: Pos)
    requires Echiquier8(g, None) && Case8(dep) && Case8(arr) && Occupied(g, dep)
    requires At(g, dep).value.kind != Roi && At(g, dep).value.kind != Tour
    requires !(At(g, dep).value.kind == Pion && (arr.x == 0 || arr.x == 7))
    ensures Simule(g, dep, arr, None) == Deplace(g, dep, arr)
    ensures Joue(g, dep, arr, None) == Deplace(g, dep, arr)
  {
    Defini8(g, dep, None);
    assert EnPassantDe(g, dep, None).None?;
  }

  // ---------------------------------------------------------------- not in check

  /**
   * The player's only king stands on K and no piece of the other side has
   * K within its reach: the player is not in check.
   */
  lemma SansEchec(h: Grid, col: Couleur, K: Pos)
    requires Echiquier(h) && Case8(K) && RoiDuCamp(h, K, col)
    requires forall r :: Case8(r) && RoiDuCamp(h, r, col) ==> r == K
    requires forall p :: Case8(p) && Occupied(h, p) && !EqualsIgnoreCase(At(h, p).value.couleur, col.Name()) ==>
      !Portee(At(h, p).value.kind, At(h, p).value.couleur, p, K)
    ensures !EnEchec(h, col, None)
  {
    RoiTrouveExact(h, col, 8);
    if Attaque(h, col, K, None) {
      var p :| Attaquant(h, col, p, K, None);
      Defini8(h, p, None);
      CAPortee(h, p, None, K);
    }
  }

  /** From its starting square no black piece reaches e1, and no white piece reaches e8. */
  lemma DepartLoin(p: Pos, K: Pos)
    requires Case8(p) && ((p.x <= 1 && K == E1) || (p.x >= 6 && K == E8))
    ensures Occupied(Depart(), p)
    ensures !Portee(At(Depart(), p).value.kind, At(Depart(), p).value.couleur, p, K)
  {
    DepartAt(p);
  }

  /**
   * The player's king on its starting square is not in check when every
   * other piece is on its starting square, or on a moved square from which
   * it does not reach that king.
   */
  lemma SansEchecDepuis(h: Grid, col: Couleur, moved: set<Pos>, vides: set<Pos>)
    requires RoisDeDepart(h) && Depuis(h, moved, vides)
    requires forall m :: m in moved && Case8(m) && Occupied(h, m) && !EqualsIgnoreCase(At(h, m).value.couleur, col.Name()) ==>
      !Portee(At(h, m).value.kind, At(h, m).value.couleur, m, Camp(col))
    ensures !EnEchec(h, col, None)
  {
    EqualsIgnoreCaseNoms();
    RoiSeul(h, col);
    forall p | Case8(p) && Occupied(h, p) && !EqualsIgnoreCase(At(h, p).value.couleur, col.Name())
      ensures !Portee(At(h, p).value.kind, At(h, p).value.couleur, p, Camp(col))
    {
      if p !in moved {
        DepartAt(p);
        if col == BLANC {
          DepartLoin(p, E1);
        } else {
          DepartLoin(p, E8);
        }
      }
    }
    SansEchec(h, col, Camp(col));
  }

  /** After f2-f3 no black piece reaches e1. */
  lemma SansEchec1(h: Grid)
    requires Apres1(h)
    ensures !EnEchec(h, BLANC, None)
  {
    EqualsIgnoreCaseNoms();
    SansEchecDepuis(h, BLANC, {F3}, {F2});
  }

  /** After e7-e5 the pawn on f3 is the only moved white piece, and it does not reach e8. */
  lemma SansEchec2(h: Grid)
    requires Apres2(h)
    ensures !EnEchec(h, NOIR, None)
  {
    EqualsIgnoreCaseNoms();
    SansEchecDepuis(h, NOIR, {F3, E5}, {F2, E7});
  }

  /** After g2-g4 the pawn on e5 is the only moved black piece, and it does not reach e1. */
  lemma SansEchec3(h: Grid)
    requires Apres3(h)
    ensures !EnEchec(h, BLANC, None)
  {
    EqualsIgnoreCaseNoms();
    SansEchecDepuis(h, BLANC, {F3, E5, G4}, {F2, E7, G2});
  }

  /** After d8-h4 the white pawns on f3 and g4 are the only moved white pieces, and neither reaches e8. */
  lemma SansEchec4(h: Grid)
    requires Apres4(h)
    ensures !EnEchec(h, NOIR, None)
  {
    EqualsIgnoreCaseNoms();
    SansEchecDepuis(h, NOIR, {F3, E5, G4, H4}, {F2, E7, G2, D8});
  }

  // ---------------------------------------------------------------- the four moves

  /**
   * A move jouerPartie plays: a piece of the player's colour other than a
   * king or a rook, a destination its getCA offers, no promotion, and no
   * check on the board it leaves. The player then has a legal move, and the
   * board after it is the plain displacement.
   */
  lemma CoupAccepte(g: Grid, col: Couleur, dep: Pos, arr: Pos)
    requires Echiquier8(g, None) && Case8(dep) && Case8(arr) && Occupied(g, dep)
    requires EqualsIgnoreCase(At(g, dep).value.couleur, col.Name())
    requires At(g, dep).value.kind != Roi && At(g, dep).value.kind != Tour
    requires !(At(g, dep).value.kind == Pion && (arr.x == 0 || arr.x == 7))
    requires (Defini8(g, dep, None); arr in CAde(g, dep, None))
    requires !EnEchec(Deplace(g, dep, arr), col, None)
    ensures Verdict(g, col, dep, arr, None).None?
    ensures Joue(g, dep, arr, None) == Deplace(g, dep, arr)
    ensures PeutJouer(g, col, None)
  {
    JoueSimple(g, dep, arr);
    assert CoupLegal(g, col, dep, arr, None);
    assert CaseJouable(g, col, dep, None);
  }

  /** A pawn's step, or its double step from its start row, onto empty squares is offered. */
  lemma PionPasse(g: Grid, c: Pos, q: Pos)
    requires Echiquier(g) && Case8(c) && Occupied(g, c) && At(g, c).value.kind == Pion
    requires var col := At(g, c).value.couleur;
      var d := Direction(col);
      Empty(g, Pos(c.x + d, c.y)) &&
      (q == Pos(c.x + d, c.y) || (q == Pos(c.x + 2 * d, c.y) && c.x == LigneDepart(col) && Empty(g, q)))
    ensures (Defini8(g, c, None); q in CAde(g, c, None))
  {
    Defini8(g, c, None);
    PionAvanceExact(g, c, None);
  }

  /** A walk reaches the square k steps away when the squares before it are empty and that square can be taken. */
  lemma {:induction false} RayonJusque(g: Grid, c: Pos, col: string, dx: int, dy: int, i: nat, k: nat)
    requires 1 <= i <= k < 8
    requires forall j :: i <= j < k ==> Empty(g, Pas(c, dx, dy, j))
    requires InBounds(g, Pas(c, dx, dy, k)) && Atteignable(g, Pas(c, dx, dy, k), col)
    ensures Pas(c, dx, dy, k) in Rayon(g, c, col, dx, dy, i)
    decreases k - i
  {
    if i < k {
      RayonJusque(g, c, col, dx, dy, i + 1, k);
    }
  }

  /** The last diagonal direction scanned, and the one before it, contribute their whole walks. */
  lemma DiagDernieres(g: Grid, c: Pos, col: string)
    ensures forall q :: q in Rayon(g, c, col, 1, 1, 1) ==> q in Rayons(g, c, col, DIAG_DIRS)
    ensures forall q :: q in Rayon(g, c, col, 1, -1, 1) ==> q in Rayons(g, c, col, DIAG_DIRS)
  {
    assert DIAG_DIRS[..3][..2] == DIAG_DIRS[..2];
    assert Rayons(g, c, col, DIAG_DIRS[..3]) == Rayons(g, c, col, DIAG_DIRS[..2]) + Rayon(g, c, col, 1, 1, 1);
  }

  /** The walk from d8 towards h4 passes e7, f6 and g5 when they are empty. */
  lemma DiagD8H4(g: Grid)
    requires Echiquier(g) && Empty(g, E7) && Empty(g, Pos(2, 5)) && Empty(g, Pos(3, 6)) && Empty(g, H4)
    ensures H4 in Rayon(g, D8, "Noir", 1, 1, 1)
  {
    PasUnitaire(D8, 1, 1, 1);
    PasUnitaire(D8, 1, 1, 2);
    PasUnitaire(D8, 1, 1, 3);
    PasUnitaire(D8, 1, 1, 4);
    RayonJusque(g, D8, "Noir", 1, 1, 1, 4);
  }

  /** A square on one of a queen's diagonal walks is among the squares its getCA offers. */
  lemma DiagReine(g: Grid, c: Pos, last: Option<Trajet>, q: Pos)
    requires Occupied(g, c) && At(g, c).value.kind == Reine && q in MesCA(DecDiag, g, c, last)
    ensures PieceCADefini(g, c, last) && q in CAde(g, c, last)
  {
    ReineCAForme(g, c, last);
  }

  /** The black queen on d8 goes down the diagonal e7, f6, g5 to h4 when those squares are empty. */
  lemma ReineD8H4(g: Grid)
    requires Echiquier(g) && At(g, D8) == REINE_NOIRE
    requires Empty(g, E7) && Empty(g, Pos(2, 5)) && Empty(g, Pos(3, 6)) && Empty(g, H4)
    ensures (Defini8(g, D8, None); H4 in CAde(g, D8, None))
  {
    DiagD8H4(g);
    DiagDernieres(g, D8, "Noir");
    DiagReine(g, D8, None, H4);
  }

  /** f2-f3 from the start: accepted, and white could move. */
  lemma Coup1(g: Grid)
    requires Apres0(g)
    ensures Verdict(g, BLANC, F2, F3, None).None? && PeutJouer(g, BLANC, None)
    ensures Apres1(Joue(g, F2, F3, None))
  {
    EqualsIgnoreCaseNoms();
    DepartAt(F2);
    DepartAt(F3);
    Apres1De(g);
    SansEchec1(Deplace(g, F2, F3));
    PionPasse(g, F2, F3);
    CoupAccepte(g, BLANC, F2, F3);
  }

  /** e7-e5 after f2-f3: accepted, and black could move. */
  lemma Coup2(g: Grid)
    requires Apres1(g)
    ensures Verdict(g, NOIR, E7, E5, None).None? && PeutJouer(g, NOIR, None)
    ensures Apres2(Joue(g, E7, E5, None))
  {
    EqualsIgnoreCaseNoms();
    DepartAt(E7);
    DepartAt(Pos(2, 4));
    DepartAt(E5);
    Apres2De(g);
    SansEchec2(Deplace(g, E7, E5));
    PionPasse(g, E7, E5);
    CoupAccepte(g, NOIR, E7, E5);
  }

  /** g2-g4 after e7-e5: accepted, and white could move. */
  lemma Coup3(g: Grid)
    requires Apres2(g)
    ensures Verdict(g, BLANC, G2, G4, None).None? && PeutJouer(g, BLANC, None)
    ensures Apres3(Joue(g, G2, G4, None))
  {
    EqualsIgnoreCaseNoms();
    DepartAt(G2);
    DepartAt(G3);
    DepartAt(G4);
    Apres3De(g);
    SansEchec3(Deplace(g, G2, G4));
    PionPasse(g, G2, G4);
    CoupAccepte(g, BLANC, G2, G4);
  }

  const A2 := Pos(6, 0)
  const A3 := Pos(5, 0)
  const A7 := Pos(1, 0)
  const A6 := Pos(2, 0)

  /**
   * A pawn of the player still on its starting square, with the square
   * ahead empty, and no piece of the other side moved so far that reaches
   * the player's king: the player has a legal move, that pawn's step.
   */
  lemma PionEncore(g: Grid, col: Couleur, c: Pos, q: Pos, moved: set<Pos>, vides: set<Pos>)
    requires RoisDeDepart(g) && Depuis(g, moved, vides)
    requires Case8(c) && Case8(q) && c !in moved && q !in vides && q != E1 && q != E8
    requires Occupied(g, c) && At(g, c).value.kind == Pion && EqualsIgnoreCase(At(g, c).value.couleur, col.Name())
    requires q == Pos(c.x + Direction(At(g, c).value.couleur), c.y) && Empty(g, q)
    requires forall m :: m in moved && Case8(m) && Occupied(g, m) && !EqualsIgnoreCase(At(g, m).value.couleur, col.Name()) ==>
      !Portee(At(g, m).value.kind, At(g, m).value.couleur, m, Camp(col))
    ensures PeutJouer(g, col, None)
  {
    var h := Deplace(g, c, q);
    PionPasse(g, c, q);
    DeplaceRois(g, c, q);
    DeplaceDepuis(g, c, q, moved, vides);
    forall m | m in moved + {q} && Case8(m) && Occupied(h, m) && !EqualsIgnoreCase(At(h, m).value.couleur, col.Name())
      ensures !Portee(At(h, m).value.kind, At(h, m).value.couleur, m, Camp(col))
    {
      assert m != q && m != c && At(h, m) == At(g, m);
    }
    SansEchecDepuis(h, col, moved + {q}, vides + {c});
    CoupAccepte(g, col, c, q);
  }

  /** After each move of the game, the player who made it could still play: an a-pawn step. */
  lemma Encore1(g: Grid)
    requires Apres1(g)
    ensures PeutJouer(g, BLANC, None)
  {
    EqualsIgnoreCaseNoms();
    DepartAt(A2);
    DepartAt(A3);
    PionEncore(g, BLANC, A2, A3, {F3}, {F2});
  }

  lemma Encore2(g: Grid)
    requires Apres2(g)
    ensures PeutJouer(g, NOIR, None)
  {
    EqualsIgnoreCaseNoms();
    DepartAt(A7);
    DepartAt(A6);
    PionEncore(g, NOIR, A7, A6, {F3, E5}, {F2, E7});
  }

  lemma Encore3(g: Grid)
    requires Apres3(g)
    ensures PeutJouer(g, BLANC, None)
  {
    EqualsIgnoreCaseNoms();
    DepartAt(A2);
    DepartAt(A3);
    PionEncore(g, BLANC, A2, A3, {F3, E5, G4}, {F2, E7, G2});
  }

  lemma Encore4(g: Grid)
    requires Apres4(g)
    ensures PeutJouer(g, NOIR, None)
  {
    EqualsIgnoreCaseNoms();
    DepartAt(A7);
    DepartAt(A6);
    PionEncore(g, NOIR, A7, A6, {F3, E5, G4, H4}, {F2, E7, G2, D8});
  }

  /** After g2-g4 the black queen is still on d8 and its diagonal to h4 is open. */
  lemma DiagonaleOuverte(g: Grid)
    requires Apres3(g)
    ensures At(g, D8) == REINE_NOIRE && Empty(g, E7) && Empty(g, Pos(2, 5)) && Empty(g, Pos(3, 6)) && Empty(g, H4)
  {
    DepartAt(D8);
    DepartAt(Pos(2, 5));
    DepartAt(Pos(3, 6));
    DepartAt(H4);
  }

  /** d8-h4 after g2-g4: accepted, and black could move. */
  lemma Coup4(g: Grid)
    requires Apres3(g)
    ensures Verdict(g, NOIR, D8, H4, None).None? && PeutJouer(g, NOIR, None)
    ensures Apres4(Joue(g, D8, H4, None))
  {
    EqualsIgnoreCaseNoms();
    DiagonaleOuverte(g);
    Apres4De(g);
    SansEchec4(Deplace(g, D8, H4));
    ReineD8H4(g);
    CoupAccepte(g, NOIR, D8, H4);
  }

  // ---------------------------------------------------------------- checkmate

  /** The walk from h4 towards e1 passes g3, and f2 when the king is not there. */
  lemma DiagH4(h: Grid, K: Pos)
    requires Echiquier(h) && Empty(h, G3) && (K == F2 || (K == E1 && Empty(h, F2)))
    requires Occupied(h, K) && At(h, K).value.couleur != "Noir"
    ensures K in Rayon(h, H4, "Noir", 1, -1, 1)
  {
    PasUnitaire(H4, 1, -1, 1);
    PasUnitaire(H4, 1, -1, 2);
    PasUnitaire(H4, 1, -1, 3);
    if K == F2 {
      RayonJusque(h, H4, "Noir", 1, -1, 1, 2);
    } else {
      RayonJusque(h, H4, "Noir", 1, -1, 1, 3);
    }
  }

  /**
   * The black queen on h4 checks the white king on f2, or on e1 behind an
   * empty f2, when g3 is empty and that king is white's only one.
   */
  lemma EchecReine(h: Grid, K: Pos)
    requires Echiquier(h) && At(h, H4) == REINE_NOIRE && Empty(h, G3) && (K == F2 || (K == E1 && Empty(h, F2)))
    requires RoiDuCamp(h, K, BLANC) && forall r :: Case8(r) && RoiDuCamp(h, r, BLANC) ==> r == K
    ensures EnEchec(h, BLANC, None)
  {
    EqualsIgnoreCaseNoms();
    RoiTrouveExact(h, BLANC, 8);
    assert At(h, K).value.couleur != "Noir";
    DiagH4(h, K);
    DiagDernieres(h, H4, "Noir");
    DiagReine(h, H4, None, K);
    assert Attaquant(h, BLANC, H4, K, None);
  }

  /**
   * The walks of a rook boxed in by its own colour, or by the edge, in all
   * four directions are empty.
   */
  lemma {:induction false} RayonsBloques(g: Grid, c: Pos, col: string, dirs: seq<(int, int)>)
    requires forall i :: 0 <= i < |dirs| ==> Bloque(g, c, col, dirs[i].0, dirs[i].1, 1)
    ensures Rayons(g, c, col, dirs) == []
  {
    if |dirs| > 0 {
      RayonsBloques(g, c, col, dirs[..|dirs| - 1]);
      assert Bloque(g, c, col, dirs[|dirs| - 1].0, dirs[|dirs| - 1].1, 1);
    }
  }

  /** The white rook on h1, with the pawn on h2 and the knight on g1 still there, has no square. */
  lemma TourH1(g: Grid)
    requires Echiquier(g) && At(g, H1) == Some(PieceVal(Tour, "Blanc", false))
    requires At(g, H2) == PION_BLANC && At(g, Pos(7, 6)) == Some(PieceVal(Cavalier, "Blanc", false))
    ensures (Defini8(g, H1, None); CAde(g, H1, None) == [])
  {
    forall i | 0 <= i < |LIGNE_DIRS| ensures Bloque(g, H1, "Blanc", LIGNE_DIRS[i].0, LIGNE_DIRS[i].1, 1) {
      PasUnitaire(H1, LIGNE_DIRS[i].0, LIGNE_DIRS[i].1, 1);
    }
    RayonsBloques(g, H1, "Blanc", LIGNE_DIRS);
  }

  /** A pawn with no previous move recorded leaves its column only to capture. */
  lemma PionHorsColonne(g: Grid, c: Pos, q: Pos)
    requires PionDefini(g, c) && q in PionCA(g, c, None).cases && q.y != c.y
    ensures Occupied(g, q)
  {
    var col := At(g, c).value.couleur;
    assert q !in PionAvance(g, c, col);
  }

  /** The squares within a king's reach from e1. */
  lemma VoisinsE1(q: Pos)
    requires Case8(q) && Portee(Roi, "Blanc", E1, q)
    ensures q in {Pos(6, 3), Pos(6, 4), F2, Pos(7, 3), E1, Pos(7, 5), Pos(7, 2), Pos(7, 6)}
  {
  }

  /** The square holds a white piece. */
  predicate Blanche(g: Grid, p: Pos)
  {
    Occupied(g, p) && At(g, p).value.couleur == "Blanc"
  }

  /** The white king on e1 and the white pieces around it, f2 apart. */
  ghost predicate RoiEntoure(g: Grid)
  {
    Echiquier(g) && At(g, E1) == Some(PieceVal(Roi, "Blanc", false))
    && Blanche(g, Pos(6, 3)) && Blanche(g, Pos(6, 4)) && Blanche(g, Pos(7, 3)) && Blanche(g, Pos(7, 5))
    && Blanche(g, Pos(7, 2)) && Blanche(g, Pos(7, 6))
  }

  /** After d8-h4 the king's neighbours other than f2 still hold white pieces. */
  lemma EntoureApres4(g: Grid)
    requires Apres4(g)
    ensures RoiEntoure(g)
  {
    DepartAt(E1);
    DepartAt(Pos(6, 3));
    DepartAt(Pos(6, 4));
    DepartAt(Pos(7, 2));
    RangeeApres4(g);
  }

  /** The bishops, queen and knight of the back row around the king. */
  lemma RangeeApres4(g: Grid)
    requires Apres4(g)
    ensures Blanche(g, Pos(7, 3)) && Blanche(g, Pos(7, 5)) && Blanche(g, Pos(7, 6))
  {
    DepartAt(Pos(7, 3));
    DepartAt(Pos(7, 5));
    DepartAt(Pos(7, 6));
  }

  /** The white king's only square is then f2. */
  lemma MatRoi(g: Grid, q: Pos)
    requires RoiEntoure(g) && (Defini8(g, E1, None); q in CAde(g, E1, None))
    ensures q == F2
  {
    CAPortee(g, E1, None, q);
    VoisinsE1(q);
  }

  /** From its starting square no white piece but the h1 rook and the h2 pawn has f2, g3 or h4 within reach. */
  lemma BlancsLoin(p: Pos, q: Pos)
    requires Case8(p) && 6 <= p.x && p != E1 && p != H1 && p != H2 && p != F2 && p != G2 && (q == F2 || q == G3 || q == H4)
    ensures Occupied(Depart(), p) && !Portee(At(Depart(), p).value.kind, "Blanc", p, q)
  {
    DepartAt(p);
  }

  /** The corner of the board the queen's attack crosses: f2, g2, g3 and h3 empty, h1, h2 and g1 as at the start, the queen on h4. */
  ghost predicate Coin(g: Grid)
  {
    Echiquier(g) && Empty(g, F2) && Empty(g, G2) && Empty(g, G3) && Empty(g, Pos(5, 7)) && At(g, H4) == REINE_NOIRE
    && At(g, H1) == Some(PieceVal(Tour, "Blanc", false)) && At(g, H2) == PION_BLANC
    && At(g, Pos(7, 6)) == Some(PieceVal(Cavalier, "Blanc", false))
  }

  /** After d8-h4 the corner is as described. */
  lemma CoinApres4(g: Grid)
    requires Apres4(g)
    ensures Coin(g)
  {
    DepartAt(G3);
    DepartAt(Pos(5, 7));
    DepartAt(H1);
    DepartAt(H2);
    DepartAt(Pos(7, 6));
  }

  /** The h2 pawn can go to none of f2, g3 and h4: g3 holds nothing to capture and the queen blocks h4. */
  lemma MatH2(g: Grid, q: Pos)
    requires Coin(g) && (Defini8(g, H2, None); q in CAde(g, H2, None))
    ensures q != F2 && q != G3 && q != H4
  {
    CAPortee(g, H2, None, q);
    PionAvanceExact(g, H2, None);
    if q == G3 {
      PionHorsColonne(g, H2, q);
    }
  }

  /** The piece on p stands where it started, or is one of the white pawns moved to f3 and g4. */
  ghost predicate Origine(g: Grid, p: Pos)
    requires Case8(p) && InBounds(g, p)
  {
    At(g, p) == At(Depart(), p) || ((p == F3 || p == G4) && At(g, p) == PION_BLANC)
  }

  /** After d8-h4 every piece of white's colour is white's own: on its starting square, or a moved pawn. */
  lemma PieceBlanche(g: Grid, p: Pos)
    requires Apres4(g) && Case8(p) && DuCamp(g, p, BLANC)
    ensures Blanche(g, p) && Origine(g, p)
  {
    EqualsIgnoreCaseNoms();
    DepartAt(p);
  }

  /**
   * No white piece but the king, the h1 rook and the h2 pawn has f2, g3 or
   * h4 within reach; none of them is a king.
   */
  lemma MatAutre(g: Grid, p: Pos, q: Pos)
    requires Coin(g) && Case8(p) && p != E1 && p != H1 && p != H2 && Blanche(g, p)
    requires Origine(g, p) && (Defini8(g, p, None); q in CAde(g, p, None))
    ensures At(g, p).value.kind != Roi && q != F2 && q != G3 && q != H4
  {
    DepartAt(p);
    CAPortee(g, p, None, q);
    if p != F3 && p != G4 && (q == F2 || q == G3 || q == H4) {
      BlancsLoin(p, q);
    }
  }

  /** The king stepping to f2 walks into the queen's diagonal. */
  lemma MatCoupRoi(g: Grid)
    requires RoiEntoure(g) && Coin(g) && RoisDeDepart(g)
    ensures EnEchec(Deplace(g, E1, F2), BLANC, None)
  {
    RoiSeul(g, BLANC);
    var h := Deplace(g, E1, F2);
    forall r | Case8(r) && RoiDuCamp(h, r, BLANC) ensures r == F2 {
      assert r != E1;
    }
    EchecReine(h, F2);
  }

  /** Any other white move leaves the king on e1, f2 and g3 empty and the queen on h4. */
  lemma MatCoupAutre(g: Grid, p: Pos, q: Pos)
    requires RoiEntoure(g) && Coin(g) && RoisDeDepart(g) && Case8(p) && Case8(q) && Blanche(g, p)
    requires At(g, p).value.kind != Roi && Atteignable(g, q, "Blanc") && q != F2 && q != G3 && q != H4
    ensures EnEchec(Deplace(g, p, q), BLANC, None)
  {
    RoiSeul(g, BLANC);
    var h := Deplace(g, p, q);
    forall r | Case8(r) && RoiDuCamp(h, r, BLANC) ensures r == E1 {
      assert r != q;
    }
    EchecReine(h, E1);
  }

  /** Every move getCA offers a white piece after d8-h4 leaves the white king in check. */
  lemma MatCoup(g: Grid, p: Pos, q: Pos)
    requires RoisDeDepart(g) && RoiEntoure(g) && Coin(g) && Case8(p) && p != H1 && Blanche(g, p) && Origine(g, p)
    requires (Defini8(g, p, None); q in CAde(g, p, None))
    ensures Case8(q) && EnEchec(Deplace(g, p, q), BLANC, None)
  {
    CAPortee(g, p, None, q);
    if p == E1 {
      MatRoi(g, q);
      MatCoupRoi(g);
    } else if p == H2 {
      MatH2(g, q);
      MatCoupAutre(g, p, q);
    } else {
      MatAutre(g, p, q);
      MatCoupAutre(g, p, q);
    }
  }

  /** After d8-h4 a white piece has no move that coupEstLegal accepts. */
  lemma MatCase(g: Grid, p: Pos)
    requires Apres4(g) && RoiEntoure(g) && Coin(g) && Case8(p)
    ensures !CaseJouable(g, BLANC, p, None)
  {
    if DuCamp(g, p, BLANC) {
      PieceBlanche(g, p);
      if p == H1 {
        TourH1(g);
      } else {
        forall q | q in CAde(g, p, None) ensures !CoupLegal(g, BLANC, p, q, None) {
          MatCoup(g, p, q);
        }
      }
    }
  }

  /** After d8-h4 white is in check and has no legal move: checkmate. */
  lemma Mat(g: Grid)
    requires Apres4(g)
    ensures EnEchec(g, BLANC, None) && !PeutJouer(g, BLANC, None)
  {
    CoinApres4(g);
    EntoureApres4(g);
    RoiSeul(g, BLANC);
    EchecReine(g, E1);
    forall p | Case8(p) ensures !CaseJouable(g, BLANC, p, None) {
      MatCase(g, p);
    }
  }

  // ---------------------------------------------------------------- the game

  /**
   * From the starting position, with no previous move: each of f2-f3,
   * e7-e5, g2-g4 and d8-h4 passes jouerPartie's checks for the player whose
   * turn it is. After each, the estTermine that jouerPartie runs before
   * passing the turn, still for the player who moved, finds that player a
   * legal move, so the game goes on with no winner and the turn passes to
   * the other player (JeuEchec.Suite); the next move is therefore judged
   * for the other colour. After the last, white, now to move, is in check
   * with no legal move, so estTermine ends the game and names black the
   * winner.
   */
  lemma MatEnQuatreCoups()
    ensures var g0 := Depart();
      && Verdict(g0, BLANC, F2, F3, None).None? && PeutJouer(g0, BLANC, None)
      && var g1 := Joue(g0, F2, F3, None);
      && PeutJouer(g1, BLANC, None)
      && Verdict(g1, NOIR, E7, E5, None).None? && PeutJouer(g1, NOIR, None)
      && var g2 := Joue(g1, E7, E5, None);
      && PeutJouer(g2, NOIR, None)
      && Verdict(g2, BLANC, G2, G4, None).None? && PeutJouer(g2, BLANC, None)
      && var g3 := Joue(g2, G2, G4, None);
      && PeutJouer(g3, BLANC, None)
      && Verdict(g3, NOIR, D8, H4, None).None? && PeutJouer(g3, NOIR, None)
      && var g4 := Joue(g3, D8, H4, None);
      && PeutJouer(g4, NOIR, None)
      && EnEchec(g4, BLANC, None) && !PeutJouer(g4, BLANC, None)
  {
    var g0 := Depart();
    DepartApres0();
    Coup1(g0);
    var g1 := Joue(g0, F2, F3, None);
    Encore1(g1);
    Coup2(g1);
    var g2 := Joue(g1, E7, E5, None);
    Encore2(g2);
    Coup3(g2);
    var g3 := Joue(g2, G2, G4, None);
    Encore3(g3);
    Coup4(g3);
    var g4 := Joue(g3, D8, H4, None);
    Encore4(g4);
    Mat(g4);
  }
}
