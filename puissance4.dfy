// Connect-four: the drop step, four in a row and the top-row draw, and
// the Swing view's own four-in-a-row detector.
module Puissance4 {
  import opened Lang
  import opened Grille
  import opened Modele
  import opened Partie

  // ================================================================ board values

  /** The directions estTermine tries from each square, in order: horizontal, vertical, descending, ascending. */
  const DIRECTIONS: seq<(int, int)> := [(0, 1), (1, 0), (1, 1), (-1, 1)]

  /** Square q holds a piece whose colour string equals (case-sensitively) that of the piece on p. */
  predicate MemeCouleur(g: Grid, p: Pos, q: Pos)
  {
    Occupied(g, p) && Occupied(g, q) && At(g, q).value.couleur == At(g, p).value.couleur
  }

  /** The four squares from p along d. */
  function Alignement(p: Pos, d: (int, int)): seq<Pos>
  {
    [p, Pos(p.x + d.0, p.y + d.1), Pos(p.x + 2 * d.0, p.y + 2 * d.1), Pos(p.x + 3 * d.0, p.y + 3 * d.1)]
  }

  /** Four pieces of one colour from p along d, all on the board. */
  predicate Quatre(g: Grid, p: Pos, d: (int, int))
  {
    Occupied(g, p)
    && MemeCouleur(g, p, Pos(p.x + d.0, p.y + d.1))
    && MemeCouleur(g, p, Pos(p.x + 2 * d.0, p.y + 2 * d.1))
    && MemeCouleur(g, p, Pos(p.x + 3 * d.0, p.y + 3 * d.1))
  }

  /** Quatre, square by square: the piece on p, then squares 1 to 3 of the run holding its colour. */
  lemma QuatreParCases(g: Grid, p: Pos, d: (int, int))
    ensures Quatre(g, p, d) <==>
      Occupied(g, p) && forall m :: 1 <= m < 4 ==> MemeCouleur(g, p, Alignement(p, d)[m])
  {
    var a := Alignement(p, d);
    if Occupied(g, p) && MemeCouleur(g, p, a[1]) && MemeCouleur(g, p, a[2]) && MemeCouleur(g, p, a[3]) {
      forall m | 1 <= m < 4 ensures MemeCouleur(g, p, a[m]) {
        assert m == 1 || m == 2 || m == 3;
      }
    }
  }

  /** Some square starts four in a row in one of the four directions. */
  ghost predicate Gagne(g: Grid)
  {
    exists p, i :: 0 <= i < 4 && Quatre(g, p, DIRECTIONS[i])
  }

  /** The first direction, from index i on, in which p starts four in a row. */
  function PremiereDirection(g: Grid, p: Pos, i: nat): (r: Option<nat>)
    ensures r.Some? ==> i <= r.value < 4 && Quatre(g, p, DIRECTIONS[r.value])
    decreases 4 - i
  {
    if i >= 4 then None
    else if Quatre(g, p, DIRECTIONS[i]) then Some(i)
    else PremiereDirection(g, p, i + 1)
  }

  /**
   * The run estTermine reports: squares row by row from (x, y), column by
   * column, each square's directions in order; the first that succeeds.
   */
  function Premier(g: Grid, rows: nat, cols: nat, x: nat, y: nat): (r: Option<(Pos, nat)>)
    ensures r.Some? ==> var (p, i) := r.value;
      0 <= p.x < rows && 0 <= p.y < cols && i < 4
    decreases rows - x, cols - y
  {
    if x >= rows then None
    else if y >= cols then Premier(g, rows, cols, x + 1, 0)
    else match PremiereDirection(g, Pos(x, y), 0)
      case Some(i) => Some((Pos(x, y), i))
      case None => Premier(g, rows, cols, x, y + 1)
  }

  /** Square p comes before square q in the row-by-row scan. */
  predicate AvantPos(p: Pos, q: Pos)
  {
    p.x < q.x || (p.x == q.x && p.y < q.y)
  }

  /** No square at or after (x, y) in scan order starts a run. */
  ghost predicate AucunApres(g: Grid, rows: nat, cols: nat, x: nat, y: nat)
  {
    forall p: Pos :: 0 <= p.x < rows && 0 <= p.y < cols && !AvantPos(p, Pos(x, y)) ==> PremiereDirection(g, p, 0).None?
  }

  lemma {:induction false} PremiereDirectionAucune(g: Grid, p: Pos, i: nat)
    ensures PremiereDirection(g, p, i).None? <==> forall j :: i <= j < 4 ==> !Quatre(g, p, DIRECTIONS[j])
    ensures PremiereDirection(g, p, i).Some? ==>
      forall j :: i <= j < PremiereDirection(g, p, i).value ==> !Quatre(g, p, DIRECTIONS[j])
    decreases 4 - i
  {
    if i < 4 && !Quatre(g, p, DIRECTIONS[i]) {
      PremiereDirectionAucune(g, p, i + 1);
    }
  }

  /** Past the end of a row, the squares still to come are those of the next rows. */
  lemma AucunApresFinLigne(g: Grid, rows: nat, cols: nat, x: nat, y: nat)
    requires y >= cols
    ensures AucunApres(g, rows, cols, x, y) <==> AucunApres(g, rows, cols, x + 1, 0)
  {
    forall p: Pos | 0 <= p.x < rows && 0 <= p.y < cols
      ensures !AvantPos(p, Pos(x, y)) <==> !AvantPos(p, Pos(x + 1, 0))
    {
    }
  }

  /** Inside a row, the squares still to come are (x, y) and those after it. */
  lemma AucunApresCase(g: Grid, rows: nat, cols: nat, x: nat, y: nat)
    requires x < rows && y < cols
    ensures AucunApres(g, rows, cols, x, y)
      <==> PremiereDirection(g, Pos(x, y), 0).None? && AucunApres(g, rows, cols, x, y + 1)
  {
    if AucunApres(g, rows, cols, x, y + 1) && PremiereDirection(g, Pos(x, y), 0).None? {
      forall p: Pos | 0 <= p.x < rows && 0 <= p.y < cols && !AvantPos(p, Pos(x, y)) && AvantPos(p, Pos(x, y + 1))
        ensures PremiereDirection(g, p, 0).None?
      {
        assert p == Pos(x, y);
      }
    }
    if AucunApres(g, rows, cols, x, y) {
      assert !AvantPos(Pos(x, y), Pos(x, y));
    }
  }

  /** The scan from (x, y) finds nothing exactly when no square at or after (x, y) starts a run. */
  lemma {:induction false} PremierAucun(g: Grid, rows: nat, cols: nat, x: nat, y: nat)
    ensures Premier(g, rows, cols, x, y).None? <==> AucunApres(g, rows, cols, x, y)
    decreases rows - x, cols - y
  {
    if x >= rows {
    } else if y >= cols {
      PremierAucun(g, rows, cols, x + 1, 0);
      AucunApresFinLigne(g, rows, cols, x, y);
    } else {
      AucunApresCase(g, rows, cols, x, y);
      if PremiereDirection(g, Pos(x, y), 0).None? {
        PremierAucun(g, rows, cols, x, y + 1);
      }
    }
  }

  /** No square from (x, y) up to, but not including, p starts a run. */
  ghost predicate AucunEntre(g: Grid, rows: nat, cols: nat, x: nat, y: nat, p: Pos)
  {
    forall q: Pos :: 0 <= q.x < rows && 0 <= q.y < cols && !AvantPos(q, Pos(x, y)) && AvantPos(q, p)
      ==> PremiereDirection(g, q, 0).None?
  }

  lemma AucunEntreFinLigne(g: Grid, rows: nat, cols: nat, x: nat, y: nat, p: Pos)
    requires y >= cols && AucunEntre(g, rows, cols, x + 1, 0, p)
    ensures AucunEntre(g, rows, cols, x, y, p)
  {
  }

  lemma AucunEntreCase(g: Grid, rows: nat, cols: nat, x: nat, y: nat, p: Pos)
    requires PremiereDirection(g, Pos(x, y), 0).None? && AucunEntre(g, rows, cols, x, y + 1, p)
    ensures AucunEntre(g, rows, cols, x, y, p)
  {
    forall q: Pos | 0 <= q.x < rows && 0 <= q.y < cols && !AvantPos(q, Pos(x, y)) && AvantPos(q, p)
      ensures PremiereDirection(g, q, 0).None?
    {
      if AvantPos(q, Pos(x, y + 1)) {
        assert q == Pos(x, y);
      }
    }
  }

  /** No square between (x, y) and what the scan from (x, y) finds starts a run. */
  lemma {:induction false} PremierTrouve(g: Grid, rows: nat, cols: nat, x: nat, y: nat)
    requires Premier(g, rows, cols, x, y).Some?
    ensures var (p, i) := Premier(g, rows, cols, x, y).value;
      !AvantPos(p, Pos(x, y)) && PremiereDirection(g, p, 0) == Some(i) && AucunEntre(g, rows, cols, x, y, p)
    decreases rows - x, cols - y
  {
    var (p, i) := Premier(g, rows, cols, x, y).value;
    if y >= cols {
      PremierTrouve(g, rows, cols, x + 1, 0);
      AucunEntreFinLigne(g, rows, cols, x, y, p);
    } else if PremiereDirection(g, Pos(x, y), 0).None? {
      PremierTrouve(g, rows, cols, x, y + 1);
      AucunEntreCase(g, rows, cols, x, y, p);
    }
  }

  /**
   * What estTermine reports is a run, and the first: from that square no earlier
   * direction succeeds, and no square earlier in the scan starts a run.
   */
  lemma PremierEstPremier(g: Grid, rows: nat, cols: nat)
    requires Premier(g, rows, cols, 0, 0).Some?
    ensures var (p, i) := Premier(g, rows, cols, 0, 0).value;
      && Quatre(g, p, DIRECTIONS[i])
      && (forall j :: 0 <= j < i ==> !Quatre(g, p, DIRECTIONS[j]))
      && forall q: Pos, j: int :: 0 <= q.x < rows && 0 <= q.y < cols && AvantPos(q, p) && 0 <= j < 4 ==> !Quatre(g, q, DIRECTIONS[j])
  {
    var (p, i) := Premier(g, rows, cols, 0, 0).value;
    PremierTrouve(g, rows, cols, 0, 0);
    PremiereDirectionAucune(g, p, 0);
    forall q: Pos | 0 <= q.x < rows && 0 <= q.y < cols && AvantPos(q, p)
      ensures forall j :: 0 <= j < 4 ==> !Quatre(g, q, DIRECTIONS[j])
    {
      PremiereDirectionAucune(g, q, 0);
    }
  }

  /** The scan from the first square finds a run iff the board has one. */
  lemma PremierGagne(g: Grid, rows: nat, cols: nat)
    requires Rect(g, rows, cols)
    ensures Premier(g, rows, cols, 0, 0).Some? <==> Gagne(g)
  {
    PremierAucun(g, rows, cols, 0, 0);
    if Gagne(g) {
      var p, i :| 0 <= i < 4 && Quatre(g, p, DIRECTIONS[i]);
      PremiereDirectionAucune(g, p, 0);
    } else {
      forall p: Pos | 0 <= p.x < rows && 0 <= p.y < cols ensures PremiereDirection(g, p, 0).None? {
        PremiereDirectionAucune(g, p, 0);
      }
    }
  }

  /** Every square of the top row is occupied. */
  predicate Plein(g: Grid, cols: nat)
  {
    forall y :: 0 <= y < cols ==> Occupied(g, Pos(0, y))
  }

  /** Rows 0 to x exist and each has a square in column col. */
  predicate Colonne(g: Grid, col: int, x: int)
  {
    x < |g| && forall i :: 0 <= i <= x ==> 0 <= col < |g[i]|
  }

  /** The square a disc dropped in column col comes to rest on: rows x, x-1, ..., 0, the first one empty. */
  function Chute(g: Grid, col: int, x: int): (r: Option<Pos>)
    requires Colonne(g, col, x)
    ensures r.Some? ==> r.value.y == col && 0 <= r.value.x <= x && Empty(g, r.value)
    decreases x + 1
  {
    if x < 0 then None
    else if At(g, Pos(x, col)).None? then Some(Pos(x, col))
    else Chute(g, col, x - 1)
  }

  /**
   * Below the square the disc lands on every square of the column is
   * occupied; nothing is found exactly when the column is full.
   */
  lemma {:induction false} ChuteExacte(g: Grid, col: int, x: int)
    requires Colonne(g, col, x)
    ensures Chute(g, col, x).None? <==> forall i :: 0 <= i <= x ==> Occupied(g, Pos(i, col))
    ensures Chute(g, col, x).Some? ==> forall i :: Chute(g, col, x).value.x < i <= x ==> Occupied(g, Pos(i, col))
    decreases x + 1
  {
    if x >= 0 && At(g, Pos(x, col)).Some? {
      ChuteExacte(g, col, x - 1);
    }
  }

  /**
   * A second drop in the same column lands directly above the first, when
   * that square is free.
   */
  lemma DeuxiemeChute(g: Grid, rows: nat, cols: nat, col: int, v: PieceVal)
    requires Rect(g, rows, cols) && 0 <= col < cols
    requires Chute(g, col, rows - 1).Some? && Chute(g, col, rows - 1).value.x > 0
    requires Empty(g, Pos(Chute(g, col, rows - 1).value.x - 1, col))
    ensures var q := Chute(g, col, rows - 1).value;
      Chute(Set(g, q, Some(v)), col, rows - 1) == Some(Pos(q.x - 1, col))
  {
    var q := Chute(g, col, rows - 1).value;
    var h := Set(g, q, Some(v));
    ChuteExacte(g, col, rows - 1);
    ChuteExacte(h, col, rows - 1);
    assert Empty(h, Pos(q.x - 1, col));
    assert forall i :: q.x <= i <= rows - 1 ==> Occupied(h, Pos(i, col));
  }

  /** The four writes that mark a run's cells in the highlight matrix. */
  method Marquer(w: array2<bool>, a: seq<Pos>)
    requires |a| == 4 && forall n :: 0 <= n < 4 ==> 0 <= a[n].x < w.Length0 && 0 <= a[n].y < w.Length1
    modifies w
    ensures forall i, j :: 0 <= i < w.Length0 && 0 <= j < w.Length1 ==> (w[i, j] <==> old(w[i, j]) || Pos(i, j) in a)
  {
    w[a[0].x, a[0].y] := true;
    w[a[1].x, a[1].y] := true;
    w[a[2].x, a[2].y] := true;
    w[a[3].x, a[3].y] := true;
  }

  // ================================================================ the game

  /** JeuPuissance4: the shared game state over one board. */
  class JeuPuissance4 {
    const jeu: Jeu

    ghost predicate Valid()
      reads jeu, jeu.plateau, jeu.plateau.cases, jeu.plateau.Cells, jeu.plateau.Pieces
    {
      jeu.Valid() && jeu.plateau.Valid()
    }

    constructor (plateau: Plateau, session: Session)
      requires plateau.Valid()
      modifies session`instance
      ensures Valid() && jeu.plateau == plateau && jeu.session == session && session.instance == jeu
      ensures jeu.joueurCourant == jeu.JOUEUR_BLANC && jeu.gagnant == null
    {
      jeu := new Jeu(plateau, session);
    }

    /**
     * One turn of the jouerPartie loop: the column of the target square is
     * scanned from the bottom row up; on the first empty square a disc of
     * the mover's colour is placed and the turn passes. A full column
     * places nothing and keeps the turn.
     */
    method Deposer(coup: Coup) returns (pose: bool)
      requires Valid() && coup.arrivee != null && coup.arrivee in jeu.plateau.Cells
      modifies jeu.plateau.Cells, jeu.plateau`Pieces, jeu.plateau`Contents, jeu`joueurCourant
      ensures Valid()
      ensures var col := coup.arrivee.posY;
        var q := Chute(old(jeu.plateau.Contents), col, jeu.plateau.sizeX - 1);
        && pose == q.Some?
        && (q.None? ==> jeu.plateau.Contents == old(jeu.plateau.Contents) && jeu.joueurCourant == old(jeu.joueurCourant))
        && (q.Some? ==>
              jeu.plateau.Contents == Set(old(jeu.plateau.Contents), q.value,
                                          Some(PieceVal(PionPuissance4, old(jeu.joueurCourant).couleur.Name(), false)))
              && jeu.joueurCourant == jeu.Adversaire(old(jeu.joueurCourant)))
    {
      var pl := jeu.plateau;
      ghost var g := pl.Contents;
      var caseArrivee := coup.arrivee;
      var col := caseArrivee.posY;
      var caseLibre: Case? := null;
      var x := pl.sizeX - 1;
      while x >= 0
        modifies {}
        invariant -1 <= x < pl.sizeX
        invariant Chute(g, col, pl.sizeX - 1) == Chute(g, col, x)
      {
        var c := pl.GetCase(x, col);
        pl.Voir(c);
        if c.piece == null {
          caseLibre := c;
          break;
        }
        x := x - 1;
      }
      if caseLibre == null {
        return false;
      }
      var pion := new Piece(jeu.joueurCourant.couleur.Name(), PionPuissance4, pl, caseLibre);
      jeu.Alterner();
      pose := true;
    }

    /**
     * estTermine: the first run of four in scan order wins for the colour
     * its first piece names, and exactly its four cells are highlighted;
     * with no run, a full top row is a draw; otherwise the game goes on
     * and nothing changes.
     */
    method EstTermine() returns (fini: bool)
      requires Valid() && (jeu.plateau.sizeX > 0 || jeu.plateau.sizeY == 0)
      modifies jeu`gagnant, jeu`winningCells
      ensures Valid()
      ensures var pl := jeu.plateau;
        match Premier(pl.Contents, pl.sizeX, pl.sizeY, 0, 0)
        case Some((p, i)) => fini && Annonce(p, i)
        case None =>
          fini == Plein(pl.Contents, pl.sizeY)
          && (fini ==> jeu.gagnant == null && Efface())
          && (!fini ==> jeu.gagnant == old(jeu.gagnant) && jeu.winningCells == old(jeu.winningCells))
    {
      var pl := jeu.plateau;
      ghost var g := pl.Contents;
      for x := 0 to pl.sizeX
        invariant Valid() && Premier(g, pl.sizeX, pl.sizeY, 0, 0) == Premier(g, pl.sizeX, pl.sizeY, x, 0)
        invariant jeu.gagnant == old(jeu.gagnant) && jeu.winningCells == old(jeu.winningCells)
      {
        var gagne := ParcourirLigne(x);
        if gagne {
          return true;
        }
      }
      var plein := EstPlein();
      if plein {
        jeu.gagnant := null;
        jeu.ClearWinningCells();
      }
      fini := plein;
    }

    /** The winner and the highlighted cells estTermine sets for the run from p along direction i. */
    ghost predicate Annonce(p: Pos, i: nat)
      reads jeu, jeu.plateau, jeu.winningCells
    {
      i < 4 && Occupied(jeu.plateau.Contents, p)
      && jeu.gagnant == jeu.GagnantSelon(At(jeu.plateau.Contents, p).value.couleur)
      && Surligne(p, DIRECTIONS[i])
    }

    /** Row x of the scan: the first square of the row that starts a run stops it and is announced. */
    method ParcourirLigne(x: int) returns (gagne: bool)
      requires Valid() && 0 <= x < jeu.plateau.sizeX
      modifies jeu`gagnant, jeu`winningCells
      ensures Valid()
      ensures var pl := jeu.plateau;
        var r := Premier(pl.Contents, pl.sizeX, pl.sizeY, x, 0);
        if gagne then r.Some? && Annonce(r.value.0, r.value.1)
        else r == Premier(pl.Contents, pl.sizeX, pl.sizeY, x + 1, 0)
             && jeu.gagnant == old(jeu.gagnant) && jeu.winningCells == old(jeu.winningCells)
    {
      var pl := jeu.plateau;
      ghost var g := pl.Contents;
      for y := 0 to pl.sizeY
        invariant Valid() && Premier(g, pl.sizeX, pl.sizeY, x, 0) == Premier(g, pl.sizeX, pl.sizeY, x, y)
        invariant jeu.gagnant == old(jeu.gagnant) && jeu.winningCells == old(jeu.winningCells)
      {
        var k := pl.GetCase(x, y);
        pl.Voir(k);
        if k.piece != null {
          gagne := VerifierCase(k);
          if gagne {
            return;
          }
        } else {
          PremiereDirectionAucune(g, Pos(x, y), 0);
        }
      }
      gagne := false;
    }

    /** The draw test: every square of the top row is occupied; the first empty one ends it. */
    method EstPlein() returns (plein: bool)
      requires Valid() && (jeu.plateau.sizeX > 0 || jeu.plateau.sizeY == 0)
      ensures plein == Plein(jeu.plateau.Contents, jeu.plateau.sizeY)
    {
      var pl := jeu.plateau;
      plein := true;
      for y := 0 to pl.sizeY
        invariant plein == forall j :: 0 <= j < y ==> Occupied(pl.Contents, Pos(0, j))
      {
        var k := pl.GetCase(0, y);
        pl.Voir(k);
        if k.piece == null {
          plein := false;
          break;
        }
      }
    }

    /** The highlighted cells: a sizeX by sizeY matrix, true exactly on the run from p along d. */
    ghost predicate Surligne(p: Pos, d: (int, int))
      reads jeu, jeu.winningCells
    {
      jeu.winningCells != null
      && jeu.winningCells.Length0 == jeu.plateau.sizeX && jeu.winningCells.Length1 == jeu.plateau.sizeY
      && forall i, j :: 0 <= i < jeu.plateau.sizeX && 0 <= j < jeu.plateau.sizeY ==>
           (jeu.winningCells[i, j] <==> Pos(i, j) in Alignement(p, d) && d != (0, 0))
    }

    /** The highlight matrix cleared: board-sized and false everywhere, the state clearWinningCells leaves. */
    ghost predicate Efface()
      reads jeu, jeu.winningCells
    {
      jeu.winningCells != null
      && jeu.winningCells.Length0 == jeu.plateau.sizeX && jeu.winningCells.Length1 == jeu.plateau.sizeY
      && forall i, j :: 0 <= i < jeu.plateau.sizeX && 0 <= j < jeu.plateau.sizeY ==> !jeu.winningCells[i, j]
    }

    /**
     * The four tests estTermine makes on an occupied square, in order; the
     * first that succeeds sets the winner and the highlighted cells.
     */
    method VerifierCase(k: Case) returns (gagne: bool)
      requires Valid() && k in jeu.plateau.Cells && k.piece != null
      modifies jeu`gagnant, jeu`winningCells
      ensures Valid()
      ensures var pl := jeu.plateau;
        var r := PremiereDirection(pl.Contents, k.Position(), 0);
        && gagne == r.Some?
        && (r.Some? ==> Annonce(k.Position(), r.value))
        && (r.None? ==> jeu.gagnant == old(jeu.gagnant) && jeu.winningCells == old(jeu.winningCells))
    {
      var pl := jeu.plateau;
      ghost var g := pl.Contents;
      ghost var p := k.Position();
      pl.Voir(k);
      var couleur := k.piece.couleur;
      gagne := Aligne(k, 0, 1);
      if gagne {
        assert PremiereDirection(g, p, 0) == Some(0);
        Gagner(k, 0, 1, couleur);
        return;
      }
      gagne := Aligne(k, 1, 0);
      if gagne {
        assert PremiereDirection(g, p, 0) == Some(1);
        Gagner(k, 1, 0, couleur);
        return;
      }
      gagne := Aligne(k, 1, 1);
      if gagne {
        assert PremiereDirection(g, p, 0) == Some(2);
        Gagner(k, 1, 1, couleur);
        return;
      }
      gagne := Aligne(k, -1, 1);
      if gagne {
        assert PremiereDirection(g, p, 0) == Some(3);
        Gagner(k, -1, 1, couleur);
        return;
      }
      assert PremiereDirection(g, p, 0) == None;
    }

    /**
     * One direction's test: the last square of the run must be on the
     * board, then squares 1, 2 and 3 along (dx, dy) must hold the colour of
     * the piece on k; the first that does not ends the test.
     */
    method Aligne(k: Case, dx: int, dy: int) returns (win: bool)
      requires Valid() && k in jeu.plateau.Cells && k.piece != null
      requires -1 <= dx <= 1 && -1 <= dy <= 1
      ensures win == Quatre(jeu.plateau.Contents, k.Position(), (dx, dy))
    {
      var pl := jeu.plateau;
      ghost var g := pl.Contents;
      ghost var p := k.Position();
      pl.Voir(k);
      var x := k.posX;
      var y := k.posY;
      var couleur := k.piece.couleur;
      ghost var fin := Alignement(p, (dx, dy))[3];
      if !pl.EstDansLimites(x + 3 * dx, y + 3 * dy) {
        assert !InBounds(g, fin);
        return false;
      }
      win := true;
      var n := 1;
      while n < 4
        invariant 1 <= n <= 4 && win
        invariant forall m :: 1 <= m < n ==> MemeCouleur(g, p, Alignement(p, (dx, dy))[m])
      {
        assert n == 1 || n == 2 || n == 3;
        var c := pl.GetCase(x + n * dx, y + n * dy);
        assert c.Position() == Alignement(p, (dx, dy))[n];
        pl.Voir(c);
        var p2 := c.piece;
        if p2 == null || p2.couleur != couleur {
          assert !MemeCouleur(g, p, Alignement(p, (dx, dy))[n]);
          win := false;
          break;
        }
        n := n + 1;
      }
      QuatreParCases(g, p, (dx, dy));
    }

    /** A run from k along (dx, dy): the winner named by its colour, and exactly its four cells highlighted. */
    method Gagner(k: Case, dx: int, dy: int, couleur: string)
      requires Valid() && k in jeu.plateau.Cells && (dx, dy) in DIRECTIONS
      requires Quatre(jeu.plateau.Contents, k.Position(), (dx, dy))
      modifies jeu`gagnant, jeu`winningCells
      ensures Valid() && jeu.gagnant == jeu.GagnantSelon(couleur) && Surligne(k.Position(), (dx, dy))
    {
      jeu.gagnant := jeu.GagnantSelon(couleur);
      jeu.ClearWinningCells();
      Marquer(jeu.winningCells, Alignement(k.Position(), (dx, dy)));
    }

    /** reinitialiserPartie: every square emptied, nothing highlighted, no winner, white to move. */
    method ReinitialiserPartie()
      requires Valid()
      modifies jeu.plateau.Cells, jeu.plateau`Contents, jeu`winningCells, jeu`gagnant, jeu`joueurCourant
      ensures Valid() && jeu.plateau.Contents == Vide(jeu.plateau.sizeX, jeu.plateau.sizeY)
      ensures jeu.gagnant == null && jeu.joueurCourant == jeu.JOUEUR_BLANC
      ensures Efface()
    {
      jeu.plateau.ToutVider();
      jeu.ClearWinningCells();
      jeu.gagnant := null;
      jeu.joueurCourant := jeu.JOUEUR_BLANC;
    }
  }

  // ================================================================ the view's detector

  /** Some square (x, y) with x0 <= x < x1 and y0 <= y < y1 starts four in a row along d. */
  ghost predicate Famille(g: Grid, x0: int, x1: int, y0: int, y1: int, d: (int, int))
  {
    exists x, y :: x0 <= x < x1 && y0 <= y < y1 && Quatre(g, Pos(x, y), d)
  }

  /**
   * The view's four families of runs (rows, columns, descending diagonals
   * starting at (x, y), and ascending ones written from their lower-left
   * end along (1, -1)) find a run exactly when the board has one.
   */
  lemma VueGagne(g: Grid, rows: nat, cols: nat)
    requires Rect(g, rows, cols)
    ensures Gagne(g) <==>
      Famille(g, 0, rows, 0, cols - 3, (0, 1)) || Famille(g, 0, rows - 3, 0, cols, (1, 0))
      || Famille(g, 0, rows - 3, 0, cols - 3, (1, 1)) || Famille(g, 0, rows - 3, 3, cols, (1, -1))
  {
    if Gagne(g) {
      GagneFamille(g, rows, cols);
    }
    if Famille(g, 0, rows, 0, cols - 3, (0, 1)) {
      FamilleGagne(g, 0, rows, 0, cols - 3, 0);
    }
    if Famille(g, 0, rows - 3, 0, cols, (1, 0)) {
      FamilleGagne(g, 0, rows - 3, 0, cols, 1);
    }
    if Famille(g, 0, rows - 3, 0, cols - 3, (1, 1)) {
      FamilleGagne(g, 0, rows - 3, 0, cols - 3, 2);
    }
    if Famille(g, 0, rows - 3, 3, cols, (1, -1)) {
      MontanteGagne(g, rows, cols);
    }
  }

  lemma MontanteGagne(g: Grid, rows: nat, cols: nat)
    requires Famille(g, 0, rows - 3, 3, cols, (1, -1))
    ensures Gagne(g)
  {
    var x, y :| 0 <= x < rows - 3 && 3 <= y < cols && Quatre(g, Pos(x, y), (1, -1));
    Renverse(g, Pos(x, y));
    assert Quatre(g, Pos(x + 3, y - 3), DIRECTIONS[3]);
  }

  /** A run read from its other end: the same four squares, the same colour. */
  lemma Renverse(g: Grid, p: Pos)
    ensures Quatre(g, p, (1, -1)) <==> Quatre(g, Pos(p.x + 3, p.y - 3), (-1, 1))
  {
    var q := Pos(p.x + 3, p.y - 3);
    assert Pos(p.x + 1, p.y + -1) == Pos(q.x + 2 * -1, q.y + 2 * 1);
    assert Pos(p.x + 2 * 1, p.y + 2 * -1) == Pos(q.x + -1, q.y + 1);
    assert Pos(p.x + 3 * 1, p.y + 3 * -1) == q;
    assert p == Pos(q.x + 3 * -1, q.y + 3 * 1);
  }

  lemma FamilleGagne(g: Grid, x0: int, x1: int, y0: int, y1: int, i: nat)
    requires i < 4 && Famille(g, x0, x1, y0, y1, DIRECTIONS[i])
    ensures Gagne(g)
  {
    var x, y :| x0 <= x < x1 && y0 <= y < y1 && Quatre(g, Pos(x, y), DIRECTIONS[i]);
  }

  lemma GagneFamille(g: Grid, rows: nat, cols: nat)
    requires Rect(g, rows, cols) && Gagne(g)
    ensures Famille(g, 0, rows, 0, cols - 3, (0, 1)) || Famille(g, 0, rows - 3, 0, cols, (1, 0))
      || Famille(g, 0, rows - 3, 0, cols - 3, (1, 1)) || Famille(g, 0, rows - 3, 3, cols, (1, -1))
  {
    var p, i :| 0 <= i < 4 && Quatre(g, p, DIRECTIONS[i]);
    var d := DIRECTIONS[i];
    assert InBounds(g, p) && InBounds(g, Pos(p.x + 3 * d.0, p.y + 3 * d.1));
    if i == 0 {
      assert 0 <= p.x < rows && 0 <= p.y < cols - 3 && Quatre(g, Pos(p.x, p.y), (0, 1));
    } else if i == 1 {
      assert 0 <= p.x < rows - 3 && 0 <= p.y < cols && Quatre(g, Pos(p.x, p.y), (1, 0));
    } else if i == 2 {
      assert 0 <= p.x < rows - 3 && 0 <= p.y < cols - 3 && Quatre(g, Pos(p.x, p.y), (1, 1));
    } else {
      Renverse(g, Pos(p.x - 3, p.y + 3));
      assert 0 <= p.x - 3 < rows - 3 && 3 <= p.y + 3 < cols && Quatre(g, Pos(p.x - 3, p.y + 3), (1, -1));
    }
  }

  /** VuePuissance4: the Swing view keeps the board and its dimensions, read once at construction. */
  class VuePuissance4 {
    const jeu: Jeu
    const plateau: Plateau
    const sizeX: int
    const sizeY: int

    ghost predicate Valid()
      reads this, plateau, plateau.cases, plateau.Cells, plateau.Pieces
    {
      plateau == jeu.plateau && sizeX == plateau.sizeX && sizeY == plateau.sizeY && plateau.Valid()
    }

    constructor (jeu: Jeu)
      requires jeu.plateau.Valid()
      ensures Valid() && this.jeu == jeu
    {
      this.jeu := jeu;
      plateau := jeu.plateau;
      sizeX := jeu.plateau.sizeX;
      sizeY := jeu.plateau.sizeY;
    }

    /** verifierPuissance4Gagnant: reports a run of four exactly when the board holds one. */
    method VerifierPuissance4Gagnant() returns (gagne: bool)
      requires Valid()
      ensures Valid() && (gagne <==> Gagne(plateau.Contents))
    {
      VueGagne(plateau.Contents, sizeX, sizeY);
      gagne := Balayer(0, sizeX, 0, sizeY - 3, 0, 1);
      if gagne {
        return;
      }
      gagne := Balayer(0, sizeX - 3, 0, sizeY, 1, 0);
      if gagne {
        return;
      }
      gagne := Balayer(0, sizeX - 3, 0, sizeY - 3, 1, 1);
      if gagne {
        return;
      }
      gagne := Balayer(0, sizeX - 3, 3, sizeY, 1, -1);
    }

    /** The four squares from (x, y) along (dx, dy) lie on the board. */
    predicate Dedans(x: int, y: int, dx: int, dy: int)
      reads this
    {
      0 <= x < sizeX && 0 <= y < sizeY && 0 <= x + 3 * dx < sizeX && 0 <= y + 3 * dy < sizeY
    }

    /** One family: the squares row by row, stopping at the first that starts a run. */
    method Balayer(x0: int, x1: int, y0: int, y1: int, dx: int, dy: int) returns (trouve: bool)
      requires Valid() && -1 <= dx <= 1 && -1 <= dy <= 1
      requires forall x, y :: x0 <= x < x1 && y0 <= y < y1 ==> Dedans(x, y, dx, dy)
      ensures trouve <==> Famille(plateau.Contents, x0, x1, y0, y1, (dx, dy))
    {
      ghost var g := plateau.Contents;
      var x := x0;
      while x < x1
        invariant x0 <= x || x1 <= x0
        invariant forall x', y' :: x0 <= x' < x && y0 <= y' < y1 ==> !Quatre(g, Pos(x', y'), (dx, dy))
      {
        var y := y0;
        while y < y1
          invariant y0 <= y || y1 <= y0
          invariant forall x', y' :: x0 <= x' < x && y0 <= y' < y1 ==> !Quatre(g, Pos(x', y'), (dx, dy))
          invariant forall y' :: y0 <= y' < y ==> !Quatre(g, Pos(x, y'), (dx, dy))
        {
          var quatre := Tester(x, y, dx, dy);
          if quatre {
            return true;
          }
          y := y + 1;
        }
        x := x + 1;
      }
      trouve := false;
    }

    /** One candidate run: four non-empty squares whose colour strings are pairwise equal along the chain. */
    method Tester(x: int, y: int, dx: int, dy: int) returns (quatre: bool)
      requires Valid() && Dedans(x, y, dx, dy) && -1 <= dx <= 1 && -1 <= dy <= 1
      ensures quatre == Quatre(plateau.Contents, Pos(x, y), (dx, dy))
    {
      ghost var run := Alignement(Pos(x, y), (dx, dy));
      var c1 := plateau.GetCase(x, y);
      var c2 := plateau.GetCase(x + dx, y + dy);
      var c3 := plateau.GetCase(x + 2 * dx, y + 2 * dy);
      var c4 := plateau.GetCase(x + 3 * dx, y + 3 * dy);
      plateau.Voir(c1);
      plateau.Voir(c2);
      plateau.Voir(c3);
      plateau.Voir(c4);
      assert c1.Position() == run[0] && c2.Position() == run[1] && c3.Position() == run[2] && c4.Position() == run[3];
      var p1, p2, p3, p4 := c1.piece, c2.piece, c3.piece, c4.piece;
      quatre := p1 != null && p2 != null && p3 != null && p4 != null
        && p1.couleur == p2.couleur && p2.couleur == p3.couleur && p3.couleur == p4.couleur;
    }
  }
}
