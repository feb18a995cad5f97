// Tic-tac-toe on a rectangular board: the placement step, the eight line
// tests of estTermine, the full-board draw, and the Swing view's detector.
// The line machinery (three squares of one colour, the first such line of
// a list) is shared with the 3D game.
module Morpion {
  import opened Lang
  import opened Grille
  import opened Modele
  import opened Partie

  // ================================================================ lines

  /** Three pieces whose colour strings are equal along the chain p1 = p2, p2 = p3. */
  predicate Trois(g: Grid, l: seq<Pos>)
  {
    |l| == 3 && Occupied(g, l[0]) && Occupied(g, l[1]) && Occupied(g, l[2])
    && At(g, l[0]).value.couleur == At(g, l[1]).value.couleur
    && At(g, l[1]).value.couleur == At(g, l[2]).value.couleur
  }

  /** The first line of ls, in order, that holds three of one colour. */
  function PremiereLigne(g: Grid, ls: seq<seq<Pos>>): (r: Option<seq<Pos>>)
    ensures r.Some? ==> r.value in ls && Trois(g, r.value)
  {
    if |ls| == 0 then None
    else if Trois(g, ls[0]) then Some(ls[0])
    else PremiereLigne(g, ls[1..])
  }

  /** The scan finds nothing exactly when no line of ls holds three of one colour. */
  lemma {:induction false} PremiereLigneAucune(g: Grid, ls: seq<seq<Pos>>)
    ensures PremiereLigne(g, ls).None? <==> forall l :: l in ls ==> !Trois(g, l)
  {
    if |ls| > 0 && !Trois(g, ls[0]) {
      PremiereLigneAucune(g, ls[1..]);
      assert forall l :: l in ls ==> l == ls[0] || l in ls[1..];
    }
  }

  /** What PremiereLigne finds is the first: every line before it fails. */
  lemma {:induction false} PremiereLigneEstPremiere(g: Grid, ls: seq<seq<Pos>>)
    requires PremiereLigne(g, ls).Some?
    ensures exists i :: 0 <= i < |ls| && ls[i] == PremiereLigne(g, ls).value
                        && forall j :: 0 <= j < i ==> !Trois(g, ls[j])
  {
    if !Trois(g, ls[0]) {
      PremiereLigneEstPremiere(g, ls[1..]);
      var i :| 0 <= i < |ls[1..]| && ls[1..][i] == PremiereLigne(g, ls[1..]).value
               && forall j :: 0 <= j < i ==> !Trois(g, ls[1..][j]);
      assert ls[i + 1] == PremiereLigne(g, ls).value;
      forall j | 0 <= j < i + 1 ensures !Trois(g, ls[j]) {
        if j > 0 {
          assert ls[j] == ls[1..][j - 1];
        }
      }
    } else {
      assert ls[0] == PremiereLigne(g, ls).value;
    }
  }

  /** Scanning two lists one after the other finds what the scan of their concatenation finds. */
  lemma {:induction false} PremiereLigneConcat(g: Grid, a: seq<seq<Pos>>, b: seq<seq<Pos>>)
    ensures PremiereLigne(g, a + b) == if PremiereLigne(g, a).Some? then PremiereLigne(g, a) else PremiereLigne(g, b)
  {
    if |a| == 0 {
      assert a + b == b;
    } else {
      assert (a + b)[0] == a[0];
      assert (a + b)[1..] == a[1..] + b;
      PremiereLigneConcat(g, a[1..], b);
    }
  }

  /** One step of a scan over ls from index k. */
  lemma Suffixe(g: Grid, ls: seq<seq<Pos>>, k: nat)
    requires k < |ls|
    ensures PremiereLigne(g, ls[k..]) == if Trois(g, ls[k]) then Some(ls[k]) else PremiereLigne(g, ls[k + 1..])
  {
    assert ls[k..][0] == ls[k];
    assert ls[k..][1..] == ls[k + 1..];
  }

  /** A line that holds three of one colour after lines that all fail is what the scan finds. */
  lemma {:induction false} PremierIndex(g: Grid, ls: seq<seq<Pos>>, k: nat)
    requires k < |ls| && Trois(g, ls[k]) && forall j :: 0 <= j < k ==> !Trois(g, ls[j])
    ensures PremiereLigne(g, ls) == Some(ls[k])
  {
    if k > 0 {
      assert !Trois(g, ls[0]);
      PremierIndex(g, ls[1..], k - 1);
    }
  }

  /** When every line fails the scan finds nothing. */
  lemma AucunIndex(g: Grid, ls: seq<seq<Pos>>)
    requires forall j :: 0 <= j < |ls| ==> !Trois(g, ls[j])
    ensures PremiereLigne(g, ls) == None
  {
    PremiereLigneAucune(g, ls);
  }

  /** Every square of the sx by sy board is occupied. */
  ghost predicate Rempli(g: Grid, sx: int, sy: int)
  {
    forall x, y :: 0 <= x < sx && 0 <= y < sy ==> Occupied(g, Pos(x, y))
  }

  /** The three squares of l lie on the board. */
  predicate Sur(pl: Plateau, l: seq<Pos>)
  {
    |l| == 3 && pl.EstDansLimites(l[0].x, l[0].y) && pl.EstDansLimites(l[1].x, l[1].y) && pl.EstDansLimites(l[2].x, l[2].y)
  }

  /** verifierAlignement's test: the three squares hold pieces, with equal colour strings along the chain. */
  method Tester(pl: Plateau, l: seq<Pos>) returns (trois: bool)
    requires pl.Valid() && Sur(pl, l)
    ensures trois == Trois(pl.Contents, l)
  {
    var c1 := pl.GetCase(l[0].x, l[0].y);
    var c2 := pl.GetCase(l[1].x, l[1].y);
    var c3 := pl.GetCase(l[2].x, l[2].y);
    pl.Voir(c1);
    pl.Voir(c2);
    pl.Voir(c3);
    var p1, p2, p3 := c1.piece, c2.piece, c3.piece;
    trois := p1 != null && p2 != null && p3 != null && p1.couleur == p2.couleur && p2.couleur == p3.couleur;
  }

  /** The three writes that mark a line's cells in the highlight matrix. */
  method Marquer(w: array2<bool>, l: seq<Pos>)
    requires |l| == 3 && forall n :: 0 <= n < 3 ==> 0 <= l[n].x < w.Length0 && 0 <= l[n].y < w.Length1
    modifies w
    ensures forall i, j :: 0 <= i < w.Length0 && 0 <= j < w.Length1 ==> (w[i, j] <==> old(w[i, j]) || Pos(i, j) in l)
  {
    w[l[0].x, l[0].y] := true;
    w[l[1].x, l[1].y] := true;
    w[l[2].x, l[2].y] := true;
  }

  // ================================================================ the 2D lines

  function Rangee(x: int): seq<Pos> { [Pos(x, 0), Pos(x, 1), Pos(x, 2)] }

  function Colonne(y: int): seq<Pos> { [Pos(0, y), Pos(1, y), Pos(2, y)] }

  const DIAGONALE: seq<Pos> := [Pos(0, 0), Pos(1, 1), Pos(2, 2)]

  const ANTIDIAGONALE: seq<Pos> := [Pos(0, 2), Pos(1, 1), Pos(2, 0)]

  /**
   * The lines estTermine tests, in its order: row x on columns 0..2 for
   * every row, column y on rows 0..2 for every column, then the two
   * diagonals of the top-left 3 by 3 square.
   */
  function Lignes(rows: nat, cols: nat): (ls: seq<seq<Pos>>)
    ensures |ls| == rows + cols + 2
  {
    seq(rows, x => Rangee(x)) + seq(cols, y => Colonne(y)) + [DIAGONALE, ANTIDIAGONALE]
  }

  lemma LignesIndex(rows: nat, cols: nat)
    ensures forall x :: 0 <= x < rows ==> Lignes(rows, cols)[x] == Rangee(x)
    ensures forall y :: 0 <= y < cols ==> Lignes(rows, cols)[rows + y] == Colonne(y)
    ensures Lignes(rows, cols)[rows + cols] == DIAGONALE && Lignes(rows, cols)[rows + cols + 1] == ANTIDIAGONALE
  {
  }

  /** The placement step on values: a mark of the colour to move on an empty square, and the turn passes. */
  function Placement(e: (Grid, Couleur), p: Pos): (r: (Grid, Couleur))
    ensures !Empty(e.0, p) ==> r == e
    ensures Empty(e.0, p) ==> r.0 == Set(e.0, p, Some(PieceVal(PionTicTacToe, e.1.Name(), false))) && r.1 != e.1
  {
    if Empty(e.0, p) then (Set(e.0, p, Some(PieceVal(PionTicTacToe, e.1.Name(), false))), if e.1 == BLANC then NOIR else BLANC)
    else e
  }

  /** A sequence of placement steps, in order. */
  function Jouer(e: (Grid, Couleur), coups: seq<Pos>): (Grid, Couleur)
  {
    if |coups| == 0 then e else Placement(Jouer(e, coups[..|coups| - 1]), coups[|coups| - 1])
  }

  /** The moves of the winning scenario: white (0,0), black (1,0), white (0,1), black (1,1), white (0,2). */
  const SCENARIO: seq<Pos> := [Pos(0, 0), Pos(1, 0), Pos(0, 1), Pos(1, 1), Pos(0, 2)]

  /** A 3 by 3 board whose right column above the bottom row and whose bottom row are empty has no line and is not full. */
  lemma SansLigne(g: Grid)
    requires Rect(g, 3, 3) && Empty(g, Pos(0, 2)) && Empty(g, Pos(1, 2))
    requires Empty(g, Pos(2, 0)) && Empty(g, Pos(2, 1)) && Empty(g, Pos(2, 2))
    ensures PremiereLigne(g, Lignes(3, 3)).None? && !Rempli(g, 3, 3)
  {
    var ls := Lignes(3, 3);
    LignesIndex(3, 3);
    forall j | 0 <= j < |ls| ensures !Trois(g, ls[j]) {
      if j < 3 {
        assert ls[j] == Rangee(j);
      } else if j < 6 {
        assert ls[j] == Colonne(j - 3);
      }
    }
    AucunIndex(g, ls);
  }

  /** The colour that plays move j of a game white opens. */
  function Trait(j: nat): Couleur
  {
    if j == 0 then BLANC else if Trait(j - 1) == BLANC then NOIR else BLANC
  }

  /** The board after the first k moves of the scenario. */
  function Etat(k: nat): (g: Grid)
    requires k <= 5
    ensures Rect(g, 3, 3)
  {
    if k == 0 then Vide(3, 3)
    else
      var h := Etat(k - 1);
      SetSameShape(h, SCENARIO[k - 1], Some(PieceVal(PionTicTacToe, Trait(k - 1).Name(), false)), 3, 3);
      Set(h, SCENARIO[k - 1], Some(PieceVal(PionTicTacToe, Trait(k - 1).Name(), false)))
  }

  /** Squares the first k moves did not target are still empty. */
  lemma {:induction false} EtatVide(k: nat, q: Pos)
    requires k <= 5 && 0 <= q.x < 3 && 0 <= q.y < 3 && q !in SCENARIO[..k]
    ensures Empty(Etat(k), q)
  {
    if k > 0 {
      assert SCENARIO[..k] == SCENARIO[..k - 1] + [SCENARIO[k - 1]];
      EtatVide(k - 1, q);
    }
  }

  /** Every move of the scenario targets a square of the 3 by 3 board no earlier move targeted. */
  lemma ScenarioNouveau(j: nat)
    requires j < 5
    ensures 0 <= SCENARIO[j].x < 3 && 0 <= SCENARIO[j].y < 3 && SCENARIO[j] !in SCENARIO[..j]
  {
    if j == 0 {
    } else if j == 1 {
      assert SCENARIO[..1] == [Pos(0, 0)];
    } else if j == 2 {
      assert SCENARIO[..2] == [Pos(0, 0), Pos(1, 0)];
    } else if j == 3 {
      assert SCENARIO[..3] == [Pos(0, 0), Pos(1, 0), Pos(0, 1)];
    } else {
      assert SCENARIO[..4] == [Pos(0, 0), Pos(1, 0), Pos(0, 1), Pos(1, 1)];
    }
  }

  /** Before the last move only the four top-left squares have been targeted. */
  lemma Debut(k: nat)
    requires k < 5
    ensures forall q :: q in SCENARIO[..k] ==> q in [Pos(0, 0), Pos(1, 0), Pos(0, 1), Pos(1, 1)]
  {
    assert SCENARIO[..k] == SCENARIO[..4][..k];
    assert SCENARIO[..4] == [Pos(0, 0), Pos(1, 0), Pos(0, 1), Pos(1, 1)];
  }

  /** Move j holds a mark of the colour that played it once it has been made. */
  lemma {:induction false} EtatPose(k: nat, j: nat)
    requires j < k <= 5
    ensures At(Etat(k), SCENARIO[j]) == Some(PieceVal(PionTicTacToe, Trait(j).Name(), false))
  {
    if j < k - 1 {
      EtatPose(k - 1, j);
    }
  }

  /** Playing the first k moves of the scenario gives Etat(k), with the colour of move k to play. */
  lemma {:induction false} EtatJoue(k: nat)
    requires k <= 5
    ensures Jouer((Vide(3, 3), BLANC), SCENARIO[..k]) == (Etat(k), Trait(k))
  {
    if k > 0 {
      var coups := SCENARIO[..k];
      assert coups[..k - 1] == SCENARIO[..k - 1] && coups[k - 1] == SCENARIO[k - 1];
      EtatJoue(k - 1);
      ScenarioNouveau(k - 1);
      EtatVide(k - 1, SCENARIO[k - 1]);
      assert Jouer((Vide(3, 3), BLANC), coups) == Placement((Etat(k - 1), Trait(k - 1)), SCENARIO[k - 1]);
    }
  }

  /**
   * The scenario on an empty 3 by 3 board, white first: no line and no
   * draw before the last move, then the top row wins for the colour
   * "BLANC".
   */
  lemma PartieBlancGagne()
    ensures forall k :: 0 <= k < 5 ==>
      PremiereLigne(Jouer((Vide(3, 3), BLANC), SCENARIO[..k]).0, Lignes(3, 3)).None?
      && !Rempli(Jouer((Vide(3, 3), BLANC), SCENARIO[..k]).0, 3, 3)
    ensures var g := Jouer((Vide(3, 3), BLANC), SCENARIO).0;
      PremiereLigne(g, Lignes(3, 3)) == Some(Rangee(0)) && EqualsIgnoreCase(At(g, Pos(0, 0)).value.couleur, "BLANC")
  {
    forall k | 0 <= k < 5
      ensures PremiereLigne(Jouer((Vide(3, 3), BLANC), SCENARIO[..k]).0, Lignes(3, 3)).None?
      ensures !Rempli(Jouer((Vide(3, 3), BLANC), SCENARIO[..k]).0, 3, 3)
    {
      EtatJoue(k);
      Debut(k);
      EtatVide(k, Pos(0, 2));
      EtatVide(k, Pos(1, 2));
      EtatVide(k, Pos(2, 0));
      EtatVide(k, Pos(2, 1));
      EtatVide(k, Pos(2, 2));
      SansLigne(Etat(k));
    }
    EtatJoue(5);
    assert SCENARIO[..5] == SCENARIO;
    EtatPose(5, 0);
    EtatPose(5, 2);
    EtatPose(5, 4);
    assert Trois(Etat(5), Rangee(0));
    LignesIndex(3, 3);
    PremierIndex(Etat(5), Lignes(3, 3), 0);
  }

  // ================================================================ the game

  /** JeuTicTacToe: the shared game state over one board. */
  class JeuTicTacToe {
    const jeu: Jeu

    ghost predicate Valid()
      reads jeu, jeu.plateau, jeu.plateau.cases, jeu.plateau.Cells, jeu.plateau.Pieces
    {
      jeu.Valid() && jeu.plateau.Valid()
    }

    constructor (plateau: Plateau, session: Session)
      requires plateau.Valid()
      modifies session`instance
      ensures Valid() && jeu.plateau == plateau && jeu.session == session && session.instance == jeu
      ensures jeu.joueurCourant == jeu.JOUEUR_BLANC && jeu.gagnant == null
    {
      jeu := new Jeu(plateau, session);
    }

    /**
     * One turn of the jouerPartie loop: an occupied target places nothing
     * and keeps the turn; an empty one gets a mark of the mover's colour
     * and the turn passes.
     */
    method Placer(coup: Coup) returns (pose: bool)
      requires Valid() && coup.arrivee != null && coup.arrivee in jeu.plateau.Cells
      modifies coup.arrivee`piece, jeu.plateau`Pieces, jeu.plateau`Contents, jeu`joueurCourant
      ensures Valid()
      ensures var p := coup.arrivee.Position();
        && pose == Empty(old(jeu.plateau.Contents), p)
        && (!pose ==> jeu.plateau.Contents == old(jeu.plateau.Contents) && jeu.joueurCourant == old(jeu.joueurCourant))
        && (pose ==>
              jeu.plateau.Contents == Set(old(jeu.plateau.Contents), p,
                                          Some(PieceVal(PionTicTacToe, old(jeu.joueurCourant).couleur.Name(), false)))
              && jeu.joueurCourant == jeu.Adversaire(old(jeu.joueurCourant)))
      ensures (jeu.plateau.Contents, jeu.joueurCourant.couleur) ==
              Placement((old(jeu.plateau.Contents), old(jeu.joueurCourant).couleur), coup.arrivee.Position())
    {
      var caseArrivee := coup.arrivee;
      jeu.plateau.Voir(caseArrivee);
      if caseArrivee.piece != null {
        return false;
      }
      var pion := new Piece(jeu.joueurCourant.couleur.Name(), PionTicTacToe, jeu.plateau, caseArrivee);
      jeu.Alterner();
      pose := true;
    }

    /** The highlight matrix: board-sized, true exactly on the squares of l. */
    ghost predicate Marque(l: seq<Pos>)
      reads jeu, jeu.plateau, jeu.winningCells
    {
      jeu.winningCells != null
      && jeu.winningCells.Length0 == jeu.plateau.sizeX && jeu.winningCells.Length1 == jeu.plateau.sizeY
      && forall i, j :: 0 <= i < jeu.plateau.sizeX && 0 <= j < jeu.plateau.sizeY ==>
           (jeu.winningCells[i, j] <==> Pos(i, j) in l)
    }

    /** The winner named by the colour on the line's first square, and exactly the line highlighted. */
    ghost predicate Annonce(l: seq<Pos>)
      reads jeu, jeu.plateau, jeu.winningCells
    {
      |l| == 3 && Occupied(jeu.plateau.Contents, l[0])
      && jeu.gagnant == jeu.GagnantSelon(At(jeu.plateau.Contents, l[0]).value.couleur)
      && Marque(l)
    }

    /**
     * estTermine: the highlight matrix is cleared first; the first line of
     * three, in the order rows, columns, diagonal, anti-diagonal, wins for
     * the colour on its first square; with none, a full board is a draw
     * with no winner; otherwise the game goes on.
     */
    method EstTermine() returns (fini: bool)
      requires Valid() && jeu.plateau.sizeX >= 3 && jeu.plateau.sizeY >= 3
      modifies jeu`gagnant, jeu`winningCells
      ensures Valid()
      ensures var pl := jeu.plateau;
        match PremiereLigne(pl.Contents, Lignes(pl.sizeX, pl.sizeY))
        case Some(l) => fini && Annonce(l)
        case None =>
          && fini == Rempli(pl.Contents, pl.sizeX, pl.sizeY) && Marque([])
          && jeu.gagnant == (if fini then null else old(jeu.gagnant))
    {
      jeu.ClearWinningCells();
      var gagne := Chercher();
      if gagne {
        return true;
      }
      var plein := EstRempli();
      if plein {
        jeu.gagnant := null;
        jeu.ClearWinningCells();
        return true;
      }
      return false;
    }

    /** The line tests of estTermine on a cleared matrix, in order; the first success stops them. */
    method Chercher() returns (gagne: bool)
      requires Valid() && jeu.plateau.sizeX >= 3 && jeu.plateau.sizeY >= 3 && Marque([])
      modifies jeu`gagnant, jeu.winningCells
      ensures Valid() && jeu.winningCells == old(jeu.winningCells)
      ensures var r := PremiereLigne(jeu.plateau.Contents, Lignes(jeu.plateau.sizeX, jeu.plateau.sizeY));
        && gagne == r.Some?
        && (gagne ==> Annonce(r.value))
        && (!gagne ==> jeu.gagnant == old(jeu.gagnant) && Marque([]))
    {
      var pl := jeu.plateau;
      ghost var g := pl.Contents;
      ghost var ls := Lignes(pl.sizeX, pl.sizeY);
      LignesIndex(pl.sizeX, pl.sizeY);
      gagne := ChercherRangees();
      if gagne {
        return;
      }
      gagne := ChercherColonnes();
      if gagne {
        return;
      }
      gagne := Verifier(DIAGONALE);
      if gagne {
        PremierIndex(g, ls, pl.sizeX + pl.sizeY);
        return;
      }
      gagne := Verifier(ANTIDIAGONALE);
      if gagne {
        PremierIndex(g, ls, pl.sizeX + pl.sizeY + 1);
      } else {
        AucunIndex(g, ls);
      }
    }

    /** The row tests: row x on columns 0..2, for every row in turn. */
    method ChercherRangees() returns (gagne: bool)
      requires Valid() && jeu.plateau.sizeX >= 3 && jeu.plateau.sizeY >= 3 && Marque([])
      modifies jeu`gagnant, jeu.winningCells
      ensures Valid() && jeu.winningCells == old(jeu.winningCells)
      ensures var g := jeu.plateau.Contents; var ls := Lignes(jeu.plateau.sizeX, jeu.plateau.sizeY);
        && (gagne ==> PremiereLigne(g, ls).Some? && Annonce(PremiereLigne(g, ls).value))
        && (!gagne ==> jeu.gagnant == old(jeu.gagnant) && Marque([])
                       && forall j :: 0 <= j < jeu.plateau.sizeX ==> !Trois(g, ls[j]))
    {
      var pl := jeu.plateau;
      ghost var g := pl.Contents;
      ghost var ls := Lignes(pl.sizeX, pl.sizeY);
      LignesIndex(pl.sizeX, pl.sizeY);
      for x := 0 to pl.sizeX
        invariant Valid() && Marque([]) && jeu.gagnant == old(jeu.gagnant)
        invariant forall j :: 0 <= j < x ==> !Trois(g, ls[j])
      {
        gagne := Verifier(Rangee(x));
        if gagne {
          PremierIndex(g, ls, x);
          return;
        }
      }
      gagne := false;
    }

    /** The column tests: column y on rows 0..2, for every column in turn, after the rows all failed. */
    method ChercherColonnes() returns (gagne: bool)
      requires Valid() && jeu.plateau.sizeX >= 3 && jeu.plateau.sizeY >= 3 && Marque([])
      requires forall j :: 0 <= j < jeu.plateau.sizeX ==> !Trois(jeu.plateau.Contents, Lignes(jeu.plateau.sizeX, jeu.plateau.sizeY)[j])
      modifies jeu`gagnant, jeu.winningCells
      ensures Valid() && jeu.winningCells == old(jeu.winningCells)
      ensures var g := jeu.plateau.Contents; var ls := Lignes(jeu.plateau.sizeX, jeu.plateau.sizeY);
        && (gagne ==> PremiereLigne(g, ls).Some? && Annonce(PremiereLigne(g, ls).value))
        && (!gagne ==> jeu.gagnant == old(jeu.gagnant) && Marque([])
                       && forall j :: 0 <= j < jeu.plateau.sizeX + jeu.plateau.sizeY ==> !Trois(g, ls[j]))
    {
      var pl := jeu.plateau;
      ghost var g := pl.Contents;
      ghost var ls := Lignes(pl.sizeX, pl.sizeY);
      LignesIndex(pl.sizeX, pl.sizeY);
      for y := 0 to pl.sizeY
        invariant Valid() && Marque([]) && jeu.gagnant == old(jeu.gagnant)
        invariant forall j :: 0 <= j < pl.sizeX + y ==> !Trois(g, ls[j])
      {
        gagne := Verifier(Colonne(y));
        if gagne {
          PremierIndex(g, ls, pl.sizeX + y);
          return;
        }
      }
      gagne := false;
    }

    /**
     * One line's test on a cleared matrix: three of one colour set the
     * winner and mark the line; otherwise nothing changes.
     */
    method Verifier(l: seq<Pos>) returns (gagne: bool)
      requires Valid() && Sur(jeu.plateau, l) && Marque([])
      modifies jeu`gagnant, jeu.winningCells
      ensures Valid() && jeu.winningCells == old(jeu.winningCells)
      ensures gagne == Trois(jeu.plateau.Contents, l)
      ensures gagne ==> Annonce(l)
      ensures !gagne ==> jeu.gagnant == old(jeu.gagnant) && Marque([])
    {
      gagne := Tester(jeu.plateau, l);
      if gagne {
        var c1 := jeu.plateau.GetCase(l[0].x, l[0].y);
        jeu.plateau.Voir(c1);
        jeu.gagnant := jeu.GagnantSelon(c1.piece.couleur);
        Marquer(jeu.winningCells, l);
      }
    }

    /** The draw test: every square of the board is occupied; the first empty one ends both loops. */
    method EstRempli() returns (plein: bool)
      requires Valid()
      ensures plein == Rempli(jeu.plateau.Contents, jeu.plateau.sizeX, jeu.plateau.sizeY)
    {
      var pl := jeu.plateau;
      ghost var g := pl.Contents;
      plein := true;
      for x := 0 to pl.sizeX
        invariant plein && forall i, j :: 0 <= i < x && 0 <= j < pl.sizeY ==> Occupied(g, Pos(i, j))
      {
        for y := 0 to pl.sizeY
          invariant plein && forall j :: 0 <= j < y ==> Occupied(g, Pos(x, j))
        {
          var k := pl.GetCase(x, y);
          pl.Voir(k);
          if k.piece == null {
            plein := false;
            break;
          }
        }
        if !plein {
          break;
        }
      }
    }

    /** reinitialiserPartie: every square emptied, the matrix cleared, no winner, white to move. */
    method ReinitialiserPartie()
      requires Valid()
      modifies jeu.plateau.Cells, jeu.plateau`Contents, jeu`winningCells, jeu`gagnant, jeu`joueurCourant
      ensures Valid() && jeu.plateau.Contents == Vide(jeu.plateau.sizeX, jeu.plateau.sizeY)
      ensures jeu.gagnant == null && jeu.joueurCourant == jeu.JOUEUR_BLANC && Marque([])
    {
      jeu.plateau.ToutVider();
      jeu.ClearWinningCells();
      jeu.gagnant := null;
      jeu.joueurCourant := jeu.JOUEUR_BLANC;
    }
  }

  // ================================================================ the view's detector

  /** VueTicTacToe: the Swing view keeps the board and its dimensions, read once at construction. */
  class VueTicTacToe {
    const jeu: Jeu
    const plateau: Plateau
    const sizeX: int
    const sizeY: int

    ghost predicate Valid()
      reads this, plateau, plateau.cases, plateau.Cells, plateau.Pieces
    {
      plateau == jeu.plateau && sizeX == plateau.sizeX && sizeY == plateau.sizeY && plateau.Valid()
    }

    constructor (jeu: Jeu)
      requires jeu.plateau.Valid()
      ensures Valid() && this.jeu == jeu
    {
      this.jeu := jeu;
      plateau := jeu.plateau;
      sizeX := jeu.plateau.sizeX;
      sizeY := jeu.plateau.sizeY;
    }

    /**
     * verifierTicTacToeGagnant: the same lines as the game's estTermine,
     * so it reports a line exactly when the game would announce a winner.
     */
    method VerifierTicTacToeGagnant() returns (gagne: bool)
      requires Valid() && sizeX >= 3 && sizeY >= 3
      ensures gagne <==> PremiereLigne(plateau.Contents, Lignes(sizeX, sizeY)).Some?
    {
      ghost var g := plateau.Contents;
      ghost var ls := Lignes(sizeX, sizeY);
      LignesIndex(sizeX, sizeY);
      gagne := TesterRangees();
      if gagne {
        return;
      }
      gagne := TesterColonnes();
      if gagne {
        return;
      }
      gagne := Tester(plateau, DIAGONALE);
      if gagne {
        PremierIndex(g, ls, sizeX + sizeY);
        return;
      }
      gagne := Tester(plateau, ANTIDIAGONALE);
      if gagne {
        PremierIndex(g, ls, sizeX + sizeY + 1);
      } else {
        AucunIndex(g, ls);
      }
    }

    /** The view's row tests, row x on columns 0..2 for every row in turn. */
    method TesterRangees() returns (gagne: bool)
      requires Valid() && sizeX >= 3 && sizeY >= 3
      ensures gagne ==> PremiereLigne(plateau.Contents, Lignes(sizeX, sizeY)).Some?
      ensures !gagne ==> forall j :: 0 <= j < sizeX ==> !Trois(plateau.Contents, Lignes(sizeX, sizeY)[j])
    {
      ghost var g := plateau.Contents;
      ghost var ls := Lignes(sizeX, sizeY);
      LignesIndex(sizeX, sizeY);
      for x := 0 to sizeX
        invariant forall j :: 0 <= j < x ==> !Trois(g, ls[j])
      {
        gagne := Tester(plateau, Rangee(x));
        if gagne {
          PremierIndex(g, ls, x);
          return;
        }
      }
      gagne := false;
    }

    /** The view's column tests, column y on rows 0..2 for every column in turn, after the rows all failed. */
    method TesterColonnes() returns (gagne: bool)
      requires Valid() && sizeX >= 3 && sizeY >= 3
      requires forall j :: 0 <= j < sizeX ==> !Trois(plateau.Contents, Lignes(sizeX, sizeY)[j])
      ensures gagne ==> PremiereLigne(plateau.Contents, Lignes(sizeX, sizeY)).Some?
      ensures !gagne ==> forall j :: 0 <= j < sizeX + sizeY ==> !Trois(plateau.Contents, Lignes(sizeX, sizeY)[j])
    {
      ghost var g := plateau.Contents;
      ghost var ls := Lignes(sizeX, sizeY);
      LignesIndex(sizeX, sizeY);
      for y := 0 to sizeY
        invariant forall j :: 0 <= j < sizeX + y ==> !Trois(g, ls[j])
      {
        gagne := Tester(plateau, Colonne(y));
        if gagne {
          PremierIndex(g, ls, sizeX + y);
          return;
        }
      }
      gagne := false;
    }
  }
}
