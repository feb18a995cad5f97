// Tic-tac-toe on the 3 by 3 by 3 cube. The cube is a board of its own:
// three layers of three rows of three cells, each empty or holding a mark.
// estTermine tests the 49 straight lines of the cube in a fixed order and
// stops at the first one whose three marks have one colour.
module Morpion3D {
  import opened Lang
  import opened Grille
  import opened Modele
  import opened Partie

  // ================================================================ the cube

  /** A cell of the cube: row x, column y, layer z. */
  datatype Cellule = Cellule(x: int, y: int, z: int)

  predicate DansCube(c: Cellule)
  {
    0 <= c.x < 3 && 0 <= c.y < 3 && 0 <= c.z < 3
  }

  /** The marks on the cube, by cell: Plateau.getCase(x, y, z).getPiece(); a cell absent from the map is empty. */
  type Cube = map<Cellule, PieceVal>

  /** Only cells of the cube hold marks. */
  predicate Forme(q: Cube)
  {
    forall c :: c in q ==> DansCube(c)
  }

  /** What a cell holds. */
  function Au(q: Cube, c: Cellule): Option<PieceVal>
  {
    if c in q then Some(q[c]) else None
  }

  /** The empty cube. */
  const VIDE: Cube := map[]

  /** The empty cube holds nothing in any cell. */
  lemma VideVide(c: Cellule)
    ensures Forme(VIDE) && Au(VIDE, c) == None
  {
  }

  /** A cube whose 27 cells are all empty is the empty cube. */
  lemma VideUnique(q: Cube)
    requires Forme(q) && forall c :: DansCube(c) ==> Au(q, c).None?
    ensures q == VIDE
  {
    assert forall c :: c !in q;
  }

  /** Case.setPiece on cell c: c now holds v, every other cell is as it was. */
  function Poser(q: Cube, c: Cellule, v: Option<PieceVal>): (r: Cube)
    requires Forme(q) && DansCube(c)
    ensures Forme(r) && Au(r, c) == v
    ensures forall d :: d != c ==> Au(r, d) == Au(q, d)
  {
    if v.Some? then q[c := v.value] else q - {c}
  }

  /** Every cell of the cube holds a mark. */
  predicate Plein(q: Cube)
  {
    forall x, y, z :: 0 <= x < 3 && 0 <= y < 3 && 0 <= z < 3 ==> Au(q, Cellule(x, y, z)).Some?
  }

  // ================================================================ lines of three

  /** Three cells checked together, in the order verifierAlignement receives them. */
  datatype Triplet = Triplet(a: Cellule, b: Cellule, c: Cellule)

  /** The cells of a triplet. */
  function Cellules(t: Triplet): set<Cellule>
  {
    {t.a, t.b, t.c}
  }

  /** Three marks whose colour strings are equal along the chain p1 = p2, p2 = p3. */
  predicate Aligne(q: Cube, t: Triplet)
  {
    Au(q, t.a).Some? && Au(q, t.b).Some? && Au(q, t.c).Some?
    && Au(q, t.a).value.couleur == Au(q, t.b).value.couleur
    && Au(q, t.b).value.couleur == Au(q, t.c).value.couleur
  }

  /** The first triplet of ts, in order, that holds three marks of one colour. */
  function PremierAlignement(q: Cube, ts: seq<Triplet>): (r: Option<Triplet>)
    ensures r.Some? ==> r.value in ts && Aligne(q, r.value)
  {
    if |ts| == 0 then None
    else if Aligne(q, ts[0]) then Some(ts[0])
    else PremierAlignement(q, ts[1..])
  }

  /** The scan finds nothing exactly when no triplet of ts holds three of one colour. */
  lemma {:induction false} AucunAlignement(q: Cube, ts: seq<Triplet>)
    ensures PremierAlignement(q, ts).None? <==> forall t :: t in ts ==> !Aligne(q, t)
  {
    if |ts| > 0 && !Aligne(q, ts[0]) {
      AucunAlignement(q, ts[1..]);
      assert forall t :: t in ts ==> t == ts[0] || t in ts[1..];
    }
  }

  /** What the scan finds is the first: every triplet before it fails. */
  lemma {:induction false} AlignementPremier(q: Cube, ts: seq<Triplet>)
    requires PremierAlignement(q, ts).Some?
    ensures exists i :: 0 <= i < |ts| && ts[i] == PremierAlignement(q, ts).value
                        && forall j :: 0 <= j < i ==> !Aligne(q, ts[j])
  {
    if !Aligne(q, ts[0]) {
      AlignementPremier(q, ts[1..]);
      var i :| 0 <= i < |ts[1..]| && ts[1..][i] == PremierAlignement(q, ts[1..]).value
               && forall j :: 0 <= j < i ==> !Aligne(q, ts[1..][j]);
      assert ts[i + 1] == PremierAlignement(q, ts).value;
      forall j | 0 <= j < i + 1 ensures !Aligne(q, ts[j]) {
        if j > 0 {
          assert ts[j] == ts[1..][j - 1];
        }
      }
    } else {
      assert ts[0] == PremierAlignement(q, ts).value;
    }
  }

  /** Scanning two lists one after the other finds what the scan of their concatenation finds. */
  lemma {:induction false} AlignementConcat(q: Cube, s: seq<Triplet>, t: seq<Triplet>)
    ensures PremierAlignement(q, s + t) ==
      if PremierAlignement(q, s).Some? then PremierAlignement(q, s) else PremierAlignement(q, t)
  {
    if |s| == 0 {
      assert s + t == t;
    } else {
      assert (s + t)[0] == s[0];
      assert (s + t)[1..] == s[1..] + t;
      AlignementConcat(q, s[1..], t);
    }
  }

  /** A triplet of three after triplets that all fail is what the scan finds. */
  lemma {:induction false} AlignementIndex(q: Cube, ts: seq<Triplet>, k: nat)
    requires k < |ts| && Aligne(q, ts[k]) && forall j :: 0 <= j < k ==> !Aligne(q, ts[j])
    ensures PremierAlignement(q, ts) == Some(ts[k])
  {
    if k > 0 {
      assert !Aligne(q, ts[0]);
      AlignementIndex(q, ts[1..], k - 1);
    }
  }

  /** The scan of a list that starts with two triplets tests those two first. */
  lemma Paire(q: Cube, t1: Triplet, t2: Triplet, r: seq<Triplet>)
    ensures PremierAlignement(q, [t1, t2] + r) ==
      if Aligne(q, t1) then Some(t1) else if Aligne(q, t2) then Some(t2) else PremierAlignement(q, r)
  {
    assert ([t1, t2] + r)[1..] == [t2] + r;
    assert ([t2] + r)[1..] == r;
  }

  /** When every triplet fails the scan finds nothing. */
  lemma AucunIndex(q: Cube, ts: seq<Triplet>)
    requires forall j :: 0 <= j < |ts| ==> !Aligne(q, ts[j])
    ensures PremierAlignement(q, ts) == None
  {
    AucunAlignement(q, ts);
  }

  /** The same three cells, the other way round. */
  function Inverse(t: Triplet): Triplet
  {
    Triplet(t.c, t.b, t.a)
  }

  /** Reading a triplet backwards does not change whether it holds three of one colour. */
  lemma AligneInverse(q: Cube, t: Triplet)
    ensures Aligne(q, Inverse(t)) <==> Aligne(q, t)
  {
  }

  // ================================================================ the 49 lines

  /** verifierGrille(z): the three rows, the three columns, the diagonal and the anti-diagonal of layer z. */
  function Couche(z: int): seq<Triplet>
  {
    [Triplet(Cellule(0, 0, z), Cellule(0, 1, z), Cellule(0, 2, z)),
     Triplet(Cellule(1, 0, z), Cellule(1, 1, z), Cellule(1, 2, z)),
     Triplet(Cellule(2, 0, z), Cellule(2, 1, z), Cellule(2, 2, z)),
     Triplet(Cellule(0, 0, z), Cellule(1, 0, z), Cellule(2, 0, z)),
     Triplet(Cellule(0, 1, z), Cellule(1, 1, z), Cellule(2, 1, z)),
     Triplet(Cellule(0, 2, z), Cellule(1, 2, z), Cellule(2, 2, z)),
     Triplet(Cellule(0, 0, z), Cellule(1, 1, z), Cellule(2, 2, z)),
     Triplet(Cellule(0, 2, z), Cellule(1, 1, z), Cellule(2, 0, z))]
  }

  lemma CoucheRangee(z: int, x: int)
    requires 0 <= x < 3
    ensures Couche(z)[x] == Triplet(Cellule(x, 0, z), Cellule(x, 1, z), Cellule(x, 2, z))
  {
  }

  lemma CoucheColonne(z: int, y: int)
    requires 0 <= y < 3
    ensures Couche(z)[3 + y] == Triplet(Cellule(0, y, z), Cellule(1, y, z), Cellule(2, y, z))
  {
  }

  /** verifierColonnesVerticales: the same square on the three layers, x outer and y inner. */
  const VERTICALES: seq<Triplet> := [
    Triplet(Cellule(0, 0, 0), Cellule(0, 0, 1), Cellule(0, 0, 2)),
    Triplet(Cellule(0, 1, 0), Cellule(0, 1, 1), Cellule(0, 1, 2)),
    Triplet(Cellule(0, 2, 0), Cellule(0, 2, 1), Cellule(0, 2, 2)),
    Triplet(Cellule(1, 0, 0), Cellule(1, 0, 1), Cellule(1, 0, 2)),
    Triplet(Cellule(1, 1, 0), Cellule(1, 1, 1), Cellule(1, 1, 2)),
    Triplet(Cellule(1, 2, 0), Cellule(1, 2, 1), Cellule(1, 2, 2)),
    Triplet(Cellule(2, 0, 0), Cellule(2, 0, 1), Cellule(2, 0, 2)),
    Triplet(Cellule(2, 1, 0), Cellule(2, 1, 1), Cellule(2, 1, 2)),
    Triplet(Cellule(2, 2, 0), Cellule(2, 2, 1), Cellule(2, 2, 2))]

  lemma VerticalesIndex(x: int, y: int)
    requires 0 <= x < 3 && 0 <= y < 3
    ensures VERTICALES[3 * x + y] == Triplet(Cellule(x, y, 0), Cellule(x, y, 1), Cellule(x, y, 2))
  {
  }

  /**
   * verifierDiagonalesInterGrillesFaces: for each y the two diagonals of the
   * face at column y (from layer 0, then from layer 2), then for each x the
   * two diagonals of the face at row x.
   */
  const FACES: seq<Triplet> := [
    Triplet(Cellule(0, 0, 0), Cellule(1, 0, 1), Cellule(2, 0, 2)),
    Triplet(Cellule(0, 0, 2), Cellule(1, 0, 1), Cellule(2, 0, 0)),
    Triplet(Cellule(0, 1, 0), Cellule(1, 1, 1), Cellule(2, 1, 2)),
    Triplet(Cellule(0, 1, 2), Cellule(1, 1, 1), Cellule(2, 1, 0)),
    Triplet(Cellule(0, 2, 0), Cellule(1, 2, 1), Cellule(2, 2, 2)),
    Triplet(Cellule(0, 2, 2), Cellule(1, 2, 1), Cellule(2, 2, 0)),
    Triplet(Cellule(0, 0, 0), Cellule(0, 1, 1), Cellule(0, 2, 2)),
    Triplet(Cellule(0, 0, 2), Cellule(0, 1, 1), Cellule(0, 2, 0)),
    Triplet(Cellule(1, 0, 0), Cellule(1, 1, 1), Cellule(1, 2, 2)),
    Triplet(Cellule(1, 0, 2), Cellule(1, 1, 1), Cellule(1, 2, 0)),
    Triplet(Cellule(2, 0, 0), Cellule(2, 1, 1), Cellule(2, 2, 2)),
    Triplet(Cellule(2, 0, 2), Cellule(2, 1, 1), Cellule(2, 2, 0))]

  /** verifierDiagonalesPrincipalesCube: the four corner-to-corner diagonals through the centre. */
  const PRINCIPALES: seq<Triplet> := [
    Triplet(Cellule(0, 0, 0), Cellule(1, 1, 1), Cellule(2, 2, 2)),
    Triplet(Cellule(0, 0, 2), Cellule(1, 1, 1), Cellule(2, 2, 0)),
    Triplet(Cellule(0, 2, 0), Cellule(1, 1, 1), Cellule(2, 0, 2)),
    Triplet(Cellule(0, 2, 2), Cellule(1, 1, 1), Cellule(2, 0, 0))]

  /** The table of every triplet estTermine tests, in its order. */
  const LIGNES3D: seq<Triplet> := Couche(0) + Couche(1) + Couche(2) + VERTICALES + FACES + PRINCIPALES

  /** Three cells in a straight line: a and c distinct cells of the cube, b their midpoint. */
  predicate Droite(t: Triplet)
  {
    DansCube(t.a) && DansCube(t.c) && t.a != t.c
    && 2 * t.b.x == t.a.x + t.c.x && 2 * t.b.y == t.a.y + t.c.y && 2 * t.b.z == t.a.z + t.c.z
  }

  /** Every triplet of the list is a straight line of the cube. */
  predicate Droites(ts: seq<Triplet>)
  {
    forall t :: t in ts ==> Droite(t)
  }

  lemma CouchesDroites(z: int)
    requires 0 <= z < 3
    ensures Droites(Couche(z))
  {
  }

  /** There are 49 triplets, and each is a straight line of the cube. */
  lemma LignesDroites()
    ensures |LIGNES3D| == 49 && Droites(LIGNES3D)
  {
    CouchesDroites(0);
    CouchesDroites(1);
    CouchesDroites(2);
    DroitesConcat(Couche(0), Couche(1));
    DroitesConcat(Couche(0) + Couche(1), Couche(2));
    VerticalesDroites();
    FacesDroites();
    PrincipalesDroites();
    DroitesConcat(Couche(0) + Couche(1) + Couche(2), VERTICALES);
    DroitesConcat(Couche(0) + Couche(1) + Couche(2) + VERTICALES, FACES);
    DroitesConcat(Couche(0) + Couche(1) + Couche(2) + VERTICALES + FACES, PRINCIPALES);
  }

  lemma VerticalesDroites()
    ensures Droites(VERTICALES)
  {
  }

  lemma FacesDroites()
    ensures Droites(FACES)
  {
  }

  lemma PrincipalesDroites()
    ensures Droites(PRINCIPALES)
  {
  }

  lemma DroitesConcat(s: seq<Triplet>, t: seq<Triplet>)
    requires Droites(s) && Droites(t)
    ensures Droites(s + t)
  {
  }

  /** A straight line within one layer is one of that layer's eight lines, in one direction or the other. */
  lemma CoucheComplete(t: Triplet)
    requires Droite(t) && t.a.z == t.c.z
    ensures t in Couche(t.a.z) || Inverse(t) in Couche(t.a.z)
  {
  }

  /** A straight line from layer 0 to layer 2 is a vertical, a face diagonal or a cube diagonal. */
  lemma TraverseComplete(t: Triplet)
    requires Droite(t) && t.a.z == 0 && t.c.z == 2
    ensures t in VERTICALES || t in FACES || Inverse(t) in FACES || t in PRINCIPALES || Inverse(t) in PRINCIPALES
  {
  }

  /** Every straight line of the cube is scanned, in one direction or the other. */
  lemma LignesCompletes(t: Triplet)
    requires Droite(t)
    ensures t in LIGNES3D || Inverse(t) in LIGNES3D
  {
    var u := if t.a.z == 2 then Inverse(t) else t;
    assert Inverse(u) == if t.a.z == 2 then t else Inverse(t);
    if u.a.z == u.c.z {
      CoucheComplete(u);
      var z := u.a.z;
      assert z == 0 || z == 1 || z == 2;
    } else {
      TraverseComplete(u);
    }
  }

  // ---------------------------------------------------------------- the order of the loops

  /** The layers from z up, in the order of the z loop of estTermine. */
  function CouchesDepuis(z: int): seq<Triplet>
    decreases 3 - z
  {
    if z >= 3 then [] else Couche(z) + CouchesDepuis(z + 1)
  }

  /** The verticals of row x, in the order of the y loop of verifierColonnesVerticales. */
  function Piliers(x: int): seq<Triplet>
  {
    [Triplet(Cellule(x, 0, 0), Cellule(x, 0, 1), Cellule(x, 0, 2)),
     Triplet(Cellule(x, 1, 0), Cellule(x, 1, 1), Cellule(x, 1, 2)),
     Triplet(Cellule(x, 2, 0), Cellule(x, 2, 1), Cellule(x, 2, 2))]
  }

  /** The verticals from row x on, in the order of the x loop of verifierColonnesVerticales. */
  function VerticalesDepuis(x: int): seq<Triplet>
    decreases 3 - x
  {
    if x >= 3 then [] else Piliers(x) + VerticalesDepuis(x + 1)
  }

  /** The two diagonals of the face at column y: from layer 0, then from layer 2. */
  function FaceColonne(y: int): seq<Triplet>
  {
    [Triplet(Cellule(0, y, 0), Cellule(1, y, 1), Cellule(2, y, 2)),
     Triplet(Cellule(0, y, 2), Cellule(1, y, 1), Cellule(2, y, 0))]
  }

  /** The two diagonals of the face at row x: from layer 0, then from layer 2. */
  function FaceRangee(x: int): seq<Triplet>
  {
    [Triplet(Cellule(x, 0, 0), Cellule(x, 1, 1), Cellule(x, 2, 2)),
     Triplet(Cellule(x, 0, 2), Cellule(x, 1, 1), Cellule(x, 2, 0))]
  }

  /** The face diagonals at the columns from y up, in the order of the y loop. */
  function FacesY(y: int): seq<Triplet>
    decreases 3 - y
  {
    if y >= 3 then [] else FaceColonne(y) + FacesY(y + 1)
  }

  /** The face diagonals at the rows from x up, in the order of the x loop. */
  function FacesX(x: int): seq<Triplet>
    decreases 3 - x
  {
    if x >= 3 then [] else FaceRangee(x) + FacesX(x + 1)
  }

  /** The y loop and then the x loop visit the twelve face diagonals of the table, in its order. */
  lemma FacesDecoupe()
    ensures FACES == FacesY(0) + FacesX(0)
  {
  }

  /** The 49 triplets in the order the loops of estTermine produce them. */
  function Lignes(): seq<Triplet>
  {
    CouchesDepuis(0) + VerticalesDepuis(0) + (FacesY(0) + FacesX(0)) + PRINCIPALES
  }

  /** The z loop visits the three layers in order. */
  lemma CouchesTable()
    ensures CouchesDepuis(0) == Couche(0) + Couche(1) + Couche(2)
  {
    assert CouchesDepuis(3) == [];
  }

  /** The x and y loops visit the nine verticals of the table, in its order. */
  lemma VerticalesTable()
    ensures VerticalesDepuis(0) == VERTICALES
  {
    assert VerticalesDepuis(3) == [];
  }

  /** The loops produce exactly the table, in the table's order. */
  lemma LignesTable()
    ensures Lignes() == LIGNES3D
  {
    CouchesTable();
    VerticalesTable();
    FacesDecoupe();
  }

  /**
   * The scan of the 49 lines finds a line exactly when some straight line
   * of the cube holds three marks of one colour.
   */
  lemma Alignement3D(q: Cube)
    ensures PremierAlignement(q, Lignes()).Some? <==> exists t :: Droite(t) && Aligne(q, t)
  {
    LignesTable();
    LignesDroites();
    if exists t :: Droite(t) && Aligne(q, t) {
      var t :| Droite(t) && Aligne(q, t);
      LignesCompletes(t);
      AligneInverse(q, t);
      var u := if t in LIGNES3D then t else Inverse(t);
      assert u in LIGNES3D && Aligne(q, u);
      AucunAlignement(q, LIGNES3D);
    }
  }

  /** The scan of the 49 lines is the scan of the four groups, one after the other. */
  lemma Decoupage(q: Cube)
    ensures PremierAlignement(q, Lignes()) ==
      if PremierAlignement(q, CouchesDepuis(0)).Some? then PremierAlignement(q, CouchesDepuis(0))
      else if PremierAlignement(q, VerticalesDepuis(0)).Some? then PremierAlignement(q, VerticalesDepuis(0))
      else if PremierAlignement(q, FacesY(0) + FacesX(0)).Some? then PremierAlignement(q, FacesY(0) + FacesX(0))
      else PremierAlignement(q, PRINCIPALES)
  {
    var c, v, f := CouchesDepuis(0), VerticalesDepuis(0), FacesY(0) + FacesX(0);
    AlignementConcat(q, c + v + f, PRINCIPALES);
    AlignementConcat(q, c + v, f);
    AlignementConcat(q, c, v);
  }

  /** The game is over: a line of three, or a full cube. */
  predicate Termine(q: Cube)
  {
    PremierAlignement(q, Lignes()).Some? || Plein(q)
  }

  /** The empty cube is not over: it has no line of three and it is not full. */
  lemma VideNonTermine()
    ensures !Termine(VIDE)
  {
    VideVide(Cellule(0, 0, 0));
    assert Au(VIDE, Cellule(0, 0, 0)).None?;
    forall t | t in Lignes() ensures !Aligne(VIDE, t) {
      VideVide(t.a);
    }
    AucunAlignement(VIDE, Lignes());
  }

  // ================================================================ the game

  /** A move of the 3D game: the cell it lands on, or none for a null arrival square. */
  datatype Coup3D = Coup3D(arrivee: Option<Cellule>)

  /**
   * JeuTicTacToe3D: the shared game state, the cube it is played on, and
   * the cube's highlight matrix, kept as the set of its cells that are true.
   */
  class JeuTicTacToe3D {
    const jeu: Jeu
    var cube: Cube
    var winningCells3D: set<Cellule>

    ghost predicate Valid()
      reads this, jeu
    {
      jeu.Valid() && Forme(cube)
    }

    /** new JeuTicTacToe3D(plateau): a new game on an empty cube, white to move, nothing marked. */
    constructor (plateau: Plateau, session: Session)
      modifies session`instance
      ensures Valid() && jeu.plateau == plateau && jeu.session == session && session.instance == jeu
      ensures cube == VIDE && winningCells3D == {}
      ensures jeu.joueurCourant == jeu.JOUEUR_BLANC && jeu.gagnant == null
    {
      jeu := new Jeu(plateau, session);
      cube := VIDE;
      winningCells3D := {};
    }

    /** clearWinningCells' result: the 2D highlight matrix has the board's size and holds no mark. */
    ghost predicate Efface()
      reads jeu, jeu.plateau, jeu.winningCells
    {
      jeu.winningCells != null
      && jeu.winningCells.Length0 == jeu.plateau.sizeX && jeu.winningCells.Length1 == jeu.plateau.sizeY
      && forall i, j :: 0 <= i < jeu.plateau.sizeX && 0 <= j < jeu.plateau.sizeY ==> !jeu.winningCells[i, j]
    }

    /** The winner named by the colour on the line's first cell. */
    ghost predicate Annonce(t: Triplet)
      reads this, jeu
    {
      Au(cube, t.a).Some? && jeu.gagnant == jeu.GagnantSelon(Au(cube, t.a).value.couleur)
    }

    /**
     * The outcome of scanning the triplets ts: the first line of three, if
     * any, names the winner and its cells are marked; otherwise neither the
     * winner nor the marks change.
     */
    twostate predicate Trouve(ts: seq<Triplet>, gagne: bool)
      reads this, jeu
    {
      var r := PremierAlignement(cube, ts);
      && gagne == r.Some?
      && (gagne ==> Annonce(r.value) && winningCells3D == old(winningCells3D) + Cellules(r.value))
      && (!gagne ==> jeu.gagnant == old(jeu.gagnant) && winningCells3D == old(winningCells3D))
    }

    /**
     * What estTermine decides: the first of the 49 lines that holds three
     * of one colour wins and is marked; with none, a full cube is a draw
     * with no winner, and otherwise the game goes on.
     */
    twostate predicate Fin(fini: bool)
      reads this, jeu
    {
      var r := PremierAlignement(cube, Lignes());
      if r.Some? then
        fini && Annonce(r.value) && winningCells3D == old(winningCells3D) + Cellules(r.value)
      else
        && fini == Plein(cube)
        && jeu.gagnant == (if fini then null else old(jeu.gagnant))
        && winningCells3D == old(winningCells3D)
    }

    /**
     * jouerPartie: no move, no target cell or an occupied one change
     * nothing and give false; otherwise a mark of the mover's colour is
     * placed, estTermine decides (clearing the 2D highlight matrix), and
     * the turn passes only if the game goes on.
     */
    method JouerPartie(premierCoup: Option<Coup3D>) returns (joue: bool)
      requires Valid()
      requires premierCoup.Some? && premierCoup.value.arrivee.Some? ==> DansCube(premierCoup.value.arrivee.value)
      modifies this, jeu`joueurCourant, jeu`gagnant, jeu`winningCells
      ensures Valid()
      ensures joue <==> premierCoup.Some? && premierCoup.value.arrivee.Some?
                        && Au(old(cube), premierCoup.value.arrivee.value).None?
      ensures !joue ==>
        && cube == old(cube) && jeu.joueurCourant == old(jeu.joueurCourant)
        && jeu.gagnant == old(jeu.gagnant) && jeu.winningCells == old(jeu.winningCells)
        && winningCells3D == old(winningCells3D)
      ensures joue ==>
        && cube == Poser(old(cube), premierCoup.value.arrivee.value,
                         Some(PieceVal(PionTicTacToe, old(jeu.joueurCourant).couleur.Name(), false)))
        && Fin(Termine(cube))
        && jeu.joueurCourant == (if Termine(cube) then old(jeu.joueurCourant) else jeu.Adversaire(old(jeu.joueurCourant)))
        && fresh(jeu.winningCells) && Efface()
    {
      if premierCoup.None? {
        return false;
      }
      var caseArrivee := premierCoup.value.arrivee;
      if caseArrivee.None? || Au(cube, caseArrivee.value).Some? {
        return false;
      }
      cube := Poser(cube, caseArrivee.value, Some(PieceVal(PionTicTacToe, jeu.joueurCourant.couleur.Name(), false)));
      var fin := EstTermine();
      if !fin {
        jeu.Alterner();
      }
      joue := true;
    }

    /**
     * estTermine: the 2D highlight matrix is cleared, the four groups of
     * lines are scanned in order and the first success ends the scan; with
     * no line, a full cube is a draw. The marks are left where they are.
     */
    method EstTermine() returns (fini: bool)
      requires Valid()
      modifies jeu`gagnant, jeu`winningCells, this`winningCells3D
      ensures Valid() && Fin(fini) && fini == Termine(cube)
      ensures fresh(jeu.winningCells) && Efface()
    {
      jeu.ClearWinningCells();
      fini := ChercherLignes();
      if fini {
        return;
      }
      fini := EstPlein();
      if fini {
        jeu.gagnant := null;
        jeu.ClearWinningCells();
      }
    }

    /** The four tests of estTermine, in order; the first that succeeds ends the scan. */
    method ChercherLignes() returns (gagne: bool)
      requires Valid()
      modifies jeu`gagnant, this`winningCells3D
      ensures Valid() && Trouve(Lignes(), gagne)
    {
      Decoupage(cube);
      gagne := ChercherCouches();
      if gagne {
        return;
      }
      gagne := VerifierColonnesVerticales();
      if gagne {
        return;
      }
      gagne := VerifierDiagonalesInterGrillesFaces();
      if gagne {
        return;
      }
      gagne := VerifierDiagonalesPrincipalesCube();
    }

    /** The z loop of estTermine: layer 0, then 1, then 2. */
    method ChercherCouches() returns (gagne: bool)
      requires Valid()
      modifies jeu`gagnant, this`winningCells3D
      ensures Valid() && Trouve(CouchesDepuis(0), gagne)
    {
      for z := 0 to 3
        invariant Valid()
        invariant jeu.gagnant == old(jeu.gagnant) && winningCells3D == old(winningCells3D)
        invariant PremierAlignement(cube, CouchesDepuis(0)) == PremierAlignement(cube, CouchesDepuis(z))
      {
        AlignementConcat(cube, Couche(z), CouchesDepuis(z + 1));
        gagne := VerifierGrille(z);
        if gagne {
          return;
        }
      }
      gagne := false;
    }

    /** verifierGrille(z): the eight lines of layer z, in order. */
    method VerifierGrille(z: int) returns (gagne: bool)
      requires Valid() && 0 <= z < 3
      modifies jeu`gagnant, this`winningCells3D
      ensures Valid() && Trouve(Couche(z), gagne)
    {
      ghost var ts := Couche(z);
      for x := 0 to 3
        invariant Valid()
        invariant jeu.gagnant == old(jeu.gagnant) && winningCells3D == old(winningCells3D)
        invariant forall j :: 0 <= j < x ==> !Aligne(cube, ts[j])
      {
        CoucheRangee(z, x);
        gagne := VerifierAlignement(Cellule(x, 0, z), Cellule(x, 1, z), Cellule(x, 2, z));
        if gagne {
          AlignementIndex(cube, ts, x);
          return;
        }
      }
      for y := 0 to 3
        invariant Valid()
        invariant jeu.gagnant == old(jeu.gagnant) && winningCells3D == old(winningCells3D)
        invariant forall j :: 0 <= j < 3 + y ==> !Aligne(cube, ts[j])
      {
        CoucheColonne(z, y);
        gagne := VerifierAlignement(Cellule(0, y, z), Cellule(1, y, z), Cellule(2, y, z));
        if gagne {
          AlignementIndex(cube, ts, 3 + y);
          return;
        }
      }
      gagne := VerifierAlignement(Cellule(0, 0, z), Cellule(1, 1, z), Cellule(2, 2, z));
      if gagne {
        AlignementIndex(cube, ts, 6);
        return;
      }
      gagne := VerifierAlignement(Cellule(0, 2, z), Cellule(1, 1, z), Cellule(2, 0, z));
      if gagne {
        AlignementIndex(cube, ts, 7);
      } else {
        AucunIndex(cube, ts);
      }
    }

    /** verifierColonnesVerticales: the nine verticals, x outer and y inner. */
    method VerifierColonnesVerticales() returns (gagne: bool)
      requires Valid()
      modifies jeu`gagnant, this`winningCells3D
      ensures Valid() && Trouve(VerticalesDepuis(0), gagne)
    {
      for x := 0 to 3
        invariant Valid()
        invariant jeu.gagnant == old(jeu.gagnant) && winningCells3D == old(winningCells3D)
        invariant PremierAlignement(cube, VerticalesDepuis(0)) == PremierAlignement(cube, VerticalesDepuis(x))
      {
        AlignementConcat(cube, Piliers(x), VerticalesDepuis(x + 1));
        gagne := VerifierPiliers(x);
        if gagne {
          return;
        }
      }
      gagne := false;
    }

    /** The y loop of verifierColonnesVerticales at row x. */
    method VerifierPiliers(x: int) returns (gagne: bool)
      requires Valid()
      modifies jeu`gagnant, this`winningCells3D
      ensures Valid() && Trouve(Piliers(x), gagne)
    {
      for y := 0 to 3
        invariant Valid()
        invariant jeu.gagnant == old(jeu.gagnant) && winningCells3D == old(winningCells3D)
        invariant forall j :: 0 <= j < y ==> !Aligne(cube, Piliers(x)[j])
      {
        gagne := VerifierAlignement(Cellule(x, y, 0), Cellule(x, y, 1), Cellule(x, y, 2));
        if gagne {
          AlignementIndex(cube, Piliers(x), y);
          return;
        }
      }
      AucunIndex(cube, Piliers(x));
      gagne := false;
    }

    /** verifierDiagonalesInterGrillesFaces: the diagonals of the faces at each column y, then at each row x. */
    method VerifierDiagonalesInterGrillesFaces() returns (gagne: bool)
      requires Valid()
      modifies jeu`gagnant, this`winningCells3D
      ensures Valid() && Trouve(FacesY(0) + FacesX(0), gagne)
    {
      AlignementConcat(cube, FacesY(0), FacesX(0));
      gagne := FacesColonnes();
      if gagne {
        return;
      }
      gagne := FacesRangees();
    }

    /** The y loop of verifierDiagonalesInterGrillesFaces: the two diagonals of the face at column y. */
    method FacesColonnes() returns (gagne: bool)
      requires Valid()
      modifies jeu`gagnant, this`winningCells3D
      ensures Valid() && Trouve(FacesY(0), gagne)
    {
      for y := 0 to 3
        invariant Valid()
        invariant jeu.gagnant == old(jeu.gagnant) && winningCells3D == old(winningCells3D)
        invariant PremierAlignement(cube, FacesY(0)) == PremierAlignement(cube, FacesY(y))
      {
        AlignementConcat(cube, FaceColonne(y), FacesY(y + 1));
        gagne := VerifierAlignement(Cellule(0, y, 0), Cellule(1, y, 1), Cellule(2, y, 2));
        if gagne {
          AlignementIndex(cube, FaceColonne(y), 0);
          return;
        }
        gagne := VerifierAlignement(Cellule(0, y, 2), Cellule(1, y, 1), Cellule(2, y, 0));
        if gagne {
          AlignementIndex(cube, FaceColonne(y), 1);
          return;
        }
        AucunIndex(cube, FaceColonne(y));
      }
      gagne := false;
    }

    /** The x loop of verifierDiagonalesInterGrillesFaces: the two diagonals of the face at row x. */
    method FacesRangees() returns (gagne: bool)
      requires Valid()
      modifies jeu`gagnant, this`winningCells3D
      ensures Valid() && Trouve(FacesX(0), gagne)
    {
      for x := 0 to 3
        invariant Valid()
        invariant jeu.gagnant == old(jeu.gagnant) && winningCells3D == old(winningCells3D)
        invariant PremierAlignement(cube, FacesX(0)) == PremierAlignement(cube, FacesX(x))
      {
        AlignementConcat(cube, FaceRangee(x), FacesX(x + 1));
        gagne := VerifierAlignement(Cellule(x, 0, 0), Cellule(x, 1, 1), Cellule(x, 2, 2));
        if gagne {
          AlignementIndex(cube, FaceRangee(x), 0);
          return;
        }
        gagne := VerifierAlignement(Cellule(x, 0, 2), Cellule(x, 1, 1), Cellule(x, 2, 0));
        if gagne {
          AlignementIndex(cube, FaceRangee(x), 1);
          return;
        }
        AucunIndex(cube, FaceRangee(x));
      }
      gagne := false;
    }

    /** verifierDiagonalesPrincipalesCube: the four cube diagonals, in order. */
    method VerifierDiagonalesPrincipalesCube() returns (gagne: bool)
      requires Valid()
      modifies jeu`gagnant, this`winningCells3D
      ensures Valid() && Trouve(PRINCIPALES, gagne)
    {
      var d1 := Triplet(Cellule(0, 0, 0), Cellule(1, 1, 1), Cellule(2, 2, 2));
      var d2 := Triplet(Cellule(0, 0, 2), Cellule(1, 1, 1), Cellule(2, 2, 0));
      var d3 := Triplet(Cellule(0, 2, 0), Cellule(1, 1, 1), Cellule(2, 0, 2));
      var d4 := Triplet(Cellule(0, 2, 2), Cellule(1, 1, 1), Cellule(2, 0, 0));
      assert PRINCIPALES == [d1, d2] + [d3, d4];
      Paire(cube, d1, d2, [d3, d4]);
      Paire(cube, d3, d4, []);
      assert [d3, d4] + [] == [d3, d4];
      gagne := VerifierAlignement(d1.a, d1.b, d1.c);
      if gagne {
        return;
      }
      gagne := VerifierAlignement(d2.a, d2.b, d2.c);
      if gagne {
        return;
      }
      gagne := VerifierAlignement(d3.a, d3.b, d3.c);
      if gagne {
        return;
      }
      gagne := VerifierAlignement(d4.a, d4.b, d4.c);
    }

    /**
     * verifierAlignement: three marks with equal colour strings along the
     * chain set the winner from the first one's colour and mark the three
     * cells; otherwise nothing changes.
     */
    method VerifierAlignement(a: Cellule, b: Cellule, c: Cellule) returns (gagne: bool)
      requires Valid()
      modifies jeu`gagnant, this`winningCells3D
      ensures Valid()
      ensures gagne == Aligne(cube, Triplet(a, b, c))
      ensures gagne ==> Annonce(Triplet(a, b, c)) && winningCells3D == old(winningCells3D) + {a, b, c}
      ensures !gagne ==> jeu.gagnant == old(jeu.gagnant) && winningCells3D == old(winningCells3D)
    {
      var p1 := Au(cube, a);
      var p2 := Au(cube, b);
      var p3 := Au(cube, c);
      if p1.Some? && p2.Some? && p3.Some? && p1.value.couleur == p2.value.couleur && p2.value.couleur == p3.value.couleur {
        jeu.gagnant := jeu.GagnantSelon(p1.value.couleur);
        winningCells3D := winningCells3D + {a, b, c};
        return true;
      }
      return false;
    }

    /** The full-cube test: x, y and z loops; the first empty cell ends all three. */
    method EstPlein() returns (plein: bool)
      requires Valid()
      ensures plein == Plein(cube)
    {
      plein := true;
      for x := 0 to 3
        invariant plein && forall i, j, k :: 0 <= i < x && 0 <= j < 3 && 0 <= k < 3 ==> Au(cube, Cellule(i, j, k)).Some?
      {
        for y := 0 to 3
          invariant plein && forall j, k :: 0 <= j < y && 0 <= k < 3 ==> Au(cube, Cellule(x, j, k)).Some?
        {
          for z := 0 to 3
            invariant plein && forall k :: 0 <= k < z ==> Au(cube, Cellule(x, y, k)).Some?
          {
            if Au(cube, Cellule(x, y, z)).None? {
              plein := false;
              break;
            }
          }
          if !plein {
            break;
          }
        }
        if !plein {
          break;
        }
      }
    }

    /**
     * reinitialiserPartie: all 27 cells emptied, the 2D matrix cleared, no
     * winner, white to move; the cube's marks are left as they were.
     */
    method ReinitialiserPartie()
      requires Valid()
      modifies this`cube, jeu`winningCells, jeu`gagnant, jeu`joueurCourant
      ensures Valid() && cube == VIDE && !Termine(cube)
      ensures jeu.gagnant == null && jeu.joueurCourant == jeu.JOUEUR_BLANC
      ensures fresh(jeu.winningCells) && Efface()
    {
      Vider();
      VideNonTermine();
      jeu.ClearWinningCells();
      jeu.gagnant := null;
      jeu.joueurCourant := jeu.JOUEUR_BLANC;
    }

    /** The x, y and z loops of reinitialiserPartie: every cell of the cube emptied. */
    method Vider()
      requires Valid()
      modifies this`cube
      ensures Valid() && cube == VIDE
    {
      for x := 0 to 3
        invariant Valid()
        invariant forall c :: DansCube(c) && c.x < x ==> Au(cube, c).None?
      {
        for y := 0 to 3
          invariant Valid()
          invariant forall c :: DansCube(c) && (c.x < x || (c.x == x && c.y < y)) ==> Au(cube, c).None?
        {
          for z := 0 to 3
            invariant Valid()
            invariant forall c :: DansCube(c) && (c.x < x || (c.x == x && (c.y < y || (c.y == y && c.z < z)))) ==> Au(cube, c).None?
          {
            cube := Poser(cube, Cellule(x, y, z), None);
          }
        }
      }
      VideUnique(cube);
    }
  }
}
