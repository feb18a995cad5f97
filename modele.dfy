// The object model shared by the four games: squares, the board, pieces,
// their movement strategies, moves, players and the state common to every
// game. Java subclasses of Piece and of DecCasesAccessibles are told apart
// by a `kind` tag; the process-wide statics of Plateau and Jeu become
// explicit objects (a Plateau, a Session).
module Modele {
  import opened Lang
  import opened Grille
  import opened Mouvements

  // ================================================================ Case

  /** A square: fixed coordinates and a slot for at most one piece. */
  class Case {
    const posX: int
    const posY: int
    var piece: Piece?

    constructor (x: int, y: int)
      ensures posX == x && posY == y && piece == null
    {
      posX := x;
      posY := y;
      piece := null;
    }

    function Position(): Pos { Pos(posX, posY) }

    method SetPiece(p: Piece?)
      modifies this`piece
      ensures piece == p
    {
      piece := p;
    }
  }

  // ================================================================ Piece

  /**
   * A piece: its colour string, its subclass, the board it was created for,
   * its strategy, the square it believes it stands on, and the aDejaBouge
   * flag that only Roi and Tour use.
   */
  class Piece {
    const couleur: string
    const kind: Kind
    const p: Plateau
    const dCA: DecCasesAccessibles
    var c: Case
    var aDejaBouge: bool

    /** The strategy is the one the subclass builds (const fields only, so it never changes). */
    ghost predicate Valid()
    {
      dCA.Strat() == StrategieDe(kind)
    }

    /**
     * Piece(couleur, p, c, dCA) as each subclass calls it: the strategy is
     * built for the subclass, the piece records c and is put on c.
     */
    constructor (couleur: string, kind: Kind, p: Plateau, c: Case)
      requires p.Valid() && c in p.Cells
      modifies c`piece, p`Pieces, p`Contents
      ensures this.couleur == couleur && this.kind == kind && this.p == p
      ensures this.c == c && c.piece == this && !aDejaBouge
      ensures p.Pieces == old(p.Pieces) + {this}
      ensures Valid() && fresh(dCA) && dCA.caseAPrendreEnPassant == null
      ensures dCA.base != null ==> fresh(dCA.base)
      ensures p.Valid() && p.Contents == Set(old(p.Contents), c.Position(), Some(PieceVal(kind, couleur, false)))
    {
      this.couleur := couleur;
      this.kind := kind;
      this.p := p;
      this.c := c;
      aDejaBouge := false;
      var d := NouvelleStrategie(kind);
      dCA := d;
      new;
      p.Voir(c);
      ghost var g := p.Contents;
      c.SetPiece(this);
      p.Pieces := p.Pieces + {this};
      p.Contents := Set(g, c.Position(), Vue(this));
    }

    /** The strategy object each subclass constructor passes up. */
    static method NouvelleStrategie(kind: Kind) returns (d: DecCasesAccessibles)
      ensures fresh(d) && d.Strat() == StrategieDe(kind) && d.caseAPrendreEnPassant == null
      ensures d.base != null ==> fresh(d.base)
    {
      match kind
      case Roi => d := new DecCasesAccessibles(DecRoi, null);
      case Reine =>
        var b := new DecCasesAccessibles(DecLigne, null);
        d := new DecCasesAccessibles(DecDiag, b);
      case Tour => d := new DecCasesAccessibles(DecLigne, null);
      case Fou => d := new DecCasesAccessibles(DecDiag, null);
      case Cavalier => d := new DecCasesAccessibles(DecCava, null);
      case Pion => d := new DecCasesAccessibles(DecPion, null);
      case PionPuissance4 => d := new DecCasesAccessibles(DecPuissance4, null);
      case PionTicTacToe => d := new DecCasesAccessibles(DecTicTacToe, null);
    }

    /** Records a new square; the squares themselves are not touched. */
    method SetCase(c: Case)
      modifies this`c
      ensures this.c == c
    {
      this.c := c;
    }

    /** Roi.setADejaBouge / Tour.setADejaBouge. */
    method SetADejaBouge(b: bool)
      requires kind == Roi || kind == Tour
      modifies this`aDejaBouge
      ensures aDejaBouge == b
    {
      aDejaBouge := b;
    }

    /**
     * Allied means: another piece exists and has the same colour string,
     * compared case-sensitively.
     */
    function EstAlliee(autre: Piece?): (r: bool)
      ensures r <==> autre != null && autre.couleur == couleur
    {
      autre != null && couleur == autre.couleur
    }
  }

  /** What a square shows of the piece on it. */
  ghost function Vue(p: Piece?): Option<PieceVal>
    reads (if p == null then {} else {p})`aDejaBouge
  {
    if p == null then None else Some(PieceVal(p.kind, p.couleur, p.aDejaBouge))
  }

  // ================================================================ Plateau

  /**
   * The board: sizeX rows and sizeY columns of squares, created once. Cells
   * is the set of its squares; Pieces every piece ever created for it.
   */
  class Plateau {
    const sizeX: nat
    const sizeY: nat
    const cases: array2<Case>
    ghost const Cells: set<Case>
    ghost var Pieces: set<Piece>
    /** The board as a value. */
    ghost var Contents: Grid

    /** The squares: one per coordinate pair, each knowing its coordinates. */
    ghost predicate Forme()
      reads cases
    {
      cases.Length0 == sizeX && cases.Length1 == sizeY
      && (forall x, y :: 0 <= x < sizeX && 0 <= y < sizeY ==>
            cases[x, y] in Cells && cases[x, y].posX == x && cases[x, y].posY == y)
      && (forall k :: k in Cells ==> 0 <= k.posX < sizeX && 0 <= k.posY < sizeY && cases[k.posX, k.posY] == k)
    }

    /**
     * Every piece on the board records the square it stands on, and the
     * board value shows what each square holds.
     */
    ghost predicate Valid()
      reads this, cases, Cells, Pieces
    {
      Forme()
      && (forall k :: k in Cells && k.piece != null ==> k.piece in Pieces && k.piece.c == k && k.piece.Valid())
      && Rect(Contents, sizeX, sizeY)
      && (forall k :: k in Cells ==> Contents[k.posX][k.posY] == Vue(k.piece))
    }

    /** Each square shows, in the value, the piece that stands on it. */
    lemma Voir(k: Case)
      requires Valid() && k in Cells
      ensures InBounds(Contents, k.Position()) && At(Contents, k.Position()) == Vue(k.piece)
    {
    }

    /** The square Plateau.getCase returns for a coordinate pair on the board. */
    ghost function CaseAt(q: Pos): (k: Case)
      reads cases
      requires Forme() && 0 <= q.x < sizeX && 0 <= q.y < sizeY
      ensures k in Cells && k.Position() == q
    {
      cases[q.x, q.y]
    }

    /**
     * new Plateau(lignes, colonnes): lignes rows of colonnes fresh, empty
     * squares, square (x, y) having posX = x and posY = y.
     */
    constructor (lignes: nat, colonnes: nat)
      ensures sizeX == lignes && sizeY == colonnes
      ensures Valid() && Pieces == {} && fresh(cases)
      ensures forall k :: k in Cells ==> fresh(k) && k.piece == null
      ensures Contents == Vide(lignes, colonnes)
    {
      var rows: seq<seq<Case>> := [];
      ghost var made: set<Case> := {};
      var x := 0;
      while x < lignes
        invariant 0 <= x <= lignes && |rows| == x
        invariant forall i :: 0 <= i < x ==> |rows[i]| == colonnes
        invariant forall i, j :: 0 <= i < x && 0 <= j < colonnes ==>
          rows[i][j] in made && rows[i][j].posX == i && rows[i][j].posY == j
        invariant forall k :: k in made ==>
          fresh(k) && k.piece == null && 0 <= k.posX < x && 0 <= k.posY < colonnes && rows[k.posX][k.posY] == k
      {
        var row: seq<Case> := [];
        var y := 0;
        ghost var avant := made;
        while y < colonnes
          invariant 0 <= y <= colonnes && |row| == y && avant <= made
          invariant forall j :: 0 <= j < y ==> row[j] in made && row[j].posX == x && row[j].posY == j
          invariant forall k :: k in made ==>
            fresh(k) && k.piece == null && 0 <= k.posY < colonnes
            && ((0 <= k.posX < x && rows[k.posX][k.posY] == k) || (k.posX == x && k.posY < y && row[k.posY] == k))
        {
          var k := new Case(x, y);
          row := row + [k];
          made := made + {k};
          y := y + 1;
        }
        rows := rows + [row];
        x := x + 1;
      }
      sizeX := lignes;
      sizeY := colonnes;
      cases := new Case[lignes, colonnes]((i, j) requires 0 <= i < lignes && 0 <= j < colonnes => rows[i][j]);
      Cells := made;
      Pieces := {};
      Contents := Vide(lignes, colonnes);
      new;
    }

    /** estDansLimites: the coordinates name a square of this board. */
    predicate EstDansLimites(x: int, y: int)
    {
      0 <= x < sizeX && 0 <= y < sizeY
    }

    /** getCase: the square at (x, y), or null exactly when (x, y) is off the board. */
    function GetCase(x: int, y: int): (r: Case?)
      reads cases
      requires Forme()
      ensures r == null <==> !(0 <= x < sizeX && 0 <= y < sizeY)
      ensures r != null ==> r in Cells && r.posX == x && r.posY == y
    {
      if EstDansLimites(x, y) then cases[x, y] else null
    }

    /**
     * getCasePR: the square at offset (dx, dy) from c, or null when that
     * lands off the board; never an off-board square.
     */
    function GetCasePR(c: Case, dx: int, dy: int): (r: Case?)
      reads cases
      requires Forme()
      ensures r == null <==> !(0 <= c.posX + dx < sizeX && 0 <= c.posY + dy < sizeY)
      ensures r != null ==> r in Cells && r.posX == c.posX + dx && r.posY == c.posY + dy
    {
      var newX := c.posX + dx;
      var newY := c.posY + dy;
      if EstDansLimites(newX, newY) then cases[newX, newY] else null
    }

    /** The square at an optional coordinate pair, null for none. */
    ghost function CaseOpt(o: Option<Pos>): (k: Case?)
      reads cases
      requires Forme() && (o.Some? ==> 0 <= o.value.x < sizeX && 0 <= o.value.y < sizeY)
      ensures o.None? <==> k == null
      ensures o.Some? ==> k == CaseAt(o.value)
    {
      if o.None? then null else cases[o.value.x, o.value.y]
    }

    /** Every square of the list belongs to this board. */
    ghost predicate Parmi(r: seq<Case>)
    {
      forall k :: k in r ==> k in Cells
    }

    /**
     * A square of this board is in a list of its squares exactly when its
     * coordinates are among the list's coordinates.
     */
    lemma Designe(r: seq<Case>, k: Case)
      requires Forme() && Parmi(r) && k in Cells
      ensures k in r <==> k.Position() in Positions(r)
    {
      PositionsIndex(r);
      if k.Position() in Positions(r) {
        var i :| 0 <= i < |r| && Positions(r)[i] == k.Position();
        assert cases[k.posX, k.posY] == k && cases[r[i].posX, r[i].posY] == r[i];
      }
    }

    /** No square of the board holds q. */
    ghost predicate Hors(q: Piece)
      reads Cells
    {
      forall k :: k in Cells ==> k.piece != q
    }

    /**
     * Case.setPiece on a square of this board, with null or a piece that
     * already records that square; a piece it displaces stands nowhere.
     */
    method Poser(k: Case, q: Piece?)
      requires Valid() && k in Cells
      requires q != null ==> q in Pieces && q.c == k && q.Valid()
      modifies k`piece, this`Contents
      ensures k.piece == q && Valid()
      ensures Contents == Set(old(Contents), k.Position(), Vue(q))
      ensures old(k.piece) != null && old(k.piece) != q ==> Hors(old(k.piece))
    {
      Voir(k);
      k.SetPiece(q);
      Contents := Set(Contents, k.Position(), Vue(q));
    }

    /** Case.setPiece(q) then q.setCase(k), for a piece standing nowhere. */
    method Installer(k: Case, q: Piece)
      requires Valid() && k in Cells && q in Pieces && q.Valid() && Hors(q)
      modifies k`piece, q`c, this`Contents
      ensures k.piece == q && q.c == k && Valid()
      ensures Contents == Set(old(Contents), k.Position(), Vue(q))
      ensures old(k.piece) != null ==> Hors(old(k.piece))
    {
      Voir(k);
      k.SetPiece(q);
      q.SetCase(k);
      Contents := Set(Contents, k.Position(), Vue(q));
    }

    /** A piece moves from o to d: setPiece(null) on o, then setPiece and setCase on d. */
    method Transporter(o: Case, d: Case, q: Piece)
      requires Valid() && o in Cells && d in Cells && o != d && o.piece == q
      modifies o`piece, d`piece, q`c, this`Contents
      ensures Valid() && o.piece == null && d.piece == q && q.c == d
      ensures Contents == Set(Set(old(Contents), o.Position(), None), d.Position(), Vue(q))
      ensures old(d.piece) != null ==> Hors(old(d.piece))
    {
      Poser(o, null);
      Installer(d, q);
    }

    /** A move undone: r (null or the piece q displaced) back on d, q back on o. */
    method Rendre(o: Case, d: Case, q: Piece, r: Piece?)
      requires Valid() && o in Cells && d in Cells && o != d && o.piece == null && d.piece == q
      requires r != null ==> r in Pieces && r.c == d && r.Valid() && r != q
      modifies o`piece, d`piece, q`c, this`Contents
      ensures Valid() && o.piece == q && d.piece == r && q.c == o
      ensures Contents == Set(Set(old(Contents), d.Position(), Vue(r)), o.Position(), Vue(q))
    {
      Poser(d, r);
      Installer(o, q);
    }

    /** setADejaBouge on a Roi or a Tour standing on this board. */
    method Marquer(q: Piece, b: bool)
      requires Valid() && q.c in Cells && q.c.piece == q && (q.kind == Roi || q.kind == Tour)
      modifies q`aDejaBouge, this`Contents
      ensures q.aDejaBouge == b && Valid()
      ensures Contents == Set(old(Contents), q.c.Position(), Some(PieceVal(q.kind, q.couleur, b)))
    {
      Voir(q.c);
      q.SetADejaBouge(b);
      Contents := Set(Contents, q.c.Position(), Vue(q));
    }

    /** setPiece(null) on every square, row by row (the reset loop of each game). */
    method ToutVider()
      requires Valid()
      modifies Cells, this`Contents
      ensures Valid() && Contents == Vide(sizeX, sizeY)
      ensures forall k :: k in Cells ==> k.piece == null
    {
      for x := 0 to sizeX
        invariant Valid()
        invariant forall k :: k in Cells && k.posX < x ==> k.piece == null
      {
        for y := 0 to sizeY
          invariant Valid()
          invariant forall k :: k in Cells && (k.posX < x || (k.posX == x && k.posY < y)) ==> k.piece == null
        {
          Poser(cases[x, y], null);
        }
      }
      forall q | InBounds(Contents, q) ensures At(Contents, q) == At(Vide(sizeX, sizeY), q) {
        Voir(cases[q.x, q.y]);
      }
      GridExt(Contents, Vide(sizeX, sizeY), sizeX, sizeY);
    }

    /** Bounds of the value and of the object agree. */
    lemma InBoundsContents(q: Pos)
      requires Valid()
      ensures InBounds(Contents, q) <==> EstDansLimites(q.x, q.y)
    {
    }
  }

  // ================================================================ strategies

  /**
   * A movement strategy: its subclass, the base decorator it was built on,
   * and, for DecPion, the square of the pawn the last call found capturable
   * en passant.
   */
  class DecCasesAccessibles {
    const kind: DecKind
    const base: DecCasesAccessibles?
    var caseAPrendreEnPassant: Case?

    constructor (kind: DecKind, base: DecCasesAccessibles?)
      ensures this.kind == kind && this.base == base && caseAPrendreEnPassant == null
    {
      this.kind := kind;
      this.base := base;
      caseAPrendreEnPassant := null;
    }

    /** The decorator chain as the value-level strategy (base kind only: getCA looks one level down). */
    function Strat(): Strategie
    {
      Strategie(kind, if base == null then None else Some(base.kind))
    }

    /** The objects a getCA call may write: DecPion instances record their en-passant victim. */
    ghost function Ecrit(): set<DecCasesAccessibles>
    {
      (if kind == DecPion then {this} else {})
      + (if base != null && base.kind == DecPion then {base} else {})
    }

    /** getMesCA: dispatches to the subclass's own computation. */
    method GetMesCA(pl: Plateau, c: Case, dernier: Option<Coup>) returns (r: seq<Case>)
      requires pl.Valid() && c in pl.Cells && DernierCoupDefini(pl, dernier)
      requires MesCADefini(kind, pl.Contents, c.Position(), TrajetDe(dernier))
      modifies (if kind == DecPion then {this} else {})`caseAPrendreEnPassant
      ensures Positions(r) == MesCA(kind, pl.Contents, c.Position(), TrajetDe(dernier)) && pl.Parmi(r)
      ensures kind == DecPion ==>
        caseAPrendreEnPassant == pl.CaseOpt(PionCA(pl.Contents, c.Position(), TrajetDe(dernier)).enPassant)
    {
      pl.Voir(c);
      match kind
      case DecLigne => r := Glisser(pl, c, LIGNE_DIRS);
      case DecDiag => r := Glisser(pl, c, DIAG_DIRS);
      case DecCava => r := Sauter(pl, c, CAVA_SAUTS);
      case DecRoi => r := RoiMesCA(pl, c);
      case DecPion => r := PionMesCA(pl, c, dernier);
      case DecPuissance4 => r := [];
      case DecTicTacToe => r := [];
      case DecTicTacToe3D => r := [];
    }

    /**
     * getCA: the own squares followed by the base's own squares; the base's
     * own base is never consulted.
     */
    method GetCA(pl: Plateau, c: Case, dernier: Option<Coup>) returns (r: seq<Case>)
      requires pl.Valid() && c in pl.Cells && DernierCoupDefini(pl, dernier)
      requires CADefini(Strat(), pl.Contents, c.Position(), TrajetDe(dernier))
      modifies Ecrit()`caseAPrendreEnPassant
      ensures Positions(r) == CA(Strat(), pl.Contents, c.Position(), TrajetDe(dernier)) && pl.Parmi(r)
      ensures kind == DecPion && (base == null || base.kind != DecPion) ==>
        caseAPrendreEnPassant == pl.CaseOpt(PionCA(pl.Contents, c.Position(), TrajetDe(dernier)).enPassant)
    {
      ghost var g := pl.Contents;
      ghost var t := TrajetDe(dernier);
      r := GetMesCA(pl, c, dernier);
      assert pl.Contents == g;
      if base != null {
        var cB := base.GetMesCA(pl, c, dernier);
        assert pl.Contents == g;
        PositionsConcat(r, cB);
        r := r + cB;
      }
    }

    /** DecLigne and DecDiag: the sliding walk along each direction in turn. */
    method Glisser(pl: Plateau, c: Case, dirs: seq<(int, int)>) returns (r: seq<Case>)
      requires pl.Valid() && c in pl.Cells && c.piece != null
      ensures Positions(r) == Rayons(pl.Contents, c.Position(), c.piece.couleur, dirs) && pl.Parmi(r)
    {
      ghost var g := pl.Contents;
      ghost var cp := c.Position();
      ghost var col := c.piece.couleur;
      r := [];
      for d := 0 to |dirs|
        invariant Positions(r) == Rayons(g, cp, col, dirs[..d]) && pl.Parmi(r)
      {
        var rayon := Glisse(pl, c, dirs[d].0, dirs[d].1);
        PositionsConcat(r, rayon);
        r := r + rayon;
        assert dirs[..d + 1][..d] == dirs[..d];
      }
      assert dirs[..|dirs|] == dirs;
    }

    /**
     * The body of Glisser's outer loop: distances 1 to 7 along (dx, dy),
     * leaving at the edge, before an own piece or after a capture.
     */
    method Glisse(pl: Plateau, c: Case, dx: int, dy: int) returns (r: seq<Case>)
      requires pl.Valid() && c in pl.Cells && c.piece != null
      ensures Positions(r) == Rayon(pl.Contents, c.Position(), c.piece.couleur, dx, dy, 1) && pl.Parmi(r)
    {
      ghost var g := pl.Contents;
      ghost var cp := c.Position();
      ghost var col := c.piece.couleur;
      r := [];
      var i := 1;
      while i < 8
        invariant 1 <= i <= 8
        invariant Positions(r) == Marche(g, cp, col, dx, dy, i - 1).0 && !Marche(g, cp, col, dx, dy, i - 1).1
        invariant pl.Parmi(r)
      {
        var fin;
        r, fin := PasDeGlisse(pl, c, dx, dy, i, r);
        if fin {
          MarcheFinie(g, cp, col, dx, dy, i, 7);
          break;
        }
        i := i + 1;
      }
      MarcheRayon(g, cp, col, dx, dy);
    }

    /**
     * One pass of Glisse's loop at distance i: the square is added when it
     * is empty or holds a piece of the other side; the loop is left at the
     * edge, before an own piece or after a capture.
     */
    static method PasDeGlisse(pl: Plateau, c: Case, dx: int, dy: int, i: nat, r0: seq<Case>) returns (r: seq<Case>, fin: bool)
      requires pl.Valid() && c in pl.Cells && c.piece != null && pl.Parmi(r0)
      requires 1 <= i && Positions(r0) == Marche(pl.Contents, c.Position(), c.piece.couleur, dx, dy, i - 1).0
      requires !Marche(pl.Contents, c.Position(), c.piece.couleur, dx, dy, i - 1).1
      ensures Positions(r) == Marche(pl.Contents, c.Position(), c.piece.couleur, dx, dy, i).0
      ensures fin == Marche(pl.Contents, c.Position(), c.piece.couleur, dx, dy, i).1 && pl.Parmi(r)
    {
      FoisProduit(dx, i);
      FoisProduit(dy, i);
      r := r0;
      var nouvelleCase := pl.GetCasePR(c, dx * i, dy * i);
      if nouvelleCase == null {
        return r, true;
      }
      pl.Voir(nouvelleCase);
      assert nouvelleCase.Position() == Pas(c.Position(), dx, dy, i);
      PositionsSnoc(r, nouvelleCase);
      fin := false;
      if nouvelleCase.piece != null {
        fin := true;
        if !c.piece.EstAlliee(nouvelleCase.piece) {
          r := r + [nouvelleCase];
        }
      } else {
        r := r + [nouvelleCase];
      }
    }

    /** DecCava and the step part of DecRoi: each offset in turn, kept when reachable. */
    static method Sauter(pl: Plateau, c: Case, offs: seq<(int, int)>) returns (r: seq<Case>)
      requires pl.Valid() && c in pl.Cells && c.piece != null
      ensures Positions(r) == Sauts(pl.Contents, c.Position(), c.piece.couleur, offs) && pl.Parmi(r)
    {
      r := [];
      for k := 0 to |offs|
        invariant Positions(r) == Sauts(pl.Contents, c.Position(), c.piece.couleur, offs[..k]) && pl.Parmi(r)
      {
        assert offs[..k + 1][..k] == offs[..k];
        r := Saute(pl, c, offs[k].0, offs[k].1, r);
      }
      assert offs[..|offs|] == offs;
    }

    /** The body of the offset loop: the square at c + (dx, dy) is added when it exists and is not allied. */
    static method Saute(pl: Plateau, c: Case, dx: int, dy: int, r0: seq<Case>) returns (r: seq<Case>)
      requires pl.Valid() && c in pl.Cells && c.piece != null && pl.Parmi(r0)
      ensures Positions(r) == Positions(r0) + Saut(pl.Contents, c.Position(), c.piece.couleur, (dx, dy))
      ensures pl.Parmi(r)
    {
      r := r0;
      var nouvelleCase := pl.GetCasePR(c, dx, dy);
      if nouvelleCase != null {
        pl.Voir(nouvelleCase);
        PositionsSnoc(r, nouvelleCase);
        if nouvelleCase.piece != null {
          if !c.piece.EstAlliee(nouvelleCase.piece) {
            r := r + [nouvelleCase];
          }
        } else {
          r := r + [nouvelleCase];
        }
      }
    }

    /** DecRoi.getMesCA: the eight steps, then the short and the long castling squares. */
    method RoiMesCA(pl: Plateau, c: Case) returns (r: seq<Case>)
      requires pl.Valid() && c in pl.Cells && c.piece != null
      ensures Positions(r) == RoiCA(pl.Contents, c.Position(), c.piece.couleur) && pl.Parmi(r)
    {
      ghost var g := pl.Contents;
      ghost var cp := c.Position();
      r := Sauter(pl, c, ROI_PAS);
      var petit := PetitRoquePossible(pl, c);
      if petit {
        r := AjouterCase(pl, c, 2, r);
      }
      var grand := GrandRoquePossible(pl, c);
      if grand {
        r := AjouterCase(pl, c, -2, r);
      }
    }

    /** Appends getCasePR(c, {0, dy}), a square known to be on the board. */
    static method AjouterCase(pl: Plateau, c: Case, dy: int, r0: seq<Case>) returns (r: seq<Case>)
      requires pl.Forme() && c in pl.Cells && 0 <= c.posY + dy < pl.sizeY && pl.Parmi(r0)
      ensures Positions(r) == Positions(r0) + [Pos(c.posX, c.posY + dy)] && pl.Parmi(r)
    {
      var k := pl.GetCasePR(c, 0, dy);
      PositionsSnoc(r0, k);
      r := r0 + [k];
    }

    /** DecRoi's short castling test: unmoved king on column 4, unmoved rook three to the right, two free squares. */
    method PetitRoquePossible(pl: Plateau, c: Case) returns (b: bool)
      requires pl.Valid() && c in pl.Cells && c.piece != null
      ensures b == PetitRoque(pl.Contents, c.Position())
      ensures b ==> 0 <= c.posY + 2 < pl.sizeY
    {
      pl.Voir(c);
      b := false;
      if c.posY == 4 && c.piece.kind == Roi && !c.piece.aDejaBouge {
        var tourDroite := pl.GetCasePR(c, 0, 3);
        if tourDroite != null {
          pl.Voir(tourDroite);
          if tourDroite.piece != null && tourDroite.piece.kind == Tour {
            var tour := tourDroite.piece;
            if !tour.aDejaBouge {
              var case1 := pl.GetCasePR(c, 0, 1);
              var case2 := pl.GetCasePR(c, 0, 2);
              if case1 != null && case2 != null {
                pl.Voir(case1);
                pl.Voir(case2);
                b := case1.piece == null && case2.piece == null;
              }
            }
          }
        }
      }
    }

    /** DecRoi's long castling test: unmoved king on column 4, unmoved rook four to the left, three free squares. */
    method GrandRoquePossible(pl: Plateau, c: Case) returns (b: bool)
      requires pl.Valid() && c in pl.Cells && c.piece != null
      ensures b == GrandRoque(pl.Contents, c.Position())
      ensures b ==> 0 <= c.posY - 2 < pl.sizeY
    {
      pl.Voir(c);
      b := false;
      if c.posY == 4 && c.piece.kind == Roi && !c.piece.aDejaBouge {
        var tourGauche := pl.GetCasePR(c, 0, -4);
        if tourGauche != null {
          pl.Voir(tourGauche);
          if tourGauche.piece != null && tourGauche.piece.kind == Tour {
            var tour := tourGauche.piece;
            if !tour.aDejaBouge {
              var case1 := pl.GetCasePR(c, 0, -1);
              var case2 := pl.GetCasePR(c, 0, -2);
              var case3 := pl.GetCasePR(c, 0, -3);
              if case1 != null && case2 != null && case3 != null {
                pl.Voir(case1);
                pl.Voir(case2);
                pl.Voir(case3);
                b := case1.piece == null && case2.piece == null && case3.piece == null;
              }
            }
          }
        }
      }
    }

    /**
     * DecPion.getMesCA: forward moves, diagonal captures, then the en-passant
     * square; records the en-passant victim's square, or null.
     */
    method PionMesCA(pl: Plateau, c: Case, dernier: Option<Coup>) returns (r: seq<Case>)
      requires pl.Valid() && c in pl.Cells && DernierCoupDefini(pl, dernier)
      requires PionDefini(pl.Contents, c.Position())
      modifies this`caseAPrendreEnPassant
      ensures Positions(r) == PionCA(pl.Contents, c.Position(), TrajetDe(dernier)).cases && pl.Parmi(r)
      ensures caseAPrendreEnPassant == pl.CaseOpt(PionCA(pl.Contents, c.Position(), TrajetDe(dernier)).enPassant)
    {
      pl.Voir(c);
      var couleur := c.piece.couleur;
      var dir: int;
      caseAPrendreEnPassant := null;
      if couleur == "Blanc" {
        dir := -1;
      } else {
        dir := 1;
      }
      r := PionAvancer(pl, c, dir);
      r := PionPrendre(pl, c, dir, r);
      var victime;
      r, victime := PionEnPassant(pl, c, dir, dernier, r);
      if victime != null {
        caseAPrendreEnPassant := victime;
      }
    }

    /**
     * DecPion's en-passant test on the previous move: a Pion that moved two
     * rows and now stands beside c; the square behind it, when free, is
     * added and the Pion's square is returned as the victim.
     */
    static method PionEnPassant(pl: Plateau, c: Case, dir: int, dernier: Option<Coup>, r0: seq<Case>)
      returns (r: seq<Case>, victime: Case?)
      requires pl.Valid() && c in pl.Cells && DernierCoupDefini(pl, dernier) && pl.Parmi(r0)
      requires PionDefini(pl.Contents, c.Position()) && dir == Direction(c.piece.couleur)
      ensures pl.Parmi(r)
      ensures var ep := PriseEnPassant(pl.Contents, c.Position(), TrajetDe(dernier));
        && Positions(r) == Positions(r0) + (if ep.Some? then [ep.value.0] else [])
        && victime == pl.CaseOpt(if ep.Some? then Some(ep.value.1) else None)
    {
      r := r0;
      victime := null;
      if dernier.Some? {
        var dep := dernier.value.depart;
        var arr := dernier.value.arrivee;
        pl.Voir(arr);
        var piece := arr.piece;
        if piece != null && piece.kind == Pion
           && Abs(arr.posX - dep.posX) == 2 && arr.posX == c.posX && Abs(arr.posY - c.posY) == 1 {
          var caseEnPassant := pl.GetCasePR(arr, dir, 0);
          if caseEnPassant != null {
            pl.Voir(caseEnPassant);
            if caseEnPassant.piece == null {
              victime := arr;
              PositionsSnoc(r, caseEnPassant);
              r := r + [caseEnPassant];
            }
          }
        }
      }
    }

    /** DecPion's forward squares: one ahead when free, and two ahead from the start row when both are free. */
    static method PionAvancer(pl: Plateau, c: Case, dir: int) returns (r: seq<Case>)
      requires pl.Valid() && c in pl.Cells && PionDefini(pl.Contents, c.Position())
      requires dir == Direction(c.piece.couleur)
      ensures Positions(r) == PionAvance(pl.Contents, c.Position(), c.piece.couleur) && pl.Parmi(r)
    {
      pl.Voir(c);
      var nouvelleCase := pl.GetCasePR(c, dir, 0);
      var nouvelleCaseBis := pl.GetCasePR(c, dir * 2, 0);
      r := [];
      if nouvelleCase != null {
        pl.Voir(nouvelleCase);
        assert Rel(pl.Contents, c.Position(), dir, 0) == Some(nouvelleCase.Position());
        if nouvelleCase.piece == null {
          r := PionDouble(pl, c, dir, nouvelleCase, nouvelleCaseBis);
        }
      }
    }

    /** The square ahead is free: it, and the one beyond from the start row when that one is free too. */
    static method PionDouble(pl: Plateau, c: Case, dir: int, nouvelleCase: Case, nouvelleCaseBis: Case?) returns (r: seq<Case>)
      requires pl.Valid() && c in pl.Cells && PionDefini(pl.Contents, c.Position())
      requires dir == Direction(c.piece.couleur)
      requires nouvelleCase == pl.GetCasePR(c, dir, 0) && nouvelleCase.piece == null
      requires nouvelleCaseBis == pl.GetCasePR(c, dir * 2, 0)
      ensures Positions(r) == PionAvance(pl.Contents, c.Position(), c.piece.couleur) && pl.Parmi(r)
    {
      pl.Voir(c);
      pl.Voir(nouvelleCase);
      ghost var g := pl.Contents;
      ghost var p := c.Position();
      assert Rel(g, p, dir, 0) == Some(nouvelleCase.Position());
      var couleur := c.piece.couleur;
      r := [nouvelleCase];
      assert Positions(r) == [nouvelleCase.Position()];
      var ligneDepart := if couleur == "Blanc" then 6 else 1;
      if c.posX == ligneDepart {
        assert nouvelleCaseBis != null;
        pl.Voir(nouvelleCaseBis);
        if nouvelleCaseBis.piece == null {
          PositionsSnoc(r, nouvelleCaseBis);
          r := r + [nouvelleCaseBis];
        }
      }
    }

    /** DecPion's diagonal captures, column offset -1 then +1, appended to r. */
    static method PionPrendre(pl: Plateau, c: Case, dir: int, r0: seq<Case>) returns (r: seq<Case>)
      requires pl.Valid() && c in pl.Cells && c.piece != null && pl.Parmi(r0)
      requires dir == Direction(c.piece.couleur)
      ensures pl.Parmi(r)
      ensures Positions(r) == Positions(r0) + PionPrise(pl.Contents, c.Position(), c.piece.couleur, -1)
                                            + PionPrise(pl.Contents, c.Position(), c.piece.couleur, 1)
    {
      r := r0;
      var i := -1;
      while i < 2
        invariant i == -1 || i == 1 || i == 3
        invariant pl.Parmi(r)
        invariant Positions(r) == Positions(r0)
                                  + (if i > -1 then PionPrise(pl.Contents, c.Position(), c.piece.couleur, -1) else [])
                                  + (if i > 1 then PionPrise(pl.Contents, c.Position(), c.piece.couleur, 1) else [])
      {
        r := PionPrend(pl, c, dir, i, r);
        i := i + 2;
      }
    }

    /** The body of the capture loop: the diagonal square is added when it holds a piece of another colour. */
    static method PionPrend(pl: Plateau, c: Case, dir: int, i: int, r0: seq<Case>) returns (r: seq<Case>)
      requires pl.Valid() && c in pl.Cells && c.piece != null && pl.Parmi(r0)
      requires dir == Direction(c.piece.couleur)
      ensures pl.Parmi(r)
      ensures Positions(r) == Positions(r0) + PionPrise(pl.Contents, c.Position(), c.piece.couleur, i)
    {
      r := r0;
      var nouvelleCase := pl.GetCasePR(c, dir, i);
      if nouvelleCase != null {
        pl.Voir(nouvelleCase);
        PositionsSnoc(r, nouvelleCase);
        if nouvelleCase.piece != null {
          if !c.piece.EstAlliee(nouvelleCase.piece) {
            r := r + [nouvelleCase];
          }
        }
      }
    }
  }

  /** The coordinates of each square of the list, in order. */
  function Positions(r: seq<Case>): seq<Pos>
  {
    if |r| == 0 then [] else Positions(r[..|r| - 1]) + [r[|r| - 1].Position()]
  }

  lemma PositionsSnoc(r: seq<Case>, k: Case)
    ensures Positions(r + [k]) == Positions(r) + [k.Position()]
  {
    assert (r + [k])[..|r|] == r;
  }

  lemma {:induction false} PositionsConcat(a: seq<Case>, b: seq<Case>)
    ensures Positions(a + b) == Positions(a) + Positions(b)
    decreases |b|
  {
    if |b| > 0 {
      var b' := b[..|b| - 1];
      var x := b[|b| - 1];
      assert a + b == (a + b') + [x];
      assert b == b' + [x];
      calc {
        Positions(a + b);
        == { PositionsSnoc(a + b', x); }
        Positions(a + b') + [x.Position()];
        == { PositionsConcat(a, b'); }
        Positions(a) + Positions(b') + [x.Position()];
        == { PositionsSnoc(b', x); }
        Positions(a) + Positions(b);
      }
    } else {
      assert a + b == a;
    }
  }

  /** Positions lists, index by index, the coordinates of the squares. */
  lemma {:induction false} PositionsIndex(r: seq<Case>)
    ensures |Positions(r)| == |r| && forall i :: 0 <= i < |r| ==> Positions(r)[i] == r[i].Position()
    decreases |r|
  {
    if |r| > 0 {
      PositionsIndex(r[..|r| - 1]);
    }
  }

  // ================================================================ moves and players

  /** A move: origin and destination squares; drop moves have no origin. */
  datatype Coup = Coup(depart: Case?, arrivee: Case?)
  {
    /** getCoup: the two squares, origin first. */
    function GetCoup(): (r: seq<Case?>)
      ensures |r| == 2 && r[0] == depart && r[1] == arrivee
    {
      [depart, arrivee]
    }
  }

  /** The previous move DecPion looks at must have both squares, the arrival on the board. */
  ghost predicate DernierCoupDefini(pl: Plateau, dernier: Option<Coup>)
  {
    dernier.Some? ==> dernier.value.depart != null && dernier.value.arrivee != null && dernier.value.arrivee in pl.Cells
  }

  function TrajetDe(dernier: Option<Coup>): Option<Trajet>
  {
    if dernier.Some? && dernier.value.depart != null && dernier.value.arrivee != null then
      Some(Trajet(dernier.value.depart.Position(), dernier.value.arrivee.Position()))
    else None
  }
}
