// The console's move notations: the text a player types for each game, the
// square or cell it designates, and the exceptions the parsers raise, as
// Err values carrying the exception's message (a runtime exception that has
// none is named instead). The parsers only read the board.
module VueConsole {
  import opened Lang
  import opened Grille
  import opened Modele
  import opened Partie
  import P4 = Puissance4
  import M3 = Morpion3D
  import Echecs
  import Mouvements

  /** A code (char) n keeps as it is and that is no UTF-16 surrogate. */
  predicate CodeSimple(n: int) { 0 <= n < 0xD800 || 0xE000 <= n < 0x1_0000 }

  /** (char) n for such a code. */
  function Car(n: int): (c: char)
    requires CodeSimple(n)
    ensures c as int == n
  {
    n as char
  }

  // ================================================================ tic-tac-toe

  const CASE_HORS := "Le numéro de case doit être entre 1 et 9."
  const OCCUPEE := "Cette case est déjà occupée !"
  const DIVISION := "/ by zero"
  const NPE := "NullPointerException"

  /**
   * parseCoupTicTacToe: the number typed, 1 to 9, counts the squares row
   * by row; the square it names must be empty. The move has no origin.
   */
  function ParseCoupTicTacToe(input: string, pl: Plateau): (r: Result<Coup>)
    reads pl.cases, pl.Cells
    requires pl.Forme()
    ensures ParseInt(input).Err? ==> r == Err(ParseInt(input).msg)
    ensures ParseInt(input).Ok? && !(1 <= ParseInt(input).value <= 9) ==> r == Err(CASE_HORS)
    ensures r.Ok? ==>
      var k := r.value.arrivee;
      && r.value.depart == null && k != null && k in pl.Cells && k.piece == null
      && ParseInt(input) == Ok(pl.sizeY * k.posX + k.posY + 1)
  {
    match ParseInt(input)
    case Err(m) => Err(m)
    case Ok(caseNum) =>
      if caseNum < 1 || caseNum > 9 then Err(CASE_HORS)
      else if pl.sizeY == 0 then Err(DIVISION)
      else
        var indice := caseNum - 1;
        var arrivee := pl.GetCase(indice / pl.sizeY, indice % pl.sizeY);
        if arrivee == null then Err(NPE)
        else if arrivee.piece != null then Err(OCCUPEE)
        else Ok(Coup(null, arrivee))
  }

  /**
   * On the 3 by 3 board the number of square (x, y) is 3x + y + 1: it is
   * read back as that square when it is empty and refused when occupied.
   */
  lemma NumeroCase(pl: Plateau, k: Case)
    requires pl.Forme() && pl.sizeX == 3 && pl.sizeY == 3 && k in pl.Cells
    ensures ParseCoupTicTacToe(IntToString(3 * k.posX + k.posY + 1), pl)
            == if k.piece == null then Ok(Coup(null, k)) else Err(OCCUPEE)
  {
    var n := 3 * k.posX + k.posY + 1;
    ParseIntToString(n);
    assert (n - 1) / 3 == k.posX && (n - 1) % 3 == k.posY;
    assert pl.GetCase(k.posX, k.posY) == k;
  }

  /** A square the parser names is one JeuTicTacToe places a mark on: it is empty on the board. */
  lemma SaisieLibre(input: string, pl: Plateau)
    requires pl.Valid() && ParseCoupTicTacToe(input, pl).Ok?
    ensures var k := ParseCoupTicTacToe(input, pl).value.arrivee;
      k != null && k in pl.Cells && Empty(pl.Contents, k.Position())
  {
    var k := ParseCoupTicTacToe(input, pl).value.arrivee;
    pl.Voir(k);
  }

  // ================================================================ tic-tac-toe 3D

  const FORMAT_3D := "Format invalide. Utilisez: a1-a9, b1-b9, ou c1-c9"
  const COUCHE := "La couche doit être 'a', 'b' ou 'c'"
  const NUMERO := "Le numéro doit être entre 1 et 9"

  /**
   * parseCoupTicTacToe3D: exactly two characters, the layer 'a' to 'c' and
   * a digit '1' to '9' counting the cells of the layer row by row; the
   * cell must be empty.
   */
  function ParseCoupTicTacToe3D(input: string, q: M3.Cube): (r: Result<M3.Coup3D>)
    ensures |input| != 2 ==> r == Err(FORMAT_3D)
    ensures |input| == 2 && !('a' <= input[0] <= 'c') ==> r == Err(COUCHE)
    ensures |input| == 2 && 'a' <= input[0] <= 'c' && !('1' <= input[1] <= '9') ==> r == Err(NUMERO)
    ensures r.Ok? ==>
      && r.value.arrivee.Some? && M3.DansCube(r.value.arrivee.value)
      && M3.Au(q, r.value.arrivee.value).None?
      && input == GetCaseNotation3D(r.value.arrivee.value)
  {
    if |input| < 2 || |input| > 2 then Err(FORMAT_3D)
    else
      var layer := input[0];
      var numChar := input[1];
      if layer < 'a' || layer > 'c' then Err(COUCHE)
      else if numChar < '1' || numChar > '9' then Err(NUMERO)
      else
        var z := layer as int - 'a' as int;
        var number := numChar as int - '1' as int;
        var arrivee := M3.Cellule(number / 3, number % 3, z);
        if M3.Au(q, arrivee).Some? then Err(OCCUPEE)
        else
          assert NatToString(number + 1) == [numChar];
          Ok(M3.Coup3D(Some(arrivee)))
  }

  /**
   * getCaseNotation3D: the layer letter, then the cell's number 1 to 9 in
   * its layer. The 3D console view prints cells the same way.
   */
  function GetCaseNotation3D(c: M3.Cellule): (s: string)
    requires CodeSimple('a' as int + c.z)
    ensures M3.DansCube(c) ==> |s| == 2 && 'a' <= s[0] <= 'c' && '1' <= s[1] <= '9'
  {
    [Car('a' as int + c.z)] + IntToString(c.x * 3 + c.y + 1)
  }

  /** Reading a cell's notation gives back that cell when it is empty, and the occupied refusal otherwise. */
  lemma Notation3DRetour(c: M3.Cellule, q: M3.Cube)
    requires M3.DansCube(c)
    ensures ParseCoupTicTacToe3D(GetCaseNotation3D(c), q)
            == if M3.Au(q, c).None? then Ok(M3.Coup3D(Some(c))) else Err(OCCUPEE)
  {
    var n := c.x * 3 + c.y;
    var s := GetCaseNotation3D(c);
    assert s[1] as int - '1' as int == n;
    assert n / 3 == c.x && n % 3 == c.y;
  }

  // ================================================================ connect four

  const PLEINE := "Cette colonne est pleine !"

  function HorsLimites(sizeY: int): string
  {
    "Le numéro de colonne est hors limites (1 à " + IntToString(sizeY) + ")."
  }

  /**
   * parseCoupPuissance4: the column typed, 1 to sizeY, is scanned from the
   * bottom row up; the move lands on the first empty square, the one
   * JeuPuissance4's drop picks, and a full column is refused.
   */
  method ParseCoupPuissance4(input: string, pl: Plateau) returns (r: Result<Coup>)
    requires pl.Valid()
    ensures ParseInt(input).Err? ==> r == Err(ParseInt(input).msg)
    ensures ParseInt(input).Ok? && !(1 <= ParseInt(input).value <= pl.sizeY) ==> r == Err(HorsLimites(pl.sizeY))
    ensures ParseInt(input).Ok? && 1 <= ParseInt(input).value <= pl.sizeY ==>
      var chute := P4.Chute(pl.Contents, ParseInt(input).value - 1, pl.sizeX - 1);
      && (chute.None? ==> r == Err(PLEINE))
      && (chute.Some? ==> r == Ok(Coup(null, pl.CaseAt(chute.value))))
  {
    var n := ParseInt(input);
    if n.Err? {
      return Err(n.msg);
    }
    var colIndex := n.value - 1;
    if colIndex < 0 || colIndex >= pl.sizeY {
      return Err(HorsLimites(pl.sizeY));
    }
    ghost var g := pl.Contents;
    var caseArrivee: Case? := null;
    var ligne := pl.sizeX - 1;
    while ligne >= 0
      invariant -1 <= ligne < pl.sizeX
      invariant P4.Chute(g, colIndex, pl.sizeX - 1) == P4.Chute(g, colIndex, ligne)
    {
      var c := pl.GetCase(ligne, colIndex);
      pl.Voir(c);
      if c.piece == null {
        caseArrivee := c;
        break;
      }
      ligne := ligne - 1;
    }
    if caseArrivee == null {
      return Err(PLEINE);
    }
    r := Ok(Coup(null, caseArrivee));
  }

  // ================================================================ chess

  const FORMAT_ECHEC := "Format du coup invalide. Utilisez 'd2d4' (départ-arrivée)."
  const PAS_A_VOUS := "Ce n'est pas votre pièce !"

  /**
   * coordToCase: a file letter (either case) and a rank; the file gives the
   * column from 'a', the rank the row counted down from 8.
   */
  function CoordToCase(notation: string, pl: Plateau): (r: Result<Case>)
    reads pl.cases
    requires pl.Forme()
    ensures |notation| != 2 ==> r == Err("Notation de case invalide: " + notation)
    ensures r.Ok? ==>
      && |notation| == 2 && r.value in pl.Cells
      && 'a' as int + r.value.posY == ToLower(notation[0]) as int
      && (CodeSimple('a' as int + r.value.posY) ==> CaseToNotation(r.value) == [ToLower(notation[0]), notation[1]])
  {
    if |notation| != 2 then Err("Notation de case invalide: " + notation)
    else
      var colChar := ToLower(notation[0]);
      var colonne := colChar as int - 'a' as int;
      match ParseInt(notation[1..])
      case Err(m) => Err(m)
      case Ok(rang) =>
        var ligne := 8 - rang;
        if ligne < 0 || ligne >= pl.sizeX || colonne < 0 || colonne >= pl.sizeY then
          Err("Coordonnées de case hors limites: " + notation)
        else
          assert notation[1..] == [notation[1]];
          assert IsDigit(notation[1]) && rang == DigitValue(notation[1]);
          Ok(pl.cases[ligne, colonne])
  }

  /** caseToNotation: the file letter from 'a', then the rank 8 - row. */
  function CaseToNotation(c: Case): (s: string)
    requires CodeSimple('a' as int + c.posY)
    ensures |s| >= 2 && s[0] as int == 'a' as int + c.posY
  {
    [Car('a' as int + c.posY)] + IntToString(8 - c.posX)
  }

  /** On a board of at most 8 rows and 26 columns, coordToCase reads back every square's notation. */
  lemma NotationRetour(pl: Plateau, k: Case)
    requires pl.Forme() && pl.sizeX <= 8 && pl.sizeY <= 26 && k in pl.Cells
    ensures CodeSimple('a' as int + k.posY)
    ensures CoordToCase(CaseToNotation(k), pl) == Ok(k)
  {
    var s := CaseToNotation(k);
    assert s[1..] == IntToString(8 - k.posX);
    ParseIntToString(8 - k.posX);
    assert pl.GetCase(k.posX, k.posY) == k;
  }

  /**
   * parseCoupEchec: four characters, origin then destination; the origin
   * must hold a piece whose colour is the current player's, ignoring case.
   */
  function ParseCoupEchec(input: string, pl: Plateau, jeu: Jeu): (r: Result<Coup>)
    reads pl.cases, pl.Cells, jeu
    requires pl.Forme()
    ensures |input| != 4 ==> r == Err(FORMAT_ECHEC)
    ensures r.Ok? ==>
      && |input| == 4
      && CoordToCase(input[..2], pl).Ok? && CoordToCase(input[..2], pl).value == r.value.depart
      && CoordToCase(input[2..], pl).Ok? && CoordToCase(input[2..], pl).value == r.value.arrivee
      && r.value.depart.piece != null
      && EqualsIgnoreCase(r.value.depart.piece.couleur, jeu.joueurCourant.couleur.Name())
  {
    if |input| != 4 then Err(FORMAT_ECHEC)
    else
      var notationDepart := input[..2];
      var notationArrivee := input[2..];
      match CoordToCase(notationDepart, pl)
      case Err(m) => Err(m)
      case Ok(caseDepart) =>
        match CoordToCase(notationArrivee, pl)
        case Err(m) => Err(m)
        case Ok(caseArrivee) =>
          if caseDepart.piece == null then Err("La case de départ (" + notationDepart + ") est vide.")
          else if !EqualsIgnoreCase(caseDepart.piece.couleur, jeu.joueurCourant.couleur.Name()) then Err(PAS_A_VOUS)
          else Ok(Coup(caseDepart, caseArrivee))
  }

  /**
   * The notation of two squares of the chessboard is read as the move
   * between them, unless the origin is empty or holds the other side's piece.
   */
  lemma NotationCoup(pl: Plateau, jeu: Jeu, dep: Case, arr: Case)
    requires pl.Forme() && pl.sizeX == 8 && pl.sizeY == 8 && dep in pl.Cells && arr in pl.Cells
    ensures CodeSimple('a' as int + dep.posY) && CodeSimple('a' as int + arr.posY)
    ensures ParseCoupEchec(CaseToNotation(dep) + CaseToNotation(arr), pl, jeu)
            == if dep.piece == null then Err("La case de départ (" + CaseToNotation(dep) + ") est vide.")
               else if !EqualsIgnoreCase(dep.piece.couleur, jeu.joueurCourant.couleur.Name()) then Err(PAS_A_VOUS)
               else Ok(Coup(dep, arr))
  {
    NotationRetour(pl, dep);
    NotationRetour(pl, arr);
    var a := CaseToNotation(dep);
    var b := CaseToNotation(arr);
    assert |a| == 2 && |b| == 2 by {
      ParseIntToString(8 - dep.posX);
      ParseIntToString(8 - arr.posX);
    }
    assert (a + b)[..2] == a && (a + b)[2..] == b;
  }

  /**
   * A move the parser accepts passes jouerPartie's first two checks: its
   * origin holds a piece, and that piece is the player's.
   */
  lemma SaisieAdmise(input: string, pl: Plateau, jeu: Jeu, last: Option<Mouvements.Trajet>)
    requires pl.Valid() && Echecs.Echiquier8(pl.Contents, last)
    requires ParseCoupEchec(input, pl, jeu).Ok?
    ensures var coup := ParseCoupEchec(input, pl, jeu).value;
      && coup.depart != null && coup.arrivee != null
      && Echecs.Case8(coup.depart.Position()) && Echecs.Case8(coup.arrivee.Position())
      && Echecs.Verdict(pl.Contents, jeu.joueurCourant.couleur, coup.depart.Position(), coup.arrivee.Position(), last)
         !in {Some(Echecs.AucunePiece), Some(Echecs.PasSonTour)}
  {
    var coup := ParseCoupEchec(input, pl, jeu).value;
    pl.Voir(coup.depart);
    pl.Voir(coup.arrivee);
    assert |pl.Contents| == pl.sizeX && |pl.Contents[0]| == pl.sizeY;
    var dep := coup.depart.Position();
    assert Occupied(pl.Contents, dep);
    assert EqualsIgnoreCase(At(pl.Contents, dep).value.couleur, jeu.joueurCourant.couleur.Name());
    Echecs.VerdictSaisi(pl.Contents, jeu.joueurCourant.couleur, dep, coup.arrivee.Position(), last);
  }
}

// parseCoupTicTacToe3D of the 3D console view: the same checks and the
// same cell, the digit read as numChar - '0' and then lowered by one.
module VueTicTacToe3DConsole {
  import opened Lang
  import M3 = Morpion3D
  import VueConsole

  const COUCHE := "La couche doit être 'a', 'b', ou 'c'"

  /** parseCoupTicTacToe3D: two characters, layer 'a' to 'c', digit '1' to '9', an empty cell. */
  function ParseCoupTicTacToe3D(input: string, q: M3.Cube): (r: Result<M3.Coup3D>)
    ensures r.Ok? ==>
      && r.value.arrivee.Some? && M3.DansCube(r.value.arrivee.value)
      && M3.Au(q, r.value.arrivee.value).None?
  {
    if |input| < 2 || |input| > 2 then Err(VueConsole.FORMAT_3D)
    else
      var layer := input[0];
      var numChar := input[1];
      if layer < 'a' || layer > 'c' then Err(COUCHE)
      else if numChar < '1' || numChar > '9' then Err(VueConsole.NUMERO)
      else
        var z := layer as int - 'a' as int;
        var num := numChar as int - '0' as int;
        var indice := num - 1;
        var arrivee := M3.Cellule(indice / 3, indice % 3, z);
        if M3.Au(q, arrivee).Some? then Err(VueConsole.OCCUPEE)
        else Ok(M3.Coup3D(Some(arrivee)))
  }

  /**
   * Both 3D parsers accept the same inputs and name the same cell; they
   * refuse the same inputs, with the same message except for the wrong layer.
   */
  lemma MemeLecture(input: string, q: M3.Cube)
    ensures var a := ParseCoupTicTacToe3D(input, q);
      var b := VueConsole.ParseCoupTicTacToe3D(input, q);
      && (a.Ok? <==> b.Ok?)
      && (a.Ok? ==> a == b)
      && (a.Err? && a.msg != COUCHE ==> a == b)
  {
  }

  /** getCaseNotation3D followed by this parser gives back an empty cell. */
  lemma Notation3DRetour(c: M3.Cellule, q: M3.Cube)
    requires M3.DansCube(c)
    ensures ParseCoupTicTacToe3D(VueConsole.GetCaseNotation3D(c), q)
            == if M3.Au(q, c).None? then Ok(M3.Coup3D(Some(c))) else Err(VueConsole.OCCUPEE)
  {
    VueConsole.Notation3DRetour(c, q);
    MemeLecture(VueConsole.GetCaseNotation3D(c), q);
  }
}
