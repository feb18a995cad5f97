// The players and the state every game shares: whose turn it is, the
// winner, the cells to highlight, and the process-wide move history.
module Partie {
  import opened Lang
  import opened Grille
  import opened Modele

  /** Joueur.Couleur. */
  datatype Couleur = BLANC | NOIR
  {
    /** Enum.name(): the constant's identifier. */
    function Name(): string
    {
      if this == BLANC then "BLANC" else "NOIR"
    }
  }

  /** The two names differ, also ignoring case, so a colour is recovered from its name. */
  lemma NameDistingue(a: Couleur, b: Couleur)
    ensures EqualsIgnoreCase(a.Name(), b.Name()) <==> a == b
    ensures a.Name() == b.Name() <==> a == b
  {
    if a != b {
      assert ToLower(a.Name()[0]) != ToLower(b.Name()[0]);
    }
  }

  /** Java's points++ on an int: one more, and from the largest int back to the smallest. */
  function Incremente(n: Int32): (r: Int32)
    ensures r as int == (n as int - INT_MIN + 1) % 0x1_0000_0000 + INT_MIN
  {
    if n == 0x7FFF_FFFF then -0x8000_0000 else n + 1
  }

  /** A player: a fixed colour and a score. */
  class Joueur {
    const couleur: Couleur
    var points: Int32

    /** new Joueur(couleur): no points yet. */
    constructor (couleur: Couleur)
      ensures this.couleur == couleur && points == 0
    {
      this.couleur := couleur;
      points := 0;
    }

    /** ajouterPoint: the score grows by one (as a Java int); nothing else changes. */
    method AjouterPoint()
      modifies this`points
      ensures points == Incremente(old(points))
    {
      points := if points == 0x7FFF_FFFF then -0x8000_0000 else points + 1;
    }

    /** estAllie: the same colour. */
    predicate EstAllie(autre: Joueur)
    {
      couleur == autre.couleur
    }
  }

  /** estAllie is an equivalence: reflexive, symmetric and transitive. */
  lemma EstAllieEquivalence(a: Joueur, b: Joueur, c: Joueur)
    ensures a.EstAllie(a)
    ensures a.EstAllie(b) <==> b.EstAllie(a)
    ensures a.EstAllie(b) && b.EstAllie(c) ==> a.EstAllie(c)
  {
  }

  /**
   * The statics of Jeu: the move history (nothing ever appends to it) and
   * the game most recently constructed.
   */
  class Session {
    var historiqueCoups: seq<Coup>
    var instance: Jeu?

    constructor ()
      ensures historiqueCoups == [] && instance == null
    {
      historiqueCoups := [];
      instance := null;
    }

    /** Jeu.getInstance. */
    function GetInstance(): Jeu?
      reads this
    {
      instance
    }
  }

  /** The part of Jeu that all four games share. */
  class Jeu {
    const plateau: Plateau
    const session: Session
    const JOUEUR_BLANC: Joueur
    const JOUEUR_NOIR: Joueur
    var joueurCourant: Joueur
    var gagnant: Joueur?
    var winningCells: array2?<bool>

    /** The two players have the colours of their names; the turn and the winner are one of them. */
    ghost predicate Valid()
      reads this
    {
      JOUEUR_BLANC.couleur == BLANC && JOUEUR_NOIR.couleur == NOIR
      && (joueurCourant == JOUEUR_BLANC || joueurCourant == JOUEUR_NOIR)
      && (gagnant == null || gagnant == JOUEUR_BLANC || gagnant == JOUEUR_NOIR)
    }

    /**
     * new Jeu(plateau): two fresh players, white to move, no winner, no
     * highlighted cells; the game becomes the session's instance.
     */
    constructor (plateau: Plateau, session: Session)
      modifies session`instance
      ensures this.plateau == plateau && this.session == session && session.instance == this
      ensures Valid() && fresh(JOUEUR_BLANC) && fresh(JOUEUR_NOIR)
      ensures JOUEUR_BLANC.points == 0 && JOUEUR_NOIR.points == 0
      ensures joueurCourant == JOUEUR_BLANC && gagnant == null && winningCells == null
    {
      this.plateau := plateau;
      this.session := session;
      var blanc := new Joueur(BLANC);
      JOUEUR_BLANC := blanc;
      JOUEUR_NOIR := new Joueur(NOIR);
      joueurCourant := blanc;
      gagnant := null;
      winningCells := null;
      new;
      session.instance := this;
    }

    /** getDernierCoup: null for an empty history, else its last move. */
    function GetDernierCoup(): (r: Option<Coup>)
      reads session
      ensures r.None? <==> session.historiqueCoups == []
      ensures r.Some? ==> r.value == session.historiqueCoups[|session.historiqueCoups| - 1]
    {
      if |session.historiqueCoups| == 0 then None
      else Some(session.historiqueCoups[|session.historiqueCoups| - 1])
    }

    /** The other player: (j == JOUEUR_BLANC) ? JOUEUR_NOIR : JOUEUR_BLANC. */
    function Adversaire(j: Joueur): Joueur
    {
      if j == JOUEUR_BLANC then JOUEUR_NOIR else JOUEUR_BLANC
    }

    /** The winner a colour string names: equalsIgnoreCase("BLANC") ? JOUEUR_BLANC : JOUEUR_NOIR. */
    function GagnantSelon(couleur: string): Joueur
    {
      if EqualsIgnoreCase(couleur, "BLANC") then JOUEUR_BLANC else JOUEUR_NOIR
    }

    /** The turn passes to the other player. */
    method Alterner()
      requires Valid()
      modifies this`joueurCourant
      ensures Valid() && joueurCourant == Adversaire(old(joueurCourant))
    {
      joueurCourant := if joueurCourant == JOUEUR_BLANC then JOUEUR_NOIR else JOUEUR_BLANC;
    }

    /** clearWinningCells: a fresh sizeX by sizeY matrix, all false. */
    method ClearWinningCells()
      requires Valid()
      modifies this`winningCells
      ensures Valid()
      ensures winningCells != null && fresh(winningCells)
      ensures winningCells.Length0 == plateau.sizeX && winningCells.Length1 == plateau.sizeY
      ensures forall i, j :: 0 <= i < plateau.sizeX && 0 <= j < plateau.sizeY ==> !winningCells[i, j]
    {
      var sx := plateau.sizeX;
      var sy := plateau.sizeY;
      winningCells := new bool[sx, sy]((i, j) => false);
    }
  }

  /**
   * The other player has the other colour, twice over gives back the
   * player, and a colour's name names that colour's player as the winner.
   */
  lemma AdversaireCouleur(jeu: Jeu, j: Joueur, c: Couleur)
    requires jeu.Valid() && (j == jeu.JOUEUR_BLANC || j == jeu.JOUEUR_NOIR)
    ensures jeu.Adversaire(j).couleur != j.couleur
    ensures jeu.Adversaire(jeu.Adversaire(j)) == j
    ensures jeu.GagnantSelon(c.Name()).couleur == c
  {
    NameDistingue(c, BLANC);
  }
}
