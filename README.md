# Board-game rules engine: a Dafny model

This project models the rules engine of a Java program that plays four board
games on one shared board abstraction: chess (`JeuEchec`), connect-four
(`JeuPuissance4`), tic-tac-toe on a 3 by 3 board (`JeuTicTacToe`) and
tic-tac-toe in a 3 by 3 by 3 cube (`JeuTicTacToe3D`). It also models the
console parsers that turn typed input into moves (`VueConsole`,
`VueTicTacToe3DConsole`).

The model has two layers.

- **Value layer.** A board is a `Grid`, a sequence of rows of optional
  `PieceVal` values (kind, colour string, has-moved flag). The strategies that
  compute reachable squares (`DecLigne`, `DecDiag`, `DecCava`, `DecRoi`,
  `DecPion`) are pure functions over a `Grid` (module `Mouvements`). So are the
  chess rules built on them (module `Echecs`): check, legality, the verdict of
  `jouerPartie`, the board after a move, and the starting position.
- **Object layer.** The classes the Java code mutates keep their fields and
  their aliasing: `Case`, `Piece`, `Plateau`, `DecCasesAccessibles`, `Joueur`,
  `Jeu` and the four game classes. Every `Plateau` carries a ghost `Contents`
  grid. Its invariant ties each square's `piece` field to that grid. Each
  method that reads or changes squares is proved against the value layer
  through it.

Properties proved about the value layer include:

- each strategy's reachable squares, exactly;
- that the ray scans stop at the first blocker;
- that a simulated chess move is undone exactly;
- the starting position;
- the winner search of each game: scan order, and "no line found" if and only
  if no line is complete;
- that the 49 lines of the cube are every straight line through it;
- that the console notations and parsers are inverse to each other;
- that the four-move mate of the chess scenario (`JeuEchecTest.testMatDuLion`)
  is accepted move by move and ends with White checkmated.

Three behaviours of the Java code are kept as written:

- The move history (`historiqueCoups`) is never appended to. `getDernierCoup`
  therefore always returns `null`, and the en-passant branches of `DecPion` and
  `jouerPartie`, though modelled in full, never fire from a real game.
- `JeuTicTacToe3D.reinitialiserPartie` clears the 2D matrix `winningCells` but
  not `winningCells3D` (JeuTicTacToe3D.java:265-278).
  `JeuTicTacToe3D.ReinitialiserPartie` leaves that field as it was. The model
  takes `winningCells3D` to exist, so cells highlighted in a finished game stay
  highlighted in the next one. If the array were never allocated, the Java would
  never mark a cell at all (see "## Left out").
- The pawn promotes to a queen automatically (JeuEchec.java:210-216).

## Model

| member | source | states |
|---|---|---|
| Lang.ParseInt | Code/src/vue/VueConsole.java:205 | Integer.parseInt: a result only for an optional sign followed by decimal digits with a 32-bit value; a plain digit string within range yields the number it denotes |
| Lang.ParseIntDigits | Code/src/vue/VueConsole.java:280 | a signed digit string whose value fits in an int parses to that signed value |
| Lang.NatToString | Code/src/vue/VueConsole.java:541-548 | the decimal printing of a natural number is a non-empty digit string |
| Lang.NatToStringValue | Code/src/vue/VueConsole.java:541-548 | the digits printed for n denote n |
| Lang.IntToString | Code/src/vue/VueConsole.java:541-548 | the decimal printing of an int is non-empty |
| Lang.ParseIntToString | Code/src/vue/VueConsole.java:205 | round trip: parsing the printed form of any 32-bit int gives that int back |
| Lang.ToLower | Code/src/vue/VueConsole.java:366 | toLowerCase moves exactly the letters A to Z down by 32 and leaves every other character alone |
| Lang.ToLowerString | Code/src/vue/VueConsole.java:366 | lower-casing a string keeps its length and lower-cases each character |
| Lang.EqualsIgnoreCaseEquivalence | Code/src/modele/jeu/JeuEchec.java:81 | equalsIgnoreCase is reflexive, symmetric and transitive, and holds exactly when the lower-cased strings are equal |
| Grille.Rel | Code/src/modele/plateau/Plateau.java:71-79 | getCasePR on values: a square exactly when the offset position is on the board, and then it is that position |
| Grille.Set | Code/src/modele/plateau/Case.java:59-61 | setPiece on values: the board keeps its shape, the square holds the new value and every other square is unchanged |
| Grille.Vide | Code/src/modele/plateau/Plateau.java:25-38 | a new board has the requested size and every square empty |
| Grille.SetRetour | Code/src/modele/jeu/JeuEchec.java:311-320 | writing two squares and then writing back their old contents restores the board exactly |
| Modele.Case.constructor | Code/src/modele/plateau/Case.java:25-29 | a square records its coordinates and starts empty |
| Modele.Case.SetPiece | Code/src/modele/plateau/Case.java:59-61 | setPiece stores the given piece, and nothing else changes |
| Modele.Piece.constructor | Code/src/modele/jeu/Piece.java:29-35 | a new piece records colour, kind and square, puts itself on that square, has not moved, and the board's contents change at that one square |
| Modele.Piece.NouvelleStrategie | Code/src/modele/jeu/Pieces/PiecesEchec/Reine.java:11-13 | each kind gets its movement strategy; only the queen gets a diagonal strategy wrapping a straight-line one |
| Modele.Piece.SetCase | Code/src/modele/jeu/Piece.java:57-59 | setCase records the new square |
| Modele.Piece.SetADejaBouge | Code/src/modele/jeu/Pieces/PiecesEchec/Roi.java:15-17 | the has-moved flag of a king or rook takes the given value |
| Modele.Piece.EstAlliee | Code/src/modele/jeu/Piece.java:74-79 | allied exactly when the other piece exists and has the same colour |
| Modele.Plateau.constructor | Code/src/modele/plateau/Plateau.java:25-38 | a new board of the given size whose squares are fresh and empty |
| Modele.Plateau.InBoundsContents | Code/src/modele/plateau/Plateau.java:46-48 | estDansLimites agrees with the extent of the board's contents |
| Modele.Plateau.GetCase | Code/src/modele/plateau/Plateau.java:57-62 | null exactly for coordinates off the board; otherwise the board's square with those coordinates |
| Modele.Plateau.GetCasePR | Code/src/modele/plateau/Plateau.java:71-79 | null exactly when the offset square is off the board; otherwise that square |
| Modele.Plateau.Designe | Code/src/modele/plateau/Plateau.java:57-62 | a board square is in a list of board squares exactly when its position is among their positions |
| Modele.Plateau.Poser | Code/src/modele/plateau/Case.java:59-61 | putting a piece on a square changes the contents at that square only, and a replaced piece is off the board |
| Modele.Plateau.Installer | Code/src/modele/jeu/Piece.java:57-59 | a piece that is off the board is put on a square: square and piece point to each other, and the contents change at that square only |
| Modele.Plateau.Transporter | Code/src/modele/jeu/JeuEchec.java:311-313 | moving a piece empties the origin, fills the destination and updates the piece's square; the contents change at those two squares only |
| Modele.Plateau.Rendre | Code/src/modele/jeu/JeuEchec.java:318-320 | taking a move back puts the piece on its origin and the captured piece (or nothing) on the destination |
| Modele.Plateau.Marquer | Code/src/modele/jeu/JeuEchec.java:219-224 | setting the has-moved flag of a king or rook changes that piece's square in the contents and nothing else |
| Modele.Plateau.ToutVider | Code/src/modele/jeu/JeuEchec.java:293-298 | every square is emptied and the contents are an empty board |
| Modele.DecCasesAccessibles.constructor | Code/src/modele/deplacements/DecCasesAccessibles.java:22-24 | a strategy records its kind and the wrapped base strategy |
| Modele.DecCasesAccessibles.GetMesCA | Code/src/modele/deplacements/DecCasesAccessibles.java:31 | the squares a strategy's own rule reaches are exactly those of the value-layer rule, and a pawn records its en-passant victim square |
| Modele.DecCasesAccessibles.GetCA | Code/src/modele/deplacements/DecCasesAccessibles.java:38-47 | getCA returns the strategy's own squares followed by the wrapped strategy's, matching the value-layer composition |
| Modele.DecCasesAccessibles.Glisser | Code/src/modele/deplacements/DecLigne.java:16-54 | the scans along the given directions return exactly the value-layer rays |
| Modele.DecCasesAccessibles.Glisse | Code/src/modele/deplacements/DecLigne.java:30-50 | one direction's loop with its break returns exactly the value-layer ray |
| Modele.DecCasesAccessibles.PasDeGlisse | Code/src/modele/deplacements/DecLigne.java:32-49 | one loop step extends the ray by the next square and reports whether the scan stops |
| Modele.DecCasesAccessibles.Sauter | Code/src/modele/deplacements/DecCava.java:16-45 | the knight's (or king's) offset loop returns exactly the value-layer jumps |
| Modele.DecCasesAccessibles.Saute | Code/src/modele/deplacements/DecCava.java:30-41 | one offset adds its square when it is on the board and not allied |
| Modele.DecCasesAccessibles.RoiMesCA | Code/src/modele/deplacements/DecRoi.java:25-95 | the king's squares are the eight steps followed by the castling squares, exactly as the value-layer rule |
| Modele.DecCasesAccessibles.PetitRoquePossible | Code/src/modele/deplacements/DecRoi.java:59-73 | short castling is offered exactly under the value-layer conditions (unmoved king and rook, empty squares between), and then the destination is on the board |
| Modele.DecCasesAccessibles.GrandRoquePossible | Code/src/modele/deplacements/DecRoi.java:76-92 | the same for long castling |
| Modele.DecCasesAccessibles.PionMesCA | Code/src/modele/deplacements/DecPion.java:27-91 | the pawn's squares and the recorded en-passant victim are exactly those of the value-layer pawn rule |
| Modele.DecCasesAccessibles.PionAvancer | Code/src/modele/deplacements/DecPion.java:46-58 | the forward moves are exactly the value-layer advance |
| Modele.DecCasesAccessibles.PionDouble | Code/src/modele/deplacements/DecPion.java:51-56 | the double step is added exactly when the pawn is on its start row and the square two ahead is empty |
| Modele.DecCasesAccessibles.PionPrendre | Code/src/modele/deplacements/DecPion.java:61-70 | the diagonal captures on both sides are exactly the value-layer captures |
| Modele.DecCasesAccessibles.PionPrend | Code/src/modele/deplacements/DecPion.java:62-69 | one side's capture square is added exactly when it holds an enemy piece |
| Modele.DecCasesAccessibles.PionEnPassant | Code/src/modele/deplacements/DecPion.java:73-88 | the en-passant square and its victim are exactly those of the value-layer rule |
| Modele.Coup.GetCoup | Code/src/modele/jeu/Coup.java:46-48 | getCoup returns the departure and the arrival, in that order |
| Mouvements.StrategieDe | Code/src/modele/jeu/Pieces/PiecesEchec/Reine.java:12 | the queen moves by a diagonal strategy wrapping a straight-line one; every other piece has a single strategy |
| Mouvements.Rayon | Code/src/modele/deplacements/DecLigne.java:30-50 | every square of a ray is on the board and empty or enemy |
| Mouvements.Rayons | Code/src/modele/deplacements/DecLigne.java:26-51 | every square of the rays is on the board and empty or enemy |
| Mouvements.Sauts | Code/src/modele/deplacements/DecCava.java:26-42 | every jump square is on the board and empty or enemy |
| Mouvements.Saut | Code/src/modele/deplacements/DecCava.java:30-41 | a single jump square is on the board and empty or enemy |
| Mouvements.RoiCA | Code/src/modele/deplacements/DecRoi.java:25-95 | every king square is on the board and empty or enemy |
| Mouvements.PionAvance | Code/src/modele/deplacements/DecPion.java:46-58 | one step ahead is offered exactly when that square is empty; two steps exactly on the start row with both squares empty; nothing else |
| Mouvements.PionPrise | Code/src/modele/deplacements/DecPion.java:61-70 | a diagonal is offered exactly when it holds a piece of the other colour |
| Mouvements.PionCA | Code/src/modele/deplacements/DecPion.java:27-91 | every pawn square is on the board and not allied, and the en-passant victim is on the board |
| Mouvements.PriseEnPassant | Code/src/modele/deplacements/DecPion.java:73-88 | en passant is offered exactly when the previous move was a double step by an adjacent pawn (of either colour: the rule does not look at the colour) and the square behind it is empty; it lands behind that pawn and takes it |
| Mouvements.MesCA | Code/src/modele/deplacements/DecPuissance4.java:21-23 | the strategies of the connect-four and tic-tac-toe pieces offer nothing; every chess square offered is on the board and not allied |
| Mouvements.CA | Code/src/modele/deplacements/DecCasesAccessibles.java:38-47 | without a base strategy getCA is the own rule; otherwise the two lists are concatenated |
| Mouvements.RayonForme | Code/src/modele/deplacements/DecLigne.java:30-50 | a ray starting at step i has at most 8 - i squares, the j-th is step i + j, all but the last are empty and the last is reachable |
| Mouvements.RayonArret | Code/src/modele/deplacements/DecLigne.java:36-48 | a ray that ends before the edge ends because the next square is blocked |
| Mouvements.MarcheRayon | Code/src/modele/deplacements/DecLigne.java:30-50 | the seven iterations of the loop with its break produce exactly the recursive ray |
| Mouvements.RayonsSurDirections | Code/src/modele/deplacements/DecLigne.java:26-51 | every scanned square lies on one of the directions, 1 to 7 steps away |
| Mouvements.RayonsLongueur | Code/src/modele/deplacements/DecLigne.java:26-51 | at most seven squares per direction |
| Mouvements.LigneCAForme | Code/src/modele/deplacements/DecLigne.java:16-54 | a rook-type piece reaches at most 28 squares, all on its row or column and never its own |
| Mouvements.DiagCAForme | Code/src/modele/deplacements/DecDiag.java:32-70 | a bishop-type piece reaches at most 28 squares, all on its diagonals 1 to 7 steps away |
| Mouvements.ReineCAForme | Code/src/modele/jeu/Pieces/PiecesEchec/Reine.java:11-13 | the queen's squares are its diagonal squares followed by its straight squares, and the two lists share nothing |
| Mouvements.SautsExact | Code/src/modele/deplacements/DecCava.java:26-42 | a square is a jump exactly when it is on the board, not allied, and its offset is in the list |
| Mouvements.SautsSansDoublon | Code/src/modele/deplacements/DecCava.java:19-24 | distinct offsets give distinct squares |
| Mouvements.CavaSauts | Code/src/modele/deplacements/DecCava.java:19-24 | the eight offsets are exactly the knight's L-shapes |
| Mouvements.RoiPas | Code/src/modele/deplacements/DecRoi.java:39-55 | the king's offsets are exactly the eight neighbouring steps |
| Mouvements.CavaCAExact | Code/src/modele/deplacements/DecCava.java:16-45 | the knight reaches at most 8 distinct squares, exactly the on-board non-allied L-shaped ones |
| Mouvements.RoiPasExact | Code/src/modele/deplacements/DecRoi.java:39-55 | the king's steps are exactly the on-board non-allied neighbouring squares |
| Mouvements.RoiCAExact | Code/src/modele/deplacements/DecRoi.java:59-92 | the king reaches at most 10 squares; two to the right exactly when short castling holds, two to the left exactly when long castling holds |
| Mouvements.PionAvanceExact | Code/src/modele/deplacements/DecPion.java:46-58 | the pawn's one- and two-step advances appear exactly under the advance conditions |
| Mouvements.PionCAForme | Code/src/modele/deplacements/DecPion.java:27-91 | at most 4 pawn squares; an occupied diagonal is offered exactly when enemy; en passant exactly under its conditions, landing as the last square |
| Partie.NameDistingue | Code/src/modele/jeu/Joueur.java:11-13 | the two colour names differ, even ignoring case |
| Partie.Incremente | Code/src/modele/jeu/Joueur.java:51-53 | points++ on a Java int wraps around modulo 2 to the 32 |
| Partie.Joueur.constructor | Code/src/modele/jeu/Joueur.java:19-21 | a player has its colour and zero points |
| Partie.Joueur.AjouterPoint | Code/src/modele/jeu/Joueur.java:51-53 | adding a point increments the score with int wrap-around |
| Partie.EstAllieEquivalence | Code/src/modele/jeu/Joueur.java:36-38 | "same colour" between players is an equivalence |
| Partie.Session.constructor | Code/src/modele/jeu/Jeu.java:20-21 | the shared history starts empty and no game is current |
| Partie.Jeu.constructor | Code/src/modele/jeu/Jeu.java:35-40 | a game registers itself as the current one, creates two fresh players with no points, White to move, no winner, no highlighted cells |
| Partie.Jeu.GetDernierCoup | Code/src/modele/jeu/Jeu.java:69-74 | no move on an empty history, otherwise the last move recorded |
| Partie.Jeu.Alterner | Code/src/modele/jeu/JeuTicTacToe.java:39 | the player to move becomes the opponent |
| Partie.Jeu.ClearWinningCells | Code/src/modele/jeu/Jeu.java:117-121 | a fresh all-false highlight array of the board's size |
| Partie.AdversaireCouleur | Code/src/modele/jeu/JeuTicTacToe.java:67 | the opponent has the other colour and is its own inverse; the winner chosen by colour name has that colour |
| Morpion.PremiereLigne | Code/src/modele/jeu/JeuTicTacToe.java:59-138 | a line found is one of the scanned lines and holds three pieces of one colour |
| Morpion.PremiereLigneAucune | Code/src/modele/jeu/JeuTicTacToe.java:59-138 | no line is found exactly when no scanned line is complete |
| Morpion.PremiereLigneEstPremiere | Code/src/modele/jeu/JeuTicTacToe.java:59-138 | the line found is the first complete one in scan order |
| Morpion.Tester | Code/src/modele/jeu/JeuTicTacToe.java:60-66 | the three-square test holds exactly when the squares are occupied by one colour |
| Morpion.Marquer | Code/src/modele/jeu/JeuTicTacToe.java:69-71 | exactly the line's squares are added to the highlight array |
| Morpion.Lignes | Code/src/modele/jeu/JeuTicTacToe.java:59-138 | one line per row, one per column, and the two diagonals |
| Morpion.LignesIndex | Code/src/modele/jeu/JeuTicTacToe.java:59-138 | the scan tests the rows, then the columns, then the diagonal, then the anti-diagonal |
| Morpion.Placement | Code/src/modele/jeu/JeuTicTacToe.java:19-41 | an occupied square changes nothing; an empty one receives the mover's piece and the turn passes |
| Morpion.SansLigne | Code/src/modele/jeu/JeuTicTacToe.java:141-160 | with the right column and bottom row empty there is no line and the board is not full |
| Morpion.PartieBlancGagne | Code/test/modele/jeu/JeuTicTacToeTest.java:20-51 | the five-move scenario has no winner and no full board before its last move, then White completes the top row |
| Morpion.JeuTicTacToe.constructor | Code/src/modele/jeu/JeuTicTacToe.java:10-12 | a new game on the given board, White to move, no winner |
| Morpion.JeuTicTacToe.Placer | Code/src/modele/jeu/JeuTicTacToe.java:19-41 | one turn: placed exactly when the square is empty, then the board gains the mover's piece there and the turn passes; otherwise nothing changes |
| Morpion.JeuTicTacToe.EstTermine | Code/src/modele/jeu/JeuTicTacToe.java:54-163 | finished with the first complete line announced and highlighted; otherwise finished exactly when the board is full (a draw), with nothing highlighted |
| Morpion.JeuTicTacToe.Chercher | Code/src/modele/jeu/JeuTicTacToe.java:59-138 | a win is reported exactly when a complete line exists, and the first is announced |
| Morpion.JeuTicTacToe.ChercherRangees | Code/src/modele/jeu/JeuTicTacToe.java:59-78 | a win on a row announces the first complete line; otherwise no row is complete |
| Morpion.JeuTicTacToe.ChercherColonnes | Code/src/modele/jeu/JeuTicTacToe.java:81-100 | the same for the columns, given that no row is complete |
| Morpion.JeuTicTacToe.Verifier | Code/src/modele/jeu/JeuTicTacToe.java:103-119 | a line wins exactly when it is complete, and then it is announced |
| Morpion.JeuTicTacToe.EstRempli | Code/src/modele/jeu/JeuTicTacToe.java:141-160 | full exactly when every square is occupied |
| Morpion.JeuTicTacToe.ReinitialiserPartie | Code/src/modele/jeu/JeuTicTacToe.java:203-214 | an empty board, White to move, no winner, nothing highlighted |
| Morpion.VueTicTacToe.constructor | Code/src/vue/VueTicTacToe.java:29-48 | the view reads the game's board |
| Morpion.VueTicTacToe.VerifierTicTacToeGagnant | Code/src/vue/VueTicTacToe.java:181-231 | the view's winner test holds exactly when the game would find a complete line |
| Morpion.VueTicTacToe.TesterRangees | Code/src/vue/VueTicTacToe.java:183-193 | a row win implies a complete line; otherwise no row is complete |
| Morpion.VueTicTacToe.TesterColonnes | Code/src/vue/VueTicTacToe.java:196-206 | the same for the columns |
| Morpion3D.Poser | Code/src/modele/jeu/JeuTicTacToe3D.java:39 | placing a piece changes the cube at that cell only |
| Morpion3D.PremierAlignement | Code/src/modele/jeu/JeuTicTacToe3D.java:62-80 | an alignment found is one of the scanned triples and holds three pieces of one colour |
| Morpion3D.AucunAlignement | Code/src/modele/jeu/JeuTicTacToe3D.java:62-80 | nothing is found exactly when no scanned triple is aligned |
| Morpion3D.AlignementPremier | Code/src/modele/jeu/JeuTicTacToe3D.java:62-80 | the triple found is the first aligned one in scan order |
| Morpion3D.AligneInverse | Code/src/modele/jeu/JeuTicTacToe3D.java:239-247 | an alignment does not depend on the direction a triple is read in |
| Morpion3D.CoucheRangee | Code/src/modele/jeu/JeuTicTacToe3D.java:110-116 | the layer scan tests row x of layer z at position x |
| Morpion3D.CoucheColonne | Code/src/modele/jeu/JeuTicTacToe3D.java:119-125 | then column y of layer z at position 3 + y |
| Morpion3D.VerticalesIndex | Code/src/modele/jeu/JeuTicTacToe3D.java:147-158 | the vertical scan tests the pillar (x, y) at position 3x + y |
| Morpion3D.LignesDroites | Code/src/modele/jeu/JeuTicTacToe3D.java:62-80 | the 49 scanned triples are all straight lines of the cube |
| Morpion3D.LignesCompletes | Code/src/modele/jeu/JeuTicTacToe3D.java:62-80 | every straight line of the cube is scanned, in one direction or the other |
| Morpion3D.Alignement3D | Code/src/modele/jeu/JeuTicTacToe3D.java:62-103 | the scan finds an alignment exactly when some straight line is aligned |
| Morpion3D.Decoupage | Code/src/modele/jeu/JeuTicTacToe3D.java:62-80 | the scan is the layers, then the pillars, then the face diagonals, then the main diagonals, in that order |
| Morpion3D.FacesDecoupe | Code/src/modele/jeu/JeuTicTacToe3D.java:163-199 | the face diagonals are scanned by column and then by row |
| Morpion3D.CouchesTable | Code/src/modele/jeu/JeuTicTacToe3D.java:68-70 | the layer loop covers layers 0, 1, 2 in order |
| Morpion3D.VerticalesTable | Code/src/modele/jeu/JeuTicTacToe3D.java:147-158 | the pillar loop covers the nine pillars in order |
| Morpion3D.VideNonTermine | Code/src/modele/jeu/JeuTicTacToe3D.java:82-102 | an empty cube is neither won nor full |
| Morpion3D.JeuTicTacToe3D.constructor | Code/src/modele/jeu/JeuTicTacToe3D.java:21-23 | a new game with an empty cube, nothing highlighted, White to move, no winner |
| Morpion3D.JeuTicTacToe3D.JouerPartie | Code/src/modele/jeu/JeuTicTacToe3D.java:26-59 | a move is played exactly when a target cell is given and empty; it places the mover's piece, decides the end of game, clears the 2D highlight matrix to a fresh all-false one of the board's size, and passes the turn only when the game goes on; a refused move changes nothing |
| Morpion3D.JeuTicTacToe3D.EstTermine | Code/src/modele/jeu/JeuTicTacToe3D.java:62-103 | finished exactly when some line is aligned or the cube is full; a win announces the first aligned line; the 2D highlight matrix is re-created all false |
| Morpion3D.JeuTicTacToe3D.ChercherLignes | Code/src/modele/jeu/JeuTicTacToe3D.java:68-80 | the scan reports the first aligned triple among the 49, or none |
| Morpion3D.JeuTicTacToe3D.ChercherCouches | Code/src/modele/jeu/JeuTicTacToe3D.java:68-70 | the same over the three layers |
| Morpion3D.JeuTicTacToe3D.VerifierGrille | Code/src/modele/jeu/JeuTicTacToe3D.java:108-142 | the same over one layer's rows, columns and diagonals |
| Morpion3D.JeuTicTacToe3D.VerifierColonnesVerticales | Code/src/modele/jeu/JeuTicTacToe3D.java:147-158 | the same over the nine pillars |
| Morpion3D.JeuTicTacToe3D.VerifierPiliers | Code/src/modele/jeu/JeuTicTacToe3D.java:149-155 | the same over the pillars of one row |
| Morpion3D.JeuTicTacToe3D.VerifierDiagonalesInterGrillesFaces | Code/src/modele/jeu/JeuTicTacToe3D.java:163-199 | the same over the face diagonals |
| Morpion3D.JeuTicTacToe3D.FacesColonnes | Code/src/modele/jeu/JeuTicTacToe3D.java:165-179 | the same over the face diagonals at fixed y |
| Morpion3D.JeuTicTacToe3D.FacesRangees | Code/src/modele/jeu/JeuTicTacToe3D.java:182-196 | the same over the face diagonals at fixed x |
| Morpion3D.JeuTicTacToe3D.VerifierDiagonalesPrincipalesCube | Code/src/modele/jeu/JeuTicTacToe3D.java:204-234 | the same over the four main diagonals |
| Morpion3D.JeuTicTacToe3D.VerifierAlignement | Code/src/modele/jeu/JeuTicTacToe3D.java:239-257 | a triple wins exactly when aligned; then the winner is its colour and its three cells are highlighted; otherwise nothing changes |
| Morpion3D.JeuTicTacToe3D.EstPlein | Code/src/modele/jeu/JeuTicTacToe3D.java:82-94 | full exactly when all 27 cells are occupied |
| Morpion3D.JeuTicTacToe3D.ReinitialiserPartie | Code/src/modele/jeu/JeuTicTacToe3D.java:265-278 | an empty, unfinished cube, White to move, no winner, and a fresh all-false 2D highlight matrix of the board's size |
| Morpion3D.JeuTicTacToe3D.Vider | Code/src/modele/jeu/JeuTicTacToe3D.java:266-272 | every cell emptied |
| Puissance4.QuatreParCases | Code/src/modele/jeu/JeuPuissance4.java:64-72 | four in a direction means an occupied start and three further on-board squares of its colour |
| Puissance4.PremiereDirection | Code/src/modele/jeu/JeuPuissance4.java:64-157 | a direction reported from a square holds four |
| Puissance4.PremiereDirectionAucune | Code/src/modele/jeu/JeuPuissance4.java:64-157 | no direction is reported exactly when none holds four, and the one reported is the first that does |
| Puissance4.Premier | Code/src/modele/jeu/JeuPuissance4.java:58-159 | the square found is on the board with a direction index below 4 |
| Puissance4.PremierAucun | Code/src/modele/jeu/JeuPuissance4.java:58-159 | the scan finds nothing exactly when no later square has four in any direction |
| Puissance4.PremierEstPremier | Code/src/modele/jeu/JeuPuissance4.java:58-159 | the square found has four in the direction reported, in no earlier direction, and no earlier square in row-major order has four |
| Puissance4.PremierGagne | Code/src/modele/jeu/JeuPuissance4.java:58-159 | the scan finds something exactly when four are aligned somewhere |
| Puissance4.Chute | Code/src/modele/jeu/JeuPuissance4.java:23-30 | a dropped piece lands on an empty square of the chosen column |
| Puissance4.ChuteExacte | Code/src/modele/jeu/JeuPuissance4.java:23-30 | the column is full exactly when nothing is found, and every square below the landing square is occupied |
| Puissance4.DeuxiemeChute | Code/src/modele/jeu/JeuPuissance4.java:23-40 | after a drop, the next piece in that column lands on the square above |
| Puissance4.Marquer | Code/src/modele/jeu/JeuPuissance4.java:77-80 | exactly the four squares are added to the highlight array |
| Puissance4.JeuPuissance4.constructor | Code/src/modele/jeu/JeuPuissance4.java:10-12 | a new game on the given board, White to move, no winner |
| Puissance4.JeuPuissance4.Deposer | Code/src/modele/jeu/JeuPuissance4.java:17-44 | one turn: a full column changes nothing; otherwise the mover's piece fills the lowest empty square and the turn passes |
| Puissance4.JeuPuissance4.EstTermine | Code/src/modele/jeu/JeuPuissance4.java:54-177 | finished with the first four announced and highlighted; otherwise finished exactly when the top row is full, as a draw with highlights cleared |
| Puissance4.JeuPuissance4.ParcourirLigne | Code/src/modele/jeu/JeuPuissance4.java:59-158 | one row of the scan announces the first four from that row on, or the scan continues at the next row with nothing changed |
| Puissance4.JeuPuissance4.EstPlein | Code/src/modele/jeu/JeuPuissance4.java:161-167 | full exactly when every column's top square is occupied |
| Puissance4.JeuPuissance4.VerifierCase | Code/src/modele/jeu/JeuPuissance4.java:60-157 | from one occupied square, the first direction holding four is announced, or nothing changes |
| Puissance4.JeuPuissance4.Aligne | Code/src/modele/jeu/JeuPuissance4.java:64-72 | the loop reports four exactly when the four squares share one colour |
| Puissance4.JeuPuissance4.Gagner | Code/src/modele/jeu/JeuPuissance4.java:73-80 | the winner is the colour's player and the four squares are highlighted |
| Puissance4.JeuPuissance4.ReinitialiserPartie | Code/src/modele/jeu/JeuPuissance4.java:227-238 | an empty board, White to move, no winner, highlights cleared |
| Puissance4.VueGagne | Code/src/vue/VuePuissance4.java:182-252 | the view's four families of checks together detect four in a row exactly when the game's definition does |
| Puissance4.MontanteGagne | Code/src/vue/VuePuissance4.java:235-249 | the view's rising diagonals are real wins |
| Puissance4.Renverse | Code/src/vue/VuePuissance4.java:237-240 | a rising diagonal read downward is the same four read upward |
| Puissance4.FamilleGagne | Code/src/vue/VuePuissance4.java:182-252 | any family's hit is a win |
| Puissance4.GagneFamille | Code/src/vue/VuePuissance4.java:182-252 | every win is hit by one of the four families |
| Puissance4.VuePuissance4.constructor | Code/src/vue/VuePuissance4.java:30-48 | the view reads the game's board |
| Puissance4.VuePuissance4.VerifierPuissance4Gagnant | Code/src/vue/VuePuissance4.java:182-252 | the view's winner test holds exactly when four are aligned |
| Puissance4.VuePuissance4.Balayer | Code/src/vue/VuePuissance4.java:184-198 | a family's double loop finds four exactly when some start in its range has four |
| Puissance4.VuePuissance4.Tester | Code/src/vue/VuePuissance4.java:186-196 | a single check holds exactly when the four squares share one colour |
| Echecs.CAdeSansDepart | Code/src/modele/deplacements/DecCasesAccessibles.java:38-47 | no piece is ever offered its own square |
| Echecs.RoiDansLigne | Code/src/modele/jeu/JeuEchec.java:330-336 | the inner search returns the first king of the colour in a row, or reports there is none |
| Echecs.RoiTrouveExact | Code/src/modele/jeu/JeuEchec.java:328-337 | the king search fails exactly when there is no king of that colour; otherwise, because break leaves only the inner loop, it returns the first king of the last row that has one |
| Echecs.SansRoiPasEchec | Code/src/modele/jeu/JeuEchec.java:339-342 | a colour without a king is never in check |
| Echecs.AvanceAilleurs | Code/src/modele/jeu/JeuEchec.java:147-154 | a move leaves every square other than origin, destination and en-passant victim unchanged |
| Echecs.SimuleAvecAt | Code/src/modele/jeu/JeuEchec.java:147-164 | after the simulated move: the destination holds the mover, the origin is empty, an en-passant victim is removed, a castling rook is moved, every other square is unchanged |
| Echecs.DefaitAt | Code/src/modele/jeu/JeuEchec.java:169-181 | what the undo writes on each square |
| Echecs.DefaitSimule | Code/src/modele/jeu/JeuEchec.java:147-181 | undoing the simulated move restores the board exactly, including captures and castling |
| Echecs.VerdictSaisi | Code/src/modele/jeu/JeuEchec.java:74-86 | a move of one's own piece is never refused for "no piece" or "not your turn" |
| Echecs.VerdictAdmis | Code/src/modele/jeu/JeuEchec.java:109-188 | an admitted move is refused exactly for castling through an attacked square or for leaving one's own king in check |
| Echecs.Depart | Code/src/modele/jeu/JeuEchec.java:377-409 | the starting position is an 8 by 8 board |
| Echecs.DepartAt | Code/src/modele/jeu/JeuEchec.java:377-409 | the content of every square of the starting position: Black on rows 0 and 1, White on rows 6 and 7, pieces unmoved |
| Echecs.DepartSymetrique | Code/src/modele/jeu/JeuEchec.java:377-409 | the starting position is mirror-symmetric between the colours, and White holds exactly rows 6 and 7 |
| Echecs.EqualsIgnoreCaseNoms | Code/src/modele/jeu/JeuEchec.java:81 | the piece colours "Blanc" and "Noir" match the player colours BLANC and NOIR ignoring case, and only those |
| Echecs.DepartRois | Code/src/modele/jeu/JeuEchec.java:379-390 | one king per colour on e1 and e8; kings and rooks start unmoved, as castling needs |
| Echecs.PartielComplet | Code/src/modele/jeu/JeuEchec.java:377-409 | a board that agrees with the starting position on its 32 piece squares and is empty elsewhere is the starting position |
| Echecs.PionRangees | Code/src/modele/deplacements/DecPion.java:42-88 | a pawn never moves within its own row, and its en-passant victim is beside it |
| Echecs.RoqueColonne4 | Code/src/modele/deplacements/DecRoi.java:59-92 | a king's two-square move starts from column 4 and happens only under the castling conditions |
| Echecs.CoupDistinct | Code/src/modele/jeu/JeuEchec.java:98-164 | an offered move stays on the board; its en-passant victim and castling rook squares are distinct from the move's squares and from each other; en passant and castling never coincide |
| Echecs.PionDistinct | Code/src/modele/jeu/JeuEchec.java:140-152 | a pawn changes rows, and its en-passant victim is on its starting row |
| Echecs.Lever | Code/src/modele/jeu/JeuEchec.java:147-154 | the simulation step moves the piece and removes an en-passant victim, keeping the pieces it removed |
| Echecs.PorterTour | Code/src/modele/jeu/JeuEchec.java:156-164 | the rook moves beside the king when it is a rook; otherwise nothing changes |
| Echecs.Restaurer | Code/src/modele/jeu/JeuEchec.java:169-181 | undoing restores the board contents and every piece on its square |
| Echecs.RestaurerSansRoque | Code/src/modele/jeu/JeuEchec.java:169-174 | the same without castling |
| Echecs.RestaurerRoque | Code/src/modele/jeu/JeuEchec.java:169-181 | the same with castling, putting the rook back |
| Echecs.Avancer | Code/src/modele/jeu/JeuEchec.java:147-164 | the simulation yields the simulated board and everything needed to undo it |
| Echecs.AvancerSansRoque | Code/src/modele/jeu/JeuEchec.java:147-154 | the same without castling |
| Echecs.AvancerRoque | Code/src/modele/jeu/JeuEchec.java:147-164 | the same with castling |
| Echecs.Tourner | Code/src/modele/jeu/JeuEchec.java:156-164 | the rook step of the simulation can be undone |
| Echecs.Promouvoir | Code/src/modele/jeu/JeuEchec.java:210-216 | a pawn reaching row 0 or 7 is replaced by a fresh unmoved queen of its colour; otherwise nothing changes |
| Echecs.Appliquer | Code/src/modele/jeu/JeuEchec.java:191-224 | executing the move yields the value-layer board after the move |
| Echecs.Creer | Code/src/modele/jeu/JeuEchec.java:379-407 | one more square of the starting position is set up |
| Echecs.CreerRoyaux | Code/src/modele/jeu/JeuEchec.java:379-384 | the kings and queens are set up |
| Echecs.CreerPaire | Code/src/modele/jeu/JeuEchec.java:387-402 | a pair of rooks, knights or bishops is set up for both colours |
| Echecs.CreerArrieres | Code/src/modele/jeu/JeuEchec.java:379-402 | both back ranks are set up |
| Echecs.CreerPions | Code/src/modele/jeu/JeuEchec.java:405-408 | both pawn rows are set up |
| Echecs.InitialiserPieces | Code/src/modele/jeu/JeuEchec.java:377-409 | an empty board becomes exactly the starting position |
| Echecs.JeuEchec.constructor | Code/src/modele/jeu/JeuEchec.java:49-52 | a new chess game in the starting position, White to move, no winner |
| Echecs.JeuEchec.ReinitialiserPartie | Code/src/modele/jeu/JeuEchec.java:290-303 | back to the starting position, White to move, no winner |
| Echecs.JeuEchec.Attaquer | Code/src/modele/jeu/JeuEchec.java:365-369 | a square attacks the target exactly when it holds an enemy piece whose getCA offers the target |
| Echecs.JeuEchec.MenaceeLigne | Code/src/modele/jeu/JeuEchec.java:364-371 | one row of the attack scan reports whether some square of that row attacks the target |
| Echecs.JeuEchec.CaseMenacee | Code/src/modele/jeu/JeuEchec.java:362-374 | a square is threatened exactly when some enemy piece attacks it |
| Echecs.JeuEchec.RoiLigne | Code/src/modele/jeu/JeuEchec.java:330-336 | the inner loop returns the king object on the square of the value-layer search |
| Echecs.JeuEchec.TrouverRoi | Code/src/modele/jeu/JeuEchec.java:328-337 | the king search returns the king object on the square the value-layer search finds, or null |
| Echecs.JeuEchec.EstEnEchec | Code/src/modele/jeu/JeuEchec.java:327-359 | in check exactly when the colour's king is found and attacked by an enemy piece |
| Echecs.JeuEchec.CoupEstLegal | Code/src/modele/jeu/JeuEchec.java:306-323 | legal exactly when the displaced board leaves the king out of check; the board and every square's piece are as before |
| Echecs.JeuEchec.Tenter | Code/src/modele/jeu/JeuEchec.java:311-322 | the trial move reports check on the displaced board and puts everything back |
| Echecs.JeuEchec.Regarder | Code/src/modele/jeu/JeuEchec.java:311-315 | the trial move displaces the piece and reports check on that board |
| Echecs.JeuEchec.Jouable | Code/src/modele/jeu/JeuEchec.java:258-267 | a square holds a piece of the player with a legal move, and nothing changes |
| Echecs.JeuEchec.EssayerPiece | Code/src/modele/jeu/JeuEchec.java:259-266 | a piece has a legal move exactly when some square its getCA offers is legal |
| Echecs.JeuEchec.Destinations | Code/src/modele/jeu/JeuEchec.java:260 | getCA returns the squares the value-layer rule gives, never the piece's own square, and records a pawn's en-passant victim |
| Echecs.JeuEchec.Essayer | Code/src/modele/jeu/JeuEchec.java:262-266 | the loop finds a legal destination exactly when one exists in the list |
| Echecs.JeuEchec.JouableLigne | Code/src/modele/jeu/JeuEchec.java:257-268 | a row has a square with a legal move exactly when the scan of that row finds one |
| Echecs.JeuEchec.ChercherCoup | Code/src/modele/jeu/JeuEchec.java:256-269 | the scan finds a legal move exactly when the player has one |
| Echecs.JeuEchec.EstTermine | Code/src/modele/jeu/JeuEchec.java:249-278 | finished exactly when the player to move has no legal move; then the opponent wins if that player is in check (mate), otherwise it is a draw; the board and every square's piece are as before |
| Echecs.JeuEchec.Conclure | Code/src/modele/jeu/JeuEchec.java:272-276 | the winner is the opponent on mate, nobody on stalemate |
| Echecs.JeuEchec.Simuler | Code/src/modele/jeu/JeuEchec.java:147-181 | the move is illegal exactly when the simulated board leaves the king in check; the board and the pieces on the touched squares are restored |
| Echecs.JeuEchec.EssaiPassant | Code/src/modele/jeu/JeuEchec.java:147-174 | the same for an en-passant capture |
| Echecs.JeuEchec.EssaiRoque | Code/src/modele/jeu/JeuEchec.java:147-181 | the same for castling |
| Echecs.JeuEchec.Annuler | Code/src/modele/jeu/JeuEchec.java:169-181 | the undo restores the saved board and every moved piece to its square |
| Echecs.JeuEchec.Controler | Code/src/modele/jeu/JeuEchec.java:166-181 | the check test on the simulated board, followed by the undo |
| Echecs.JeuEchec.Verifier | Code/src/modele/jeu/JeuEchec.java:166 | estEnEchec on the simulated board |
| Echecs.JeuEchec.Admettre | Code/src/modele/jeu/JeuEchec.java:64-95 | the first checks accept exactly the admitted moves (a piece of the player to move, a destination getCA offers), and otherwise give the verdict's refusal |
| Echecs.JeuEchec.Traverse | Code/src/modele/jeu/JeuEchec.java:114-121 | castling is blocked exactly when one of the two squares the king crosses is attacked |
| Echecs.JeuEchec.Roquer | Code/src/modele/jeu/JeuEchec.java:109-137 | castling is refused exactly when the king crosses an attacked square; otherwise the rook's squares are found |
| Echecs.JeuEchec.RoquerVers | Code/src/modele/jeu/JeuEchec.java:112-123 | the same for one side, with the rook's start and end columns |
| Echecs.JeuEchec.Valider | Code/src/modele/jeu/JeuEchec.java:64-188 | the checks of jouerPartie give exactly the value-layer verdict, and on acceptance the en-passant and castling squares it uses |
| Echecs.JeuEchec.Confirmer | Code/src/modele/jeu/JeuEchec.java:109-188 | for an admitted move the remaining checks give exactly the verdict |
| Echecs.JeuEchec.Preparer | Code/src/modele/jeu/JeuEchec.java:109-144 | castling safety is decided and the en-passant and rook squares are found |
| Echecs.JeuEchec.Juger | Code/src/modele/jeu/JeuEchec.java:147-188 | the move is refused exactly when the simulated board leaves the king in check |
| Echecs.JeuEchec.Executer | Code/src/modele/jeu/JeuEchec.java:191-224 | executing the move yields the value-layer board after the move |
| Echecs.JeuEchec.Clore | Code/src/modele/jeu/JeuEchec.java:229-239 | the end-of-game test is made for the player who just moved, since the turn has not passed yet: finished exactly when that player has no legal move; the turn passes to the opponent only if the game goes on |
| Echecs.JeuEchec.Jouer | Code/src/modele/jeu/JeuEchec.java:74-244 | a move is played exactly when the verdict accepts it; the board becomes the value-layer board after the move and the game is concluded or the turn passes; a refused move changes nothing |
| Echecs.JeuEchec.Accomplir | Code/src/modele/jeu/JeuEchec.java:191-239 | execution followed by the end-of-game test |
| Echecs.JeuEchec.JouerPartie | Code/src/modele/jeu/JeuEchec.java:63-244 | jouerPartie plays the given move exactly when it is complete and the verdict accepts it, with the resulting board and turn; otherwise nothing changes |
| VueConsole.ParseCoupTicTacToe | Code/src/vue/VueConsole.java:204-222 | an unparsable number gives parseInt's error, a number outside 1 to 9 the range message; an accepted move targets an empty square whose number is the input |
| VueConsole.NumeroCase | Code/src/vue/VueConsole.java:210-221 | the number of each square reads back as that square, or as the occupied message |
| VueConsole.SaisieLibre | Code/src/vue/VueConsole.java:214-218 | an accepted move targets an empty square of the board's contents |
| VueConsole.ParseCoupTicTacToe3D | Code/src/vue/VueConsole.java:232-265 | the wrong length, a bad layer letter and a bad digit each give their message; an accepted move targets an empty cell whose notation is the input |
| VueConsole.GetCaseNotation3D | Code/src/vue/VueConsole.java:541-548 | a cell's notation is a layer letter a to c followed by a digit 1 to 9 |
| VueConsole.Notation3DRetour | Code/src/vue/VueConsole.java:541-548 | parsing a cell's notation gives that cell back, or the occupied message |
| VueConsole.ParseCoupPuissance4 | Code/src/vue/VueConsole.java:279-305 | parseInt errors and out-of-range columns give their messages; a full column gives the full message; otherwise the move targets the square a drop would land on |
| VueConsole.CoordToCase | Code/src/vue/VueConsole.java:360-378 | anything but two characters is refused; a square found has the column of the lower-cased letter and prints back as the input |
| VueConsole.CaseToNotation | Code/src/vue/VueConsole.java:703-707 | a square's notation starts with the letter of its column |
| VueConsole.NotationRetour | Code/src/vue/VueConsole.java:703-707 | parsing a square's notation gives that square back |
| VueConsole.ParseCoupEchec | Code/src/vue/VueConsole.java:318-350 | anything but four characters is refused; an accepted move joins the two parsed squares and starts on a piece of the player to move |
| VueConsole.NotationCoup | Code/src/vue/VueConsole.java:318-350 | the notation of two squares reads back as that move, or as the empty-square or not-your-piece message |
| VueConsole.SaisieAdmise | Code/src/vue/VueConsole.java:332-342 | a move the console accepts is never refused by jouerPartie for "no piece" or "not your turn" |
| VueTicTacToe3DConsole.ParseCoupTicTacToe3D | Code/src/vue/VueTicTacToe3DConsole.java:102-137 | an accepted move targets an empty cell of the cube |
| VueTicTacToe3DConsole.MemeLecture | Code/src/vue/VueTicTacToe3DConsole.java:102-137 | this parser accepts and rejects the same inputs as the general console's, with the same results; only the layer message differs |
| VueTicTacToe3DConsole.Notation3DRetour | Code/src/vue/VueTicTacToe3DConsole.java:235-242 | parsing a cell's notation gives that cell back, or the occupied message |
| MatDuLion.CAPortee | Code/src/modele/deplacements/DecCasesAccessibles.java:38-47 | every square getCA offers is on the board, not allied, and within the piece's geometric reach |
| MatDuLion.PionPortee | Code/src/modele/deplacements/DecPion.java:42-88 | a pawn reaches only the three squares ahead of it or the square two ahead |
| MatDuLion.JoueSimple | Code/src/modele/jeu/JeuEchec.java:147-224 | for a move that is not by a king or rook and not a promotion, both the simulated and the executed board are the plain displacement |
| MatDuLion.CoupAccepte | Code/src/modele/jeu/JeuEchec.java:64-244 | such a move of one's own piece, offered by getCA and not leaving check, is accepted, and then the player has a legal move |
| MatDuLion.Coup1 | Code/test/modele/jeu/JeuEchecTest.java:29-35 | f2-f3 is accepted from the starting position |
| MatDuLion.Coup2 | Code/test/modele/jeu/JeuEchecTest.java:37-42 | e7-e5 is accepted in reply |
| MatDuLion.Coup3 | Code/test/modele/jeu/JeuEchecTest.java:44-49 | g2-g4 is accepted |
| MatDuLion.Coup4 | Code/test/modele/jeu/JeuEchecTest.java:51-54 | the queen's d8-h4 is accepted |
| MatDuLion.PionEncore | Code/src/modele/jeu/JeuEchec.java:249-269 | a player whose pawn can step onto an empty square, with no moved enemy piece reaching the player's king, has a legal move |
| MatDuLion.Encore1 | Code/test/modele/jeu/JeuEchecTest.java:29-35 | after f2-f3 White still has a legal move, so the game goes on and Black is to move |
| MatDuLion.Encore2 | Code/test/modele/jeu/JeuEchecTest.java:37-42 | after e7-e5 Black still has a legal move, so White is to move |
| MatDuLion.Encore3 | Code/test/modele/jeu/JeuEchecTest.java:44-49 | after g2-g4 White still has a legal move, so Black is to move |
| MatDuLion.Encore4 | Code/test/modele/jeu/JeuEchecTest.java:51-58 | after d8-h4 Black still has a legal move, so the game goes on with White to move |
| MatDuLion.EchecReine | Code/src/modele/jeu/JeuEchec.java:344-356 | with g3 empty, the queen on h4 gives check to the king on e1 or f2 |
| MatDuLion.TourH1 | Code/src/modele/deplacements/DecLigne.java:26-51 | the boxed-in h1 rook has no move |
| MatDuLion.MatRoi | Code/src/modele/deplacements/DecRoi.java:39-55 | the only square the white king can reach after the fourth move is f2 |
| MatDuLion.MatCoup | Code/src/modele/jeu/JeuEchec.java:306-323 | every white move offered after the fourth move leaves the king in check |
| MatDuLion.MatCase | Code/src/modele/jeu/JeuEchec.java:256-269 | after the fourth move no square holds a white piece with a legal move |
| MatDuLion.Mat | Code/src/modele/jeu/JeuEchec.java:249-278 | after the fourth move White is in check with no legal move |
| MatDuLion.MatEnQuatreCoups | Code/test/modele/jeu/JeuEchecTest.java:20-59 | from the starting position each of the four moves is accepted for the player to move; after each, the player who moved still has a legal move, so jouerPartie's own end-of-game test lets the game go on and the turn passes to the other player; after the fourth, White is checkmated and the winner is Black |

## Left out

- Modele.DecCasesAccessibles.GetMesCA: requires that the rule be defined on the square. The Java strategies read the piece on the square without a null test, and the pawn also reads the square two rows ahead. On an empty square, or when that square is off the board, they throw NullPointerException; the model does not give a result there.
- Modele.DecCasesAccessibles.GetCA: the same precondition, for the same reason.
- Modele.DecCasesAccessibles.Glisser: requires a piece on the square, because DecLigne and DecDiag read its colour without a null test.
- Modele.DecCasesAccessibles.Sauter: requires a piece on the square, for the same reason (DecCava).
- Modele.DecCasesAccessibles.RoiMesCA: requires a piece on the square, for the same reason (DecRoi).
- Modele.DecCasesAccessibles.PionMesCA: requires the pawn preconditions above (DecPion).
- Mouvements.MesCA: the same precondition as GetMesCA, on values.
- Mouvements.PionCA: requires the pawn preconditions, on values.
- Morpion.JeuTicTacToe.EstTermine: requires a board of at least 3 by 3. The diagonal checks read fixed squares, and on a smaller board getCase returns null and the Java throws.
- Morpion.VueTicTacToe.VerifierTicTacToeGagnant: requires a board of at least 3 by 3, for the same reason.
- Puissance4.JeuPuissance4.EstTermine: requires at least one row whenever there are columns. The full-board test reads row 0 of every column, and a board with columns but no rows makes the Java throw.
- Puissance4.JeuPuissance4.EstPlein: the same precondition, for the same reason.
- Modele.Piece.EstAlliee: colours are non-null strings. The null-colour branch of Piece.estAlliee is not modelled.
- Lang.ToLower: only ASCII letters are folded. Java's toLowerCase and equalsIgnoreCase also fold other alphabets.
- Lang.ParseInt: only ASCII digits are accepted. Java's Integer.parseInt also accepts other Unicode decimal digits.
- VueConsole.CoordToCase: (char) conversions are modelled only for codes outside the UTF-16 surrogate range.
- VueConsole.CaseToNotation: the same restriction on (char).
- Modele.Plateau.GetCase: Java's Plateau.getCase is static and reads the board built last. The model passes the board explicitly.
- Morpion3D.JeuTicTacToe3D.EstTermine: the 3D game calls a three-argument Plateau.getCase, Case.getPosZ and a winningCells3D array. Those are not part of this model, because Plateau.java and Case.java have no third coordinate. The cube is modelled as a 3 by 3 by 3 value and winningCells3D as a set of cells.
- Morpion3D.JeuTicTacToe3D.VerifierAlignement: the model assumes winningCells3D exists and drops the `winningCells3D != null` guard of JeuTicTacToe3D.java:249. It always adds the three cells of a winning line. No source file shown declares or allocates winningCells3D; if it is null, Java marks no cell.
- Morpion3D.JeuTicTacToe3D.constructor: the cube starts empty whatever the given board holds, so the constructor assumes a fresh board, as the Java game is built on one.
- Morpion.JeuTicTacToe.Placer: one pass of jouerPartie's loop. The loop itself repeats over moves from getCoup, which blocks until the user or the interface supplies a move. The model takes each move as a parameter.
- Puissance4.JeuPuissance4.Deposer: one pass of jouerPartie's loop, for the same reason.
- Echecs.JeuEchec.JouerPartie: the game runs on its own thread and waits on getCoup; the model plays the move it is given.
- Partie.Session.constructor: the move history is modelled, but no Java code appends to it, so en passant is unreachable from a real game.
- Error messages: thrown exceptions are modelled as error values that carry the exception's message. Printed messages, sounds (SoundManager), observer notifications, listener callbacks and the Swing views' drawing are not modelled.
- VueConsole.ParseCoupTicTacToe: when the number names a square off the board, Java throws a NullPointerException whose message, from JDK 15 on, describes the null dereference. The model returns the error value "NullPointerException" instead of that text.
- VueConsole.ParseCoupTicTacToe3D: the length test counts Unicode characters, while Java's length() counts UTF-16 code units. On input with a character outside the Basic Multilingual Plane, such as an emoji, the two can differ, and the model may give the format message where Java gives the layer or digit message.
- VueConsole.CoordToCase: the same difference in how the length is counted; for such input the model may refuse with the format message where Java reaches a different refusal.
- VueConsole.ParseCoupEchec: the same difference in how the length is counted, with the same consequence.
- VueTicTacToe3DConsole.ParseCoupTicTacToe3D: the same difference in how the length is counted, with the same consequence.
- Main, Controleur and the console handlers: these are input and output loops around the parsers, and are not modelled.
