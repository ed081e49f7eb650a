# chessteg in Dafny

This project models the rule core of the chessteg chess engine and proves properties of that model. The engine exists three times in the repository, and each is modelled on its own terms.

- **The JavaScript engine.** This is `ChesstegEngine` in `docs/js/chessteg.js`, together with the editor and validator of `docs/js/chess-ui.js`.
- **The modular Python engine.** This is `chessteg_modular/engine`: core, move generation, rules, evaluation, search and notation helpers.
- **The reduced monolithic engine.** This is `chessteg.py`.

All three share one board design, modelled once in `Common`:

- **Mailbox.** The board is a 10×12 mailbox of 120 cells. Border cells hold `DUMMY = 100`.
- **Cell codes.** An occupied cell holds `kind * colour`, with White `+1` and Black `-1`.
- **Roster.** Beside the board there is a roster of pieces. A captured piece keeps its entry and is only flagged.

Pure logic is written as datatypes, functions and lemmas. Engine objects that the source updates in place are classes, and their fields are reassigned by the methods:

- `JsEngine.ChesstegEngine`;
- `ModEngine.Engine` and `ModEngine.Rules`;
- `ModEval.PositionEvaluator` and `ModSearch.SearchAlgorithm`;
- `MonoEngine.ChesstegEngine`;
- `ChessUi.ChessUi`.

Every method that loops or mutates is proved equal to a specification function of the old state. The properties the source promises are then proved about those functions: legality, rights that only shrink, undo after make, sync of board and roster, colour symmetry of the evaluation terms, the stable move ordering and the alpha-beta value.

The "## Model" table also lists the specification functions that stand for the source functions themselves, such as `MonoModel.MoveLegal` or `ModEval.PositionScore`. These carry no contract of their own. The third column of each of their rows names the lemmas that state what they mean.

The alpha-beta results (`FullWindowIsNegamax`, `AlphaBetaFailSoft`, `RootPicksFirstBest`) are about the pruning rule of `_alpha_beta` on an abstract game tree, `ModSearch.Tree`. The search over engine states, `ModSearch.NodeScore`, is described by its own unfolding lemmas instead: `AlphaBetaOnFinishedGame`, `AlphaBetaAtHorizon` and `ExpandSearches`. No lemma builds the tree of a position from `NodeScore`.

Modules, one per file:

| module | models |
|---|---|
| `Common` | constants, mailbox geometry, `is_valid_position`, the initial board, material values |
| `Notation` | `engine/__init__.py` helpers and the notation and piece-code helpers of `chess-ui.js` |
| `BoardGen` | slide and jump target walks over the 120-cell board, shared by the JS and monolithic generators |
| `JsModel`, `JsEngine`, `JsEval` | the JavaScript engine: specification, class, integer evaluation terms |
| `ModState`, `ModMoves`, `ModPlay`, `ModEngine` | the modular engine: roster and board, generation and attacks, rules and make/undo, the classes |
| `ModEval`, `ModSearch` | `evaluation.py` and `search.py` |
| `MonoModel`, `MonoEval`, `MonoEngine` | `chessteg.py` |
| `ChessUi` | the editor mutations and the position validator of `chess-ui.js` |

## Model

| member | source | states |
|---|---|---|
| Common.FindIndex | chessteg_modular/engine/core.py:189-208 | the index returned satisfies the test and no earlier entry does; none only when no entry does (the first-match loops of get_piece_at, get_piece_by_id, get_king) |
| Common.PieceCodeIsNotSpecial | chessteg_modular/engine/__init__.py:8-17 | a signed piece code kind * colour is never EMPTY or DUMMY and is positive exactly for White |
| Common.ValidPositionCharacterised | chessteg_modular/engine/core.py:210-215 | is_valid_position holds exactly for 21..98 with column 1..8, i.e. rows 2..9 and columns 1..8 |
| Common.ExactlySixtyFourSquares | chessteg_modular/engine/core.py:210-215 | exactly 64 of the 120 cells are playable |
| Common.InitialiseMailbox | chessteg.py:124-129 | the new board is DUMMY everywhere except rows 2..9, columns 1..8, which are EMPTY |
| Common.EmptyMailboxIsBordered | docs/js/chessteg.js:114-122 | on that board a cell is DUMMY exactly when it is not playable |
| Common.IsOpponent | docs/js/chessteg.js:164-169 | a cell holds an enemy only when it is neither EMPTY nor DUMMY, and then exactly when its sign is opposite to the colour (also is_opponent, chessteg.py:163-166) |
| Notation.PositionToNotation | chessteg_modular/engine/__init__.py:66-72 | "??" exactly off the playable area; otherwise two characters, the file letter a-h of the column and the rank digit 1-8 (row - 1) |
| Notation.NotationToPosition | chessteg_modular/engine/__init__.py:74-83 | a square exactly for a two-character text with a file letter in either case and a digit; then (digit + 1) * 10 + file, with that column and row |
| Notation.NotationRoundTrip | chessteg_modular/engine/__init__.py:66-83 | notation_to_position(position_to_notation(p)) == p for every playable square |
| Notation.PositionRoundTrip | chessteg_modular/engine/__init__.py:66-83 | a lower-case file and a rank 1-8 survive the round trip through the position |
| Notation.FileNumber | chessteg_modular/engine/__init__.py:76-79 | the lower-cased character is one of a-h exactly when it has a file number, and the number indexes that letter |
| Notation.PieceCode | chessteg_modular/engine/__init__.py:59-64 | none exactly for EMPTY and DUMMY; otherwise two characters, 'w' exactly for a positive and 'b' for a negative value, and a known kind never gives '?' |
| Notation.PieceName | chessteg_modular/engine/__init__.py:50-57 | "Empty", "Dummy", or "White "/"Black " by sign followed by the kind's name |
| Notation.PieceNameKnownKinds | chessteg_modular/engine/__init__.py:50-57 | a real piece is never named Empty or Dummy and its kind is never Unknown |
| Notation.JsPositionToNotation | docs/js/chess-ui.js:1534-1544 | on playable squares the same text as position_to_notation (also positionZuNotation, docs/js/chessteg.js:1544-1549) |
| Notation.JsNotationToPosition | docs/js/chess-ui.js:1546-1561 | -1 exactly for a text shorter than two, an unknown file or a non-digit rank; otherwise the square notation_to_position gives for the first two characters |
| Notation.JsNotationRoundTrip | docs/js/chess-ui.js:1534-1561 | notationZuPosition(positionZuNotation(p)) == p for every playable square |
| Notation.BoardPosition | docs/js/chess-ui.js:963-967 | UI cell (row, column) is square (9 - row) * 10 + column + 1, playable for the 8x8 grid |
| Notation.BoardPositionBijective | docs/js/chess-ui.js:963-967 | the grid maps one-to-one onto the 64 playable squares |
| Notation.ParseFigurCode | docs/js/chess-ui.js:467-482 | colour White exactly for a leading 'w'; the kind is always a real kind, and any letter outside K, D, T, L, S, b reads as a pawn |
| Notation.FigurCode | docs/js/chess-ui.js:1037-1051 | two characters, 'w' exactly for a positive value |
| Notation.FigurCodeRoundTrip | docs/js/chess-ui.js:467-482 | getFigurCode gives back each of the twelve codes parseFigurCode reads (with getFigurCode, 1037-1051) |
| BoardGen.WalkOverEmpty | docs/js/chessteg.js:200-203 | an EMPTY cell gives a quiet target and the walk goes on to the next cell in the direction |
| BoardGen.WalkEndsOnPiece | docs/js/chessteg.js:203-208 | an occupied cell ends the walk, with a capture target exactly when it holds an enemy |
| BoardGen.StopCell | docs/js/chessteg.js:200-212 | the cell that ends a slider's run is inside the array and is not EMPTY (DUMMY or a piece) |
| BoardGen.WalkShape | docs/js/chessteg.js:195-214 | a walk is the run of EMPTY cells feld + k * d as quiet targets, followed by the stopping cell as a capture exactly when that cell holds an enemy |
| BoardGen.WalkOnEmptyBoardEndsOnDummy | docs/js/chessteg.js:114-122 | on the freshly initialised board every walk from a playable square runs over EMPTY cells to the DUMMY border with no capture |
| BoardGen.Jump | docs/js/chessteg.js:245-253 | one offset gives at most one target |
| BoardGen.JumpsSnoc | docs/js/chessteg.js:245-254 | the offset loop adds each offset's target in table order |
| BoardGen.JumpsSound | docs/js/chessteg.js:241-256 | every knight/king target is a playable square at one of the offsets, EMPTY for a quiet move and an enemy for a capture |
| BoardGen.WalkSound | docs/js/chessteg.js:195-214 | every target of one slider direction is playable, EMPTY for a quiet move and an enemy for a capture |
| BoardGen.SlideSound | chessteg.py:195-227 | the same over all directions of a rook, bishop or queen (also generiereTurm/Laeufer/DameZuege) |
| BoardGen.OffsetTablesAreSteps | chessteg.py:232-256 | the direction tables are single king steps and the knight and king offsets stay within 21 cells |
| JsModel.Zuege | docs/js/chessteg.js:442-459 | one move per target, in order, each built by erstelleZug from the piece and the target square and capture flag |
| JsModel.ZuegeAppend | docs/js/chessteg.js:195-214 | the moves of two target lists one after the other are the moves of the joined list |
| JsModel.ZuegeAnhang | docs/js/chessteg.js:195-214 | one more target adds exactly its own move at the end |
| JsModel.GleitFeldLeer | docs/js/chessteg.js:200-203 | an EMPTY cell of a slider's ray adds its quiet move and the ray continues from the next cell, which is inside the array |
| JsModel.GleitFeldBesetzt | docs/js/chessteg.js:203-208 | an occupied cell ends the ray; the moves gain a capture there exactly when it holds an enemy |
| JsModel.Umwandlungen | docs/js/chessteg.js:269-274 | a pawn reaching the last rank gives exactly four moves onto the square, promoting to queen, rook, bishop, knight in that order |
| JsModel.Ziele | docs/js/chessteg.js:195-214 | the target squares of a target list, position by position |
| JsModel.ZieleAppend | docs/js/chessteg.js:195-214 | target squares distribute over joined lists |
| JsModel.NachPositionen | docs/js/chessteg.js:442-459 | the destination squares of a move list, position by position |
| JsModel.NachPositionenZuege | docs/js/chessteg.js:442-459 | the moves built from targets go exactly to those targets' squares |
| JsModel.CastlingSquaresOnBoard | docs/js/chessteg.js:364-423 | every square the castling test looks at (king and rook start and end, squares that must be empty or safe) is playable |
| JsModel.RochadeMoeglich | docs/js/chessteg.js:364-423 | the specification of istRochadeMoeglich: right held, king and rook in place, the squares between EMPTY, and the king's start, transit and target squares not attacked; RochadeMoeglichParts and RochadeFelderKonkret state it |
| JsModel.RochadeMoeglichParts | docs/js/chessteg.js:364-423 | castling is possible exactly when the right is held, the live king and rook stand on their start squares, the squares between are empty and the king's squares are not attacked |
| JsModel.RochadeFelderKonkret | docs/js/chessteg.js:364-423 | the same test in concrete squares: e1=25 with h1=28 (f1, g1 empty; e1, f1, g1 safe) or a1=21 (d1, c1, b1 empty; e1, d1, c1 safe), and 70 higher for Black |
| JsModel.PseudoZuegeSchritt | docs/js/chessteg.js:170-181 | scanning one more roster entry appends exactly that piece's moves when it is live and of the mover's colour |
| JsModel.ZuegeOk | docs/js/chessteg.js:442-459 | moves built from sound targets are well formed (playable squares, the mover's kind and colour) |
| JsModel.OpferOk | docs/js/chessteg.js:461-466 | a captured piece found by findeGeschlageneFigur stands on a playable square |
| JsModel.UmwandlungenOk | docs/js/chessteg.js:269-274 | the four promotion moves are well formed |
| JsModel.BauernVorwaertsOk | docs/js/chessteg.js:264-286 | a pawn's single and double steps are well formed |
| JsModel.BauernSchlagOk | docs/js/chessteg.js:288-306 | a pawn's diagonal captures are well formed |
| JsModel.EnPassantZugOk | docs/js/chessteg.js:308-320 | an en-passant capture move is well formed |
| JsModel.BauernZuegeOk | docs/js/chessteg.js:258-323 | every pawn move is well formed |
| JsModel.SlideZuegeOk | docs/js/chessteg.js:195-239 | every rook, bishop and queen move is well formed |
| JsModel.RochadeZugOk | docs/js/chessteg.js:341-359 | the castling king move is well formed |
| JsModel.KoenigsZuegeOk | docs/js/chessteg.js:325-362 | every king move is well formed |
| JsModel.FigurenZuegeOk | docs/js/chessteg.js:183-193 | every move of any piece is well formed |
| JsModel.PseudoZuegeOk | docs/js/chessteg.js:170-181 | every generated pseudo-legal move is well formed |
| JsModel.TestStellung | docs/js/chessteg.js:530-564 | the trial position istZugLegal builds is again a well-formed position |
| JsModel.ZugLegal | docs/js/chessteg.js:530-564 | the specification of istZugLegal: a mover is found on the origin and, in the trial position, its king is not in check; LegaleCharacterised and LegaleZuegeCharacterised use it |
| JsModel.LegaleCharacterised | docs/js/chessteg.js:170-181 | filtering a move list keeps exactly the moves that pass istZugLegal |
| JsModel.LegaleZuege | docs/js/chessteg.js:170-181 | the specification of generiereZuege: the pseudo-legal moves of the live pieces of the colour, in roster order, that ZugLegal accepts; LegaleZuegeCharacterised states both directions |
| JsModel.LegaleZuegeCharacterised | docs/js/chessteg.js:170-181 | generiereZuege yields exactly the pseudo-legal moves that pass istZugLegal (both directions) |
| JsModel.SpielstatusBedeutung | docs/js/chessteg.js:566-595 | checkmate is check with no legal move, stalemate is no check and no legal move, and the two never hold together |
| JsModel.RochadeAusfuehren | docs/js/chessteg.js:792-814 | moving the castling rook keeps board and roster consistent |
| JsModel.RechteNachZug | docs/js/chessteg.js:816-838 | a king move clears both rights of its colour, a rook leaving a1/h1/a8/h8 clears that wing, other kinds change nothing, the other colour is untouched and no right is ever granted |
| JsModel.BrettUndFiguren | docs/js/chessteg.js:639-671 | the board and roster update keeps the position consistent and leaves side, rights and en-passant target alone |
| JsModel.ZugStellung | docs/js/chessteg.js:639-694 | the position after a move is consistent |
| JsModel.Fortschreiben | docs/js/chessteg.js:639-695 | the state after the move's bookkeeping is consistent |
| JsModel.Ausfuehren | docs/js/chessteg.js:627-721 | the state after the move and the status update is consistent |
| JsModel.AusfuehrenEffekte | docs/js/chessteg.js:627-721 | the side to move flips, rights only shrink, the en-passant target is set exactly after a double step (the square behind the pawn), the half-move clock resets on pawn moves and captures, the full-move number grows after Black, and mate and stalemate exclude each other |
| JsModel.Verbuchen | docs/js/chessteg.js:635-711 | the new entry is last and current, at most 50 entries are kept, and the older ones come from the history up to the old index |
| JsModel.VerbuchenZerlegt | docs/js/chessteg.js:635-711 | the bookkeeping is: cut after the index, append, drop the oldest when over 50 |
| JsModel.AusfuehrungGelingt | docs/js/chessteg.js:627-721 | a legal move produces exactly the new state with the new entry booked |
| JsModel.Ausfuehrung | docs/js/chessteg.js:627-721 | zugAusfuehren succeeds exactly for a legal move; a refused move changes nothing; a played move is the current history entry holding the state before it |
| JsModel.VerbuchenOk | docs/js/chessteg.js:635-711 | booking a well-formed entry keeps every entry well formed |
| JsModel.Ruecknahme | docs/js/chessteg.js:723-740 | undo succeeds exactly when the index is not before the start; it steps back one and keeps the history; otherwise nothing changes |
| JsModel.Wiederherstellung | docs/js/chessteg.js:742-771 | redo succeeds exactly when an entry lies after the index; it steps forward one and keeps the history; otherwise nothing changes |
| JsModel.Nachgezogen | docs/js/chessteg.js:742-771 | the replayed move keeps the position consistent |
| JsModel.RuecknahmeNachAusfuehrung | docs/js/chessteg.js:627-740 | undo right after a successful move restores board, roster, side, rights, en-passant target, evaluation and counters |
| JsModel.WiederherstellungOhneSeitenwechsel | docs/js/chessteg.js:742-771 | redo leaves the side to move and the move counter as stored before the move (the side is not flipped) |
| JsModel.Bauernpaare | docs/js/chessteg.js:129-162 | the pawn loop adds two pawns per file |
| JsModel.Aufstellen | docs/js/chessteg.js:124-127 | writing the pieces' codes keeps a 120-cell board |
| JsModel.AufstellenAnhang | docs/js/chessteg.js:124-127 | adding one more piece writes its signed code on its square over the earlier board |
| JsModel.AufstellenUnberuehrt | docs/js/chessteg.js:124-127 | a square no piece is placed on keeps its content |
| JsModel.AufstellenZelle | docs/js/chessteg.js:124-127 | a square holds the code of the last piece placed on it |
| JsModel.OffiziereAufGrundreihen | docs/js/chessteg.js:129-162 | the sixteen officers are live, well-formed pieces on rows 2 and 9, no two on one square |
| JsModel.BauernpaareFelder | docs/js/chessteg.js:148-151 | the first n pawn pairs are live pawns, White's on 31..30+n and Black's on 81..80+n, all on different squares |
| JsModel.BauernAufStartreihen | docs/js/chessteg.js:148-151 | the sixteen pawns are live on rows 3 and 8, no two on one square |
| JsModel.StartFigurenVerschieden | docs/js/chessteg.js:129-162 | the start roster has 32 live, well-formed pieces on 32 different squares |
| JsModel.StartPartieOk | docs/js/chessteg.js:3-48 | the game the constructor sets up is well formed |
| JsModel.StartStellung | docs/js/chessteg.js:114-162 | the start board is in sync with the roster and every square without a piece is EMPTY on the playable area and DUMMY on the border |
| JsModel.Pow2 | docs/js/chessteg.js:49-83 | a power of two is positive |
| JsModel.XorBits | docs/js/chessteg.js:84-113 | the lowest bit of a ^ b is the sum of the lowest bits mod 2 and the other bits are the ^ of the other bits |
| JsModel.XorNull | docs/js/chessteg.js:84-113 | 0 is neutral for ^ |
| JsModel.XorKomm | docs/js/chessteg.js:84-113 | ^ is commutative |
| JsModel.XorSelbst | docs/js/chessteg.js:84-113 | a ^ a == 0 |
| JsModel.XorAssoc | docs/js/chessteg.js:84-113 | ^ is associative |
| JsModel.XorTausch | docs/js/chessteg.js:84-113 | two keys XORed into a hash may be taken in either order |
| JsModel.XorZweimal | docs/js/chessteg.js:84-113 | XORing a key in twice restores the hash |
| JsModel.XorBreite | docs/js/chessteg.js:84-113 | ^ of two n-bit values is an n-bit value |
| JsModel.ZobristHash | docs/js/chessteg.js:84-113 | the specification of berechneZobristHash: the XOR of the live pieces' keys, the black-to-move key, one key per right held and the en-passant key; ZobristBreite, XorTausch and ZobristIgnoriertGeschlagene state its properties |
| JsModel.ZobristBreite | docs/js/chessteg.js:84-113 | with 32-bit keys the hash is a 32-bit pattern |
| JsModel.EpBreite | docs/js/chessteg.js:105-108 | the en-passant key is a 32-bit pattern |
| JsModel.Wort | docs/js/chessteg.js:84-113 | one ^= step of 32-bit values gives their ^, again 32-bit |
| JsModel.FigurenBreite | docs/js/chessteg.js:88-92 | the roster's part of the hash is a 32-bit pattern |
| JsModel.FigurenHashAppend | docs/js/chessteg.js:88-92 | the roster's hash of two joined rosters is the ^ of their hashes |
| JsModel.FigurenHashSchlag | docs/js/chessteg.js:88-92 | flagging a live piece as captured XORs exactly its key out of the hash |
| JsModel.ZobristIgnoriertGeschlagene | docs/js/chessteg.js:88-92 | captured entries do not enter the hash |
| JsModel.ZobristSeitenwechsel | docs/js/chessteg.js:94-97 | flipping the side to move XORs exactly the black-to-move key into the hash, so flipping twice restores it |
| JsEngine.ChesstegEngine.constructor | docs/js/chessteg.js:3-48 | the new engine is the start position (roster StartFiguren on the initialised board), White to move, all castling rights, no en-passant target, counters 0/1/0, empty history at index -1, over the given Zobrist keys |
| JsEngine.ChesstegEngine.FuegeFigurHinzu | docs/js/chessteg.js:124-127 | the piece is appended to the roster and its signed code written on its square, nothing else changes |
| JsEngine.ChesstegEngine.Aufstellend | docs/js/chessteg.js:124-127 | after one more fuegeFigurHinzu the board is still the start board with the whole roster placed on it |
| JsEngine.ChesstegEngine.KoenigeUndDamenHinzufuegen | docs/js/chessteg.js:132-135 | the kings and queens are appended in source order and placed |
| JsEngine.ChesstegEngine.TuermeHinzufuegen | docs/js/chessteg.js:136-139 | the four rooks are appended in source order and placed |
| JsEngine.ChesstegEngine.SpringerHinzufuegen | docs/js/chessteg.js:140-143 | the four knights are appended in source order and placed |
| JsEngine.ChesstegEngine.LaeuferHinzufuegen | docs/js/chessteg.js:144-147 | the four bishops are appended in source order and placed |
| JsEngine.ChesstegEngine.OffiziereHinzufuegen | docs/js/chessteg.js:132-147 | the roster becomes the sixteen officers, placed on the old board |
| JsEngine.ChesstegEngine.BauernpaarHinzufuegen | docs/js/chessteg.js:148-151 | one round of the pawn loop appends the next black and white pawn pair and places them |
| JsEngine.ChesstegEngine.BauernHinzufuegen | docs/js/chessteg.js:148-151 | the pawn loop appends all eight pawn pairs and places them |
| JsEngine.ChesstegEngine.InitialisiereFiguren | docs/js/chessteg.js:129-162 | the roster becomes the start roster placed on the (uncleared) board; rights, en-passant target, counters and history are reset |
| JsEngine.ChesstegEngine.GleitRichtung | docs/js/chessteg.js:199-211 | one slider direction yields exactly the moves of the walk from the start (quiet moves over EMPTY, a capture on an enemy, stop at any piece or DUMMY) |
| JsEngine.ChesstegEngine.GleitZuege | docs/js/chessteg.js:195-214 | the sliding loop yields the walks of all directions in order |
| JsEngine.ChesstegEngine.SprungZuege | docs/js/chessteg.js:241-256 | the fixed-offset loop yields one move per offset whose cell is EMPTY or an enemy |
| JsEngine.ChesstegEngine.GeneriereTurmZuege | docs/js/chessteg.js:195-214 | generiereTurmZuege returns the rook's four-direction slide |
| JsEngine.ChesstegEngine.GeneriereLaeuferZuege | docs/js/chessteg.js:216-235 | generiereLaeuferZuege returns the bishop's diagonal slide |
| JsEngine.ChesstegEngine.GeneriereDameZuege | docs/js/chessteg.js:237-239 | the queen's moves are the rook's then the bishop's |
| JsEngine.ChesstegEngine.GeneriereSpringerZuege | docs/js/chessteg.js:241-256 | the knight's eight jumps |
| JsEngine.ChesstegEngine.UmwandlungsZuege | docs/js/chessteg.js:269-274 | the four promotion moves, queen, rook, bishop, knight |
| JsEngine.ChesstegEngine.BauernVorwaertsZuege | docs/js/chessteg.js:264-286 | single step onto an EMPTY cell (four promotions on the last row), then the double step from the start row onto an EMPTY cell |
| JsEngine.ChesstegEngine.BauernSchlagZuege | docs/js/chessteg.js:288-306 | a diagonal capture exactly onto an enemy, with promotions on the last row |
| JsEngine.ChesstegEngine.EnPassantZuege | docs/js/chessteg.js:308-320 | an en-passant capture exactly when the diagonal square is the target, naming the piece behind it |
| JsEngine.ChesstegEngine.GeneriereBauernZuege | docs/js/chessteg.js:258-323 | generiereBauernZuege returns forward moves, captures and en-passant captures in source order |
| JsEngine.ChesstegEngine.GeneriereKoenigsZuege | docs/js/chessteg.js:325-362 | the eight king steps, then the castling moves the test allows |
| JsEngine.ChesstegEngine.RochadeZuege | docs/js/chessteg.js:341-359 | one castling side gives its king move exactly when istRochadeMoeglich holds |
| JsEngine.ChesstegEngine.GeneriereFigurenZuege | docs/js/chessteg.js:183-193 | dispatch on the kind; every kind gives its generator's moves |
| JsEngine.ChesstegEngine.BauernZieleOhneEnPassant | docs/js/chessteg.js:514-528 | the squares a pawn attacks: the two forward diagonals that are EMPTY or hold an enemy |
| JsEngine.ChesstegEngine.KoenigsZiele | docs/js/chessteg.js:498-509 | the king's attacked squares are its eight step targets |
| JsEngine.ChesstegEngine.SprungZiel | docs/js/chessteg.js:498-509 | one king offset gives its square when it is EMPTY or holds an enemy |
| JsEngine.ChesstegEngine.ZieleOhneSchachpruefung | docs/js/chessteg.js:491-512 | the destinations of a piece's moves without castling or en passant |
| JsModel.Bedroht | docs/js/chessteg.js:425-440 | the specification of istFeldBedroht: some live piece of the other colour has the square among its targets without check test; IstFeldBedroht is proved equal to it |
| JsEngine.ChesstegEngine.IstFeldBedroht | docs/js/chessteg.js:425-440 | a square is attacked exactly when some live enemy piece reaches it |
| JsEngine.ChesstegEngine.ZielGetroffen | docs/js/chessteg.js:432-436 | the inner loop returns true exactly when the square is among the piece's targets |
| JsEngine.ChesstegEngine.IstKoenigImSchach | docs/js/chessteg.js:468-489 | false without a live king of the colour, otherwise whether its square is attacked |
| JsEngine.ChesstegEngine.FelderLeer | docs/js/chessteg.js:404-409 | true exactly when every listed square is EMPTY |
| JsEngine.ChesstegEngine.FelderSicher | docs/js/chessteg.js:411-420 | true exactly when no listed square is attacked |
| JsEngine.ChesstegEngine.IstRochadeMoeglich | docs/js/chessteg.js:364-423 | the five castling tests, equal to RochadeMoeglich (see RochadeFelderKonkret for the squares) |
| JsEngine.ChesstegEngine.IstZugLegal | docs/js/chessteg.js:530-564 | the move is legal exactly when the mover's king is not in check after it; board and roster are restored |
| JsEngine.ChesstegEngine.TestzugSetzen | docs/js/chessteg.js:534-551 | the trial move found its mover exactly when TestStellung is defined, and then leaves that position |
| JsEngine.ChesstegEngine.GeneriereZuege | docs/js/chessteg.js:170-181 | generiereZuege returns exactly the legal moves (LegaleZuegeCharacterised) and leaves board and roster as they were |
| JsEngine.ChesstegEngine.FiltereLegale | docs/js/chessteg.js:180 | the filter keeps exactly the moves that pass istZugLegal, in order |
| JsEngine.ChesstegEngine.SammleZuege | docs/js/chessteg.js:171-178 | the moves of every live piece of the colour, in roster order |
| JsEngine.ChesstegEngine.EigeneZuegeSammeln | docs/js/chessteg.js:173-177 | a live piece of the colour contributes its moves, any other entry none |
| JsEngine.ChesstegEngine.IstSchachmatt | docs/js/chessteg.js:566-572 | checkmate is check and no legal move |
| JsEngine.ChesstegEngine.IstPatt | docs/js/chessteg.js:574-580 | stalemate is no check and no legal move |
| JsEngine.ChesstegEngine.PruefeSpielStatus | docs/js/chessteg.js:582-595 | the flags become the status of the side to move (never both, SpielstatusBedeutung); nothing else of the state changes |
| JsEngine.ChesstegEngine.WiederherstelleZustand | docs/js/chessteg.js:613-625 | after restoring, the state snapshot is exactly the one given (the inverse of erstelleZustandSnapshot) |
| JsEngine.ChesstegEngine.FuehreRochadeAus | docs/js/chessteg.js:792-814 | the rook moves from its corner next to the king |
| JsEngine.ChesstegEngine.AktualisiereRochadeRechte | docs/js/chessteg.js:816-838 | the rights become RechteNachZug: cleared by king and rook moves, never granted |
| JsEngine.ChesstegEngine.ZieheFigur | docs/js/chessteg.js:639-671 | the board and roster update of zugAusfuehren |
| JsEngine.ChesstegEngine.StellungFortschreiben | docs/js/chessteg.js:639-682 | the position after the piece, rook, rights and en-passant updates |
| JsEngine.ChesstegEngine.SpieleZug | docs/js/chessteg.js:639-695 | the state moves on as Fortschreiben says |
| JsEngine.ChesstegEngine.ZaehlerFortschreiben | docs/js/chessteg.js:684-695 | the half-move clock resets on pawn moves and captures, the full-move number grows after Black, the side flips, the move counter grows by one |
| JsEngine.ChesstegEngine.ZugAusfuehren | docs/js/chessteg.js:627-721 | zugAusfuehren is Ausfuehrung: refused illegal moves change nothing, legal ones are played and booked, and the engine stays well formed |
| JsEngine.ChesstegEngine.FuehreLegalenZugAus | docs/js/chessteg.js:633-713 | a legal move gives the Ausfuehren state, the new entry holds the old snapshot and the history is booked |
| JsEngine.ChesstegEngine.ZugSpielenUndVerbuchen | docs/js/chessteg.js:633-711 | the same up to the status update |
| JsEngine.ChesstegEngine.HistorieAnhaengen | docs/js/chessteg.js:704-711 | the append half of the history update, which with the cut is Verbuchen |
| JsEngine.ChesstegEngine.ZugZuruecknehmen | docs/js/chessteg.js:723-740 | zugZuruecknehmen is Ruecknahme (undo after a move restores the state, RuecknahmeNachAusfuehrung) |
| JsEngine.ChesstegEngine.ZugWiederherstellen | docs/js/chessteg.js:742-771 | zugWiederherstellen is Wiederherstellung |
| JsEngine.ChesstegEngine.EintragNachspielen | docs/js/chessteg.js:748-770 | the state becomes the entry's snapshot with the piece moved again |
| JsEngine.ChesstegEngine.ZugNachziehen | docs/js/chessteg.js:753-767 | the board and roster of the replayed move |
| JsEngine.ChesstegEngine.IstRuecknahmeMoeglich | docs/js/chessteg.js:773-775 | true exactly when undo would succeed |
| JsEngine.ChesstegEngine.IstWiederherstellungMoeglich | docs/js/chessteg.js:777-779 | true exactly when redo would succeed |
| JsEngine.ChesstegEngine.BerechneZobristHash | docs/js/chessteg.js:84-113 | the loop computes the Zobrist hash of the current position (live pieces, side, rights, en-passant target) |
| JsEngine.ChesstegEngine.BewerteStellung | docs/js/chessteg.js:839-863 | the score is the material plus, with the extended evaluation, the positional terms; only the extended branch stores it |
| JsEngine.ChesstegEngine.EinfacheMaterialbewertung | docs/js/chessteg.js:865-876 | the signed sum of the live pieces' values |
| JsEngine.ChesstegEngine.BewertePositionen | docs/js/chessteg.js:877-897 | centre occupation plus development plus space |
| JsEngine.ChesstegEngine.BewerteEntwicklung | docs/js/chessteg.js:899-916 | +10 per developed white officer, -10 per black one |
| JsEngine.ChesstegEngine.BewerteRaumvorteil | docs/js/chessteg.js:918-935 | the space term over the roster |
| JsEngine.ChesstegEngine.BewerteFigurenSpezifisch | docs/js/chessteg.js:936-965 | the per-kind terms plus the bishop pair |
| JsEngine.ChesstegEngine.IstOffeneLinie | docs/js/chessteg.js:1020-1032 | true exactly when no pawn of either colour stands on the file |
| JsEngine.ChesstegEngine.HatLaeuferpaar | docs/js/chessteg.js:1034-1044 | true exactly when the colour has at least two live bishops |
| JsEngine.ChesstegEngine.BewerteBauernStruktur | docs/js/chessteg.js:1045-1053 | doubled pawns plus isolated pawns plus passed pawns |
| JsEngine.ChesstegEngine.BewerteDoppelbauern | docs/js/chessteg.js:1055-1075 | the doubled-pawn penalty summed over the eight files |
| JsEngine.ChesstegEngine.BauernInLinie | docs/js/chessteg.js:1059-1068 | the counts of white and black pawns on one file |
| JsEngine.ChesstegEngine.BewerteIsolanis | docs/js/chessteg.js:1077-1093 | -15 per white and +15 per black pawn without a friendly pawn on a neighbouring file |
| JsEngine.ChesstegEngine.HatNachbarBauer | docs/js/chessteg.js:1095-1108 | true exactly when a pawn of the colour stands on a neighbouring file |
| JsEngine.ChesstegEngine.BewerteFreibauern | docs/js/chessteg.js:1110-1123 | +20 per white and -20 per black passed pawn |
| JsEngine.ChesstegEngine.IstFreibauer | docs/js/chessteg.js:1125-1151 | true exactly when no enemy pawn stands ahead or diagonally ahead |
| JsEngine.ChesstegEngine.BewerteKoenigsSicherheit | docs/js/chessteg.js:1152-1159 | the pawn shield plus the king attack |
| JsEngine.ChesstegEngine.BewerteBauernschild | docs/js/chessteg.js:1161-1185 | the shield term for White plus the one for Black |
| JsEngine.ChesstegEngine.SchildFuer | docs/js/chessteg.js:1164-1181 | one colour's shield term from its first live king |
| JsEngine.ChesstegEngine.BewerteKoenigsAngriff | docs/js/chessteg.js:1198-1224 | the attack term for White plus the one for Black |
| JsEngine.ChesstegEngine.AngriffFuer | docs/js/chessteg.js:1202-1220 | one colour's count of live enemy pieces near its king |
| JsEval.FigurWert | docs/js/chessteg.js:1525-1537 | a kind's value is never negative and is 0 exactly for an unknown kind |
| JsEval.SummeSchritt | docs/js/chessteg.js:865-876 | the roster loops add one entry's contribution per step |
| JsEval.SummeVerkettung | docs/js/chessteg.js:865-876 | a roster sum over two joined rosters is the sum of the two sums |
| JsEval.Spiegelfeld | docs/js/chessteg.js:865-876 | mirroring a playable square keeps it playable, with row 11 - row and the same column |
| JsEval.SpiegelfeldZweimal | docs/js/chessteg.js:865-876 | mirroring twice gives the square back |
| JsEval.Spiegeln | docs/js/chessteg.js:865-876 | the mirrored roster is the roster with each piece's colour swapped and square mirrored |
| JsEval.SummeGespiegelt | docs/js/chessteg.js:865-876 | a roster sum whose contribution changes sign under the mirror changes sign as a whole |
| JsEval.MaterialGespiegelt | docs/js/chessteg.js:865-876 | swapping the colours of all pieces negates the material balance |
| JsEval.MaterialPaare | docs/js/chessteg.js:148-151 | the pawn pairs contribute 0 to the balance |
| JsEval.MaterialSchwereFiguren | docs/js/chessteg.js:132-139 | kings, queens and rooks of the start roster balance out |
| JsEval.MaterialLeichteFiguren | docs/js/chessteg.js:140-147 | knights and bishops of the start roster balance out |
| JsEval.MaterialStart | docs/js/chessteg.js:865-876 | the material balance of the start position is 0 |
| JsEval.FelderVier | docs/js/chessteg.js:881-888 | the centre loop is the sum of the four squares' contributions, +15 for a white and -15 for a black piece |
| JsEval.SpiegelBrett | docs/js/chessteg.js:877-897 | the colour-swapped, row-mirrored board is again 120 cells |
| JsEval.BauerAufD3 | docs/js/chessteg.js:880-881 | the witness board is a 120-cell board |
| JsEval.ZentrumAsymmetrisch | docs/js/chessteg.js:880-888 | as written the centre term is not colour-symmetric: a lone white pawn on 44 (d3) scores +15, the mirrored black pawn on d6 scores 0 |
| JsEval.ZentrumsBeitragGespiegelt | docs/js/chessteg.js:883-887 | a square's centre contribution changes sign when its piece changes colour |
| JsEval.ZentrumGemeintGespiegelt | docs/js/chessteg.js:880 | over the squares the comment names (d4, e4, d5, e5 = 54, 55, 64, 65) the centre term is colour-symmetric |
| JsEval.EntwicklungGespiegelt | docs/js/chessteg.js:899-916 | the development term changes sign when the colours are swapped |
| JsEval.RaumGespiegelt | docs/js/chessteg.js:918-935 | the space term changes sign when the colours are swapped |
| JsEval.Bewertung | docs/js/chessteg.js:839-863 | the specification of bewerteStellung's value: the material alone when the extended evaluation is off, else material plus centre, development, space, piece-specific, pawn-structure and king-safety terms; BewerteStellung is proved equal to it |
| JsEval.InLinie | docs/js/chessteg.js:1062-1068 | the count of rows below the bound holding the value on the file is at most the number of rows scanned |
| JsEval.BauernZahl | docs/js/chessteg.js:1062-1068 | a file holds at most 8 pawns of one value |
| JsEval.BauernZahlAlleReihen | docs/js/chessteg.js:1062-1068 | the row loop ends with the count of all rows 2..9 |
| JsEval.DoppelbauernAlleDateien | docs/js/chessteg.js:1058-1075 | the file loop ends with the sum over all eight files |
| JsEval.DoppelbauernSchranke | docs/js/chessteg.js:1055-1075 | the doubled-pawn penalty of the first files lies within 70 per file each way |
| JsEval.SchildAnzahl | docs/js/chessteg.js:1187-1196 | at most two shield pawns are counted, on the diagonal squares one row towards the own home rank |
| JsEval.BauernschildSchranke | docs/js/chessteg.js:1161-1185 | White's shield term lies in 0..10, Black's in -10..0, the total in -10..10 |
| JsEval.ZaehlungSchranke | docs/js/chessteg.js:1211-1218 | a count over the roster lies between 0 and the roster length |
| JsEval.KoenigsAngriffSchranke | docs/js/chessteg.js:1198-1224 | each side's attack term is 10 per nearby enemy, against it: White's in -10n..0, Black's in 0..10n |
| ModState.IdsAreDistinct | chessteg_modular/engine/core.py:150-166 | ids handed out in increasing order are pairwise distinct |
| ModState.PieceAt | chessteg_modular/engine/core.py:189-194 | get_piece_at returns the first live entry on the square, none exactly when no live entry stands there |
| ModState.PieceById | chessteg_modular/engine/core.py:196-201 | get_piece_by_id returns the first entry with the id (captured or not), none exactly when no entry has it |
| ModState.King | chessteg_modular/engine/core.py:203-208 | get_king returns the first live king of the colour, none exactly when there is none |
| ModState.PieceByIdUnique | chessteg_modular/engine/core.py:196-201 | with increasing ids get_piece_by_id finds exactly the entry carrying that id |
| ModState.InitialBoard | chessteg_modular/engine/core.py:93-109 | initialize_board leaves 120 cells, DUMMY on the cells its two loops mark and EMPTY elsewhere |
| ModState.InitialBoardShape | chessteg_modular/engine/core.py:93-109 | the playable squares are EMPTY, and so are 11..18 and 101..108: the board has no sentinel on rows 1 and 10 |
| ModState.SyncedPieces | chessteg_modular/engine/core.py:176-187 | synchronize_board_state flags each live entry off the playable squares as captured and leaves the rest |
| ModState.SyncedBoard | chessteg_modular/engine/core.py:168-187 | the synchronized board has 120 cells |
| ModState.LastLiveAt | chessteg_modular/engine/core.py:176-184 | the last live entry on a square among the first n, none exactly when there is none |
| ModState.SyncedBoardCell | chessteg_modular/engine/core.py:168-187 | a playable cell holds the value of the last live entry on it or EMPTY, and any other cell keeps its initial value |
| ModState.LastLiveAtPrefix | chessteg_modular/engine/core.py:176-184 | the last live entry among the first n depends only on those n entries |
| ModState.SyncedBoardHoldsLivePieces | chessteg_modular/engine/core.py:168-187 | a live entry on a playable square that shares it with no other live entry is found on the synchronized board |
| ModState.SyncedPiecesOnBoard | chessteg_modular/engine/core.py:176-187 | after synchronizing every live entry stands on a playable square |
| ModState.SyncedPiecesKeepsGoodRoster | chessteg_modular/engine/core.py:176-187 | synchronizing a roster already on the board changes nothing |
| ModState.SyncedPiecesKeepIds | chessteg_modular/engine/core.py:176-187 | synchronizing keeps the ids |
| ModState.Synchronize | chessteg_modular/engine/core.py:168-187 | synchronize_board_state rewrites exactly the board and the roster |
| ModState.StartPieces | chessteg_modular/engine/core.py:111-141 | the first n start entries in _add_piece order |
| ModState.StartRosterOk | chessteg_modular/engine/core.py:111-148 | the start roster is 32 live entries with ids 1..32 on playable squares, of known kinds and colours |
| ModState.StartLayoutSquares | chessteg_modular/engine/core.py:119-141 | every square of the start layout is playable |
| ModState.StartKings | chessteg_modular/engine/core.py:124-138 | get_king finds White's king at entry 28 and Black's at entry 4 |
| ModMoves.CreateMove | chessteg_modular/engine/move_generation.py:212-237 | _create_move copies the mover's id, kind, colour and square; is_capture holds exactly when a capture square is given; the promotion fields carry the promotion |
| ModMoves.Promotions | chessteg_modular/engine/move_generation.py:239-305 | a pawn reaching the last rank gives four moves onto the square, promoting to queen, rook, bishop, knight in that order |
| ModMoves.SlideWalkShape | chessteg_modular/engine/move_generation.py:359-387 | a sliding walk goes field, field + d, ... over playable squares; every square but the last is free of live pieces and a capture happens only on the last square, on an enemy, at its own square |
| ModMoves.SlideWalkStops | chessteg_modular/engine/move_generation.py:359-387 | a walk ending in a quiet move stops because the next square is off the board or holds an own piece |
| ModMoves.ValidTargets | chessteg_modular/engine/move_generation.py:315-357 | the jump targets are exactly the playable squares among the mover's square plus an offset |
| ModMoves.PawnAttacksDiagonals | chessteg_modular/engine/move_generation.py:389-450 | a pawn attacks exactly its two playable forward diagonals, whatever stands there |
| ModMoves.AttackRaySquares | chessteg_modular/engine/move_generation.py:452-495 | an attack ray walks the playable squares field, field + d, ... |
| ModMoves.AttackRayBlocked | chessteg_modular/engine/move_generation.py:452-495 | every square of the ray before its last is empty |
| ModMoves.AttackRayEnds | chessteg_modular/engine/move_generation.py:452-495 | the ray stops on its first piece of either colour or at the edge of the board |
| ModMoves.ApplyToPieces | chessteg_modular/engine/core.py:439-467 | _apply_move_internal keeps the roster's length, ids and colours |
| ModMoves.ApplyToBoard | chessteg_modular/engine/core.py:439-467 | the board after _apply_move_internal has 120 cells |
| ModMoves.ApplyMoveInternal | chessteg_modular/engine/core.py:439-467 | _apply_move_internal changes only board and roster |
| ModMoves.ApplyMoveInternalEffects | chessteg_modular/engine/core.py:439-467 | the side to move stays, the mover stands on to_pos with the promoted kind, to_pos shows the mover's old value, and a live piece on a truthy capture_pos is flagged captured |
| ModMoves.CastlingGeometry | chessteg_modular/engine/rules.py:449-460 | the king moves two squares towards the rook, the rook lands on the square the king crosses, all four squares are playable and Black's are White's plus 70 |
| ModMoves.SafetyLoop | chessteg_modular/engine/rules.py:393-430 | the safety loop leaves a 120-cell board |
| ModMoves.SafetyLoopTwo | chessteg_modular/engine/rules.py:393-430 | over two squares the loop passes exactly when the king is in check on neither, and leaves KING on the king's square and EMPTY on each square it tested |
| ModMoves.CastlingSquaresInRange | chessteg_modular/engine/rules.py:393-447 | the transit squares, the squares between and the king's start are playable |
| ModMoves.ValidateCastling | chessteg_modular/engine/rules.py:55-82 | validate_castling as written, with the board it leaves, keeps 120 cells |
| ModMoves.ValidateCastlingRequirements | chessteg_modular/engine/rules.py:55-82 | an accepted castling has the basic requirements (rights, king and rook on their squares), no check, and no check on any transit square |
| ModMoves.ValidateCastlingBoardUnchanged | chessteg_modular/engine/rules.py:55-82 | when it stops before the safety loop, the board is unchanged |
| ModMoves.ValidateCastlingBoard | chessteg_modular/engine/rules.py:393-430 | after the safety loop the king's square holds the king, the first transit square is EMPTY whatever stood there, and only transit squares changed |
| ModMoves.SafetyLoopTwoFrame | chessteg_modular/engine/rules.py:393-430 | the two-square loop writes only the king's square and the tested squares |
| ModMoves.ValidateCastlingIntendedSound | chessteg_modular/engine/rules.py:432-447 | the corrected test never lets the king pass an occupied square |
| ModMoves.ValidateCastlingIntendedAgrees | chessteg_modular/engine/rules.py:55-82 | the corrected test agrees with the written one whenever the squares between are empty and the king's square shows the king |
| ModMoves.SafetyLoopKeepsBoard | chessteg_modular/engine/rules.py:393-430 | on a board already showing the king and EMPTY tested squares the loop writes nothing new |
| ModMoves.KingAttacksNeighbours | chessteg_modular/engine/move_generation.py:389-450 | a king attacks only squares within eleven cells of its own |
| ModMoves.LoneKingAttacks | chessteg_modular/engine/move_generation.py:452-495 | a side whose only piece is its king attacks no square more than eleven cells away |
| ModMoves.BlockedCastlingNoCheckOn | chessteg_modular/engine/core.py:390-398 | in the counterexample White's king on row 2 is not in check |
| ModMoves.BlockedCastlingNoCheck | chessteg_modular/engine/rules.py:393-430 | White is not in check with its king moved to any square of row 2 |
| ModMoves.BlockedCastlingSafe | chessteg_modular/engine/rules.py:393-430 | in the counterexample the safety loop finds f1 and g1 safe and leaves them EMPTY, on any board |
| ModMoves.BlockedCastlingAccepted | chessteg_modular/engine/rules.py:55-82 | with a bishop on f1 validate_castling still accepts White's short castling, while the corrected test refuses it |
| ModMoves.BlockedRosterBasics | chessteg_modular/engine/rules.py:373-391 | with the counterexample roster and all rights the requirements before the safety loop hold |
| ModMoves.ValidateCastlingAccepts | chessteg_modular/engine/rules.py:55-82 | validate_castling accepts when the requirements hold, the loop passes and its board shows the squares between empty |
| ModMoves.BlockedRosterIntended | chessteg_modular/engine/rules.py:432-447 | with that roster the corrected test accepts exactly when f1 and g1 are empty |
| ModMoves.PieceMoves | chessteg_modular/engine/move_generation.py:191-210 | the specification of generate_piece_moves: the pawn, rook, bishop, queen, knight and king generators by type, no moves for another type; ModPlay.PieceMovesOk states that every move names squares inside the board |
| ModMoves.CastlingMove | chessteg_modular/engine/move_generation.py:116-189 | at most one castling move per side: a king move from its start two squares over, carrying the rook's start and landing squares |
| ModMoves.SpecialMoves | chessteg_modular/engine/move_generation.py:116-189 | _generate_special_moves leaves a 120-cell board |
| ModMoves.LegalFilter | chessteg_modular/engine/move_generation.py:59 | the comprehension keeps exactly the moves is_move_legal accepts |
| ModMoves.GenerateMoves | chessteg_modular/engine/move_generation.py:37-64 | generate_moves leaves a 120-cell board |
| ModMoves.MoveLegal | chessteg_modular/engine/move_generation.py:84-114 | the specification of is_move_legal: the mover is found by id and its king is not in check after _apply_move_internal; GeneratedMovesAreLegal and LegalFilter use it |
| ModMoves.GeneratedMovesAreLegal | chessteg_modular/engine/move_generation.py:84-114 | every generated move has a mover and leaves the mover's king out of check |
| ModMoves.ActiveFilter | chessteg_modular/engine/move_generation.py:70-82 | generate_active_moves keeps exactly the captures, en-passant moves and promotions |
| ModMoves.KingInCheck | chessteg_modular/engine/core.py:390-398 | the specification of is_king_in_check: false without a live king of the colour, otherwise whether the opponent attacks its square; GameEnd and GeneratedMovesAreLegal use it |
| ModMoves.GameEnd | chessteg_modular/engine/core.py:400-415 | checkmate exactly when the side to move has no legal move and is in check, stalemate exactly when it has none and is not; never both |
| ModPlay.RevokeCastlingRights | chessteg_modular/engine/rules.py:482-489 | the colour keeps no castling right, the other colour keeps its rights, nothing is granted |
| ModPlay.RevokeRookCastlingRights | chessteg_modular/engine/rules.py:491-502 | only the wing whose rook starts on the square loses its right; the other colour is untouched |
| ModPlay.UpdateCastlingRights | chessteg_modular/engine/rules.py:303-326 | a king move clears both rights of its colour, a rook move from a corner clears that wing, other kinds change nothing, the other colour is untouched, nothing is granted |
| ModPlay.UpdateEnPassant | chessteg_modular/engine/rules.py:328-350 | the target is set exactly after a move of two rows, to the square the pawn crossed |
| ModPlay.ProcessMove | chessteg_modular/engine/rules.py:26-53 | process_move changes only the en-passant target (and that only after a pawn move) and the castling rights, which only shrink |
| ModPlay.EnPassantAfterDoubleStep | chessteg_modular/engine/rules.py:328-350 | after a double step the target is the crossed square and an enemy pawn beside the landing square is offered the en-passant capture of the pawn that moved |
| ModPlay.PushPromotion | chessteg_modular/engine/rules.py:275-301 | a pawn push carries a promotion piece exactly when check_pawn_promotion_required holds |
| ModPlay.CapturePromotion | chessteg_modular/engine/rules.py:275-301 | a pawn capture carries a promotion piece exactly when a promotion is required |
| ModPlay.PromotionMovesRequirePromotion | chessteg_modular/engine/rules.py:275-301 | apart from en passant, the generator's promotion moves are exactly the pawn moves that require a promotion |
| ModPlay.LowerString | chessteg_modular/engine/rules.py:595 | lower-casing keeps the length and lowers each character |
| ModPlay.PromotionPieceType | chessteg_modular/engine/rules.py:587-595 | a type exactly for a name that lower-cases to queen, rook, bishop or knight, and then that piece's type |
| ModPlay.PromotionNamesRoundTrip | chessteg_modular/engine/rules.py:352-359 | each offered promotion name, in any letter case, maps to the piece at the same place of the generator's list |
| ModPlay.EnPassantTrial | chessteg_modular/engine/rules.py:544-574 | the trial roster keeps its length and puts the pawn on the target |
| ModPlay.ValidateEnPassantRequirements | chessteg_modular/engine/rules.py:143-174 | an accepted en passant has a pawn moving one row and one file onto the EMPTY en-passant target, a live enemy pawn on the square behind it, and no self-check |
| ModPlay.RookAt | chessteg_modular/engine/rules.py:84-141 | the first live rook of the colour on the square, none exactly when there is none |
| ModPlay.CastlingPlay | chessteg_modular/engine/rules.py:84-141 | the moving part of execute_castling keeps a 120-cell board |
| ModPlay.ExecuteCastling | chessteg_modular/engine/rules.py:84-141 | execute_castling keeps a 120-cell board |
| ModPlay.CastlingPlayEffect | chessteg_modular/engine/rules.py:84-141 | with king and rook on their start squares, king and rook stand on their landing squares (board and roster), the start squares are EMPTY, the colour has no right left and the side to move stays |
| ModPlay.ExecuteCastlingEffect | chessteg_modular/engine/rules.py:84-141 | execute_castling succeeds exactly when validate_castling does, and then plays on the board validate_castling left |
| ModPlay.JumpsOk | chessteg_modular/engine/move_generation.py:315-357 | knight and king moves name squares inside the list |
| ModPlay.SlideWalkOk | chessteg_modular/engine/move_generation.py:359-387 | one sliding walk names squares inside the list |
| ModPlay.SlidesOk | chessteg_modular/engine/move_generation.py:359-387 | all sliding moves name squares inside the list |
| ModPlay.PawnPushesOk | chessteg_modular/engine/move_generation.py:239-305 | pawn pushes, even from the last rank, name squares inside the list |
| ModPlay.PawnCaptureOk | chessteg_modular/engine/move_generation.py:239-305 | pawn captures name squares inside the list |
| ModPlay.PawnMovesOk | chessteg_modular/engine/move_generation.py:239-305 | all pawn moves name squares inside the list |
| ModPlay.PieceMovesOk | chessteg_modular/engine/move_generation.py:191-210 | every piece's moves name squares inside the list |
| ModPlay.OwnMovesOk | chessteg_modular/engine/move_generation.py:47-52 | the moves of a live entry of the colour are sound |
| ModPlay.PseudoMovesOk | chessteg_modular/engine/move_generation.py:47-52 | every pseudo-legal move of the roster is sound |
| ModPlay.PseudoMovesStepOk | chessteg_modular/engine/move_generation.py:47-52 | one more roster entry keeps the collected moves sound |
| ModPlay.MovesOkConcat | chessteg_modular/engine/move_generation.py:52-56 | joining sound move lists gives a sound list |
| ModPlay.SpecialMovesOk | chessteg_modular/engine/move_generation.py:116-189 | castling moves are sound and carry their rook |
| ModPlay.GeneratedMovesOk | chessteg_modular/engine/move_generation.py:37-64 | every move generate_moves returns can be given to make_move |
| ModPlay.SaveState | chessteg_modular/engine/core.py:354-367 | the saved entry holds the roster, side, flags, next id, en-passant target and rights |
| ModPlay.Restore | chessteg_modular/engine/core.py:333-352 | restoring puts every saved field back and rewrites the board from the roster |
| ModPlay.RestoreSaved | chessteg_modular/engine/core.py:354-383 | restoring what was saved from a sound state gives it back, with the board rewritten from the roster |
| ModPlay.Finish | chessteg_modular/engine/core.py:264-268 | the tail of make_move synchronizes the roster, flips the turn, keeps the rest and never sets both end flags |
| ModPlay.CastlingRoster | chessteg_modular/engine/core.py:272-292 | the castling roster keeps its length |
| ModPlay.EnPassantRoster | chessteg_modular/engine/core.py:294-309 | the en-passant roster keeps its length |
| ModPlay.CaptureOnTarget | chessteg_modular/engine/core.py:248-253 | flagging the captured piece keeps the roster's length |
| ModPlay.PromotionRoster | chessteg_modular/engine/core.py:311-331 | the promotion roster keeps its length |
| ModPlay.NormalRoster | chessteg_modular/engine/core.py:248-257 | the normal-path roster keeps its length |
| ModPlay.MakeMove | chessteg_modular/engine/core.py:221-270 | the state is always pushed first; the move succeeds exactly when a piece stands on from_pos and a castling move's rook id is known; without a piece the saved state is read back; a success flips the turn and never sets both end flags |
| ModPlay.PlayPath | chessteg_modular/engine/core.py:233-270 | playing a path keeps a 120-cell board |
| ModPlay.Undo | chessteg_modular/engine/core.py:333-352 | undo fails exactly on an empty stack and then changes nothing; otherwise it pops the top entry and restores it |
| ModPlay.UndoAfterMakeMove | chessteg_modular/engine/core.py:221-352 | undo right after make_move, on every path and whether the move succeeded or not, restores the state before it (board rewritten from the roster) and the stack |
| ModPlay.MakeMoveRightsOnlyShrink | chessteg_modular/engine/core.py:221-331 | no path of make_move grants a castling right |
| ModPlay.MakeMoveRevokesRights | chessteg_modular/engine/core.py:221-292 | a castling or a king move leaves its colour without rights; a rook move from a corner takes that wing's right only |
| ModPlay.MakeMoveEnPassantTarget | chessteg_modular/engine/core.py:221-331 | the en-passant target changes only on the normal path for a pawn; every other path keeps the old target |
| ModPlay.SameIdsKeepIncreasing | chessteg_modular/engine/core.py:150-166 | a roster with the same ids keeps the increasing-id property |
| ModPlay.RosterOkInRange | chessteg_modular/engine/core.py:210-219 | a sound roster names squares inside the list |
| ModPlay.SyncRepairs | chessteg_modular/engine/core.py:168-187 | synchronizing a roster inside the list makes it sound and keeps its ids |
| ModPlay.CaptureOnTargetKeeps | chessteg_modular/engine/core.py:248-253 | flagging the captured piece keeps ids and squares |
| ModPlay.PathRostersKeep | chessteg_modular/engine/core.py:233-331 | the rosters of the four paths keep the ids and stay inside the list |
| ModPlay.FinishKeepsStateOk | chessteg_modular/engine/core.py:264-268 | the tail of make_move yields a sound state |
| ModPlay.PathKeepsStateOk | chessteg_modular/engine/core.py:233-331 | playing a path from a sound state gives a sound state |
| ModPlay.MakeMoveKeepsGameOk | chessteg_modular/engine/core.py:221-270 | make_move keeps the engine sound: 120 cells, live entries on playable squares, increasing ids below next_piece_id, sound saved entries |
| ModPlay.MakeMoveKeepsStateOk | chessteg_modular/engine/core.py:221-270 | make_move keeps the current state sound |
| ModPlay.UndoKeepsGameOk | chessteg_modular/engine/core.py:333-352 | undo_move keeps the engine sound |
| ModPlay.CaptureAt | chessteg_modular/engine/core.py:488-490 | flagging the piece on a square keeps the roster's length |
| ModPlay.CaptureAtClears | chessteg_modular/engine/core.py:488-490 | on a square with at most one live entry, none is left |
| ModPlay.CaptureAtKeeps | chessteg_modular/engine/core.py:488-490 | only captured flags change |
| ModPlay.EditorPlacePuts | chessteg_modular/engine/core.py:482-497 | editor_place_piece succeeds exactly on playable squares (a failure changes nothing); the new piece is the last live entry with the old next id, its value is on the square, the state stays sound, and it is the only live piece there |
| ModPlay.EditorPlaceSucceeds | chessteg_modular/engine/core.py:482-497 | a placement on a playable square appends the new entry after flagging the old occupant and writes its value |
| ModPlay.EditorPlaceAlone | chessteg_modular/engine/core.py:482-497 | afterwards the new entry is the live piece on that square |
| ModPlay.PlacedIdsIncreasing | chessteg_modular/engine/core.py:482-497 | the appended entry carries the next id, so ids keep increasing |
| ModPlay.EditorRemoveClears | chessteg_modular/engine/core.py:499-507 | editor_remove_piece succeeds exactly when a live piece stands on the square; then none is left there and the square is EMPTY; ids stay |
| ModPlay.EditorClearEmpties | chessteg_modular/engine/core.py:509-513 | editor_clear_board flags every entry captured and resets the board to the initial one |
| ModEngine.StartStateOk | chessteg_modular/engine/core.py:111-148 | the start position is sound for the generators, with both kings present and White to move |
| ModEngine.StartPiecesGrow | chessteg_modular/engine/core.py:150-166 | each _add_piece of initialize_pieces appends the next start entry |
| ModEngine.StartLayoutPawns | chessteg_modular/engine/core.py:128-133 | Black's pawns are entries 8..15 on 81..88 and White's entries 16..23 on 31..38 |
| ModEngine.SafetyLoopStep | chessteg_modular/engine/rules.py:393-430 | one round of the safety loop: fail in check with the king written and the square cleared, otherwise go on with the rest |
| ModEngine.MoveKingTwice | chessteg_modular/engine/rules.py:393-430 | moving the king twice is moving it to the second square; moving it to its own square changes nothing |
| ModEngine.AttackRayStep | chessteg_modular/engine/move_generation.py:420-440 | one square of an attack ray: it is included, and the ray goes on only past an empty square |
| ModEngine.SlideWalkStep | chessteg_modular/engine/move_generation.py:359-387 | one square of a slide: a free square gives a quiet move and continues, an enemy a capture and stops, an own piece stops |
| ModEngine.SpecialMovesParts | chessteg_modular/engine/move_generation.py:116-189 | _generate_special_moves is the king-side result followed by the queen-side result, the second validated on the board the first left |
| ModEngine.GameEndParts | chessteg_modular/engine/core.py:400-415 | the end flags from the legal-move list and the check test |
| ModEngine.CastlingRosterSound | chessteg_modular/engine/core.py:272-292 | the castling roster is ready for the common tail (ids, colours, squares in range) |
| ModEngine.EnPassantRosterSound | chessteg_modular/engine/core.py:294-309 | the en-passant roster is ready for the common tail |
| ModEngine.PromotionRosterSound | chessteg_modular/engine/core.py:311-331 | the promotion roster is ready for the common tail |
| ModEngine.NormalRosterSound | chessteg_modular/engine/core.py:248-257 | the normal-path roster is ready for the common tail |
| ModEngine.PseudoMovesStep | chessteg_modular/engine/move_generation.py:47-52 | one more roster entry appends that entry's own moves |
| ModEngine.Rules.constructor | chessteg_modular/engine/rules.py:15-24 | no en-passant target, all castling rights, empty history |
| ModEngine.Rules.Reset | chessteg_modular/engine/core.py:117 | re-running __init__ resets target, rights and history |
| ModEngine.Rules.RevokeCastlingRights | chessteg_modular/engine/rules.py:482-489 | the rights become RevokeCastlingRights of the old rights |
| ModEngine.Rules.RevokeRookCastlingRights | chessteg_modular/engine/rules.py:491-502 | the rights become RevokeRookCastlingRights of the old rights |
| ModEngine.Rules.UpdateCastlingRightsAfterMove | chessteg_modular/engine/rules.py:303-326 | the rights become UpdateCastlingRights of the old rights (never granted) |
| ModEngine.Rules.UpdateEnPassantAfterMove | chessteg_modular/engine/rules.py:328-350 | for a pawn move the target becomes UpdateEnPassant (the square behind a two-row step), otherwise it is cleared |
| ModEngine.Rules.ProcessMove | chessteg_modular/engine/rules.py:26-53 | the target changes only after a pawn move; the rights are updated |
| ModEngine.Rules.CheckBasicCastlingRequirements | chessteg_modular/engine/rules.py:373-391 | true exactly when the right is held and the live king and rook stand on their start squares |
| ModEngine.Rules.CheckCastlingSquaresSafety | chessteg_modular/engine/rules.py:393-430 | the result and the board left are the SafetyLoop's; the roster is put back |
| ModEngine.Rules.PutKingBack | chessteg_modular/engine/rules.py:423-428 | the king's roster square is set back |
| ModEngine.Rules.TryKingOn | chessteg_modular/engine/rules.py:404-425 | one trial: the king moved to the square, the check query, the king's code written back and the square cleared |
| ModEngine.Rules.CheckCastlingSquaresEmpty | chessteg_modular/engine/rules.py:432-447 | true exactly when every square between king and rook is EMPTY on the current board |
| ModEngine.Rules.ValidateCastling | chessteg_modular/engine/rules.py:55-82 | validate_castling is ModMoves.ValidateCastling, result and board; the roster is unchanged |
| ModEngine.Rules.ExecuteCastling | chessteg_modular/engine/rules.py:84-141 | execute_castling is ModPlay.ExecuteCastling, and a record is appended exactly on success |
| ModEngine.Rules.PlayCastling | chessteg_modular/engine/rules.py:97-141 | the moving part is CastlingPlay, with the record on success |
| ModEngine.Rules.FindRook | chessteg_modular/engine/rules.py:84-141 | the first live rook of the colour on the square |
| ModEngine.Rules.CheckBasicEnPassantRequirements | chessteg_modular/engine/rules.py:515-534 | the basic en-passant test on the board |
| ModEngine.Rules.ValidateNoSelfCheckAfterEnPassant | chessteg_modular/engine/rules.py:544-574 | true exactly when the trial capture leaves the pawn's king out of check; board and roster are put back |
| ModEngine.Rules.ValidateEnPassant | chessteg_modular/engine/rules.py:143-174 | validate_en_passant is ModPlay.ValidateEnPassant, with board and roster unchanged |
| ModEngine.Engine.constructor | chessteg_modular/engine/core.py:70-91 | the new engine holds the start position with empty histories |
| ModEngine.Engine.GetPieceAt | chessteg_modular/engine/core.py:189-194 | the loop returns the first live entry on the square |
| ModEngine.Engine.GetPieceById | chessteg_modular/engine/core.py:196-201 | the loop returns the first entry with the id |
| ModEngine.Engine.GetKing | chessteg_modular/engine/core.py:203-208 | the loop returns the first live king of the colour |
| ModEngine.Engine.InitializeBoard | chessteg_modular/engine/core.py:93-109 | the board becomes the initial board |
| ModEngine.Engine.SynchronizeBoardState | chessteg_modular/engine/core.py:168-187 | board and roster become the synchronized ones |
| ModEngine.Engine.InitializePieces | chessteg_modular/engine/core.py:111-148 | the state becomes the start state, with empty histories |
| ModEngine.Engine.AddBlackPieces | chessteg_modular/engine/core.py:120-129 | from an empty roster, the first sixteen start entries (Black) with the next id 17 |
| ModEngine.Engine.AddWhitePieces | chessteg_modular/engine/core.py:132-141 | after Black's sixteen, all thirty-two start entries with the next id 33 |
| ModEngine.Engine.AddStartPiece | chessteg_modular/engine/core.py:150-166 | one _add_piece extends the start prefix by one entry |
| ModEngine.Engine.AddPiece | chessteg_modular/engine/core.py:150-166 | a new live, unmoved entry with the next id is appended and the id counter grows; ids keep increasing |
| ModEngine.Engine.ValidTargetsOf | chessteg_modular/engine/move_generation.py:389-450 | the playable squares among the offsets, in order |
| ModEngine.Engine.GetAttackedSquares | chessteg_modular/engine/move_generation.py:389-450 | get_attacked_squares is AttackedSquares (see PawnAttacksDiagonals, AttackRayBlocked/Ends) |
| ModEngine.Engine.RayAttacks | chessteg_modular/engine/move_generation.py:420-440 | the rays of all directions in order |
| ModEngine.Engine.RayWalk | chessteg_modular/engine/move_generation.py:420-440 | one ray, up to and including its first piece |
| ModEngine.Engine.IsSquareAttacked | chessteg_modular/engine/move_generation.py:452-495 | true exactly when some live piece of the attacker attacks the square |
| ModEngine.Engine.IsKingInCheck | chessteg_modular/engine/core.py:390-398 | false without a live king, otherwise whether the opponent attacks its square |
| ModEngine.Engine.TakeSnapshot | chessteg_modular/engine/core.py:421-429 | the snapshot holds roster, turn, flags and board |
| ModEngine.Engine.RestoreSnapshot | chessteg_modular/engine/core.py:431-437 | the five fields are read back from the snapshot |
| ModEngine.Engine.ApplyMoveInternal | chessteg_modular/engine/core.py:439-467 | board and roster become ApplyToBoard and ApplyToPieces (see ApplyMoveInternalEffects) |
| ModEngine.Engine.IsMoveLegal | chessteg_modular/engine/move_generation.py:84-114 | true exactly when the mover exists and its king is not in check after the move; the state is restored |
| ModEngine.Engine.PromotionMoves | chessteg_modular/engine/move_generation.py:239-305 | the four promotion moves in order |
| ModEngine.Engine.PawnPushMoves | chessteg_modular/engine/move_generation.py:239-305 | single step onto a free square (four promotions on the last rank), double step from the start row |
| ModEngine.Engine.PawnCaptureMoves | chessteg_modular/engine/move_generation.py:239-305 | one diagonal: a capture of an enemy (with promotions) or en passant onto the target |
| ModEngine.Engine.GeneratePawnMoves | chessteg_modular/engine/move_generation.py:239-305 | pushes then both diagonals |
| ModEngine.Engine.JumpMove | chessteg_modular/engine/move_generation.py:315-357 | one target: a free square gives a quiet move, an enemy a capture |
| ModEngine.Engine.JumpMoves | chessteg_modular/engine/move_generation.py:315-357 | the loop over the offsets |
| ModEngine.Engine.GenerateKnightMoves | chessteg_modular/engine/move_generation.py:315-335 | the knight's jumps |
| ModEngine.Engine.GenerateKingMoves | chessteg_modular/engine/move_generation.py:337-357 | the king's eight steps |
| ModEngine.Engine.SlideMoves | chessteg_modular/engine/move_generation.py:359-387 | one direction of a slider (see SlideWalkShape, SlideWalkStops) |
| ModEngine.Engine.GenerateSlidingMoves | chessteg_modular/engine/move_generation.py:359-387 | the walks of each direction in turn |
| ModEngine.Engine.GeneratePieceMoves | chessteg_modular/engine/move_generation.py:191-210 | dispatch on the type; other types give no moves |
| ModEngine.Engine.CastlingMoveOf | chessteg_modular/engine/move_generation.py:116-189 | one side's castling move |
| ModEngine.Engine.GenerateSpecialMoves | chessteg_modular/engine/move_generation.py:116-189 | the moves and the board are SpecialMoves'; the roster is unchanged |
| ModEngine.Engine.OwnPieceMoves | chessteg_modular/engine/move_generation.py:49-52 | a live piece of the colour gives its moves, any other none |
| ModEngine.Engine.CollectPieceMoves | chessteg_modular/engine/move_generation.py:47-52 | the moves of every live piece of the colour in roster order |
| ModEngine.Engine.FilterLegal | chessteg_modular/engine/move_generation.py:59 | the moves is_move_legal accepts, in order; every trial undone |
| ModEngine.Engine.GenerateMoves | chessteg_modular/engine/move_generation.py:37-64 | generate_moves is ModMoves.GenerateMoves (every move legal, GeneratedMovesAreLegal) |
| ModEngine.Engine.GenerateActiveMoves | chessteg_modular/engine/move_generation.py:70-82 | the legal captures, en-passant moves and promotions |
| ModEngine.Engine.CheckGameEnd | chessteg_modular/engine/core.py:400-415 | the flags and board are GameEnd's: mate exactly with no move and check, stalemate with no move and no check |
| ModEngine.Engine.SetEndFlags | chessteg_modular/engine/core.py:405-415 | the branches of _check_game_end |
| ModEngine.Engine.IsGameOver | chessteg_modular/engine/core.py:417-419 | over exactly on checkmate or stalemate |
| ModEngine.Engine.SaveState | chessteg_modular/engine/core.py:354-367 | the saved state is pushed on the history |
| ModEngine.Engine.LoadSaved | chessteg_modular/engine/core.py:339-351 | the state becomes Restore of the entry |
| ModEngine.Engine.RestoreState | chessteg_modular/engine/core.py:369-383 | the top entry is read back without popping; the history is kept and an empty stack changes nothing |
| ModEngine.Engine.UndoMove | chessteg_modular/engine/core.py:333-352 | undo_move is ModPlay.Undo (UndoAfterMakeMove) |
| ModEngine.Engine.FinishMove | chessteg_modular/engine/core.py:264-268 | the common tail is ModPlay.Finish |
| ModEngine.Engine.MoveCastlingRoster | chessteg_modular/engine/core.py:279-284 | the roster becomes CastlingRoster |
| ModEngine.Engine.MoveEnPassantRoster | chessteg_modular/engine/core.py:297-304 | the roster becomes EnPassantRoster |
| ModEngine.Engine.CaptureOnTo | chessteg_modular/engine/core.py:248-253 | the live piece on to_pos is flagged captured |
| ModEngine.Engine.ExecuteCastlingMove | chessteg_modular/engine/core.py:272-292 | false with nothing changed for an unknown rook id; otherwise king and rook moved, the colour's rights revoked and the common tail |
| ModEngine.Engine.ExecuteEnPassantMove | chessteg_modular/engine/core.py:294-309 | the en-passant roster, then the common tail |
| ModEngine.Engine.ExecutePromotionMove | chessteg_modular/engine/core.py:311-331 | the promotion roster, then the common tail |
| ModEngine.Engine.ExecuteNormalMove | chessteg_modular/engine/core.py:246-270 | the normal roster, process_move, then the common tail |
| ModEngine.Engine.PlayPath | chessteg_modular/engine/core.py:233-270 | the path played is ModPlay.PlayPath |
| ModEngine.Engine.MakeMove | chessteg_modular/engine/core.py:221-270 | make_move is ModPlay.MakeMove on the whole game, and the engine stays sound |
| ModEngine.Engine.CaptureLiveAt | chessteg_modular/engine/core.py:488-490 | the live piece on the square is flagged captured |
| ModEngine.Engine.ReplaceOnSquare | chessteg_modular/engine/core.py:488-493 | the old piece is flagged and the new entry appended with the next id |
| ModEngine.Engine.EditorPlacePiece | chessteg_modular/engine/core.py:482-497 | editor_place_piece is EditorPlace (EditorPlacePuts) |
| ModEngine.Engine.EditorRemovePiece | chessteg_modular/engine/core.py:499-507 | editor_remove_piece is EditorRemove (EditorRemoveClears) |
| ModEngine.Engine.EditorClearBoard | chessteg_modular/engine/core.py:509-513 | editor_clear_board is EditorClear (EditorClearEmpties) |
| ModEngine.Engine.EditorStandardPosition | chessteg_modular/engine/core.py:515-517 | the state becomes the start state with empty histories |
| ModEval.TotalAppend | chessteg_modular/engine/evaluation.py:146-159 | a sum over the roster splits over two halves |
| ModEval.TotalOpposite | chessteg_modular/engine/evaluation.py:146-159 | rosters whose entries score opposite amounts have opposite totals |
| ModEval.MirrorSquare | chessteg_modular/engine/evaluation.py:173-178 | the mirror of a square keeps the column, sends row r to 11 - r and keeps playability |
| ModEval.DivModOfRowCol | chessteg_modular/engine/evaluation.py:171 | row and column of row * 10 + column are read back |
| ModEval.MirrorSquareInjective | chessteg_modular/engine/evaluation.py:173-178 | two squares with the same mirror are equal |
| ModEval.MirrorRoster | chessteg_modular/engine/evaluation.py:173-178 | every entry is mirrored, in place |
| ModEval.TotalMirror | chessteg_modular/engine/evaluation.py:146-159 | a term that changes sign on each mirrored entry changes the sign of the total |
| ModEval.PieceAtMirror | chessteg_modular/engine/evaluation.py:367-372 | _get_piece_at finds the same entry on the mirrored square of the mirrored roster |
| ModEval.KingMirror | chessteg_modular/engine/evaluation.py:411-418 | _get_king of the mirrored roster for the other colour finds the same entry |
| ModEval.MaterialValue | chessteg_modular/engine/evaluation.py:152 | the material table: positive exactly for the six kinds, at least 20000 exactly for the king, 0 for anything else |
| ModEval.SideMaterial | chessteg_modular/engine/evaluation.py:146-159 | one side's material is non-negative |
| ModEval.MaterialIsDifference | chessteg_modular/engine/evaluation.py:142-159 | the material score is White's material minus Black's |
| ModEval.MaterialMirror | chessteg_modular/engine/evaluation.py:142-159 | swapping colours and rows negates the material score |
| ModEval.PositionTable | chessteg_modular/engine/evaluation.py:187 | each kind's table is 8x8 |
| ModEval.Clamp | chessteg_modular/engine/evaluation.py:183-184 | max(0, min(7, x)) lies in 0..7 and is x inside that range, 0 below, 7 above |
| ModEval.TableRow | chessteg_modular/engine/evaluation.py:171-183 | on a playable square the row is board_row - 2 for White and 9 - board_row otherwise, never clamped |
| ModEval.TableCol | chessteg_modular/engine/evaluation.py:180-184 | on a playable square the column is board_col - 1 |
| ModEval.SquareTermMirror | chessteg_modular/engine/evaluation.py:166-192 | a mirrored entry reads the same table cell with the other sign |
| ModEval.PieceSquares | chessteg_modular/engine/evaluation.py:161-194 | the specification of _evaluate_piece_squares: the sum of each live piece's table cell, added for White and subtracted for Black; PieceSquaresMirror states its antisymmetry |
| ModEval.PieceSquaresMirror | chessteg_modular/engine/evaluation.py:161-194 | the piece-square score changes sign in the mirrored position |
| ModEval.MaterialAndSquaresMirror | chessteg_modular/engine/evaluation.py:142-194 | material plus piece squares changes sign in the mirrored position |
| ModEval.StartLayoutMirrored | chessteg_modular/engine/core.py:119-141 | White's start entries are Black's mirrored, entry by entry |
| ModEval.StartOfficersMirrored | chessteg_modular/engine/core.py:120-141 | White's officers are Black's with the colour negated, 70 squares lower |
| ModEval.StartPawnsMirrored | chessteg_modular/engine/core.py:128-133 | White's pawns are Black's with the colour negated, 50 squares lower |
| ModEval.StartBlocksOpposite | chessteg_modular/engine/core.py:119-141 | any id-blind term that changes sign under the mirror totals 0 over the start roster |
| ModEval.StartPositionBalanced | chessteg_modular/engine/evaluation.py:142-194 | the start position scores 0 in material and 0 in piece squares |
| ModEval.PositionScore | chessteg_modular/engine/evaluation.py:107-140 | the specification of evaluate_position; PositionScoreMeaning states its value case by case |
| ModEval.PositionScoreMeaning | chessteg_modular/engine/evaluation.py:107-140 | a mated White -30000, a mated Black +30000, stalemate 0, otherwise White's material minus Black's |
| ModEval.StartPositionScoresZero | chessteg_modular/engine/evaluation.py:107-140 | the start position evaluates to 0 |
| ModEval.ShieldPoint | chessteg_modular/engine/evaluation.py:427-437 | one inspected square counts at most 1 |
| ModEval.PawnShield | chessteg_modular/engine/evaluation.py:420-439 | at most three shield pawns |
| ModEval.KingTerm | chessteg_modular/engine/evaluation.py:253-269 | one king's penalty lies in -60..10 |
| ModEval.KingSafety | chessteg_modular/engine/evaluation.py:247-276 | the king-safety term lies in -70..70 |
| ModEval.ShieldSquareMirror | chessteg_modular/engine/evaluation.py:427-434 | the mirrored king of the other colour inspects the mirrored squares |
| ModEval.ShieldPointMirror | chessteg_modular/engine/evaluation.py:427-437 | one shield point is the same in the mirrored position |
| ModEval.KingTermMirror | chessteg_modular/engine/evaluation.py:253-269 | one king's term is the same for the mirrored king of the other colour |
| ModEval.KingSafetyMirror | chessteg_modular/engine/evaluation.py:247-276 | king safety changes sign in the mirrored position |
| ModEval.ShieldPointIntended | chessteg_modular/engine/evaluation.py:429-432 | the corrected inspected square (the row in front of the king) counts at most 1 |
| ModEval.PawnShieldIntended | chessteg_modular/engine/evaluation.py:420-439 | the corrected shield counts at most three |
| ModEval.StartShieldsMissed | chessteg_modular/engine/evaluation.py:429-432 | in the start position the shield as written counts 0 for both kings, the corrected one 3 |
| ModEval.NoShieldOffBoard | chessteg_modular/engine/evaluation.py:429-435 | a shield row outside the board finds no pawn |
| ModEval.FullShieldIntended | chessteg_modular/engine/evaluation.py:425-439 | three own pawns in front of the king make a full corrected shield |
| ModEval.PieceAtIs | chessteg_modular/engine/evaluation.py:367-372 | _get_piece_at returns the first live entry on the square |
| ModEval.OwnPawnAt | chessteg_modular/engine/evaluation.py:435-437 | such an entry is an own pawn on the square |
| ModEval.StartLayoutRows | chessteg_modular/engine/core.py:119-133 | Black's entries stand on rows 8 and 9; the pawns of both sides in file order |
| ModEval.WhiteShieldPawns | chessteg_modular/engine/core.py:131-138 | the three pawns in front of White's start king are own pawns |
| ModEval.BlackShieldPawns | chessteg_modular/engine/core.py:119-129 | the three pawns in front of Black's start king are own pawns |
| ModEval.Bump | chessteg_modular/engine/evaluation.py:343 | one dict update adds at most one key |
| ModEval.BumpKeys | chessteg_modular/engine/evaluation.py:343 | after the update the keys are the old keys plus the bumped one |
| ModEval.HasKeyTail | chessteg_modular/engine/evaluation.py:343 | a key is the head's or in the tail |
| ModEval.BumpCounts | chessteg_modular/engine/evaluation.py:343 | the bumped key counts one more, every other key the same, keys stay distinct |
| ModEval.BucketsCountPawns | chessteg_modular/engine/evaluation.py:337-343 | the dict holds, per (file, colour), the number of live pawns there |
| ModEval.NatStringLast | chessteg_modular/engine/evaluation.py:342 | the last digit of a number's text is its last decimal digit |
| ModEval.NatStringInjective | chessteg_modular/engine/evaluation.py:342 | a number's text names one number |
| ModEval.IntStringSign | chessteg_modular/engine/evaluation.py:342 | the text starts with '-' exactly for a negative number |
| ModEval.IntStringInjective | chessteg_modular/engine/evaluation.py:342 | an integer's text names one integer |
| ModEval.DigitsDistinct | chessteg_modular/engine/evaluation.py:342 | distinct digits have distinct characters |
| ModEval.KeyTextInjective | chessteg_modular/engine/evaluation.py:342 | the key f"{file}-{color}" names one (file, colour) pair |
| ModEval.KeyEndsWithOne | chessteg_modular/engine/evaluation.py:347 | key.endswith("1") holds exactly when the colour's last digit is 1, so for both 1 and -1 |
| ModEval.BumpOk | chessteg_modular/engine/evaluation.py:343 | the update keeps the keys well-formed |
| ModEval.BucketsAreOk | chessteg_modular/engine/evaluation.py:337-343 | the dict's keys are well-formed |
| ModEval.PawnStructureAsWritten | chessteg_modular/engine/evaluation.py:330-355 | the specification of _evaluate_pawn_structure as written: the dict of pawns per (file, colour), then the endswith test on each key with more than one pawn; AsWrittenIsFlat, PawnStructureAsWrittenMirror and BlackDoubledPawnsMisjudged state its properties |
| ModEval.AsWrittenIsFlat | chessteg_modular/engine/evaluation.py:345-353 | as written each key adds its penalty, so the total is a flat non-positive penalty |
| ModEval.PawnStructureAsWrittenNonPositive | chessteg_modular/engine/evaluation.py:330-355 | as written the term is never positive, whoever has the doubled pawns |
| ModEval.SwapBuckets | chessteg_modular/engine/evaluation.py:342 | every key's colour negated, counts kept |
| ModEval.SwapBucketsCons | chessteg_modular/engine/evaluation.py:342 | the swap distributes over a cons |
| ModEval.BumpSwap | chessteg_modular/engine/evaluation.py:343 | bumping the other colour in the swapped dict is swapping the bumped dict |
| ModEval.BucketsMirror | chessteg_modular/engine/evaluation.py:337-343 | the mirrored roster gives the swapped dict |
| ModEval.SwapBucketsTotals | chessteg_modular/engine/evaluation.py:345-353 | swapping negates the intended total and keeps the flat one |
| ModEval.PawnStructureMirror | chessteg_modular/engine/evaluation.py:330-355 | the corrected term changes sign in the mirrored position |
| ModEval.PawnStructureAsWrittenMirror | chessteg_modular/engine/evaluation.py:330-355 | as written the term is unchanged in the mirrored position |
| ModEval.BlackDoubledPawnsMisjudged | chessteg_modular/engine/evaluation.py:347 | two black pawns on one file: -20 as written, +20 as intended |
| ModEval.MobilityWeight | chessteg_modular/engine/evaluation.py:441-450 | 3 exactly for the knight, 2 exactly for bishop and rook, 1 otherwise |
| ModEval.PositionEvaluator.constructor | chessteg_modular/engine/evaluation.py:15-105 | the evaluator holds the engine with a zero call counter |
| ModEval.PositionEvaluator.EvaluatePosition | chessteg_modular/engine/evaluation.py:107-140 | the counter grows by one and the score is PositionScore (PositionScoreMeaning) |
| ModEval.PositionEvaluator.EvaluateMaterial | chessteg_modular/engine/evaluation.py:142-159 | the loop returns Material (MaterialIsDifference) |
| ModEval.PositionEvaluator.EvaluatePieceSquares | chessteg_modular/engine/evaluation.py:161-194 | the loop returns PieceSquares (PieceSquaresMirror) |
| ModEval.PositionEvaluator.CountPawnShield | chessteg_modular/engine/evaluation.py:420-439 | the loop returns PawnShield |
| ModEval.PositionEvaluator.ShieldPawn | chessteg_modular/engine/evaluation.py:427-437 | one pass returns ShieldPoint |
| ModEval.PositionEvaluator.KingPenalty | chessteg_modular/engine/evaluation.py:253-269 | one king's pass returns KingTerm |
| ModEval.PositionEvaluator.EvaluateKingSafety | chessteg_modular/engine/evaluation.py:247-276 | the loop returns KingSafety (KingSafetyMirror) |
| ModEval.PositionEvaluator.EvaluatePawnStructure | chessteg_modular/engine/evaluation.py:330-355 | the two loops return PawnStructureAsWritten |
| ModSearch.SideToMove | chessteg_modular/engine/search.py:69 | 1 exactly when White is to move, otherwise -1 |
| ModSearch.MateScoreRange | chessteg_modular/engine/search.py:216-229 | a mated side scores within MAX_DEPTH of -MATE_SCORE; a side not in check scores 0 |
| ModSearch.QuickerMatePreferred | chessteg_modular/engine/search.py:223 | a mate nearer the root scores lower for the mated side, so the winner prefers the quicker mate |
| ModSearch.TimedOutMonotone | chessteg_modular/engine/search.py:231-237 | once fired the timeout stays fired; a non-positive timeout never fires; otherwise it fires exactly at timeout_ms |
| ModSearch.VictimValue | chessteg_modular/engine/search.py:249-254 | the victim's value is non-negative |
| ModSearch.CapturesFirst | chessteg_modular/engine/search.py:247-263 | a capture by anything but the king scores above every promotion and quiet move |
| ModSearch.PromotionsBeforeQuietMoves | chessteg_modular/engine/search.py:260-263 | promotions score above quiet moves, a queen promotion at least as high as any other |
| ModSearch.MvvLva | chessteg_modular/engine/search.py:249-258 | the more valuable victim first; among equal victims exactly the cheaper attacker first |
| ModSearch.KingCapturesLast | chessteg_modular/engine/search.py:256-258 | a king capturing anything below a queen scores below a quiet move |
| ModSearch.Insert | chessteg_modular/engine/search.py:267-268 | one insertion keeps the indices and adds k |
| ModSearch.InsertOrdered | chessteg_modular/engine/search.py:267-268 | inserting a later index keeps the order descending and stable |
| ModSearch.SortIndices | chessteg_modular/engine/search.py:267-268 | the sort holds each of the first n indices |
| ModSearch.SortIndicesOrdered | chessteg_modular/engine/search.py:267-268 | the sort is by descending score, stable on ties (Python's sort with reverse=True) |
| ModSearch.OrderedDistinct | chessteg_modular/engine/search.py:267-268 | an ordered index list repeats no index |
| ModSearch.Scores | chessteg_modular/engine/search.py:243-265 | one score per move, the move's ordering score |
| ModSearch.OrderMoves | chessteg_modular/engine/search.py:239-270 | as many moves as given, each one of them |
| ModSearch.OrderMovesSorted | chessteg_modular/engine/search.py:239-270 | the result is a permutation of the input positions, by non-increasing score, stable on ties |
| ModSearch.OrderMovesKeepsAll | chessteg_modular/engine/search.py:239-270 | no move is lost or invented |
| ModSearch.MoveKeyIdentifies | chessteg_modular/engine/search.py:272-275 | two keys are equal exactly when from, to and promotion agree |
| ModSearch.Negamax | chessteg_modular/engine/search.py:188-214 | the reference value of a game tree: a leaf's score, or the best negated child score starting from the loop's floor; FullWindowIsNegamax ties AlphaBetaTree to it |
| ModSearch.NegamaxListFloor | chessteg_modular/engine/search.py:189-214 | the move loop never returns below its starting best |
| ModSearch.NegamaxListShift | chessteg_modular/engine/search.py:204-207 | raising the starting best to x gives the larger of x and the value |
| ModSearch.AlphaBetaTree | chessteg_modular/engine/search.py:150-214 | _alpha_beta's pruning rule on a game tree: fail-soft, best starts at the floor, a move raises best and alpha, and the loop stops once alpha reaches beta; AlphaBetaFailSoft and FullWindowIsNegamax state its meaning |
| ModSearch.AlphaBetaFailSoft | chessteg_modular/engine/search.py:150-214 | the pruned value is fail-soft: exact inside the window, a bound outside it |
| ModSearch.AlphaBetaListFailSoft | chessteg_modular/engine/search.py:188-214 | the pruned move loop is fail-soft against the full loop |
| ModSearch.AlphaBetaListFloor | chessteg_modular/engine/search.py:188-214 | the pruned loop never returns below its starting best |
| ModSearch.NegamaxBounded | chessteg_modular/engine/search.py:150-214 | with leaves within the mate bounds, so is the value |
| ModSearch.NegamaxListBounded | chessteg_modular/engine/search.py:188-214 | the loop over bounded children stays within the mate bounds |
| ModSearch.FullWindowIsNegamax | chessteg_modular/engine/search.py:91-105 | the full window of computer_move gives exactly the negamax value |
| ModSearch.RootPicksFirstBest | chessteg_modular/engine/search.py:84-129 | the root loop picks the first child with the best negamax value, and returns that value |
| ModSearch.RootLoopInvariant | chessteg_modular/engine/search.py:95-129 | the root loop keeps alpha equal to best, and the claim carries from children ..i to the end |
| ModSearch.RootLoopScore | chessteg_modular/engine/search.py:95-129 | the root loop's best score is that of the pruned move loop |
| ModSearch.FinishKeepsColours | chessteg_modular/engine/core.py:264-268 | the common tail of make_move keeps the colours |
| ModSearch.PlayPathKeepsColours | chessteg_modular/engine/core.py:233-270 | each path of make_move keeps the colours |
| ModSearch.CastlingPathKeepsColours | chessteg_modular/engine/core.py:272-292 | the castling path keeps the colours |
| ModSearch.OtherPathsKeepColours | chessteg_modular/engine/core.py:294-331 | the other paths keep the colours |
| ModSearch.MakeMoveKeepsColours | chessteg_modular/engine/core.py:221-270 | make_move keeps the colours |
| ModSearch.MakeMoveKeepsSearchOk | chessteg_modular/engine/core.py:221-270 | make_move keeps the search's state invariant |
| ModSearch.UndoKeepsSearchOk | chessteg_modular/engine/core.py:333-352 | undo_move keeps the search's state invariant |
| ModSearch.NodeScore | chessteg_modular/engine/search.py:150-214 | _alpha_beta keeps the state invariant, counts at least its own node and never lowers the evaluation count |
| ModSearch.LeafScoreIntendedIsMoverView | chessteg_modular/engine/search.py:169-174 | the corrected leaf is the mover's material minus the opponent's, for either side |
| ModSearch.BlackLeafScoredForWhite | chessteg_modular/engine/search.py:170 | as written, a Black-to-move leaf with unbalanced material returns the negation of the corrected leaf |
| ModSearch.ExpandScore | chessteg_modular/engine/search.py:176-214 | the search part keeps the invariant and the counters monotone |
| ModSearch.LoopScore | chessteg_modular/engine/search.py:188-214 | the move loop keeps the invariant, never returns below best, and only a non-empty list raises it |
| ModSearch.PlayAndScore | chessteg_modular/engine/search.py:194-202 | a rejected move leaves the failed make_move's game; a played one searches at least one node |
| ModSearch.ChosenMove | chessteg_modular/engine/search.py:58-148 | computer_move keeps the state invariant |
| ModSearch.RootChoice | chessteg_modular/engine/search.py:95-129 | the chosen move is one of the list (or the incoming best); at most one try per move, at least one if any |
| ModSearch.AlphaBetaOnFinishedGame | chessteg_modular/engine/search.py:160-166 | a flagged position scores at once, mate within MAX_DEPTH of -MATE_SCORE when in check, 0 otherwise |
| ModSearch.AlphaBetaWithoutMoves | chessteg_modular/engine/search.py:176-183 | without legal moves above depth 0: mate when in check, 0 otherwise |
| ModSearch.AlphaBetaAtHorizon | chessteg_modular/engine/search.py:168-174 | at depth 0 an unfinished position gets the evaluator's score, with one evaluation counted |
| ModSearch.ComputerMoveIsLegal | chessteg_modular/engine/search.py:69-129 | None without legal moves, otherwise a generated move that leaves the mover's king safe; each move tried at most once |
| ModSearch.PlayAndScoreRejected | chessteg_modular/engine/search.py:194-197 | a rejected move scores nothing and leaves the failed make_move's game |
| ModSearch.PlayAndScorePlayed | chessteg_modular/engine/search.py:194-202 | a played move scores the negated reply search on the swapped window, then undo_move |
| ModSearch.RootChoiceSkip | chessteg_modular/engine/search.py:99-102 | a rejected root move is skipped, with window and best move kept and the try counted |
| ModSearch.RootChoiceCutoff | chessteg_modular/engine/search.py:117-129 | alpha reaching beta stops the root loop after this move |
| ModSearch.RootChoicePlay | chessteg_modular/engine/search.py:117-124 | otherwise the loop goes on with the raised best score, move and alpha |
| ModSearch.ExpandSearches | chessteg_modular/engine/search.py:176-214 | with legal moves the node is the ordered move loop on the board the generator left |
| ModSearch.ExpandWithoutMoves | chessteg_modular/engine/search.py:176-183 | without legal moves the node scores mate or stalemate |
| ModSearch.ChosenMoveSearches | chessteg_modular/engine/search.py:63-129 | with legal moves computer_move is the root loop over the ordered moves, counters reset |
| ModSearch.SearchAlgorithm.constructor | chessteg_modular/engine/search.py:39-56 | both counters start at 0 |
| ModSearch.SearchAlgorithm.MateOrStalemate | chessteg_modular/engine/search.py:216-229 | _mate_or_stalemate_score is MateOrStalemateScore (MateScoreRange) |
| ModSearch.SearchAlgorithm.MoveScore | chessteg_modular/engine/search.py:245-263 | one move's ordering score (CapturesFirst, MvvLva) |
| ModSearch.SearchAlgorithm.OrderMovesOf | chessteg_modular/engine/search.py:239-270 | _order_moves is OrderMoves (OrderMovesSorted) |
| ModSearch.SearchAlgorithm.AlphaBeta | chessteg_modular/engine/search.py:150-214 | _alpha_beta's score and the world it leaves are NodeScore's |
| ModSearch.SearchAlgorithm.Expand | chessteg_modular/engine/search.py:176-214 | the search part is ExpandScore |
| ModSearch.SearchAlgorithm.ExpandGenerated | chessteg_modular/engine/search.py:179-214 | after generation, ExpandScore |
| ModSearch.SearchAlgorithm.SearchMoves | chessteg_modular/engine/search.py:188-214 | the move loop is LoopScore |
| ModSearch.SearchAlgorithm.TryMove | chessteg_modular/engine/search.py:194-202 | one move is PlayAndScore |
| ModSearch.SearchAlgorithm.ReplyAndUndo | chessteg_modular/engine/search.py:200-202 | the negated reply score, then undo_move |
| ModSearch.SearchAlgorithm.ComputerMove | chessteg_modular/engine/search.py:58-148 | computer_move is ChosenMove (ComputerMoveIsLegal), with move_counter its try count |
| ModSearch.SearchAlgorithm.SearchGenerated | chessteg_modular/engine/search.py:72-129 | after generation, ChosenMove |
| ModSearch.SearchAlgorithm.SearchRoot | chessteg_modular/engine/search.py:84-129 | the root loop is RootChoice, move_counter grows by its tries |
| MonoModel.CapturedPiece | chessteg.py:350-354 | find_captured_piece returns a live piece of the waiting side on the square, and None only when there is none |
| MonoModel.MovesTo | chessteg.py:284-292 | one create_move per target, in order |
| MonoModel.MovesToAppend | chessteg.py:195-282 | the moves of two target lists are concatenated |
| MonoModel.ToSquares | chessteg.py:284-292 | the target squares of the moves, in order |
| MonoModel.SlideStepEmpty | chessteg.py:199-209 | an EMPTY cell gives a quiet move and the walk goes on |
| MonoModel.SlideStepOccupied | chessteg.py:199-209 | an occupied cell ends the walk, with a capture exactly when it holds an enemy |
| MonoModel.PseudoMovesStep | chessteg.py:169-174 | one round of the collecting loop appends that entry's moves |
| MonoModel.MovesToSound | chessteg.py:284-292 | moves made for sound targets are sound |
| MonoModel.PawnPushesSound | chessteg.py:259-273 | every pawn push is sound |
| MonoModel.PawnCaptureSound | chessteg.py:276-280 | every pawn capture is sound |
| MonoModel.PawnMovesSound | chessteg.py:258-282 | every pawn move is sound |
| MonoModel.PieceMoves | chessteg.py:178-193 | the specification of generate_piece_moves: rook, bishop, queen, knight, king and pawn generators by type, no moves for another type; PieceMovesSound and the shape lemmas state its moves |
| MonoModel.PieceMovesSound | chessteg.py:178-193 | every move generate_piece_moves returns is sound |
| MonoModel.PawnMovesShape | chessteg.py:258-282 | a pawn moves one row forward onto EMPTY, two from its start row over EMPTY, or diagonally onto an enemy |
| MonoModel.PawnPushesShape | chessteg.py:259-273 | the pushes are one or two rows forward onto EMPTY cells |
| MonoModel.PawnCaptureShape | chessteg.py:276-280 | a pawn capture is one diagonal step onto an enemy |
| MonoModel.KingMovesShape | chessteg.py:245-256 | a king steps to one of its eight neighbours |
| MonoModel.PseudoMovesSound | chessteg.py:168-174 | every collected move is sound and belongs to a live piece of the colour |
| MonoModel.InCheck | chessteg.py:827-846 | the specification of is_king_in_check: false without a live king, otherwise some live enemy has a generated move onto the king's square; InCheckScan ties the roster scan to it |
| MonoModel.InCheckScan | chessteg.py:827-846 | with the king found, check holds exactly when the roster scan finds an attacker of its square |
| MonoModel.MovedPieces | chessteg.py:364-376 | the roster keeps its length, kinds and colours; without a mover it is unchanged |
| MonoModel.TempMoved | chessteg.py:796-812 | execute_temp_move clears the origin, writes the mover's code on the target, moves the roster, and keeps the side to move |
| MonoModel.MoveLegal | chessteg.py:294-348 | the specification of is_move_legal: the four quick rejections, then a mover is found and its king is not in check after execute_temp_move; MoveLegalMeaning states its meaning |
| MonoModel.MoveLegalMeaning | chessteg.py:294-348 | is_move_legal holds exactly for a real move of the side to move, not onto its own piece, with a live mover, not leaving its king in check |
| MonoModel.LegalMoveIsSideToMove | chessteg.py:301-306 | a legal move is always of the side to move |
| MonoModel.LegalFilter | chessteg.py:176 | the filter keeps at most the given moves |
| MonoModel.PseudoMovesOk | chessteg.py:168-174 | every collected move is well formed |
| MonoModel.LegalFilterCharacterised | chessteg.py:176 | the filter keeps exactly the moves is_move_legal accepts |
| MonoModel.LegalMoves | chessteg.py:168-176 | the specification of generate_moves: the collected moves of the live pieces of the colour that MoveLegal accepts; LegalMovesCharacterised states both directions |
| MonoModel.LegalMovesCharacterised | chessteg.py:168-176 | generate_moves returns exactly the collected moves that pass is_move_legal |
| MonoModel.CaptureFilter | chessteg.py:677-679 | the filter keeps at most the given moves |
| MonoModel.CaptureFilterCharacterised | chessteg.py:677-679 | the filter keeps exactly the moves with a victim |
| MonoModel.CaptureMovesCharacterised | chessteg.py:677-679 | generate_capture_moves returns exactly the legal moves that capture |
| MonoModel.WaitingSideHasNoMoves | chessteg.py:301-306 | is_move_legal reads white_turn, so the side not to move has no legal moves at all |
| MonoModel.Status | chessteg.py:848-859 | the specification of check_game_status for the side to move; StatusMeaning states mate, stalemate and that they exclude each other |
| MonoModel.StatusMeaning | chessteg.py:848-859 | checkmate is check without a legal move, stalemate no check without a legal move, never both |
| MonoModel.ExecuteMove | chessteg.py:356-385 | an illegal move changes nothing and yields false; a legal one passes the turn, becomes last_move, is appended to the history and sets the flags of the new position |
| MonoModel.RestoredPieces | chessteg.py:415-427 | the roster keeps its length and shape |
| MonoModel.UndoMove | chessteg.py:405-434 | without a last move nothing changes; otherwise the turn passes back, last_move and both flags are cleared, and the history is kept |
| MonoModel.UndoMoveBoard | chessteg.py:411-413 | the origin gets the mover's code, the target the victim's code or EMPTY, every other cell is unchanged |
| MonoModel.RestoredAfterMoved | chessteg.py:364-376 | undo_move's roster change takes back execute_move's |
| MonoModel.MoverFoundOnTarget | chessteg.py:415-417 | after the move the mover is the first live piece of its colour on the target |
| MonoModel.FirstMatch | chessteg.py:364-366 | next(...) returns the first matching entry |
| MonoModel.RestoredAfterCapture | chessteg.py:372-376 | with a victim, undo_move's roster change takes back execute_move's |
| MonoModel.UndoAfterExecute | chessteg.py:356-434 | undo right after execute restores the position, clears the flags and last_move and keeps the move in the history |
| MonoModel.UndoBoard | chessteg.py:411-413 | writing a move and taking it back restores the cells |
| MonoModel.GegnerAufAfterMove | chessteg.py:372-374 | moving a piece of the mover's colour does not change which enemy is found on the target |
| MonoModel.FindIndexSame | chessteg.py:364-366 | rosters that agree on the test give the same first match |
| MonoModel.QuietTempMoveKeepsWaitingSide | chessteg.py:796-812 | a quiet legal temporary move keeps the waiting side's codes on their squares |
| MonoModel.TempMoveLeavesNoReplies | chessteg.py:796-812 | as written, after a quiet legal temporary move the opponent's reply list is empty |
| MonoModel.TempMoveIntended | chessteg.py:796-812 | the corrected temporary move passes the turn |
| MonoModel.IntendedRepliesPassTurnTest | chessteg.py:302-306 | with the turn passed, every reply generated passes the turn test of is_move_legal |
| MonoModel.StartPositionOk | chessteg.py:124-161 | the start position is well formed with 32 pieces, in sync, and every other playable square is EMPTY |
| MonoEval.AsMPieces | chessteg.py:135-161 | each monolithic piece read as a roster entry of the modular engine, in place |
| MonoEval.MirrorPieces | chessteg.py:727 | every piece swaps colour and row r becomes row 11 - r |
| MonoEval.AsMPiecesMirror | chessteg.py:727 | the conversion commutes with the mirror |
| MonoEval.AsMPiecesColours | chessteg.py:135-161 | colours 1 and -1 survive the conversion |
| MonoEval.PositionValue | chessteg.py:721-733 | 0 unless extended_evaluation is on |
| MonoEval.PositionValueMirror | chessteg.py:721-733 | a piece and its mirror image get the same value; with the flag on it is the table cell at row board_row - 2 (White) or 9 - board_row (Black), column board_col - 1 |
| MonoEval.DevelopmentAdvantage | chessteg.py:740-755 | the specification of calculate_development_advantage: +20 per developed live white knight or bishop, -20 per black one; DevelopmentBounded, StartDevelopmentZero and DevelopmentMirror state its properties |
| MonoEval.DevelopmentBounded | chessteg.py:740-751 | the advantage lies within 20 times the roster size, and is 0 without a developed knight or bishop |
| MonoEval.DevelopmentAppend | chessteg.py:740-751 | the advantage splits over two halves of the roster |
| MonoEval.StartDevelopmentZero | chessteg.py:740-755 | the start position has no development advantage |
| MonoEval.DevelopmentMirror | chessteg.py:740-755 | the advantage changes sign in the mirrored position |
| MonoEval.PawnStructureAsWritten | chessteg.py:772-789 | the specification of calculate_pawn_structure as written: the dict of pawns per (file, colour), then a flat penalty chosen by the endswith test; AsWrittenIsFlat, PawnStructureAsWrittenMirror and BlackDoubledPawnsMisjudged state its properties |
| MonoEval.AsWrittenIsFlat | chessteg.py:784-788 | as written each doubled file adds a flat non-positive penalty |
| MonoEval.SwapTotal | chessteg.py:784-788 | a term scaled by sign on every swapped key scales the total by sign |
| MonoEval.PawnStructureAsWrittenNonPositive | chessteg.py:772-789 | as written the term is never positive |
| MonoEval.PawnStructureAsWrittenMirror | chessteg.py:772-789 | as written the term is unchanged in the mirrored position |
| MonoEval.PawnStructureMirror | chessteg.py:772-789 | the corrected term changes sign in the mirrored position |
| MonoEval.BlackDoubledPawnsMisjudged | chessteg.py:786 | two black pawns on one file: -20 as written, +20 as intended |
| MonoEngine.ChesstegEngine.constructor | chessteg.py:19-122 | the 32 start pieces on the empty mailbox, White to move, no flags, no history, evaluation 0 and extended evaluation on |
| MonoEngine.ChesstegEngine.AddPiece | chessteg.py:131-133 | a live entry is appended and its code written onto its square |
| MonoEngine.ChesstegEngine.Placing | chessteg.py:131-133 | one add_piece keeps the board equal to the start board with the roster so far placed on it |
| MonoEngine.ChesstegEngine.AddKingsAndQueens | chessteg.py:137-142 | the kings and queens appended in source order and placed |
| MonoEngine.ChesstegEngine.AddRooks | chessteg.py:143-147 | the four rooks appended and placed |
| MonoEngine.ChesstegEngine.AddKnights | chessteg.py:148-152 | the four knights appended and placed |
| MonoEngine.ChesstegEngine.AddBishops | chessteg.py:153-157 | the four bishops appended and placed |
| MonoEngine.ChesstegEngine.AddOfficers | chessteg.py:136-157 | the roster is the sixteen officers, placed on the board |
| MonoEngine.ChesstegEngine.AddPawnPair | chessteg.py:159-161 | one round appends the black pawn on 80 + i, then the white pawn on 30 + i |
| MonoEngine.ChesstegEngine.AddPawns | chessteg.py:158-161 | the loop appends the eight pawn pairs |
| MonoEngine.ChesstegEngine.InitializePieces | chessteg.py:135-161 | the roster is the start roster and each code stands on its square (StartPositionOk) |
| MonoEngine.ChesstegEngine.SlideDirection | chessteg.py:199-209 | one direction's moves are those of the walk up to a DUMMY cell or the first piece (SlideStepEmpty, SlideStepOccupied) |
| MonoEngine.ChesstegEngine.SlideMoves | chessteg.py:198-210 | the moves of every direction in order |
| MonoEngine.ChesstegEngine.JumpMoves | chessteg.py:236-243 | the moves of the fixed offsets |
| MonoEngine.ChesstegEngine.GenerateRookMoves | chessteg.py:195-210 | generate_rook_moves is RookMoves |
| MonoEngine.ChesstegEngine.GenerateBishopMoves | chessteg.py:212-227 | generate_bishop_moves is BishopMoves |
| MonoEngine.ChesstegEngine.GenerateQueenMoves | chessteg.py:229-230 | the rook moves, then the bishop moves |
| MonoEngine.ChesstegEngine.GenerateKnightMoves | chessteg.py:232-243 | generate_knight_moves is KnightMoves |
| MonoEngine.ChesstegEngine.GenerateKingMoves | chessteg.py:245-256 | the eight neighbours, no castling (KingMovesShape) |
| MonoEngine.ChesstegEngine.PawnPushMoves | chessteg.py:259-273 | the pushes (PawnPushesShape) |
| MonoEngine.ChesstegEngine.PawnCaptureMove | chessteg.py:276-280 | one diagonal (PawnCaptureShape) |
| MonoEngine.ChesstegEngine.GeneratePawnMoves | chessteg.py:258-282 | the pushes then the captures (PawnMovesShape) |
| MonoEngine.ChesstegEngine.GeneratePieceMoves | chessteg.py:178-193 | dispatch on the type, other types give none (PieceMovesSound) |
| MonoEngine.ChesstegEngine.HitsSquare | chessteg.py:842-844 | the inner loop returns true exactly when one of the piece's moves goes to the square |
| MonoEngine.ChesstegEngine.IsKingInCheck | chessteg.py:827-846 | false without a live king; otherwise whether a live enemy has a generated move onto its square (InCheckScan) |
| MonoEngine.ChesstegEngine.PieceAttacks | chessteg.py:836-844 | one round: a live enemy whose moves reach the king's square |
| MonoEngine.ChesstegEngine.PlayOnBoard | chessteg.py:319-335 | the shared block: board and roster become TempMoved, with whether a mover was found |
| MonoEngine.ChesstegEngine.ExecuteTempMove | chessteg.py:796-812 | execute_temp_move is TempMoved; the side to move is kept |
| MonoEngine.ChesstegEngine.PassesQuickTests | chessteg.py:294-312 | the four quick rejections of is_move_legal |
| MonoEngine.ChesstegEngine.IsMoveLegal | chessteg.py:294-348 | is_move_legal is MoveLegal (MoveLegalMeaning), with board and pieces put back |
| MonoEngine.ChesstegEngine.GenerateMoves | chessteg.py:168-176 | generate_moves is LegalMoves (LegalMovesCharacterised), board and pieces unchanged |
| MonoEngine.ChesstegEngine.CollectMoves | chessteg.py:169-174 | the collecting loop is PseudoMoves |
| MonoEngine.ChesstegEngine.CollectOwnMoves | chessteg.py:170-174 | a live piece of the colour gives its moves, any other entry none |
| MonoEngine.ChesstegEngine.FilterLegal | chessteg.py:176 | the comprehension is LegalFilter, board and pieces unchanged |
| MonoEngine.ChesstegEngine.GenerateCaptureMoves | chessteg.py:677-679 | generate_capture_moves is CaptureMoves (CaptureMovesCharacterised) |
| MonoEngine.ChesstegEngine.IsCheckmate | chessteg.py:815-819 | true exactly in check with no legal move |
| MonoEngine.ChesstegEngine.IsStalemate | chessteg.py:821-825 | true exactly out of check with no legal move |
| MonoEngine.ChesstegEngine.CheckGameStatus | chessteg.py:848-859 | the flags become Status of the position (StatusMeaning) |
| MonoEngine.ChesstegEngine.ExecuteMove | chessteg.py:356-385 | execute_move is MonoModel.ExecuteMove |
| MonoEngine.ChesstegEngine.PlayLegalMove | chessteg.py:361-382 | the part after the legality test |
| MonoEngine.ChesstegEngine.UndoMove | chessteg.py:405-434 | undo_move is MonoModel.UndoMove (UndoAfterExecute) |
| MonoEngine.ChesstegEngine.CopyState | chessteg.py:387-395 | the copy holds board, pieces, turn, evaluation and flags |
| MonoEngine.ChesstegEngine.RestoreState | chessteg.py:397-403 | the six copied fields come back |
| MonoEngine.ChesstegEngine.CalculatePositionValue | chessteg.py:721-738 | calculate_position_value is PositionValue (PositionValueMirror) |
| MonoEngine.ChesstegEngine.IsPieceDeveloped | chessteg.py:753-755 | a piece is developed exactly when it has left its start row, 2 for White and 9 for Black (MonoEval.IsDeveloped) |
| MonoEngine.ChesstegEngine.CalculateDevelopmentAdvantage | chessteg.py:740-755 | calculate_development_advantage is DevelopmentAdvantage (DevelopmentMirror) |
| MonoEngine.ChesstegEngine.CalculatePawnStructure | chessteg.py:772-789 | calculate_pawn_structure as written (PawnStructureAsWrittenMirror) |
| MonoEngine.ChesstegEngine.CountPawnsPerFile | chessteg.py:776-782 | the first loop builds the dict of pawns per (file, colour) (BucketsCountPawns) |
| MonoEngine.ChesstegEngine.DoubledPawnPenalties | chessteg.py:784-788 | the second loop adds, per key with more than one pawn, the flat penalty the endswith test picks |
| ChessUi.Anzahl | docs/js/chess-ui.js:420-430 | a count never exceeds the roster size |
| ChessUi.AnzahlEins | docs/js/chess-ui.js:433-438 | a count of one means exactly one entry, both ways |
| ChessUi.AnzahlNull | docs/js/chess-ui.js:433-438 | a count of zero means no entry, both ways |
| ChessUi.StellungsFehler | docs/js/chess-ui.js:416-462 | the specification of findeStellungsFehler: king-count errors, a back-row pawn error, and a check error only for a colour with exactly one king; LeeresBrettFehler and StellungValideBedeutung state its meaning |
| ChessUi.StellungValideBedeutung | docs/js/chess-ui.js:408-462 | istStellungValide holds exactly when each colour has one live king, no live pawn stands on row 2 or 9, and neither king is in check |
| ChessUi.OhneFigurAuf | docs/js/chess-ui.js:284-286 | the filter keeps at most the given entries |
| ChessUi.OhneFigurAufBedeutung | docs/js/chess-ui.js:284-286 | the filter keeps exactly the entries that are not live on the square |
| ChessUi.Geleert | docs/js/chess-ui.js:298-302 | the board keeps its size |
| ChessUi.PlatzierenAllein | docs/js/chess-ui.js:253-274 | after placing, the new entry is the only live one on the square, and the others are the old ones not live there |
| ChessUi.EditorRosterOk | docs/js/chess-ui.js:253-289 | removing or placing on a playable square keeps the roster on playable squares |
| ChessUi.GeleertIstLeer | docs/js/chess-ui.js:294-302 | clearing keeps the border exactly and, on a board with no DUMMY inside, leaves the empty mailbox |
| ChessUi.LeeresBrettFehler | docs/js/chess-ui.js:416-462 | on the cleared position the validator reports the two missing kings and nothing else |
| ChessUi.ChessUi.constructor | docs/js/chess-ui.js:3-54 | the UI holds the engine |
| ChessUi.ChessUi.KoenigeZaehlen | docs/js/chess-ui.js:420-430 | the loop counts the live white kings and the other live kings |
| ChessUi.ChessUi.GrundreihenBauerSuchen | docs/js/chess-ui.js:441-451 | the loop finds a live pawn on row 2 or 9 exactly when there is one |
| ChessUi.ChessUi.FindeStellungsFehler | docs/js/chess-ui.js:416-462 | findeStellungsFehler is StellungsFehler (StellungValideBedeutung) |
| ChessUi.ChessUi.ZaehlFehler | docs/js/chess-ui.js:432-451 | the king-count errors and the back-row error, in order |
| ChessUi.ChessUi.SchachFehler | docs/js/chess-ui.js:453-459 | a check error for each colour with exactly one king in check |
| ChessUi.ChessUi.IstStellungValide | docs/js/chess-ui.js:408-411 | valid exactly when the error list is empty |
| ChessUi.ChessUi.EditorFigurEntfernen | docs/js/chess-ui.js:279-289 | the cell becomes EMPTY and the live entries on it leave the roster |
| ChessUi.ChessUi.EditorFigurPlatzieren | docs/js/chess-ui.js:253-274 | the parsed code is written on the cell and its live entry appended after the removal (PlatzierenAllein) |
| ChessUi.ChessUi.EditorLeeresBrett | docs/js/chess-ui.js:294-320 | every non-DUMMY cell becomes EMPTY, the roster is emptied, all castling rights dropped, the en-passant target cleared (GeleertIstLeer) |

## Left out

- JsModel.ZobristHash: the value is the unsigned reading of the 32-bit pattern. The JavaScript `^=` yields the signed int32 with the same bits, and ZobristBreite shows the pattern fits in 32 bits. The key table is a parameter, because `initialisiereZobristKeys` fills it from `Math.random`.
- JsModel.Xor: XOR is defined on naturals bit by bit, not as JavaScript's signed 32-bit operator. The two agree on the bit pattern of 32-bit operands.
- JsEngine.ChesstegEngine.BerechneZobristHash: computes over the key table it is given, for the same reason.
- ModSearch.NodeScore: `_check_timeout` never fires. The wall clock (`time.time`) is not modelled, so the early `return 0` of `_alpha_beta` on a timeout is absent. TimedOutMonotone states when the test would fire for a given elapsed time.
- ModSearch.FullWindowIsNegamax: holds for the abstract `ModSearch.Tree`. It is not connected to `NodeScore` on an engine state, because the tree `_alpha_beta` explores depends on `make_move`, `undo_move` and the move ordering at every node.
- ModSearch.RootChoice: the timeout `break` of `computer_move`'s loop never happens, for the same reason.
- ModSearch.SearchAlgorithm.AlphaBeta: the timeout is not modelled. The debug `print` calls and the unused transposition table are not modelled either.
- ModPlay.MakeMove: states are values. After a failed `make_move` the Python history entry still shares its piece dicts with the live roster, because `_restore_state` assigns the saved list without copying. Later mutations of the roster therefore also show in that stale entry. The model keeps the entry as an independent copy.
- ModPlay.Undo: restores the saved values. The aliasing a failed `make_move` leaves behind, and its effect on a later undo, is not modelled.
- Notation.IsDigit: accepts the ASCII digits '0'..'9' only. Python's `str.isdigit` also accepts other Unicode decimal digits. For those, `notation_to_position` would then raise on `int(...)` or compute a square from them.
- JsModel.ZugOk: requires the move's squares to lie in the 120-cell board. Every move the UI plays comes from `generiereZuege`, whose moves satisfy this: `spielerZieht` (docs/js/chess-ui.js:1356-1433) filters the generated list and plays only a move found in it.
- JsEngine.ChesstegEngine.ZugAusfuehren: requires the ZugOk well-formedness just described. A hand-built move with a square outside the array is not modelled.
- The JavaScript search (`alphaBetaSuchen`, `ordneZuege`, `quiescenceSearch`, `istSchachGebot`, `computerZug`, `einfacherComputerZug`): it reads `Date.now`, picks random moves, and plays moves through `zugAusfuehren`, growing a history that `wiederherstelleZustand` never shrinks.
- The monolithic search (`computer_move`, `alpha_beta`, `quiescence`): it depends on `time.time`. Its leaf is the floating-point `evaluate_position`.
- The floating-point scoring:
  - `evaluate_position` of `chessteg.py`, with its weights 0.1/1.5/2/0.5 and `round`;
  - `calculate_center_control`;
  - `_evaluate_attacks`, `_evaluate_defense` and `_evaluate_center_control` of `evaluation.py`, which divide by 100.
  The integer terms these combine are modelled: material, position value, development and pawn structure.
- `_evaluate_mobility`: only its weight table (ModEval.MobilityWeight) is modelled. The term itself is never called by `evaluate_position`, which returns material only.
- `handle_pawn_promotion`, `execute_en_passant` and `generate_legal_moves`:
  - the first two are executors of `rules.py` that `make_move` does not use, since core has its own paths;
  - the third is an alias of `generate_moves`.
- The text-only helpers (`getZugInfo`, `zugZuNotation` and `getFigurName` in the JS engine; `move_to_notation`, `position_to_notation` and `get_piece_name` in `chessteg.py`): they format strings for display. The modular `position_to_notation` and `get_piece_name` are modelled.
- Console output, DOM rendering, event handlers, the Tk GUIs, threads and the launchers: they are presentation and concurrency.
- Deep copies (`copy.deepcopy`, `JSON.parse(JSON.stringify(...))`): modelled as plain value copies.

## Findings

| source | as written | input that shows it | evidently intended | confidence | as-written member | corrected member |
|---|---|---|---|---|---|---|
| docs/js/chessteg.js:880-888 | the centre squares are 44, 45, 54, 55, which are d3, e3, d4, e4, one rank off the d4, d5, e4, e5 of the comment; the term is then not colour-symmetric | a lone white pawn on d3 (44) scores +15, while the mirrored black pawn on d6 scores 0 | the squares 54, 55, 64, 65, whose term changes sign in the mirrored position | high (not executed) | JsEval.ZentrumAsymmetrisch | JsEval.ZentrumGemeint with JsEval.ZentrumGemeintGespiegelt |
| chessteg_modular/engine/rules.py:55-82, 393-447 | the safety loop writes the king's code back and clears each transit square before the emptiness test runs, so a piece standing on a transit square is erased and castling is accepted | White king on e1 (25), bishop on f1 (26), rook on h1 (28), black king on e8 (95), all rights held: short castling is reported possible | the emptiness test sees the position as given, and the board is left unchanged | high (not executed) | ModMoves.BlockedCastlingAccepted (on ModMoves.ValidateCastling) | ModMoves.ValidateCastlingIntended with ModMoves.ValidateCastlingIntendedSound and ModMoves.ValidateCastlingIntendedAgrees |
| chessteg_modular/engine/evaluation.py:429-432 | the shield row is king_row - 1 for White and king_row + 1 for Black, which is behind each king | the initial position: both kings count 0 shield pawns (rows 1 and 10 lie on the border) | the row in front of the king (king_row + 1 for White, king_row - 1 for Black) | high (not executed) | ModEval.StartShieldsMissed (on ModEval.PawnShield) | ModEval.PawnShieldIntended with ModEval.StartShieldsMissed and ModEval.FullShieldIntended |
| chessteg_modular/engine/evaluation.py:347 | `key.endswith("1")` is true for the keys of both colours ("f-1" and "f--1"), so every doubled pawn counts as White's and is penalised for White | two black pawns on one file (73 and 63): the term is -20 | the colour read from the key, so Black's doubled pawns count +20 and the term changes sign in the mirrored position | high (not executed) | ModEval.BlackDoubledPawnsMisjudged, ModEval.PawnStructureAsWrittenMirror | ModEval.PawnStructure with ModEval.PawnStructureMirror |
| chessteg.py:784-788 | the same `endswith` test on the key text: every doubled file adds -20 whichever colour it is | two black pawns on one file (73 and 63): the term is -20 | +20 for Black's doubled pawns, so that the term changes sign in the mirrored position | high (not executed) | MonoEval.BlackDoubledPawnsMisjudged, MonoEval.PawnStructureAsWrittenMirror | MonoEval.PawnStructure with MonoEval.PawnStructureMirror |
| chessteg.py:796-812 | execute_temp_move does not pass the turn, but is_move_legal tests the mover against white_turn (302-306), so a reply search after a temporary move finds no replies | any quiet legal move from the initial position: the opponent's reply list is empty | the turn passes as in execute_move, and every generated reply passes the turn test | high (not executed) | MonoModel.TempMoveLeavesNoReplies | MonoModel.TempMoveIntended with MonoModel.IntendedRepliesPassTurnTest |
| chessteg_modular/engine/search.py:170 | a depth-0 leaf returns evaluate_position, which scores from White's view, while the negamax recursion negates every reply's score as if it were from the side to move's view | any leaf with Black to move and unbalanced material: the leaf has the opposite sign of the mover-view score | the leaf from the side to move's view (the evaluation negated when Black is to move) | high (not executed) | ModSearch.BlackLeafScoredForWhite | ModSearch.LeafScoreIntended with ModSearch.LeafScoreIntendedIsMoverView |
