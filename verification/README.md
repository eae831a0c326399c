# The chess engine's integer core, modelled and proved

The engine keeps many things twice: a plain definition and a fast form that has to
agree with it. The board carries keys, threat records and check information that
are updated move by move although each could be computed afresh; the generator
relies on pin masks so that no move has to be tried; the move picker delivers the
moves in stages out of one array; slider attacks come from one multiplication;
divisions are multiplications; jobs pass between threads through one flag. This
project models these forms as they are coded and proves each equal to its plain
definition, for every position, every run or every interleaving.

## How it is organised

- The board. `Chess`, `Geometry`, `Attacks`, `Rules` give squares, lines, attack
  sets and the rules: what a legal move is (`LegalMove`), the board after it
  (`After`), and consistent positions (`Ok`). Bitboards are sets of squares; where the
  arithmetic of 64-bit words matters (`Words`: subtraction with borrow, bit reversal,
  multiplication) a set stands for the word with those bits.
  `Legality`, `MoveGen`, `PieceGen`, `GenCount`, `GenNormal`, `GenSpecial`,
  `GenCastling`, `GenEnPassant` and `Legal` lead to the theorem that the generator
  lists the legal moves, each once (`Legal.GeneratorIsRules`); `GenStage` says which
  list holds which. `Play` keeps `Ok`
  over whole games, with castling rights and en passant squares. `Ok` is stricter
  than `pos_is_ok` on the shape behind the en passant square and on the castling
  masks, and leaves the limits on men to `Fen.Limits`; `PosCheck` has `pos_is_ok` as
  coded and proves that it always holds.
- What `do_move` carries along. `GivesCheck` (checks decided before the move),
  `Keys`, `KeyUpdate`, `SetState` (six keys and both material sums against
  `set_state`), `Threats` (the records for the network against the threat
  relation), and the class `Position` of module `PositionState`, whose methods
  update board, bitboards, counts and the chain of states in place, emit the threat
  records where they are asked for, and take every step back.
- Exchange and order. `See` (the null-window loop against the exchange played out on boards),
  `MoveSort` (three sorts, one specification), `MovePick` (the class
  `MovePicker`), `PickRun` (whole runs in their order, and the picker over the generator's lists).
- Tables. `Sliders`, `Magics` (ray walk, hyperbola, magic lookup), `CuckooCount`,
  `Cuckoo`, `Repetition`, `RepetitionGame`, `Draws` (the tables of reversible moves,
  what `upcoming_repetition` answers in a game, and `is_draw`), `TransTable` (the class
  `TranspositionTable` over arbitrary runs), `Histories`, `ScaleTables`.
- `SearchLoops` (aspiration, the move loop, mate scores in the table),
  `ThreadPool` (job hand-off as a state machine, threads created and destroyed
  included), `Text`, `NumaText`, `Numa` (the NUMA configuration as text and as an
  object).
- `Fen` (positions printed and read back), `FenFields` (which strings are accepted and
  what they mean) and `StartPos` (the starting string sets up the starting position).

A symbolic key is the set of table words that enter it an odd number of times, so
an equation of keys holds for every table of random words (`Keys.EvalXor`).
Search results, scores, exchange answers inside the picker, candidate multipliers
and hash functions are parameters about which nothing is assumed that the code
does not guarantee.

## Where the code says something else than one might expect

The model follows the code in each of these.

- `MovePick.StopNeedsDepth`: the depth from which the picker may stop at the first
  failing quiet is exact; one ply earlier the early stop would lose a move.
- `Draws.UpcomingIsDraw`: `upcoming_repetition` is said to match `is_draw` over all
  legal moves. It matches `is_repetition`; `is_draw` can also be true by the
  fifty-move rule, and then the two differ (`Draws.BareKingsMissed`). Below 99 on
  that clock they agree.
- `ScaleTables.ZeroErrorFails`: the correction `+ (x < 0)` needs a magic number that
  is strictly too large; an exact one makes every negative multiple come out one
  too high. None of the entries of the tables is exact.
- `SearchLoops.TableRoundTrip`: a stored winning or losing value does not always come
  back; it does exactly when its claim is reached before the fifty-move rule.
- `Text.NegativeRefusedIff`, `Text.BlankIsZero`: a minus sign behind a blank passes
  the test for negative numbers and wraps round; a string of blanks is zero.
- `NumaText.UpsideDownRefusedIff`: an upside-down range of processors is refused
  unless its wrapped size falls under the limit, and then it is an empty range.
- `Fen.FenRoundTrip`: printed positions are accepted exactly when the clocks are in the
  range `set` allows; `fen` itself prints larger ones. With the letters K and Q a
  position comes back exactly if every rook with a right is the outermost of its
  side.

## Model

| member | source | states |
|---|---|---|
| `Attacks.LineBBIsLine` | src/engine/attacks.cpp:200-202 | `line_bb(a, b)` is exactly the rank, file or diagonal through a and b, empty when there is none |
| `Attacks.BetweenBBIsSegment` | src/engine/attacks.cpp:203-209 | `between_bb(a, b)` is b and the squares strictly between, for every ordered pair, aligned or not |
| `Attacks.RayPassBBIsRay` | src/engine/attacks.cpp:205-206 | `ray_pass_bb(a, b)` is the line from b's side of a: between, b, and beyond |
| `Attacks.AttackersToAreHits` | src/engine/position.cpp:697-705 | the six-term fold holds a square exactly when the man on it attacks the target |
| `Attacks.AttackedByIsAttackersTo` | src/engine/position.cpp:697-705 | cut to one colour, the fold is empty exactly when no man of that colour attacks the target |
| `Attacks.SoleMeans` | src/engine/position.cpp:667-692 | a square is the one blocker of a sniper exactly when it is the only man, snipers apart, between king and sniper |
| `PositionState.UpdateSliderBlockers` | src/engine/position.cpp:667-692 | the loop over snipers computes all blockers and all pinners of the king |
| `Words.MinusBit` | src/engine/attacks.h:109-110 | `o - square_bb(s)` on 64-bit words flips exactly the bits from s to the first occupied bit at or above it |
| `Words.RipplerStep` | src/engine/attacks.cpp:150 | `(b - mask) & mask` on 64-bit words is the next subset of the mask |
| `Words.NextLeast` | src/engine/attacks.cpp:145-151 | no subset of the mask has a value between one step and the next |
| `Sliders.WalkRay` | src/engine/attacks.h:287-296 | one direction of the ray walk collects the ray up to and including its first occupied square |
| `Sliders.SlidingAttack` | src/engine/attacks.h:281-299 | the ray walk reaches exactly the squares a rook or bishop attacks, for every square and occupancy |
| `Sliders.LineMask` | src/engine/attacks.cpp:51-64 | the mask walk yields the whole line through the square, without the square |
| `Sliders.HyperbolaIsWalk` | src/engine/attacks.h:107-112 | for every line, square and 64-bit occupancy the hyperbola formula yields the ray walk on that line |
| `Sliders.HyperbolaIsSliding` | src/engine/attacks.h:114-116 | the two hyperbolas joined are the sliding attacks of a rook and of a bishop |
| `Magics.MaskSuffices` | src/engine/attacks.cpp:133-137 | occupied squares on the edges and off the lines never change the attack set |
| `Magics.Enumerate` | src/engine/attacks.cpp:144-152 | the do-while loop visits every subset of the mask exactly once, each with its ray-walk reference, and ends |
| `Magics.IndexInTable` | src/engine/attacks.h:226-229 | the magic index stays inside the table of two to the number of mask bits |
| `Magics.Trial` | src/engine/attacks.cpp:161-173 | a trial that completes has stored every reference under the current epoch stamp, whatever earlier trials left; one that stops short has found two occupancies with one index and different attacks |
| `Magics.InitMagic` | src/engine/attacks.cpp:123-175 | when the search ends with a multiplier, the lookup equals the ray walk for every 64-bit occupancy; when no candidate is left, each of them maps two occupancies with different attacks to one index |
| `Legality.RelocationSafe` | src/engine/position.cpp:743-772 | a king-keeping move leaves the king safe exactly when it keeps the pin line and answers the check |
| `Legality.KingStepSafe` | src/engine/position.cpp:735-741 | a king step is safe exactly when its target is not attacked with the king lifted off the board |
| `Legality.LegalIsLegal` | src/engine/position.cpp:709-773 | for every normal move word, `legal` holds exactly when the move is pseudo-legal and leaves the mover's king unattacked |
| `MoveGen.SplatMoves` | src/engine/movegen.cpp:154-159 | one move per set bit, least significant first, appended to the list |
| `MoveGen.SplatPawnMoves` | src/engine/movegen.cpp:144-152 | one pawn move per target, its origin one offset back |
| `MoveGen.SplatPromotions` | src/engine/movegen.cpp:165-182 | the promotions of every target, by type and capture; which list holds a promotion is `GenStage.ListsByStage` |
| `MoveGen.GeneratePawnMoves` | src/engine/movegen.cpp:185-273 | the pawn moves of a type, in the order pushes, promotions, captures, en passant |
| `PieceGen.WalkFilling` | src/engine/movegen.cpp:285-331 | the filling walk emits the same moves as the plain one and stores one set per slider in walk order |
| `PieceGen.WalkCached` | src/engine/movegen.cpp:285-331 | the cached walk, reading the stored sets back in order, emits the same moves as the plain one |
| `PieceGen.Generate` | src/engine/movegen.cpp:336-396 | the list of one type equals its specification, double check included; what the specification lists is `GenStage.ListsByStage` and `Legal.GeneratorIsRules` |
| `PieceGen.GenerateNode` | src/engine/movegen.cpp:432-441 | capture list filling the slider cache, then quiet list reading it: both equal the uncached lists |
| `GenCount.CountGen` | src/engine/movegen.cpp:336-385 | how often a move occurs in a list, as a sum over pawns, officers, king and castlings |
| `GenNormal.NormalExactlyOnce` | src/engine/movegen.cpp:464-468 | `generate<ALL>` contains a normal move exactly once if `legal` accepts it and never otherwise |
| `GenSpecial.PromotionExactlyOnce` | src/engine/movegen.cpp:216-238 | every legal promotion is listed exactly once over the capture and quiet lists, or in the evasions |
| `GenEnPassant.EpSafeIff` | src/engine/movegen.cpp:240-270 | safety of an en passant capture, spelled on the board before it |
| `GenEnPassant.EpLegalIff` | src/engine/movegen.cpp:240-270 | with an accurate en passant square, the pin masks and the evasion test offer exactly the legal captures |
| `GenEnPassant.EnPassantExactlyOnce` | src/engine/movegen.cpp:240-270 | every legal en passant capture is listed exactly once, no other ever |
| `GenCastling.CastleSafeIff` | src/engine/movegen.cpp:375-378 | after an otherwise allowed castling the king is safe exactly when the castling rook was not pinned to it |
| `GenCastling.CastleOfferedIff` | src/engine/movegen.cpp:366-381 | the generator offers a castling exactly when the rules of Chess960 allow it |
| `Legal.CastlingExactlyOnce` | src/engine/movegen.cpp:366-381 | every legal castling is listed exactly once, none in check |
| `Legal.GeneratorIsRules` | src/engine/movegen.cpp:464-470 | in every consistent position the generator lists every legal move of every kind exactly once and nothing else |
| `GenStage.ListsByStage` | src/engine/position.h:408-425 | out of check the capture list holds each legal move exactly once if it takes something or promotes to a queen, the quiet list each other legal move exactly once, and neither any other move |
| `Play.NewEpExact` | src/engine/position.cpp:927-957 | `do_move` records the en passant square after a double push exactly when some en passant capture there is legal |
| `Play.NewEpAfterJump` | src/engine/position.cpp:927-957 | the recorded square is the one a double push passed over |
| `Play.EnemyKingStays` | src/engine/position.cpp:858-862 | no legal move takes or moves the other king |
| `Play.RightsKept` | src/engine/position.cpp:918-921 | a castling right that survives the masks still has its king and rook in place, masked on exactly those squares |
| `Play.RightsExact` | src/engine/position.cpp:918-921 | a right outlives a legal move exactly when neither its king nor its rook moves or is taken |
| `Play.DoMoveOk` | src/engine/position.cpp:1112 | every legal move leads from a consistent position to one: kings, checks, en passant shape and legality, rights in place and exactly masked (with the limits on men, `PosCheck.PlySound`) |
| `Play.DoNullOk` | src/engine/position.cpp:1404-1434 | a null move out of check keeps a position consistent in the same sense |
| `Play.RunEnd` | src/engine/position.cpp:1679-1739 | every run of legal moves and null moves ends in a consistent position |
| `GivesCheck.GivesCheckNormal` | src/engine/position.cpp:777-793 | check squares and blockers decide direct and discovered check of a normal move |
| `GivesCheck.GivesCheckPromotion` | src/engine/position.cpp:795-800 | the promotion arm looks through the vacated square |
| `GivesCheck.GivesCheckEnPassant` | src/engine/position.cpp:802-815 | the en passant arm finds the sliders both pawns uncover |
| `GivesCheck.GivesCheckCastling` | src/engine/position.cpp:817-819 | the castling arm needs only the rook's landing square |
| `GivesCheck.GivesCheckExact` | src/engine/position.cpp:777-820 | for every legal move of any kind `gives_check`, decided before the move, is true exactly when the enemy king is attacked after it |
| `Keys.EvalXor` | src/engine/position.cpp:51-57 | a table of words carries symmetric difference of symbolic keys to exclusive-or of words, so an equation of symbolic keys holds for every table |
| `Keys.WordsXor` | src/engine/position.cpp:51-57 | 64-bit exclusive-or meets the laws this needs |
| `KeyUpdate.LegalTouches` | src/engine/position.cpp:838-1021 | what a legal move takes, moves and places, square by square |
| `KeyUpdate.BoardKeyAfter` | src/engine/position.cpp:858-1005 | the change of a from-scratch key under a move, as the words of the touched squares |
| `KeyUpdate.MainKey` | src/engine/position.cpp:831-1008 | `key` after the updates is the from-scratch key, en passant, rights and side included |
| `KeyUpdate.MaterialAfter` | src/engine/position.cpp:888-978 | `nonPawnMaterial` after the updates is the from-scratch sum |
| `KeyUpdate.MaterialWord` | src/engine/position.cpp:901-903 | `materialKey` after the updates holds exactly the counted words |
| `KeyUpdate.UpdatedIsFromScratch` | src/engine/position.cpp:827-1021 | after every legal move all six keys and both sums equal what `set_state` computes |
| `KeyUpdate.NullIsFromScratch` | src/engine/position.cpp:1404-1434 | the same after a null move |
| `KeyUpdate.RunKeys` | src/engine/position.cpp:540-581 | over any run of legal moves and null moves the carried keys and sums stay the from-scratch ones |
| `SetState.SumMen` | src/engine/position.cpp:555-574 | the loop over men computes the four key families and both material sums |
| `SetState.MaterialKey` | src/engine/position.cpp:584-590 | the loop over pieces and counts computes the material key |
| `SetState.Compute` | src/engine/position.cpp:540-582 | `set_state` computes the from-scratch keys and sums |
| `PositionState.FindRepetition` | src/engine/position.cpp:1094-1110 | the nearest earlier occurrence in the window, negative if that one repeated, zero if none |
| `PositionState.Position.PutPiece` | src/engine/position.h:427-436 | board, bitboards and counts gain the man and agree square by square; the records, if asked for, are the change of the threat relation |
| `PositionState.Position.RemovePiece` | src/engine/position.h:438-450 | board, bitboards and counts lose the man and agree; the records are the change of the threat relation |
| `PositionState.Position.MovePiece` | src/engine/position.h:452-468 | the exclusive-or updates move the man and keep agreement; with the skip mask the records are the change of the relation |
| `PositionState.Position.SwapPiece` | src/engine/position.h:476-488 | the man on a square is replaced and agreement kept; both scans together record the change of the relation |
| `PositionState.Position.DoCastling` | src/engine/position.cpp:1362-1399 | king and rook land as the rules say, with overlapping squares too; the records, rook lifted first, are the change of the relation |
| `PositionState.Position.UndoCastling` | src/engine/position.cpp:1362-1399 | the castling undone gives back the board before it |
| `PositionState.Position.DoMove` | src/engine/position.cpp:827-1122 | for every legal move of any kind the object becomes the position of the rules; the state pushed has exact keys, checkers, blockers, pinners, clocks and repetition, older states are untouched; and the emitted threat records, added and removed, turn the threat relation of the old board into that of the new one |
| `PositionState.Position.UndoMove` | src/engine/position.cpp:1124-1181 | the board, the side and the counts before the move come back, for captures, en passant, promotion and castling |
| `PositionState.Position.DoNullMove` | src/engine/position.cpp:1404-1434 | the side passes, the en passant square goes, the keys stay exact |
| `PositionState.Position.UndoNullMove` | src/engine/position.cpp:1437-1443 | the state before the null move comes back |
| `PositionState.Position.Walk` | src/engine/position.cpp:1124-1181 | any nested run of moves and their undoing restores every field, the state chain included |
| `Threats.UpdatePieceThreats` | src/engine/position.cpp:1231-1343 | net of additions and removals, the emitted records are the threats by and on the man, less the slider threats through its square that are not skipped |
| `Threats.DirectParts` | src/engine/position.cpp:1287-1338 | outgoing, incoming and sliding records together are each threat that touches the square, once |
| `Threats.ThroughMeans` | src/engine/position.cpp:1257-1273 | a discovered record names exactly a slider threat that lifting the man reveals |
| `Threats.RemoveDelta` | src/engine/position.h:438-443 | the records of a removal are the change of the threat relation |
| `Threats.SwapDelta` | src/engine/position.h:470-488 | both halves of a capture, scanned on the board with the new man standing, are the change of the relation |
| `Threats.SkippedCancels` | src/engine/position.cpp:1263 | a view past one end of an along-ray move is skipped at both ends or at neither |
| `Threats.MoveDelta` | src/engine/position.h:452-468 | the records of a move with the skip mask are the change of the relation |
| `Threats.RemovalTurns` | src/engine/position.h:438-443 | the records of a removal turn the threat relation of the board before into that of the board after |
| `Threats.SwapTurns` | src/engine/position.h:470-488 | the records of both scans of a capture do |
| `Threats.MoveTurns` | src/engine/position.h:452-468 | the records of both ends of a move along a clear path do |
| `See.LvaIsLeast` | src/engine/position.cpp:1494-1537 | the coded order picks a least valuable man, the king last, the least square among men of a kind |
| `See.XrayUpdate` | src/engine/position.cpp:1497-1537 | the attackers updated by x-rays, cut to the board, are the attackers computed from scratch |
| `See.SwapIsExchange` | src/engine/position.cpp:1485-1549 | the gain over shrinking occupancies is the gain of play on real boards: each side takes with its least valuable able man or stops, every capture is made on the board the last one left, a pin lapses when no pinner stands where it stood, and a king takes only what the other side no longer attacks |
| `See.QueenNeverCuts` | src/engine/position.cpp:1529-1531 | the assertion `swap >= res` of the queen branch holds |
| `See.SeeGe` | src/engine/position.cpp:1449-1552 | for a normal move the null-window loop answers whether the value of the exchange played out on boards reaches the threshold; other kinds compare zero |
| `MoveSort.PartialSortSorts` | src/engine/movepick.cpp:199-215 | the partial sort is a permutation with a descending prefix and every later score below the limit |
| `MoveSort.PartialSortStable` | src/engine/movepick.cpp:199-215 | equal scores that reach the limit keep their order |
| `MoveSort.PartialInsertionSort` | src/engine/movepick.cpp:202-215 | the scalar in-place sort leaves the specified array |
| `MoveSort.SortQuiets` | src/engine/movepick.cpp:327-373 | the blockwise sort, its mask taken before the block is consumed, leaves the same array element for element |
| `MoveSort.SortAll` | src/engine/movepick.cpp:172-197 | the sort without a limit leaves the stable descending order |
| `MoveSort.NoLimitIsFullSort` | src/engine/movepick.cpp:160-171 | when no score fails the limit the partial sort is the full one |
| `MoveSort.SortSorts` | src/engine/movepick.cpp:160-171 | the full sort is a descending permutation |
| `MoveSort.SortStable` | src/engine/movepick.cpp:172-197 | equal scores keep their order |
| `MovePick.SortedQuietsFall` | src/engine/movepick.cpp:809-819 | from depth 4 on, once a score of the sorted quiets fails the threshold all later ones do |
| `MovePick.StopNeedsDepth` | src/engine/movepick.cpp:82-84 | for the limits the picker sorts with, the early stop is safe on every list exactly from depth 4 on |
| `MovePick.StopSafeIff` | src/engine/movepick.cpp:822-832 | after a sort with a limit the early stop is safe on every list exactly when the limit is at most one above the threshold |
| `MovePick.StopLoses` | src/engine/movepick.cpp:822-832 | with any higher limit a list exists whose head fails the threshold while a wanted quiet above it is still to come |
| `MovePick.StopLosesNothing` | src/engine/movepick.cpp:822-832 | stopping at the first failing score loses no good quiet |
| `MovePick.MovePicker.constructor` | src/engine/movepick.cpp:392-413 | the starting stage; a TT move that is not legal starts one stage later |
| `MovePick.MovePicker.ForProbcut` | src/engine/movepick.cpp:417-425 | the ProbCut starting stage |
| `MovePick.MovePicker.Select` | src/engine/movepick.cpp:677-694 | the first wanted move of the walk is taken, the rest stays to come in its order |
| `MovePick.MovePicker.GoodCaptures` | src/engine/movepick.cpp:742-755 | the next capture in sorted order that passes the exchange test is taken, those passed over wait in order as bad captures; none left ends the stage |
| `MovePick.MovePicker.InitQuiets` | src/engine/movepick.cpp:757-770 | the quiet list joins what is to come, or is left out when quiets are skipped |
| `MovePick.MovePicker.GoodQuiets` | src/engine/movepick.cpp:810-843 | the next quiet above the threshold is taken in sorted order, or none is left, by either form of the walk |
| `MovePick.MovePicker.NextMove` | src/engine/movepick.cpp:887-893 | each call takes the next move of the four blocks still to come (TT move with good captures or the stage's one list, good quiets, bad captures, bad quiets), and reports the end exactly when they are empty |
| `MovePick.MovePicker.SkipQuietMoves` | src/engine/movepick.cpp:895 | both quiet blocks are dropped, the others untouched in order; the generated end is never read unset |
| `PickRun.Drain` | src/engine/movepick.cpp:706-893 | a run to the end delivers exactly what was to come, in its order |
| `PickRun.EndForever` | src/engine/movepick.cpp:876-893 | after the end every call reports the end |
| `PickRun.DrainSkipping` | src/engine/movepick.cpp:856-895 | quiets skipped after any number of calls: what came before is as it would have been, then come the rest of the first block and the bad captures in order; TT move and all captures come out |
| `PickRun.EmitsLegalMoves` | src/engine/movepick.cpp:395-413 | for every position, scoring and exchange oracle a main-search picker emits every legal move exactly once, in this order: a legal TT move, captures passing the exchange test by falling score, quiets above the threshold as sorted, the other captures, the other quiets; in check the evasions by falling score |
| `PickRun.OtherStarts` | src/engine/movepick.cpp:710-787 | the quiescence stages have all captures by falling score to come, the ProbCut stages those that pass its exchange test, the TT move first |
| `Cuckoo.Insert` | src/engine/position.cpp:161-169 | every stored key stays in one of its two slots and the entries gain exactly the inserted one; running out of displacements drops exactly one entry |
| `Cuckoo.Build` | src/engine/position.cpp:151-173 | a finished build holds each reversible move once, in one of its slots, and nothing else; 3668 moves were inserted |
| `CuckooCount.KindTotal` | src/engine/position.cpp:155-172 | how many pairs of squares each officer moves between on the empty board: 168, 280, 448, 728 and 210 |
| `Cuckoo.Lookup` | src/engine/position.cpp:1609 | two slots suffice: found exactly if stored |
| `Cuckoo.MoveKeyInjective` | src/engine/position.cpp:159 | a reversible move is known from its key |
| `Repetition.PathTest` | src/engine/position.cpp:1614-1618 | `between_bb(s1, s2) ^ s2` removes s2: the test is that the path is clear |
| `Repetition.UpcomingRepetition` | src/engine/position.cpp:1587-1632 | the running exclusive-or and the lookup answer whether some earlier state in the window is linked by one reversible clear-path move while the opponent's moves cancel |
| `RepetitionGame.NewStateCounts` | src/engine/position.cpp:842-846 | the clocks `do_move` leaves are those a game record needs |
| `RepetitionGame.WindowSteps` | src/engine/position.cpp:1589 | inside the window of the two clocks every step was a move that takes nothing and moves no pawn |
| `RepetitionGame.WindowExact` | src/engine/position.cpp:842-846 | the window of the two clocks reaches back exactly as far as every step was such a move |
| `RepetitionGame.WindowGrows` | src/engine/position.cpp:842-846 | over such moves both clocks count the plies |
| `RepetitionGame.LeadsBackIffMoveBack` | src/engine/position.cpp:1602-1619 | inside the window, cancelling opponent moves and a linked key mean exactly that a legal move leads to that earlier position |
| `RepetitionGame.UpcomingInGame` | src/engine/position.cpp:1585-1632 | in every game the answer is whether some legal move leads to an earlier position of the window that counts as a draw |
| `Draws.RepetitionMeans` | src/engine/position.cpp:1088-1110 | in a game the repetition field is zero exactly if the position did not stand before in the window, else the distance to the last time, negative if that was a repetition |
| `Draws.UpcomingIsDraw` | src/engine/position.cpp:1556-1632 | in every game the answer is whether some legal move leads to a state `is_repetition` accepts one ply on; `is_draw` accepts one exactly if that is so or the fifty-move rule, which is not looked at, makes it a draw; below 99 the two agree |
| `Draws.FiftyNotSeen` | src/engine/position.cpp:1556-1592 | with nothing but the set-up position behind it, a quiet move that completes the hundredth ply draws although the answer is no |
| `Draws.BareKingsMissed` | src/engine/position.cpp:1556-1592 | such a position: two bare kings, the clock at 99 |
| `Fen.PlacementRoundTrip` | src/engine/position.cpp:241-289 | the printed placement is read back as the board |
| `StartPos.StartIsRead` | src/shell/uci.h:40 | the starting string is accepted and sets up the starting position: every man, side, four rights with their rooks, clocks |
| `FenFields.PlacementExact` | src/engine/position.cpp:244-300 | the placement field is accepted with a board exactly if it is a picture of it, each digit from 1 to 8 standing for that many blanks, and the board has at most 32 men |
| `FenFields.NamedExact` | src/engine/position.cpp:356-405 | a castling letter finds king and rook exactly as it means: K and Q the outermost rook of their side, a file letter the rook on that file, the king on its home rank and in no corner |
| `FenFields.RightsExact` | src/engine/position.cpp:339-410 | the castling field is accepted exactly if it has at most four characters, all of them letters in use; it grants the rights its letters name, each with the rook of its last name |
| `FenFields.AcceptedExact` | src/engine/position.cpp:198-472 | a string of six fields is accepted exactly if the board pictured meets the limits, the fields are spelled right, the clocks in range and the waiting side not in check; board, side, rights, rooks, en passant square and clocks are those the fields mean |
| `FenFields.AcceptedSpells` | src/engine/position.cpp:244-300 | no string is accepted whose placement is a picture of no board |
| `FenFields.NeverEnded` | src/engine/position.cpp:248-254 | no string is accepted whose placement no blank ends |
| `Fen.RightsFit` | src/engine/position.cpp:478-500 | every accepted castling field leaves rights with king and rook in place, masked exactly |
| `Fen.RightsRoundTrip` | src/engine/position.cpp:337-399 | the letters of a consistent position are read back: Shredder letters with the right's own rook, K and Q with the outermost of its side |
| `Fen.LegalEp` | src/engine/position.cpp:401-434 | the field's square is kept exactly when its shape is right and some capture passes the test |
| `Fen.UncheckedIsSafe` | src/engine/position.cpp:426-428 | the coded test is the legality of the capture |
| `Fen.PrintPlacement` | src/engine/position.cpp:617-641 | the printing loops yield the placement text |
| `Fen.LimitsKept` | src/engine/position.cpp:304-319 | the limits on men per side survive every legal move |
| `Fen.CacheFits` | src/engine/movegen.cpp:296-306 | within the limits at most 13 of the 16 slots of the slider cache are used |
| `Fen.AcceptedIsOk` | src/engine/position.cpp:198-472 | whatever string `set` accepts, the position is consistent and within the limits, its clocks in range |
| `Fen.FenRoundTrip` | src/engine/position.cpp:617-662 | of the printed positions `set` accepts exactly those whose clocks are in range; with Shredder letters it rebuilds board, side, rights, rook squares, en passant square and clocks, with K and Q exactly if every rook with a right is the outermost of its side |
| `Fen.PlayedFromFen` | src/engine/position.cpp:617-662 | the same for every position played from an accepted string, in both forms of the letters |
| `PosCheck.SoundIsPosOk` | src/engine/position.cpp:1679-1739 | a consistent position within the limits, whose rooks' squares mask only their own right, passes `pos_is_ok` as coded, limits on men and pawns, masks and the two en passant trials included |
| `PosCheck.EpAcceptedIff` | src/engine/position.cpp:1694-1708 | on a square of the right shape the trials of the first and the last capturer pass exactly when some en passant capture is legal |
| `PosCheck.PosOkIff` | src/engine/position.cpp:1679-1739 | with one king a side and that shape, `pos_is_ok` passes exactly if the waiting side is not in check, no pawn stands on an edge rank, the numbers of pawns and men are in bounds, an en passant square allows a legal capture, and every right has its rook and masks |
| `PosCheck.PlySound` | src/engine/position.cpp:1112 | every legal move and null move keeps these conditions |
| `PosCheck.AlwaysPosOk` | src/engine/position.cpp:1679-1739 | `pos_is_ok` holds after whatever string `set` accepts and whatever legal moves and null moves follow |
| `ScaleTables.FastIsDivision` | src/engine/search.cpp:58-81 | multiply, shift and correct is truncated division whenever the magic number's error is positive and the dividend keeps it under one unit |
| `ScaleTables.ZeroErrorFails` | src/engine/search.cpp:95-106 | with a zero error every negative exact multiple comes out one too high |
| `ScaleTables.LmrScaleDivides` | src/engine/search.cpp:58-93 | every lmrScale entry divides every dividend within 2^25 |
| `ScaleTables.AllNodeScaleDivides` | src/engine/search.cpp:118-151 | every allNodeScale entry divides every reduction within 2^23 |
| `ScaleTables.AvgScaleDivides` | src/engine/search.cpp:153-180 | every avgScale entry divides every weighted value within 2^24 |
| `ScaleTables.ProductsFit` | src/engine/search.cpp:94-180 | the products fit 64 bits and the lmr entries 31 |
| `SearchLoops.Widens` | src/engine/search.cpp:684-708 | a failing result leaves a proper window, delta grows, and once it is wide the window opens for good |
| `SearchLoops.Aspirate` | src/engine/search.cpp:646-716 | the aspiration loop keeps -INF <= alpha < beta <= INF, ends for every sequence of results inside the bounds, and unless stopped returns a result inside the window; the searches made are exactly those of the coded window and depth updates |
| `SearchLoops.MoveLoop` | src/engine/search.cpp:1476-1925 | bestValue <= alpha < beta at every test, depth at least 1 and inside the tables; at the end bestValue dominates every searched value and alpha is the larger of the old alpha and bestValue, or a fail high broke out |
| `SearchLoops.EntryDepth` | src/engine/search.cpp:1042-1402 | depth stays between 1 and MAX_PLY through clamp, hindsight and reduction |
| `SearchLoops.FailHighAverage` | src/engine/search.cpp:1943-1947 | the fail-high average by multiplication is the division |
| `SearchLoops.AverageBetween` | src/engine/search.cpp:1943-1947 | the average lies between beta and the value found |
| `SearchLoops.TableRoundTrip` | src/engine/search.cpp:2302-2345 | a value stored and read at one ply comes back exactly when it claims nothing or claims it before the fifty-move rule; otherwise the highest value that claims nothing |
| `SearchLoops.TableShift` | src/engine/search.cpp:2302-2345 | stored at one ply and read at another, a mate or table distance shifts by the difference of the plies, unless the fifty-move rule cuts it off |
| `Histories.OwnerOf` | src/engine/history.h:59-69 | the slices of all workers cover the range |
| `Histories.OneOwner` | src/engine/history.h:59-69 | no cell is in two slices |
| `Histories.ClearRange` | src/engine/history.h:202-207 | one worker fills its slice and nothing else |
| `Histories.ClearAll` | src/engine/history.h:196-207 | all workers, in any order, clear the whole table |
| `Histories.UpdateBounded` | src/engine/history.h:164-170 | an entry within the limit stays within it, whatever the bonus |
| `Histories.UpdateDirection` | src/engine/history.h:164-170 | a positive bonus never lowers an entry, a negative one never raises it |
| `Histories.UpdateReaches` | src/engine/history.h:164-170 | a full bonus reaches the limit of its sign from any entry, and a fresh entry takes the bonus |
| `Histories.UpdateDecays` | src/engine/history.h:164-170 | the entry decays by its share of the bonus and gains the bonus, within one truncation |
| `Histories.CeilPowerOfTwo` | src/engine/history.h:358-363 | the least power of two not below the count |
| `Histories.MaskIsRow` | src/engine/history.h:395-413 | masking a key with a power of two less one selects a row inside the table |
| `Histories.MulHiIsHighHalf` | src/engine/basetypes.h:469-480 | the 32-bit limb form is the high half of the 128-bit product, with no intermediate overflow |
| `Histories.ClusterInTable` | src/engine/tt.cpp:402-404 | every key's cluster is inside the table |
| `TransTable.UnpackInverts` | src/engine/tt.cpp:70-110 | the packed byte gives back bound and pv flag, and its age counts generations as a clock does |
| `TransTable.SaveFields` | src/engine/tt.cpp:161-214 | field by field what a write leaves: all of it at exactly its depth when it overwrites; otherwise value, evaluation, word, bound, flag and generation as they were, the depth one less in the aging case only |
| `TransTable.EntryTellsLast` | src/engine/tt.cpp:161-214 | after every run of writes and penalties an entry tells its last accepted write at a depth no larger, and its move was written under its key; a write is accepted exactly if its bound is exact, its low word or generation differs, or its depth with the pv bonus exceeds the stored one less four |
| `TransTable.TranspositionTable.Probe` | src/engine/tt.cpp:363-397 | a hit is the first entry with the key's low word; a miss the first of the least stored depth minus eight times its age in generations |
| `TransTable.TranspositionTable.Save` | src/engine/tt.cpp:161-222 | one entry changes: overwritten whole under the four conditions of the policy, else kept, its depth one less exactly if it ages; the move is replaced if there is a new one or another word; the others keep their histories |
| `TransTable.TranspositionTable.Penalize` | src/engine/tt.cpp:228-231 | one entry loses exactly the penalty in depth, down to zero, and nothing else |
| `TransTable.TranspositionTable.NewSearch` | src/engine/tt.cpp:347-351 | the generation advances modulo 32 |
| `TransTable.TranspositionTable.Clear` | src/engine/tt.cpp:284-316 | the strides of all threads, in any order, empty every entry |
| `TransTable.TranspositionTable.FoundIsLastAccepted` | src/engine/tt.cpp:363-376 | what a probe finds was last accepted under the key's low word, at a depth no smaller; its move was written under that word |
| `ThreadPool.InitOk` | src/platform/thread.cpp:181-191 | an empty pool meets the invariant |
| `ThreadPool.NextOk` | src/platform/thread.cpp:50-152 | every step of controller, main worker or any thread keeps the invariant, threads created and destroyed one at a time included |
| `ThreadPool.CreatingOk` | src/platform/thread.cpp:50-83 | launching a thread, waiting for it, giving it the allocating job and waiting again keeps the invariant |
| `ThreadPool.AlwaysOk` | src/platform/thread.cpp:85-408 | the invariant holds in every state of every interleaving |
| `ThreadPool.JobsRunOnce` | src/platform/thread.cpp:108-152 | a wait returns only with its thread parked; jobs run in posting order, each at most once, none missing but the one still standing |
| `ThreadPool.NeverOverwritten` | src/platform/thread.cpp:115-124 | whoever stores a job finds none there and the thread parked |
| `ThreadPool.TouchesParkedOnly` | src/platform/thread.cpp:365-381 | installing the root and resizing the table happen with every thread parked |
| `ThreadPool.ParkedMainParksAll` | src/engine/search.cpp:452-493 | whenever the controller finds the main worker parked all helpers are |
| `ThreadPool.SearchReachesAll` | src/engine/search.cpp:476-478 | while the main worker searches or waits for the others, every helper has been posted exactly one search since the main worker's own |
| `ThreadPool.EndsAfterAll` | src/engine/search.cpp:489-493 | when the main worker ends a search with root moves, every helper has run its search to the end and is parked |
| `ThreadPool.EndsAtOnce` | src/engine/search.cpp:468-474 | a search ends at its beginning exactly when there are no root moves, and no helper has then been posted one |
| `ThreadPool.OperationDone` | src/platform/thread.cpp:181-408 | whenever the controller is idle again its operation is done: roots installed everywhere and one search posted, to the main worker; one job run by every worker; or exactly the requested threads, each with its worker allocated |
| `ThreadPool.ExitFindsParked` | src/platform/thread.cpp:88-95 | the destructor's assertion holds and its wake-up finds a parked thread, when the pool is recreated and at the end |
| `Text.Split` | src/platform/text.h:48-68 | the loop yields the pieces between delimiters, none for the empty string |
| `Text.SplitJoin` | src/platform/text.h:48-68 | splitting what was joined gives the parts back |
| `Text.CountRoundTrip` | src/platform/text.cpp:39-59 | a printed count is read back |
| `Text.NegativeRefusedIff` | src/platform/text.cpp:39-47 | a minus sign is refused only as the very first character; behind a blank the wrapped value comes out |
| `Text.BlankIsZero` | src/platform/text.cpp:44-58 | a string of blanks reads as zero |
| `Text.NumberRead` | src/platform/text.cpp:39-59 | blanks, sign, digits and tail give the number, wrapped under a minus sign, exactly if that sign is not the very first character, the number fits 64 bits and the tail is blank |
| `Text.OnlyNumbers` | src/platform/text.cpp:39-59 | a string that is read and not blank is such a number |
| `NumaText.RefusedIff` | src/platform/numa.cpp:702-750 | the string is refused exactly if some component that is not empty is |
| `NumaText.OneIndex` | src/platform/numa.cpp:725-731 | a printed index is accepted up to the largest processor number |
| `NumaText.OneRange` | src/platform/numa.cpp:732-746 | a printed ascending range is accepted exactly if its end is a processor number, and lists it |
| `NumaText.IndicesFromShortenedString` | src/platform/numa.cpp:702-750 | the loops yield the listed indices, or nothing if any component fails |
| `NumaText.UpsideDownRefusedIff` | src/platform/numa.cpp:733-743 | a range printed upside down is refused unless the wrapped size passes the test; then it adds nothing |
| `NumaText.ExpandRuns` | src/platform/numa.cpp:449-477 | the maximal runs of a node expand to its processors |
| `NumaText.NodeRoundTrip` | src/platform/numa.cpp:437-750 | a printed node reads back as its processors in order |
| `Numa.PrintNode` | src/platform/numa.cpp:446-477 | the loop over one node prints its maximal runs |
| `Numa.ToStringOf` | src/platform/numa.cpp:437-481 | the loop over nodes prints the configuration |
| `Numa.TextRoundTrip` | src/platform/numa.cpp:409-481 | every configuration of non-empty disjoint nodes with indices up to 65535 is read back, with an index that agrees |
| `Numa.ReadNodesAgree` | src/platform/numa.cpp:409-435 | whatever text is accepted, nodes and index agree |
| `Numa.FromString` | src/platform/numa.cpp:409-435 | the object built from text is valid and is the text's configuration |
| `Numa.NumaConfig.AddCpuToNode` | src/platform/numa.cpp:76-91 | a free processor joins its node; a taken one changes nothing |
| `Numa.NumaConfig.AddCpuRangeToNode` | src/platform/numa.cpp:93-110 | a free range joins its node; one taken processor changes nothing |
| `Numa.MergeDomains` | src/platform/numa.cpp:752-780 | the merge loop ends, loses no processor and keeps bundles apart; each bundle joins a run of neighbouring domains, is an original domain or within the size, and no adjacent pair still fits |
| `Numa.FromL3Info` | src/platform/numa.cpp:752-792 | the domains are grouped by system node; the bundles of the nodes in ascending order become the nodes: every processor of every domain goes to its bundle's index, and nodes and index agree |
| `Numa.DistributeThreads` | src/platform/numa.cpp:523-560 | each thread goes to the first node it fills least, in single precision; no node of at most 2^23 processors is over-filled when threads do not outnumber processors, and the load is balanced |

## Left out

- NNUE evaluation, tablebase probing, UCI, time management, score printing: not part of this model; their results are parameters where a proof needs them.
- Pruning, reductions, extensions and history bonuses of the search: tuned numbers without a specification; `SearchLoops.MoveLoop` takes each move's result, and whether it was searched or skipped, as given.
- Fen.SetFen: the wording of error messages is an enumeration of reasons.
- FenFields.AcceptedExact: stated for six fields with one blank between them; for strings of any other shape there is `Fen.AcceptedIsOk`.
- SIMD forms (the AVX-512 sorter and splatting, GFNI and dual hyperbola, the 32-bit magic index): the scalar meaning is modelled; of AVX2 the order in which a block's mask is computed and consumed.
- Magics.InitMagic: termination of the search for a multiplier depends on the data; candidates arrive as a finite list, and the result is stated for a search that ends. The population-count filter on candidates only rejects some of them. Offsets of the squares inside one shared table are left out.
- Cuckoo.Build: termination depends on the keys; displacements are bounded by a parameter and the result is stated for a build that finishes.
- Cuckoo.Lookup: two different sets of words with equal 64-bit keys are not modelled; repetition and lookup are exact for symbolic keys and any two hash functions.
- `prefetch_key`, `adjust_key50`, dirty pawn pairs and the dirty-piece record of the network: easy members beside the keys and the threat records.
- The threat bitboards and check squares a state caches lazily: functions of the board here.
- PositionState.Position.DoMove: the chain of states is a sequence, not linked records supplied by the caller.
- PositionState.Position.UndoMove: the position before the move is a ghost argument, which the state chain does not store.
- MovePick.MovePicker.constructor: legality of the TT move and the generator's lists are arguments; `PickRun.EmitsLegalMoves` ties them to the position. A buffer large enough for the lists is required, which MAX_MOVES is meant to guarantee.
- ThreadPool.NextOk: one step is one critical section; fairness and liveness of condition variables are not modelled, wake-ups are arbitrary. Binding threads to NUMA nodes while the pool is created is left out.
- TransTable.TranspositionTable.Save: one step; the races of single fields between threads are not modelled.
- TransTable.TranspositionTable.Clear: strides of entries; which NUMA node a stride is bound to is left out.
- Numa.DistributeThreads: single precision enters as a monotone rounding that keeps the integers up to 2^24 and the number next above one; infinities and overflow of the format are not modelled, and that no node is over-filled is claimed for nodes of at most 2^23 processors.
- Building a NUMA configuration from the system, and `remove_empty_numa_nodes`: operating-system plumbing; the latter does not renumber the index, so the agreement proved here is not claimed of it.
- `conthist_apply`, move bit packing, the `Bound` and `Square` atoms, `ValueList`, arena and seam registration: easy members.
- Shared memory, large pages, affinity calls, logging, benchmarks: operating-system plumbing.
