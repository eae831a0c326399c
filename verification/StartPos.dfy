// The starting position of chess and the string that sets it up.

module StartPos {
  import opened Chess
  import opened Geometry
  import opened Attacks
  import opened Rules
  import opened Text
  import opened Fen
  import PosCheck

  // The string, rank by rank and field by field.
  const LOWER_HALF := "8" + ("/" + ("8" + ("/" + ("PPPPPPPP" + ("/" + "RNBQKBNR")))))
  const UPPER_HALF := "rnbqkbnr" + ("/" + ("pppppppp" + ("/" + ("8" + ("/" + ("8" + ("/" + LOWER_HALF)))))))
  const START_FEN := UPPER_HALF + (" " + ("w" + (" " + ("KQkq" + (" " + ("-" + (" " + ("0" + (" " + "1")))))))))

  // The officers of the first rank, file by file.
  function Officer(file: int): PieceType {
    if file == 0 || file == 7 then Rook
    else if file == 1 || file == 6 then Knight
    else if file == 2 || file == 5 then Bishop
    else if file == 3 then Queen
    else King
  }

  function StandsAt(s: Square): Piece {
    match Rank(s)
    case 0 => Man(White, Officer(File(s)))
    case 1 => Man(White, Pawn)
    case 6 => Man(Black, Pawn)
    case 7 => Man(Black, Officer(File(s)))
    case _ => NoPiece
  }

  function StartBoard(): Board { seq(64, s requires 0 <= s < 64 => StandsAt(s)) }

  function RookHome(r: Right): Square {
    (if r.color == White then 0 else 56) + (if r.kingSide then 7 else 0)
  }

  function KingHome(c: Color): Square { if c == White then 4 else 60 }

  function AllRights(): set<Right> {
    {Right(White, true), Right(White, false), Right(Black, true), Right(Black, false)}
  }

  // Both players to castle either way, White to move.
  function Start(): Pos {
    Pos(StartBoard(), White, None, AllRights(), map r | r in AllRights() :: RookHome(r),
        seq(64, s requires 0 <= s < 64 => set r | r in AllRights() && (s == RookHome(r) || s == KingHome(r.color))))
  }

  // ---------- the text ----------

  function OfficersFrom(c: Color, f: int): string
    requires 0 <= f <= 8
    decreases 8 - f
  {
    if f == 8 then "" else [PieceChar(Man(c, Officer(f)))] + OfficersFrom(c, f + 1)
  }

  lemma {:induction false} OfficersText(c: Color, r: int, f: int)
    requires ((c == White && r == 0) || (c == Black && r == 7)) && 0 <= f <= 8
    ensures RankText(StartBoard(), r, f, 0) == OfficersFrom(c, f)
    decreases 8 - f
  {
    hide StartBoard, StandsAt, Officer, PieceChar, SquareAt;
    if f < 8 {
      OfficerAt(c, r, f);
      OfficersText(c, r, f + 1);
    }
  }

  lemma OfficerAt(c: Color, r: int, f: int)
    requires ((c == White && r == 0) || (c == Black && r == 7)) && 0 <= f < 8
    ensures StartBoard()[SquareAt(f, r)] == Man(c, Officer(f)) && Digit(0) == ""
  {
    AtSquare(f, r);
    hide StartBoard;
  }

  lemma OfficersSpelled()
    ensures OfficersFrom(White, 0) == "RNBQKBNR" && OfficersFrom(Black, 0) == "rnbqkbnr"
  {
    OfficerChars(White);
    OfficerChars(Black);
    hide PieceChar, Officer;
    assert OfficersFrom(White, 4) == "KBNR" && OfficersFrom(Black, 4) == "kbnr";
  }

  lemma OfficerChars(c: Color)
    ensures forall f :: 0 <= f < 8 ==>
                          PieceChar(Man(c, Officer(f))) == (if c == White then "RNBQKBNR" else "rnbqkbnr")[f]
  {
  }

  lemma AtSquare(f: int, r: int)
    requires 0 <= f < 8 && 0 <= r < 8
    ensures StartBoard()[SquareAt(f, r)] == StandsAt(SquareAt(f, r)) && File(SquareAt(f, r)) == f
            && Rank(SquareAt(f, r)) == r
  {
  }

  lemma {:induction false} PawnsText(c: Color, r: int, f: int)
    requires ((c == White && r == 1) || (c == Black && r == 6)) && 0 <= f <= 8
    ensures RankText(StartBoard(), r, f, 0) == seq(8 - f, _ => if c == White then 'P' else 'p')
    decreases 8 - f
  {
    if f < 8 {
      AtSquare(f, r);
      PawnsText(c, r, f + 1);
      hide StartBoard;
      assert Digit(0) == "";
    }
  }

  lemma {:induction false} EmptyText(r: int, f: int)
    requires 2 <= r <= 5 && 0 <= f <= 8
    ensures RankText(StartBoard(), r, f, f) == "8"
    decreases 8 - f
  {
    if f < 8 {
      AtSquare(f, r);
      EmptyText(r, f + 1);
    }
  }

  lemma NextRank(b: Board, r: int)
    requires 0 < r < 8
    ensures PlacementText(b, r) == RankText(b, r, 0, 0) + ("/" + PlacementText(b, r - 1))
  {
  }

  lemma LastRank(b: Board)
    ensures PlacementText(b, 0) == RankText(b, 0, 0, 0)
  {
  }

  lemma PawnRanks()
    ensures seq(8, _ => 'P') == "PPPPPPPP" && seq(8, _ => 'p') == "pppppppp"
  {
  }

  lemma LowerHalf()
    ensures PlacementText(StartBoard(), 3) == LOWER_HALF
  {
    OfficersText(White, 0, 0);
    OfficersSpelled();
    PawnsText(White, 1, 0);
    PawnRanks();
    EmptyText(2, 0);
    EmptyText(3, 0);
    var b := StartBoard();
    hide *;
    LastRank(b);
    NextRank(b, 1);
    NextRank(b, 2);
    NextRank(b, 3);
  }

  lemma BoardText()
    ensures PlacementText(StartBoard(), 7) == UPPER_HALF
  {
    OfficersText(Black, 7, 0);
    OfficersSpelled();
    PawnsText(Black, 6, 0);
    PawnRanks();
    EmptyText(4, 0);
    EmptyText(5, 0);
    LowerHalf();
    var b := StartBoard();
    hide *;
    NextRank(b, 4);
    NextRank(b, 5);
    NextRank(b, 6);
    NextRank(b, 7);
  }

  lemma RightsOfStart()
    ensures (forall r :: r in Start().rights ==> r in Start().rookSq)
    ensures RightsText(Start().rights, Start().rookSq, false) == "KQkq"
  {
    var rights, rookSq := Start().rights, Start().rookSq;
    hide StartBoard;
    assert RightAt(0) in rights && RightAt(1) in rights && RightAt(2) in rights && RightAt(3) in rights;
    assert RightsFrom(rights, rookSq, false, 4) == "";
    assert RightsFrom(rights, rookSq, false, 3) == "q";
    assert RightsFrom(rights, rookSq, false, 2) == "k" + "q";
    assert RightsFrom(rights, rookSq, false, 1) == "Q" + "kq";
    assert RightsFrom(rights, rookSq, false, 0) == "K" + "Qkq";
  }

  lemma StartText()
    ensures (forall r :: r in Start().rights ==> r in Start().rookSq) && FenText(Start(), 0, 0, false) == START_FEN
  {
    BoardText();
    RightsOfStart();
    StartParts();
    StartClocks();
    var p := Start();
    hide PlacementText, RightsText, Decimal, Fullmove, StartBoard, Start;
  }

  lemma StartParts()
    ensures Start().ep == None && Start().stm == White && Start().board == StartBoard()
  {
  }

  lemma StartClocks()
    ensures Decimal(0) == "0" && Decimal(1) == "1" && Fullmove(White, 0) == 1
  {
  }

  // Squares and Shredder letters as they are spelled.
  lemma Spelled()
    ensures EpText(Some(20)) == "e3" && EpText(Some(40)) == "a6" && EpText(None) == "-"
    ensures RightChar(Right(White, true), map[Right(White, true) := 7], true) == 'H'
    ensures RightChar(Right(Black, false), map[Right(Black, false) := 57], true) == 'b'
  {
  }

  // ---------- the position ----------

  lemma BoardAt(s: Square)
    ensures StartBoard()[s] == StandsAt(s)
  {
  }

  lemma OnlyKing(c: Color, s: Square)
    ensures StandsAt(s) == Man(c, King) <==> s == KingHome(c)
  {
  }

  lemma StartKings()
    ensures OneKing(StartBoard(), White) && OneKing(StartBoard(), Black)
    ensures KingSq(StartBoard(), White) == 4 && KingSq(StartBoard(), Black) == 60
  {
    hide StartBoard, StandsAt, OneKing, KingSq;
    forall c, s: Square ensures StartBoard()[s] == Man(c, King) <==> s == KingHome(c) {
      BoardAt(s);
      OnlyKing(c, s);
    }
    KingAt(StartBoard(), White, 4);
    KingAt(StartBoard(), Black, 60);
  }

  // Across the empty middle of the board nothing attacks the other king.
  lemma NoAttack(s: Square, occ: Bitboard)
    requires Rank(s) <= 1
    ensures StandsAt(s) != NoPiece && !Hits(StandsAt(s), s, 60, occ)
  {
  }

  lemma BlackUnchecked()
    ensures OneKing(StartBoard(), Black) && !InCheck(StartBoard(), Black)
  {
    StartKings();
    var b := StartBoard();
    hide StartBoard, StandsAt, OneKing, KingSq, Hits, Occ;
    forall s | s in Of(b, White) ensures !Hits(b[s], s, 60, Occ(b)) {
      BoardAt(s);
      WhiteBelow(s);
      NoAttack(s, Occ(b));
    }
  }

  lemma WhiteBelow(s: Square)
    requires StandsAt(s) != NoPiece && StandsAt(s).color == White
    ensures Rank(s) <= 1
  {
  }

  lemma RightAtHome(r: Right)
    requires OneKing(StartBoard(), r.color) && r in AllRights()
    ensures RightOk(Start(), r)
  {
    StartKings();
    BoardAt(RookHome(r));
    CornerRook(r);
    RightTables(r);
    HomesOnRank(r);
    hide OneKing, KingSq, StandsAt, StartBoard, RookHome, Start;
  }

  lemma RightTables(r: Right)
    requires r in AllRights()
    ensures Start().board == StartBoard() && r in Start().rookSq && Start().rookSq[r] == RookHome(r)
    ensures forall s: Square :: r in Start().mask[s] <==> s == RookHome(r) || s == KingHome(r.color)
  {
    hide StartBoard;
  }

  lemma HomesOnRank(r: Right)
    ensures RelativeRank(r.color, RookHome(r)) == 0 && RelativeRank(r.color, KingHome(r.color)) == 0
    ensures File(KingHome(r.color)) == 4 && (r.kingSide <==> RookHome(r) > KingHome(r.color))
  {
  }

  lemma CornerRook(r: Right)
    ensures StandsAt(RookHome(r)) == Man(r.color, Rook)
  {
  }

  lemma NoPawnEdge()
    ensures NoEdgePawns(StartBoard())
  {
    forall s: Square ensures StartBoard()[s] == StandsAt(s) { BoardAt(s); }
    hide StartBoard;
  }

  lemma StartOk()
    ensures Ok(Start())
  {
    StartKings();
    BlackUnchecked();
    NoPawnEdge();
    forall r | r in AllRights() ensures OneKing(StartBoard(), r.color) && RightOk(Start(), r) {
      assert r.color == White || r.color == Black;
      RightAtHome(r);
    }
    StartParts();
    hide StartBoard, OneKing, InCheck, NoEdgePawns, RightOk;
  }

  // Where the men of one kind stand.
  function Homes(c: Color, k: PieceType): Bitboard {
    var first := if c == White then 0 else 56;
    match k
    case Pawn =>
      if c == White then {8, 9, 10, 11, 12, 13, 14, 15} else {48, 49, 50, 51, 52, 53, 54, 55}
    case Knight => {first + 1, first + 6}
    case Bishop => {first + 2, first + 5}
    case Rook => {first, first + 7}
    case Queen => {first + 3}
    case King => {first + 4}
  }

  lemma StandsHome(c: Color, k: PieceType, s: Square)
    requires StandsAt(s) == Man(c, k)
    ensures s in Homes(c, k)
  {
  }

  lemma Sizes(c: Color, k: PieceType)
    ensures |Homes(c, k)| <= if k == Pawn then 8 else if k == Queen || k == King then 1 else 2
  {
  }

  lemma FewOf(c: Color, k: PieceType)
    ensures |OfKind(StartBoard(), c, k)| <= if k == Pawn then 8 else if k == Queen || k == King then 1 else 2
  {
    var o, h := OfKind(StartBoard(), c, k), Homes(c, k);
    Sizes(c, k);
    hide StartBoard, StandsAt, Homes;
    forall s | s in o ensures s in h {
      BoardAt(s);
      StandsHome(c, k, s);
    }
    PosCheck.TwoSizes(o, h - o);
    assert o + (h - o) == h;
    assert |o| + |h - o| == |h|;
  }

  lemma SideLimits(c: Color)
    ensures PawnsFit(StartBoard(), c) && ColorFits(StartBoard(), c)
  {
    FewOf(c, Pawn);
    FewOf(c, Knight);
    FewOf(c, Bishop);
    FewOf(c, Rook);
    FewOf(c, Queen);
    hide StartBoard, OfKind;
  }

  lemma StartLimits()
    ensures Limits(StartBoard())
  {
    StartKings();
    var b := StartBoard();
    hide StartBoard;
    SideLimits(White);
    SideLimits(Black);
    PosCheck.SixteenMen(b, White);
    PosCheck.SixteenMen(b, Black);
    assert Occ(b) == Of(b, White) + Of(b, Black);
  }

  lemma CornersOutermost()
    ensures forall r :: r in Start().rights ==> r in Start().rookSq && OneKing(Start().board, r.color)
    ensures AllOutermost(Start())
  {
    StartKings();
    forall r | r in AllRights()
      ensures OneKing(StartBoard(), r.color) && RookHome(r) in Corners() && Outermost(StartBoard(), r, RookHome(r)) {
      assert r.color == White || r.color == Black;
      BoardAt(RookHome(r));
      CornerRook(r);
    }
  }

  function Corners(): Bitboard { {0, 7, 56, 63} }

  // The starting string sets up the starting position.
  lemma StartIsRead()
    ensures SetFen(START_FEN).Fine?
    ensures var r := SetFen(START_FEN).value;
            && r.pos.board == StartBoard() && r.pos.stm == White && r.pos.ep == None && r.pos.rights == AllRights()
            && (forall g :: g in AllRights() ==> g in r.pos.rookSq && r.pos.rookSq[g] == RookHome(g))
            && r.rule50 == 0 && r.gamePly == 0
  {
    StartOk();
    StartLimits();
    StartText();
    StartParts();
    CornersOutermost();
    StartClocks();
    FenRoundTrip(Start(), 0, 0, false);
    hide Ok, Limits, AllOutermost, SetFen, FenText, StartBoard, Rebuilt;
    assert Same(Start(), 0, 0, SetFen(START_FEN).value);
  }
}
