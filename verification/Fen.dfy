// Forsyth-Edwards Notation: the parser of Position::set, the printer of
// Position::fen, and their round trip.

module Fen {
  import opened Chess
  import opened Attacks
  import opened Rules
  import opened PieceGen
  import opened GenEnPassant
  import opened Legal
  import opened KeyUpdate
  import opened Text

  datatype FenError =
    | EndOfStream | BadSkip | BadFile | RankEndedEarly | BadRank | BadPiece | TooManyMen | CursorNotAtEnd
    | EdgePawns | WrongKings | TooManyPawns | TooManyOfColor | BadSide | NoSpaceAfterSide
    | TooManyRights | BadRight | BadEnPassant | Rule50Range | PlyRange | KingCanBeCaptured

  datatype Result<+T> = Fine(value: T) | Refused(error: FenError) {
    predicate IsFailure() { Refused? }

    function PropagateFailure<U>(): Result<U>
      requires Refused?
    {
      Refused(error)
    }

    function Extract(): T
      requires Fine?
    {
      value
    }
  }

  // ---------- piece placement ----------

  function PieceChar(pc: Piece): char
    requires pc != NoPiece
  {
    var c :=
      match pc.kind
      case Pawn => 'P' case Knight => 'N' case Bishop => 'B' case Rook => 'R' case Queen => 'Q' case King => 'K';
    if pc.color == White then c else Lower(c)
  }

  function Lower(c: char): char {
    if 'A' <= c <= 'Z' then ((c as int) + 32) as char else c
  }

  function Upper(c: char): char {
    if 'a' <= c <= 'z' then ((c as int) - 32) as char else c
  }

  function PieceOf(c: char): Option<Piece> {
    var color := if 'a' <= c <= 'z' then Black else White;
    match Upper(c)
    case 'P' => Some(Man(color, Pawn))
    case 'N' => Some(Man(color, Knight))
    case 'B' => Some(Man(color, Bishop))
    case 'R' => Some(Man(color, Rook))
    case 'Q' => Some(Man(color, Queen))
    case 'K' => Some(Man(color, King))
    case _ => None
  }

  lemma PieceRoundTrip(pc: Piece)
    requires pc != NoPiece
    ensures PieceOf(PieceChar(pc)) == Some(pc) && !IsSpace(PieceChar(pc)) && !IsDigit(PieceChar(pc))
            && PieceChar(pc) != '/'
  {
  }

  datatype Cursor = Cursor(file: int, rank: int, board: Board, men: int)

  predicate CursorOk(c: Cursor) { 0 <= c.file <= 8 && 0 <= c.rank < 8 }

  function EmptyBoard(): Board { seq(64, _ => NoPiece) }

  function SquareAt(file: int, rank: int): Square
    requires 0 <= file < 8 && 0 <= rank < 8
  {
    8 * rank + file
  }

  // One character of the placement field.
  function PlaceOne(t: char, c: Cursor): Result<Cursor>
    requires CursorOk(c) && !IsSpace(t)
  {
    if IsDigit(t) then
      var diff := t as int - '0' as int;
      if diff < 1 || diff > 8 then Refused(BadSkip)
      else if c.file + diff > 8 then Refused(BadFile)
      else Fine(c.(file := c.file + diff))
    else if t == '/' then
      if c.file != 8 then Refused(RankEndedEarly)
      else if c.rank == 0 then Refused(BadRank)
      else Fine(c.(file := 0, rank := c.rank - 1))
    else if c.file >= 8 then Refused(BadFile)
    else if PieceOf(t) == None then Refused(BadPiece)
    else if c.men + 1 > 32 then Refused(TooManyMen)
    else Fine(Cursor(c.file + 1, c.rank, c.board[SquareAt(c.file, c.rank) := PieceOf(t).value], c.men + 1))
  }

  lemma PlaceOneOk(t: char, c: Cursor)
    requires CursorOk(c) && !IsSpace(t) && PlaceOne(t, c).Fine?
    ensures CursorOk(PlaceOne(t, c).value)
  {
  }

  // The whole field and the space that ends it; what is left of the string.
  function Place(s: string, c: Cursor): Result<(Cursor, string)>
    requires CursorOk(c)
  {
    if s == "" then Refused(EndOfStream)
    else if IsSpace(s[0]) then Fine((c, s[1..]))
    else
      var d :- PlaceOne(s[0], c);
      PlaceOneOk(s[0], c);
      Place(s[1..], d)
  }

  // ---------- limits ----------

  function Over(n: int, limit: int): int { if n > limit then n - limit else 0 }

  // Men beyond the initial set, which can only be promoted pawns.
  function Additional(b: Board, c: Color): int {
    Over(CountOf(b, Man(c, Knight)), 2) + Over(CountOf(b, Man(c, Bishop)), 2)
    + Over(CountOf(b, Man(c, Rook)), 2) + Over(CountOf(b, Man(c, Queen)), 1)
  }

  predicate PawnsFit(b: Board, c: Color) { CountOf(b, Man(c, Pawn)) <= 8 }

  predicate ColorFits(b: Board, c: Color) { Additional(b, c) <= 8 - CountOf(b, Man(c, Pawn)) }

  predicate Limits(b: Board) {
    && |Occ(b)| <= 32
    && PawnsFit(b, White) && PawnsFit(b, Black) && ColorFits(b, White) && ColorFits(b, Black)
  }

  function CheckBoard(b: Board): Result<Board> {
    if !NoEdgePawns(b) then Refused(EdgePawns)
    else if CountOf(b, Man(White, King)) != 1 || CountOf(b, Man(Black, King)) != 1 then Refused(WrongKings)
    else if !PawnsFit(b, White) then Refused(TooManyPawns)
    else if !ColorFits(b, White) then Refused(TooManyOfColor)
    else if !PawnsFit(b, Black) then Refused(TooManyPawns)
    else if !ColorFits(b, Black) then Refused(TooManyOfColor)
    else Fine(b)
  }

  lemma OneKingCounts(b: Board, c: Color)
    ensures CountOf(b, Man(c, King)) == 1 <==> OneKing(b, c)
  {
    var s := OfKind(b, c, King);
    if |s| == 1 {
      var k :| k in s;
      assert s - {k} == {} by { assert |s - {k}| == 0; }
      assert forall x: Square :: b[x] == Man(c, King) ==> x in s && (x == k || x in s - {k});
    }
    if OneKing(b, c) {
      var k: Square :| 0 <= k < 64 && b[k] == Man(c, King) && forall x: Square :: b[x] == Man(c, King) ==> x == k;
      assert s == {k};
    }
  }

  // Within the limits a side has at most 13 sliders, so the 16 slots of the slider
  // cache are never used up.
  lemma CacheFits(p: Pos)
    requires OneKing(p.board, p.stm) && Limits(p.board)
    ensures |FullCache(p)| <= 13
  {
    hide FullCache, OfKind;
    FullCacheLength(p);
    if p.stm == White { assert ColorFits(p.board, White); } else { assert p.stm == Black && ColorFits(p.board, Black); }
  }

  // The limits hold after every legal move of a board that meets them.
  lemma LimitsKept(p: Pos, m: Move)
    requires Ok(p) && LegalMove(p, m) && Limits(p.board)
    ensures Limits(After(p.board, p.stm, m))
  {
    hide Ok, LegalMove, CountOf, Occ, After;
    LegalTouches(p, m);
    MenKept(p, m);
    ColorKept(p, m, White);
    ColorKept(p, m, Black);
  }

  lemma MenChange(b: Board, s: Square, pc: Piece)
    ensures |Occ(b[s := pc])| == |Occ(b)| - (if b[s] != NoPiece then 1 else 0) + (if pc != NoPiece then 1 else 0)
  {
    var o, n := Occ(b), Occ(b[s := pc]);
    if b[s] != NoPiece && pc == NoPiece { assert n == o - {s}; }
    else if b[s] == NoPiece && pc != NoPiece { assert n == o + {s}; }
    else { assert n == o; }
  }

  lemma MenKept(p: Pos, m: Move)
    requires Touches(p.board, p.stm, m) && (m.kind == Castling ==> p.board[m.to] == Man(p.stm, Rook))
    ensures |Occ(After(p.board, p.stm, m))| <= |Occ(p.board)|
  {
    hide Occ, After, Taken, CapSq, Play.Landing;
    var b, us := p.board, p.stm;
    var b1: Board := b[TakenOn(m) := NoPiece];
    var b2: Board := b1[m.from := NoPiece];
    var b3: Board := b2[Play.Landing(us, m) := Placed(b, us, m)];
    MenChange(b, TakenOn(m), NoPiece);
    MenChange(b1, m.from, NoPiece);
    MenChange(b2, Play.Landing(us, m), Placed(b, us, m));
    if m.kind == Castling { MenChange(b3, RookTo(us, m.to > m.from), Man(us, Rook)); }
  }

  lemma ColorKept(p: Pos, m: Move, c: Color)
    requires Ok(p) && LegalMove(p, m) && PawnsFit(p.board, c) && ColorFits(p.board, c)
    ensures PawnsFit(After(p.board, p.stm, m), c) && ColorFits(After(p.board, p.stm, m), c)
  {
    hide Ok, LegalMove, CountOf, After, CapSq;
    LegalTouches(p, m);
    CountsAfter(p.board, p.stm, m, Man(c, Pawn));
    CountsAfter(p.board, p.stm, m, Man(c, Knight));
    CountsAfter(p.board, p.stm, m, Man(c, Bishop));
    CountsAfter(p.board, p.stm, m, Man(c, Rook));
    CountsAfter(p.board, p.stm, m, Man(c, Queen));
  }

  // ---------- printing the placement ----------

  function Digit(e: int): string
    requires 0 <= e <= 8
  {
    if e == 0 then "" else [DigitOf(e)]
  }

  // Rank r from file f on, with e empty squares pending.
  function RankText(b: Board, r: int, f: int, e: int): string
    requires 0 <= r < 8 && 0 <= e <= f <= 8
    decreases 8 - f
  {
    if f == 8 then Digit(e)
    else if b[SquareAt(f, r)] == NoPiece then RankText(b, r, f + 1, e + 1)
    else Digit(e) + [PieceChar(b[SquareAt(f, r)])] + RankText(b, r, f + 1, 0)
  }

  // Ranks r down to the first, separated by slashes.
  function PlacementText(b: Board, r: int): string
    requires 0 <= r < 8
    decreases r
  {
    RankText(b, r, 0, 0) + (if r == 0 then "" else "/" + PlacementText(b, r - 1))
  }

  method PrintPlacement(b: Board) returns (text: string)
    ensures text == PlacementText(b, 7)
  {
    hide PlacementText;
    text := "";
    var r := 7;
    while true
      invariant 0 <= r < 8
      invariant text + PlacementText(b, r) == PlacementText(b, 7)
      decreases r
    {
      PlacementStep(b, r, text);
      var line := PrintRank(b, r);
      text := text + line;
      if r == 0 {
        break;
      }
      text := text + "/";
      r := r - 1;
    }
  }

  lemma PlacementStep(b: Board, r: int, text: string)
    requires 0 <= r < 8
    ensures r == 0 ==> text + PlacementText(b, r) == text + RankText(b, r, 0, 0)
    ensures r > 0 ==> text + PlacementText(b, r) == text + RankText(b, r, 0, 0) + "/" + PlacementText(b, r - 1)
  {
    hide RankText;
  }

  method PrintRank(b: Board, r: int) returns (text: string)
    requires 0 <= r < 8
    ensures text == RankText(b, r, 0, 0)
  {
    hide PieceChar, Digit, RankText;
    text := "";
    var f := 0;
    while f < 8
      invariant 0 <= f <= 9
      invariant f <= 8 ==> text + RankText(b, r, f, 0) == RankText(b, r, 0, 0)
      invariant f == 9 ==> text == RankText(b, r, 0, 0)
      decreases 9 - f
    {
      var emptyCnt := 0;
      while f < 8 && b[SquareAt(f, r)] == NoPiece
        invariant 0 <= emptyCnt <= f <= 8
        invariant text + RankText(b, r, f, emptyCnt) == RankText(b, r, 0, 0)
      {
        RankStep(b, r, f, emptyCnt, text);
        emptyCnt := emptyCnt + 1;
        f := f + 1;
      }
      RankStep(b, r, f, emptyCnt, text);
      text := text + Digit(emptyCnt);
      if f < 8 {
        text := text + [PieceChar(b[SquareAt(f, r)])];
      }
      f := f + 1;
    }
    if f == 8 {
      RankStep(b, r, 8, 0, text);
    }
  }

  // What the printing loop adds at one square.
  lemma RankStep(b: Board, r: int, f: int, e: nat, text: string)
    requires 0 <= r < 8 && 0 <= f <= 8 && e <= f
    ensures f == 8 ==> RankText(b, r, f, e) == Digit(e)
    ensures f == 8 ==> text + RankText(b, r, f, 0) == text
    ensures f < 8 && b[SquareAt(f, r)] == NoPiece ==> RankText(b, r, f, e) == RankText(b, r, f + 1, e + 1)
    ensures f < 8 && b[SquareAt(f, r)] != NoPiece ==>
      text + RankText(b, r, f, e) == text + Digit(e) + [PieceChar(b[SquareAt(f, r)])] + RankText(b, r, f + 1, 0)
  {
    hide PieceChar;
  }

  // ---------- the placement read back ----------

  // The board above rank r, and on rank r left of file f.
  function Upto(b: Board, r: int, f: int): Board {
    seq(64, s requires 0 <= s < 64 => if s / 8 > r || (s / 8 == r && s % 8 < f) then b[s] else NoPiece)
  }

  lemma UptoNext(b: Board, r: int, f: int)
    requires 0 <= r < 8 && 0 <= f < 8
    ensures Upto(b, r, f + 1) == Upto(b, r, f)[SquareAt(f, r) := b[SquareAt(f, r)]]
    ensures Upto(b, r, f)[SquareAt(f, r)] == NoPiece
  {
    var s := SquareAt(f, r);
    assert s / 8 == r && s % 8 == f;
    var l, u := Upto(b, r, f + 1), Upto(b, r, f)[s := b[s]];
    forall t | 0 <= t < 64 ensures l[t] == u[t] { SameCell(r, f, t); }
  }

  lemma SameCell(r: int, f: int, t: int)
    requires 0 <= r < 8 && 0 <= f < 8 && 0 <= t < 64
    ensures t == 8 * r + f <==> t / 8 == r && t % 8 == f
  {
  }

  lemma UptoEnds(b: Board, r: int)
    ensures r >= 1 ==> Upto(b, r, 8) == Upto(b, r - 1, 0)
    ensures Upto(b, 7, 0) == EmptyBoard() && Upto(b, 0, 8) == b
  {
  }

  lemma UptoSubset(b: Board, r: int, f: int)
    ensures |Occ(Upto(b, r, f))| <= |Occ(b)|
  {
    assert Occ(Upto(b, r, f)) <= Occ(b);
    GenNormal.CardMono(Occ(Upto(b, r, f)), Occ(b));
  }

  function At(b: Board, r: int, f: int, e: int): Cursor {
    Cursor(f - e, r, Upto(b, r, f), |Occ(Upto(b, r, f))|)
  }

  lemma PlaceStep(t: char, rest: string, c: Cursor)
    requires CursorOk(c) && !IsSpace(t) && PlaceOne(t, c).Fine?
    ensures CursorOk(PlaceOne(t, c).value) && Place([t] + rest, c) == Place(rest, PlaceOne(t, c).value)
  {
    hide PlaceOne;
    PlaceOneOk(t, c);
    assert ([t] + rest)[0] == t && ([t] + rest)[1..] == rest;
  }

  // The pending empty squares as one digit.
  lemma DigitRead(b: Board, r: int, f: int, e: int, rest: string)
    requires 0 <= r < 8 && 0 <= e <= f <= 8
    ensures Place(Digit(e) + rest, At(b, r, f, e)) == Place(rest, At(b, r, f, 0))
  {
    hide Upto, Place;
    if e == 0 {
      assert "" + rest == rest;
    } else {
      PlaceStep(DigitOf(e), rest, At(b, r, f, e));
    }
  }

  lemma PieceRead(b: Board, r: int, f: int, rest: string)
    requires 0 <= r < 8 && 0 <= f < 8 && b[SquareAt(f, r)] != NoPiece && |Occ(b)| <= 32
    ensures Place([PieceChar(b[SquareAt(f, r)])] + rest, At(b, r, f, 0)) == Place(rest, At(b, r, f + 1, 0))
  {
    hide Upto, Place, Occ, PieceOf, PieceChar;
    var pc, s := b[SquareAt(f, r)], SquareAt(f, r);
    PieceRoundTrip(pc);
    UptoNext(b, r, f);
    MenChange(Upto(b, r, f), s, pc);
    UptoSubset(b, r, f + 1);
    PlaceStep(PieceChar(pc), rest, At(b, r, f, 0));
  }

  lemma EmptyMoves(b: Board, r: int, f: int, e: int)
    requires 0 <= r < 8 && 0 <= e <= f < 8 && b[SquareAt(f, r)] == NoPiece
    ensures At(b, r, f + 1, e + 1) == At(b, r, f, e)
  {
    hide Upto;
    UptoNext(b, r, f);
    assert Upto(b, r, f)[SquareAt(f, r) := NoPiece] == Upto(b, r, f);
  }

  lemma {:induction false} RankRead(b: Board, r: int, f: int, e: int, rest: string)
    requires 0 <= r < 8 && 0 <= e <= f <= 8 && |Occ(b)| <= 32
    ensures Place(RankText(b, r, f, e) + rest, At(b, r, f, e)) == Place(rest, At(b, r, 8, 0))
    decreases 8 - f
  {
    hide Place, Upto, At, PieceChar, Digit, Occ;
    if f == 8 {
      DigitRead(b, r, f, e, rest);
    } else if b[SquareAt(f, r)] == NoPiece {
      EmptyMoves(b, r, f, e);
      RankRead(b, r, f + 1, e + 1, rest);
    } else {
      var ch, more := [PieceChar(b[SquareAt(f, r)])], RankText(b, r, f + 1, 0);
      assert Digit(e) + ch + more + rest == Digit(e) + (ch + (more + rest));
      CursorsOk(b, r, f, e);
      DigitRead(b, r, f, e, ch + (more + rest));
      PieceRead(b, r, f, more + rest);
      RankRead(b, r, f + 1, 0, rest);
    }
  }

  lemma CursorsOk(b: Board, r: int, f: int, e: int)
    requires 0 <= r < 8 && 0 <= e <= f <= 8
    ensures CursorOk(At(b, r, f, e)) && CursorOk(At(b, r, f, 0))
  {
  }

  lemma SlashRead(b: Board, r: int, rest: string)
    requires 0 < r < 8
    ensures Place("/" + rest, At(b, r, 8, 0)) == Place(rest, At(b, r - 1, 0, 0))
  {
    hide Place, Upto;
    UptoEnds(b, r);
    PlaceStep('/', rest, At(b, r, 8, 0));
  }

  lemma {:induction false} PlacementRead(b: Board, r: int, rest: string)
    requires 0 <= r < 8 && |Occ(b)| <= 32
    ensures Place(PlacementText(b, r) + rest, At(b, r, 0, 0)) == Place(rest, At(b, 0, 8, 0))
    decreases r
  {
    hide Place, Upto, At, RankText, Occ;
    CursorsOk(b, r, 0, 0);
    CursorsOk(b, r, 8, 0);
    if r == 0 {
      RankRead(b, 0, 0, 0, rest);
      assert PlacementText(b, 0) == RankText(b, 0, 0, 0);
    } else {
      var line, more := RankText(b, r, 0, 0), PlacementText(b, r - 1);
      assert line + ("/" + more) + rest == line + ("/" + (more + rest));
      CursorsOk(b, r - 1, 0, 0);
      RankRead(b, r, 0, 0, "/" + (more + rest));
      SlashRead(b, r, more + rest);
      PlacementRead(b, r - 1, rest);
    }
  }

  const Start := Cursor(0, 7, EmptyBoard(), 0)

  // The printed placement is read back as the board.
  lemma PlacementRoundTrip(b: Board, rest: string)
    requires |Occ(b)| <= 32
    ensures Place(PlacementText(b, 7) + (" " + rest), Start) == Fine((Cursor(8, 0, b, |Occ(b)|), rest))
  {
    hide PlacementText;
    UptoEnds(b, 7);
    assert Occ(EmptyBoard()) == {};
    PlacementRead(b, 7, " " + rest);
    assert (" " + rest)[1..] == rest;
  }

  // ---------- castling ----------

  datatype Granted = Granted(rights: set<Right>, rookSq: map<Right, Square>, mask: RightsMask)

  function NoMask(): RightsMask { seq(64, _ => {}) }

  const NoCastling := Granted({}, map[], NoMask())

  // set_castling_right: a right named before gives up its mask bit on the old rook.
  function SetRight(b: Board, g: Granted, c: Color, rfrom: Square): Granted
    requires OneKing(b, c)
  {
    var k := KingSq(b, c);
    var r := Right(c, k < rfrom);
    var m0 := if r in g.rights && r in g.rookSq then g.mask[g.rookSq[r] := g.mask[g.rookSq[r]] - {r}] else g.mask;
    var m1 := m0[k := m0[k] + {r}];
    Granted(g.rights + {r}, g.rookSq[r := rfrom], m1[rfrom := m1[rfrom] + {r}])
  }

  function HomeSquare(c: Color, file: int): Square
    requires 0 <= file < 8
  {
    SquareAt(file, if c == White then 0 else 7)
  }

  // K and Q: from the corner inwards, the first rook met before the king.
  function Scan(b: Board, c: Color, dir: int, file: int, i: nat, rook: Option<Square>): (Option<Square>, Option<Square>)
    requires (dir == -1 && file == 7 - i) || (dir == 1 && file == i)
    decreases 7 - i
  {
    if i >= 7 then (None, rook)
    else
      var s := HomeSquare(c, file);
      if b[s] == Man(c, King) then (Some(s), rook)
      else Scan(b, c, dir, file + dir, i + 1, if b[s] == Man(c, Rook) && rook == None then Some(s) else rook)
  }

  // A file letter: the king is looked for on the files b to g.
  function InnerKing(b: Board, c: Color, i: nat, king: Option<Square>): Option<Square>
    decreases 6 - i
  {
    if i >= 6 then king
    else InnerKing(b, c, i + 1, if b[HomeSquare(c, 1 + i)] == Man(c, King) then Some(HomeSquare(c, 1 + i)) else king)
  }

  // King and rook of one token, where found.
  function Named(b: Board, t: char): Result<(Option<Square>, Option<Square>)> {
    var c := if 'a' <= t <= 'z' then Black else White;
    var u := Upper(t);
    if u == 'K' then Fine(Scan(b, c, -1, 7, 0, None))
    else if u == 'Q' then Fine(Scan(b, c, 1, 0, 0, None))
    else if 'A' <= u <= 'H' then
      var s := HomeSquare(c, u as int - 'A' as int);
      Fine((InnerKing(b, c, 0, None), if b[s] == Man(c, Rook) then Some(s) else None))
    else Refused(BadRight)
  }

  function TakeToken(b: Board, t: char, g: Granted): Result<Granted>
    requires OneKing(b, White) && OneKing(b, Black)
  {
    var c := if 'a' <= t <= 'z' then Black else White;
    var f :- Named(b, t);
    Fine(if f.0.Some? && f.1.Some? then SetRight(b, g, c, f.1.value) else g)
  }

  // The castling field and the space that ends it.
  function Rights(b: Board, s: string, num: nat, g: Granted): Result<(Granted, string)>
    requires OneKing(b, White) && OneKing(b, Black)
    decreases |s|
  {
    if s == "" then Fine((g, s))
    else if IsSpace(s[0]) then Fine((g, s[1..]))
    else if num == 0 && s[0] == '-' then Fine((g, s[1..][SpaceRun(s[1..])..]))
    else if num + 1 > 4 then Refused(TooManyRights)
    else
      var d :- TakeToken(b, s[0], g);
      Rights(b, s[1..], num + 1, d)
  }

  // Held rights are well placed and masked exactly; no other is masked.
  ghost predicate Fits(b: Board, g: Granted)
    requires OneKing(b, White) && OneKing(b, Black)
  {
    && (forall r :: r in g.rights ==>
          OneKing(b, r.color) && RightOk(Pos(b, White, None, g.rights, g.rookSq, g.mask), r))
    && (forall r, s: Square :: r !in g.rights ==> r !in g.mask[s])
  }

  lemma AnyKing(b: Board, c: Color)
    requires OneKing(b, White) && OneKing(b, Black)
    ensures OneKing(b, c)
  {
  }

  // A king inside the home rank and a rook on it.
  ghost predicate Pair(b: Board, c: Color, k: Square, rook: Square)
  {
    && OneKing(b, c) && k == KingSq(b, c) && b[rook] == Man(c, Rook)
    && RelativeRank(c, k) == 0 && RelativeRank(c, rook) == 0 && 1 <= File(k) <= 6
  }

  lemma SetRightFits(b: Board, g: Granted, c: Color, k: Square, rfrom: Square)
    requires OneKing(b, White) && OneKing(b, Black) && Fits(b, g) && Pair(b, c, k, rfrom)
    ensures Fits(b, SetRight(b, g, c, rfrom))
  {
    hide RelativeRank, OneKing;
    var r0, h := Right(c, k < rfrom), SetRight(b, g, c, rfrom);
    assert k != rfrom by { assert b[k] == Man(c, King); }
    forall r | r in h.rights
      ensures OneKing(b, r.color) && RightOk(Pos(b, White, None, h.rights, h.rookSq, h.mask), r) {
      if r != r0 {
        assert r in g.rights;
        assert RightOk(Pos(b, White, None, g.rights, g.rookSq, g.mask), r);
      } else if r in g.rights {
        assert RightOk(Pos(b, White, None, g.rights, g.rookSq, g.mask), r);
      }
    }
  }

  lemma HomeIs(c: Color, file: int)
    requires 0 <= file < 8
    ensures RelativeRank(c, HomeSquare(c, file)) == 0 && File(HomeSquare(c, file)) == file
    ensures forall s: Square :: RelativeRank(c, s) == 0 && File(s) == file ==> s == HomeSquare(c, file)
  {
  }

  lemma {:induction false} ScanFinds(b: Board, c: Color, dir: int, file: int, i: nat, rook: Option<Square>)
    requires (dir == -1 && file == 7 - i) || (dir == 1 && file == i)
    requires rook.Some? ==> b[rook.value] == Man(c, Rook) && RelativeRank(c, rook.value) == 0 && i >= 1
    ensures var (k, r) := Scan(b, c, dir, file, i, rook);
            k.Some? && r.Some? ==>
              && b[k.value] == Man(c, King) && RelativeRank(c, k.value) == 0 && 1 <= File(k.value) <= 6
              && b[r.value] == Man(c, Rook) && RelativeRank(c, r.value) == 0
    decreases 7 - i
  {
    hide RelativeRank, HomeSquare, File;
    if i < 7 {
      HomeIs(c, file);
      var s := HomeSquare(c, file);
      if b[s] != Man(c, King) {
        ScanFinds(b, c, dir, file + dir, i + 1, if b[s] == Man(c, Rook) && rook == None then Some(s) else rook);
      }
    }
  }

  lemma {:induction false} InnerKingIs(b: Board, c: Color, i: nat, king: Option<Square>)
    requires OneKing(b, c) && i <= 6
    requires king.Some? ==> king.value == KingSq(b, c) && RelativeRank(c, king.value) == 0 && 1 <= File(king.value) <= 6
    requires RelativeRank(c, KingSq(b, c)) == 0 && 1 <= File(KingSq(b, c)) <= i ==> king == Some(KingSq(b, c))
    ensures InnerKing(b, c, i, king) ==
            if RelativeRank(c, KingSq(b, c)) == 0 && 1 <= File(KingSq(b, c)) <= 6 then Some(KingSq(b, c)) else None
    decreases 6 - i
  {
    hide RelativeRank, HomeSquare, File, OneKing;
    if i < 6 {
      HomeIs(c, 1 + i);
      InnerKingIs(b, c, i + 1, if b[HomeSquare(c, 1 + i)] == Man(c, King) then Some(HomeSquare(c, 1 + i)) else king);
    }
  }

  // Whatever a token names is a king inside its home rank and a rook on it.
  lemma NamedIsPair(b: Board, t: char)
    requires OneKing(b, White) && OneKing(b, Black) && Named(b, t).Fine?
    ensures var (k, r) := Named(b, t).value;
            k.Some? && r.Some? ==> Pair(b, if 'a' <= t <= 'z' then Black else White, k.value, r.value)
  {
    hide RelativeRank, HomeSquare, File, OneKing, Scan, InnerKing;
    var c := if 'a' <= t <= 'z' then Black else White;
    AnyKing(b, c);
    var (k, r) := Named(b, t).value;
    if Upper(t) == 'K' {
      ScanFinds(b, c, -1, 7, 0, None);
    } else if Upper(t) == 'Q' {
      ScanFinds(b, c, 1, 0, 0, None);
    } else {
      InnerKingIs(b, c, 0, None);
      HomeIs(c, Upper(t) as int - 'A' as int);
    }
    if k.Some? && r.Some? {
      assert b[k.value] == Man(c, King) && KingSq(b, c) == k.value;
    }
  }

  lemma TokenFits(b: Board, t: char, g: Granted)
    requires OneKing(b, White) && OneKing(b, Black) && Fits(b, g) && TakeToken(b, t, g).Fine?
    ensures Fits(b, TakeToken(b, t, g).value)
  {
    hide Fits, Named, Pair, OneKing, SetRight;
    NamedIsPair(b, t);
    var (k, r) := Named(b, t).value;
    if k.Some? && r.Some? { SetRightFits(b, g, if 'a' <= t <= 'z' then Black else White, k.value, r.value); }
  }

  // Every castling field that is accepted leaves exact rights.
  lemma {:induction false} RightsFit(b: Board, s: string, num: nat, g: Granted)
    requires OneKing(b, White) && OneKing(b, Black) && Fits(b, g) && Rights(b, s, num, g).Fine?
    ensures Fits(b, Rights(b, s, num, g).value.0)
    decreases |s|
  {
    hide Fits, TakeToken, OneKing;
    if s != "" && !IsSpace(s[0]) && !(num == 0 && s[0] == '-') {
      TokenFits(b, s[0], g);
      RightsFit(b, s[1..], num + 1, TakeToken(b, s[0], g).value);
    }
  }

  lemma NoneFits(b: Board)
    requires OneKing(b, White) && OneKing(b, Black)
    ensures Fits(b, NoCastling)
  {
  }

  // ---------- printing and reading rights ----------

  function RightAt(i: nat): Right
    requires i < 4
  {
    Right(if i < 2 then White else Black, i % 2 == 0)
  }

  // The letter of a right: with Shredder letters the file of its rook, else K or Q.
  function RightChar(r: Right, rookSq: map<Right, Square>, chess960: bool): char
    requires r in rookSq
  {
    var u := if chess960 then (File(rookSq[r]) + 'A' as int) as char else if r.kingSide then 'K' else 'Q';
    if r.color == White then u else Lower(u)
  }

  function RightsFrom(rights: set<Right>, rookSq: map<Right, Square>, chess960: bool, i: nat): string
    requires forall r :: r in rights ==> r in rookSq
    decreases 4 - i
  {
    if i >= 4 then ""
    else
      var here := if RightAt(i) in rights then [RightChar(RightAt(i), rookSq, chess960)] else "";
      here + RightsFrom(rights, rookSq, chess960, i + 1)
  }

  function RightsText(rights: set<Right>, rookSq: map<Right, Square>, chess960: bool): string
    requires forall r :: r in rights ==> r in rookSq
  {
    if rights == {} then "-" else RightsFrom(rights, rookSq, chess960, 0)
  }

  // The rights numbered below i.
  function Numbered(rights: set<Right>, i: nat): set<Right> {
    set r | r in rights && RightNumber(r) < i
  }

  function RightNumber(r: Right): nat {
    (if r.color == White then 0 else 2) + (if r.kingSide then 0 else 1)
  }

  // ---------- the rook a letter names ----------

  // The rook of the right's side that stands nearest to the corner.
  predicate Outermost(b: Board, r: Right, s: Square)
    requires OneKing(b, r.color)
  {
    && b[s] == Man(r.color, Rook) && RelativeRank(r.color, s) == 0
    && (r.kingSide <==> s > KingSq(b, r.color))
    && forall t: Square ::
         (b[t] == Man(r.color, Rook) && RelativeRank(r.color, t) == 0 && (r.kingSide <==> t > KingSq(b, r.color)))
         ==> if r.kingSide then t <= s else s <= t
  }

  // The i-th square from the corner a scan starts in.
  function FromCorner(c: Color, kingSide: bool, i: nat): Square
    requires i < 8
  {
    HomeSquare(c, if kingSide then 7 - i else i)
  }

  lemma CornersDiffer(c: Color, kingSide: bool, i: nat, j: nat)
    requires i < j < 8
    ensures FromCorner(c, kingSide, i) != FromCorner(c, kingSide, j)
    ensures if kingSide then FromCorner(c, kingSide, j) < FromCorner(c, kingSide, i)
            else FromCorner(c, kingSide, i) < FromCorner(c, kingSide, j)
  {
  }

  // A scan that has the first rook at o and the king at k ahead of it returns both.
  lemma {:induction false} ScanMeets(b: Board, c: Color, kingSide: bool, i: nat, o: nat, k: nat)
    requires OneKing(b, c) && o < k <= 6 && i <= k && b[FromCorner(c, kingSide, k)] == Man(c, King)
    requires b[FromCorner(c, kingSide, o)] == Man(c, Rook)
    requires forall j: nat :: j < o ==> b[FromCorner(c, kingSide, j)] != Man(c, Rook)
    ensures Scan(b, c, if kingSide then -1 else 1, if kingSide then 7 - i else i, i,
                 if i <= o then None else Some(FromCorner(c, kingSide, o)))
            == (Some(FromCorner(c, kingSide, k)), Some(FromCorner(c, kingSide, o)))
    decreases 7 - i
  {
    hide OneKing;
    if i < k {
      CornersDiffer(c, kingSide, i, k);
      assert KingSq(b, c) == FromCorner(c, kingSide, k);
      hide HomeSquare;
      ScanMeets(b, c, kingSide, i + 1, o, k);
    }
  }

  lemma {:induction false} FirstRook(b: Board, c: Color, kingSide: bool, n: nat) returns (o: nat)
    requires n < 8 && b[FromCorner(c, kingSide, n)] == Man(c, Rook)
    ensures o <= n && b[FromCorner(c, kingSide, o)] == Man(c, Rook)
    ensures forall j: nat :: j < o ==> b[FromCorner(c, kingSide, j)] != Man(c, Rook)
    decreases n
  {
    if j: nat :| j < n && b[FromCorner(c, kingSide, j)] == Man(c, Rook) {
      o := FirstRook(b, c, kingSide, j);
    } else {
      o := n;
    }
  }

  lemma AtCorner(c: Color, kingSide: bool, s: Square)
    requires RelativeRank(c, s) == 0
    ensures s == FromCorner(c, kingSide, if kingSide then 7 - File(s) else File(s))
  {
  }

  // Between king and corner the letters K and Q name the outermost rook.
  lemma ScanNames(b: Board, r: Right, rook: Square) returns (s: Square)
    requires OneKing(b, r.color) && Beside(b, r, rook)
    ensures Outermost(b, r, s) && Beside(b, r, s)
    ensures Scan(b, r.color, if r.kingSide then -1 else 1, if r.kingSide then 7 else 0, 0, None)
            == (Some(KingSq(b, r.color)), Some(s))
  {
    var c, side, king := r.color, r.kingSide, KingSq(b, r.color);
    var n, k := if side then 7 - File(rook) else File(rook), if side then 7 - File(king) else File(king);
    AtCorner(c, side, rook);
    AtCorner(c, side, king);
    CornerOrder(c, side, n, k);
    var o := FirstRook(b, c, side, n);
    s := FromCorner(c, side, o);
    CornerOrder(c, side, o, k);
    ScanMeets(b, c, side, 0, o, k);
    HomeIs(c, if side then 7 - o else o);
    hide Scan, RelativeRank, FromCorner, OneKing, File;
    forall t: Square | b[t] == Man(c, Rook) && RelativeRank(c, t) == 0 && (side <==> t > king)
      ensures if side then t <= s else s <= t {
      var j := CornerOf(c, side, t);
      CornerOrder(c, side, o, j);
    }
  }

  lemma CornerOf(c: Color, kingSide: bool, s: Square) returns (i: nat)
    requires RelativeRank(c, s) == 0
    ensures i < 8 && FromCorner(c, kingSide, i) == s
  {
    i := if kingSide then 7 - File(s) else File(s);
    AtCorner(c, kingSide, s);
  }

  lemma CornerOrder(c: Color, kingSide: bool, i: nat, j: nat)
    requires i < 8 && j < 8
    ensures i < j <==> if kingSide then FromCorner(c, kingSide, j) < FromCorner(c, kingSide, i)
                       else FromCorner(c, kingSide, i) < FromCorner(c, kingSide, j)
  {
  }

  // A rook on the home rank, on the right's side of a king inside that rank.
  predicate Beside(b: Board, r: Right, rook: Square)
    requires OneKing(b, r.color)
  {
    && b[rook] == Man(r.color, Rook) && RelativeRank(r.color, rook) == 0
    && RelativeRank(r.color, KingSq(b, r.color)) == 0 && 1 <= File(KingSq(b, r.color)) <= 6
    && (r.kingSide <==> rook > KingSq(b, r.color))
  }

  // The rook the printed letter of a right names: with Shredder letters the
  // right's own, else the outermost.
  ghost predicate Names(p: Pos, r: Right, chess960: bool, s: Square)
    requires OneKing(p.board, r.color) && r in p.rookSq
  {
    Beside(p.board, r, s) && if chess960 then s == p.rookSq[r] else Outermost(p.board, r, s)
  }

  lemma OnlyOutermost(b: Board, r: Right, s: Square, t: Square)
    requires OneKing(b, r.color) && Outermost(b, r, s) && Outermost(b, r, t)
    ensures s == t
  {
  }

  lemma LetterNames(p: Pos, r: Right, chess960: bool) returns (s: Square)
    requires OneKing(p.board, White) && OneKing(p.board, Black) && OneKing(p.board, r.color)
    requires r in p.rookSq && Beside(p.board, r, p.rookSq[r])
    ensures Names(p, r, chess960, s)
    ensures var t := RightChar(r, p.rookSq, chess960);
            && !IsSpace(t) && t != '-' && (('a' <= t <= 'z') <==> r.color == Black)
            && Named(p.board, t) == Fine((Some(KingSq(p.board, r.color)), Some(s)))
  {
    hide RelativeRank, HomeSquare, OneKing, Scan, InnerKing, Outermost;
    if chess960 {
      s := p.rookSq[r];
      InnerKingIs(p.board, r.color, 0, None);
      HomeIs(r.color, File(s));
    } else {
      s := ScanNames(p.board, r, p.rookSq[r]);
    }
  }

  // ---------- letter by letter ----------

  // What has been read after the letters of the rights below i.
  ghost predicate ReadUpto(p: Pos, chess960: bool, g: Granted, i: nat)
    requires OneKing(p.board, White) && OneKing(p.board, Black)
  {
    && Fits(p.board, g) && g.rights == Numbered(p.rights, i)
    && forall r :: r in g.rights ==>
         r in g.rookSq && r in p.rookSq && OneKing(p.board, r.color) && Names(p, r, chess960, g.rookSq[r])
  }

  lemma LetterRead(p: Pos, chess960: bool, g: Granted, i: nat, rest: string, num: nat)
    requires Ok(p) && OneKing(p.board, White) && OneKing(p.board, Black) && i < 4 && num <= i
    requires RightAt(i) in p.rights && RightAt(i) in p.rookSq && ReadUpto(p, chess960, g, i)
    ensures var t := RightChar(RightAt(i), p.rookSq, chess960);
            && TakeToken(p.board, t, g).Fine? && ReadUpto(p, chess960, TakeToken(p.board, t, g).value, i + 1)
            && Rights(p.board, [t] + rest, num, g) == Rights(p.board, rest, num + 1, TakeToken(p.board, t, g).value)
  {
    hide InCheck, EpOk, NoEdgePawns, Named, SetRight, Rights, Fits, RightChar, RelativeRank, OneKing, Outermost;
    var b, r := p.board, RightAt(i);
    assert RightOk(p, r);
    var s := LetterNames(p, r, chess960);
    var t := RightChar(r, p.rookSq, chess960);
    TokenFits(b, t, g);
    NewRight(b, g, r, s);
    NumberedNext(p.rights, i);
    RightsStep(b, t, rest, num, g);
  }

  lemma RightsStep(b: Board, t: char, rest: string, num: nat, g: Granted)
    requires OneKing(b, White) && OneKing(b, Black) && !IsSpace(t) && t != '-' && num < 4 && TakeToken(b, t, g).Fine?
    ensures Rights(b, [t] + rest, num, g) == Rights(b, rest, num + 1, TakeToken(b, t, g).value)
  {
    hide TakeToken, OneKing;
    assert ([t] + rest)[0] == t && ([t] + rest)[1..] == rest;
  }

  lemma NewRight(b: Board, g: Granted, r: Right, rook: Square)
    requires OneKing(b, r.color) && (r.kingSide <==> rook > KingSq(b, r.color)) && b[rook] == Man(r.color, Rook)
    ensures SetRight(b, g, r.color, rook).rights == g.rights + {r}
            && SetRight(b, g, r.color, rook).rookSq == g.rookSq[r := rook]
  {
  }

  lemma NumberedNext(rights: set<Right>, i: nat)
    requires i < 4
    ensures RightAt(i) in rights ==> Numbered(rights, i + 1) == Numbered(rights, i) + {RightAt(i)}
    ensures RightAt(i) !in rights ==> Numbered(rights, i + 1) == Numbered(rights, i)
    ensures RightAt(i) !in Numbered(rights, i)
  {
    forall r | RightNumber(r) == i ensures r == RightAt(i) {}
  }

  lemma NumberedAll(rights: set<Right>)
    ensures Numbered(rights, 4) == rights && Numbered(rights, 0) == {}
  {
  }

  lemma {:induction false} LettersRead(p: Pos, chess960: bool, g: Granted, i: nat, rest: string, num: nat)
    returns (h: Granted)
    requires Ok(p) && OneKing(p.board, White) && OneKing(p.board, Black) && i <= 4 && num <= i
             && ReadUpto(p, chess960, g, i)
    requires forall r :: r in p.rights ==> r in p.rookSq
    ensures ReadUpto(p, chess960, h, 4)
    ensures Rights(p.board, RightsFrom(p.rights, p.rookSq, chess960, i) + (" " + rest), num, g) == Fine((h, rest))
    decreases 4 - i
  {
    hide Ok, OneKing, ReadUpto, RightChar, TakeToken;
    if i == 4 {
      h := g;
      assert "" + (" " + rest) == " " + rest && (" " + rest)[1..] == rest;
    } else if RightAt(i) in p.rights {
      var t, more := RightChar(RightAt(i), p.rookSq, chess960), RightsFrom(p.rights, p.rookSq, chess960, i + 1);
      assert [t] + more + (" " + rest) == [t] + (more + (" " + rest));
      hide Rights;
      LetterRead(p, chess960, g, i, more + (" " + rest), num);
      h := LettersRead(p, chess960, TakeToken(p.board, t, g).value, i + 1, rest, num + 1);
    } else {
      var more := RightsFrom(p.rights, p.rookSq, chess960, i + 1);
      assert "" + more == more;
      hide Rights;
      SkippedRead(p, chess960, g, i);
      h := LettersRead(p, chess960, g, i + 1, rest, num);
    }
  }

  lemma SkippedRead(p: Pos, chess960: bool, g: Granted, i: nat)
    requires OneKing(p.board, White) && OneKing(p.board, Black) && i < 4 && RightAt(i) !in p.rights
             && ReadUpto(p, chess960, g, i)
    ensures ReadUpto(p, chess960, g, i + 1)
  {
    hide Fits, OneKing;
    NumberedNext(p.rights, i);
  }

  // The printed rights of a consistent position are read back, each with the rook
  // its letter names.
  lemma RightsRoundTrip(p: Pos, chess960: bool, rest: string) returns (h: Granted)
    requires Ok(p) && OneKing(p.board, White) && OneKing(p.board, Black)
             && (forall r :: r in p.rights ==> r in p.rookSq)
    requires rest != "" && !IsSpace(rest[0])
    ensures Rights(p.board, RightsText(p.rights, p.rookSq, chess960) + (" " + rest), 0, NoCastling) == Fine((h, rest))
    ensures ReadUpto(p, chess960, h, 4)
  {
    hide Ok, OneKing, RightsFrom, Fits;
    NoneFits(p.board);
    NumberedAll(p.rights);
    if p.rights == {} {
      h := NoCastling;
      var s := "-" + (" " + rest);
      assert s[0] == '-' && s[1..] == " " + rest;
      SpaceRunIs(" ", rest);
      assert (" " + rest)[1..] == rest;
      assert Numbered(p.rights, 4) == {};
    } else {
      h := LettersRead(p, chess960, NoCastling, 0, rest, 0);
    }
  }

  // ---------- the en passant square ----------

  // Pawns of us that could capture on e.
  function Capturers(b: Board, us: Color, e: Square): Bitboard {
    set f: Square | IsOk(f) && PawnHits(us.Flip(), e, f) && b[f] == Man(us, Pawn)
  }

  // After the capture from f no enemy but the captured pawn attacks the king.
  predicate CaptureUnchecked(b: Board, us: Color, f: Square, e: Square)
    requires OneKing(b, us) && IsOk(e - Push(us))
  {
    AttackersTo(b, KingSq(b, us), EpOcc(b, us, f, e)) * Of(b, us.Flip()) - {Victim(us, e)} == {}
  }

  // The square is kept only with its shape right and some capture on it legal.
  ghost predicate KeepEp(b: Board, us: Color, e: Square)
    requires OneKing(b, us)
  {
    EpShape(b, us, e) && exists f :: f in Capturers(b, us, e) && CaptureUnchecked(b, us, f, e)
  }

  method LegalEp(b: Board, us: Color, e: Square) returns (keep: bool)
    requires OneKing(b, us)
    ensures keep <==> KeepEp(b, us, e)
  {
    hide AttackersTo, EpOcc, Capturers, Occ;
    if !EpShape(b, us, e) {
      return false;
    }
    var all := Capturers(b, us, e);
    var pawns := all;
    var legalEP := false;
    while pawns != {}
      invariant pawns <= all
      invariant legalEP <==> exists f :: f in all - pawns && CaptureUnchecked(b, us, f, e)
      decreases pawns
    {
      var f := Lsb(pawns);
      if CaptureUnchecked(b, us, f, e) {
        legalEP := true;
      }
      pawns := pawns - {f};
    }
    assert all - pawns == all;
    return legalEP;
  }

  // The coded test is the legality of the capture.
  lemma UncheckedIsSafe(b: Board, us: Color, f: Square, e: Square)
    requires OneKing(b, us) && Candidate(b, us, f, e)
    ensures CaptureUnchecked(b, us, f, e) <==> Safe(b, us, Move(f, e, EnPassant))
  {
    hide Safe, AttackersTo, Hits, EpOcc, PawnHits;
    EpSafeIff(b, us, f, e);
    var k, occ := KingSq(b, us), EpOcc(b, us, f, e);
    forall x: Square ensures x in AttackersTo(b, k, occ) <==> Hits(b[x], x, k, occ) {
      AttackersToAreHits(b, k, occ, x);
    }
    NoneLeft(AttackersTo(b, k, occ), Of(b, us.Flip()), Victim(us, e));
  }

  lemma NoneLeft(attackers: Bitboard, enemies: Bitboard, v: Square)
    ensures attackers * enemies - {v} == {} <==> forall x :: x in enemies && x != v ==> x !in attackers
  {
    var m := attackers * enemies - {v};
    if m == {} {
      forall x | x in enemies && x != v ensures x !in attackers { assert x !in m; }
    }
  }

  lemma KeepEpIff(p: Pos, e: Square)
    requires OneKing(p.board, p.stm)
    ensures KeepEp(p.board, p.stm, e) <==> EpOk(p.(ep := Some(e)))
  {
    hide Safe, CaptureUnchecked, EpShape;
    var b, us := p.board, p.stm;
    forall f: Square ensures f in Capturers(b, us, e) <==> b[f] == Man(us, Pawn) && PawnHits(us, f, e) {
      PawnFlip(us, f, e);
    }
    if EpShape(b, us, e) {
      forall f: Square | b[f] == Man(us, Pawn) && PawnHits(us, f, e)
        ensures CaptureUnchecked(b, us, f, e) <==> Safe(b, us, Move(f, e, EnPassant)) {
        UncheckedIsSafe(b, us, f, e);
      }
      forall f: Square
        ensures PseudoEnPassant(p.(ep := Some(e)), f, e) <==> b[f] == Man(us, Pawn) && PawnHits(us, f, e) {
      }
    }
  }

  // The en passant field.
  ghost function EpField(b: Board, us: Color, s: string): Result<(Option<Square>, string)>
    requires OneKing(b, us)
  {
    if s == "" then Fine((None, s))
    else if s[0] == '-' then Fine((None, s[1..]))
    else if |s| < 2 then Refused(EndOfStream)
    else if 'a' <= s[0] <= 'h' && s[1] == (if us == White then '6' else '3') then
      var e := SquareAt(s[0] as int - 'a' as int, if us == White then 5 else 2);
      Fine((if KeepEp(b, us, e) then Some(e) else None, s[2..]))
    else Refused(BadEnPassant)
  }

  // ---------- the two clocks ----------

  const INT_MAX := 0x7FFF_FFFF

  // Extraction of an int: blanks, a sign, digits. Without digits zero, and past the
  // range its end; both fail the stream.
  function ReadInt(s: string): (int, bool, string) {
    var t := s[SpaceRun(s)..];
    var negative := t != "" && t[0] == '-';
    var u := if t != "" && (t[0] == '-' || t[0] == '+') then t[1..] else t;
    var k := DigitRun(u);
    if k == 0 then (0, false, "")
    else
      var n: int := DigitsValue(u[..k]);
      var v := if negative then 0 - n else n;
      if v > INT_MAX then (INT_MAX, false, "")
      else if v < -INT_MAX - 1 then (-INT_MAX - 1, false, "")
      else (v, true, u[k..])
  }

  // A failed stream leaves the second clock as it was, zero.
  function Clocks(s: string): (int, int) {
    var (rule50, ok, rest) := ReadInt(s);
    (rule50, if ok then ReadInt(rest).0 else 0)
  }

  // ---------- set ----------

  datatype Setup = Setup(pos: Pos, rule50: int, gamePly: int)

  function BlackOne(c: Color): int { if c == Black then 1 else 0 }

  lemma CheckedKings(b: Board)
    requires CheckBoard(b).Fine?
    ensures OneKing(b, White) && OneKing(b, Black) && CheckBoard(b).value == b && NoEdgePawns(b)
    ensures PawnsFit(b, White) && PawnsFit(b, Black) && ColorFits(b, White) && ColorFits(b, Black)
  {
    hide OneKing, NoEdgePawns, CountOf;
    OneKingCounts(b, White);
    OneKingCounts(b, Black);
  }

  // The fields after the placement and the side.
  ghost function SetRest(b: Board, us: Color, s: string): Result<Setup>
    requires OneKing(b, White) && OneKing(b, Black) && OneKing(b, us) && OneKing(b, us.Flip())
  {
    var rights :- Rights(b, s, 0, NoCastling);
    var ep :- EpField(b, us, rights.1);
    var (rule50, fullmove) := Clocks(ep.1);
    if rule50 < 0 || rule50 > 32767 then Refused(Rule50Range)
    else if fullmove < 0 || fullmove > 100000 then Refused(PlyRange)
    else if AttackersTo(b, KingSq(b, us.Flip()), Occ(b)) * Of(b, us) != {} then Refused(KingCanBeCaptured)
    else
      var p := Pos(b, us, ep.0, rights.0.rights, rights.0.rookSq, rights.0.mask);
      Fine(Setup(p, rule50, Max(2 * (fullmove - 1), 0) + BlackOne(us)))
  }

  // Position::set
  ghost function SetFen(s: string): Result<Setup> {
    var placed :- Place(s, Start);
    var (c, t) := placed;
    if c.rank != 0 || c.file != 8 then Refused(CursorNotAtEnd)
    else
      var b :- CheckBoard(c.board);
      CheckedKings(c.board);
      if t == "" then Refused(EndOfStream)
      else if t[0] != 'w' && t[0] != 'b' then Refused(BadSide)
      else if |t| < 2 || !IsSpace(t[1]) then Refused(NoSpaceAfterSide)
      else
        var us := if t[0] == 'w' then White else Black;
        AnyKing(b, us.Flip());
        SetRest(b, us, t[2..])
  }

  // ---------- what set accepts is a consistent position ----------

  lemma {:induction false} PlaceCounts(s: string, c: Cursor)
    requires CursorOk(c) && |Occ(c.board)| <= c.men <= 32 && Place(s, c).Fine?
    ensures var d := Place(s, c).value.0; |Occ(d.board)| <= d.men <= 32
    decreases |s|
  {
    hide Occ, PieceOf;
    if !IsSpace(s[0]) {
      var d := PlaceOne(s[0], c).value;
      PlaceOneOk(s[0], c);
      PlaceOneCounts(s[0], c);
      hide PlaceOne;
      PlaceCounts(s[1..], d);
    }
  }

  lemma PlaceOneCounts(t: char, c: Cursor)
    requires CursorOk(c) && !IsSpace(t) && PlaceOne(t, c).Fine? && |Occ(c.board)| <= c.men <= 32
    ensures |Occ(PlaceOne(t, c).value.board)| <= PlaceOne(t, c).value.men <= 32
  {
    hide Occ, PieceOf;
    if !IsDigit(t) && t != '/' { MenChange(c.board, SquareAt(c.file, c.rank), PieceOf(t).value); }
  }

  lemma NotCapturable(b: Board, us: Color)
    requires OneKing(b, us) && OneKing(b, us.Flip())
    ensures AttackersTo(b, KingSq(b, us.Flip()), Occ(b)) * Of(b, us) == {} <==> !InCheck(b, us.Flip())
  {
    hide AttackersTo, Of, OneKing, Hits;
    Play.FlipFlip(us);
    AttackedByIsAttackersTo(b, us, KingSq(b, us.Flip()), Occ(b));
  }

  lemma SetRestOk(b: Board, us: Color, s: string)
    requires OneKing(b, White) && OneKing(b, Black) && OneKing(b, us) && OneKing(b, us.Flip()) && NoEdgePawns(b)
    requires SetRest(b, us, s).Fine?
    ensures Ok(SetRest(b, us, s).value.pos) && SetRest(b, us, s).value.pos.board == b
    ensures 0 <= SetRest(b, us, s).value.rule50 <= 32767 && SetRest(b, us, s).value.gamePly >= 0
    ensures SetRest(b, us, s).value.gamePly % 2 == BlackOne(us)
  {
    hide OneKing, NoEdgePawns, InCheck, AttackersTo, Of, Rights, Clocks, KeepEp, SquareAt, RightOk, EpOk;
    NoneFits(b);
    RightsFit(b, s, 0, NoCastling);
    NotCapturable(b, us);
    var g := Rights(b, s, 0, NoCastling).value;
    var p := SetRest(b, us, s).value.pos;
    EpFieldKeeps(b, us, g.1, p);
    forall r | r in p.rights ensures OneKing(p.board, r.color) && RightOk(p, r) { FitsOk(b, g.0, p, r); }
  }

  lemma FitsOk(b: Board, g: Granted, p: Pos, r: Right)
    requires OneKing(b, White) && OneKing(b, Black) && Fits(b, g) && r in g.rights
    requires p.board == b && p.rights == g.rights && p.rookSq == g.rookSq && p.mask == g.mask
    ensures OneKing(p.board, r.color) && RightOk(p, r)
  {
    hide OneKing, RelativeRank;
    assert RightOk(Pos(b, White, None, g.rights, g.rookSq, g.mask), r);
  }

  lemma EpFieldKeeps(b: Board, us: Color, s: string, p: Pos)
    requires OneKing(b, us) && EpField(b, us, s).Fine? && p.board == b && p.stm == us
             && p.ep == EpField(b, us, s).value.0
    ensures EpOk(p)
  {
    hide KeepEp, OneKing, EpShape, PseudoEnPassant, Safe;
    if p.ep.Some? {
      KeepEpIff(p, p.ep.value);
      assert p.(ep := Some(p.ep.value)) == p;
    }
  }

  // Whatever string set accepts, the position is consistent and within the limits.
  lemma AcceptedIsOk(s: string)
    requires SetFen(s).Fine?
    ensures var r := SetFen(s).value;
            Ok(r.pos) && Limits(r.pos.board) && 0 <= r.rule50 <= 32767 && r.gamePly >= 0
                && r.gamePly % 2 == BlackOne(r.pos.stm)
  {
    hide Place, CheckBoard, SetRest, OneKing, NoEdgePawns, Ok, CountOf, PawnsFit, ColorFits;
    StartEmpty();
    PlaceCounts(s, Start);
    var (c, t) := Place(s, Start).value;
    CheckedKings(c.board);
    var us := if t[0] == 'w' then White else Black;
    AnyKing(c.board, us.Flip());
    SetRestOk(c.board, us, t[2..]);
    assert SetFen(s) == SetRest(c.board, us, t[2..]);
    SideKept(c.board, us, t[2..]);
  }

  lemma SideKept(b: Board, us: Color, s: string)
    requires OneKing(b, White) && OneKing(b, Black) && OneKing(b, us) && OneKing(b, us.Flip())
             && SetRest(b, us, s).Fine?
    ensures SetRest(b, us, s).value.pos.stm == us
  {
    hide OneKing, AttackersTo, Rights, EpField, Clocks;
  }

  lemma StartEmpty()
    ensures Occ(Start.board) == {} && CursorOk(Start) && Start.men == 0
  {
  }

  // ---------- fen ----------

  function EpText(ep: Option<Square>): string {
    if ep == None then "-" else [((File(ep.value)) + 'a' as int) as char, ((Rank(ep.value)) + '1' as int) as char]
  }

  function Half(x: int): int { if x >= 0 then x / 2 else -((-x) / 2) }

  function Fullmove(us: Color, gamePly: nat): (n: nat)
    ensures n >= 1
  {
    1 + Half(gamePly - BlackOne(us))
  }

  // Position::fen
  function FenText(p: Pos, rule50: nat, gamePly: nat, chess960: bool): string
    requires forall r :: r in p.rights ==> r in p.rookSq
  {
    var side := if p.stm == White then "w" else "b";
    PlacementText(p.board, 7) + (" " + (side + (" " + RestText(p, rule50, gamePly, chess960))))
  }

  function RestText(p: Pos, rule50: nat, gamePly: nat, chess960: bool): string
    requires forall r :: r in p.rights ==> r in p.rookSq
  {
    RightsText(p.rights, p.rookSq, chess960)
        + (" " + (EpText(p.ep) + (" " + (Decimal(rule50) + (" " + Decimal(Fullmove(p.stm, gamePly)))))))
  }

  // ---------- the round trip ----------

  lemma {:induction false} DigitRunUpTo(d: string, rest: string)
    requires AllDigits(d) && (rest != "" ==> !IsDigit(rest[0]))
    ensures DigitRun(d + rest) == |d|
  {
    if d == "" {
      assert d + rest == rest;
    } else {
      assert (d + rest)[1..] == d[1..] + rest && IsDigit(d[0]);
      DigitRunUpTo(d[1..], rest);
    }
  }

  lemma IntRead(n: nat, rest: string)
    requires rest != "" ==> !IsDigit(rest[0])
    ensures ReadInt(" " + (Decimal(n) + rest)) == if n > INT_MAX then (INT_MAX, false, "") else (n, true, rest)
  {
    var d := Decimal(n);
    var u := d + rest;
    hide Decimal;
    DecimalDigits(n);
    assert u[0] == d[0] && IsDigit(d[0]);
    SpaceRunIs(" ", u);
    assert (" " + u)[1..] == u;
    DigitRunUpTo(d, rest);
    assert u[..|d|] == d && u[|d|..] == rest;
  }

  lemma ClocksRead(rule50: nat, fullmove: nat)
    ensures var (a, b) := Clocks(" " + (Decimal(rule50) + (" " + Decimal(fullmove))));
            && (rule50 <= INT_MAX ==>
                  a == rule50 && (fullmove <= INT_MAX ==> b == fullmove) && (fullmove > INT_MAX ==> b == INT_MAX))
            && (rule50 > INT_MAX ==> a == INT_MAX)
  {
    hide Decimal, ReadInt;
    IntRead(rule50, " " + Decimal(fullmove));
    IntRead(fullmove, "");
    assert Decimal(fullmove) + "" == Decimal(fullmove);
  }

  lemma EpRead(p: Pos, rest: string)
    requires OneKing(p.board, p.stm) && EpOk(p)
    ensures EpField(p.board, p.stm, EpText(p.ep) + rest) == Fine((p.ep, rest))
    ensures EpText(p.ep) != "" && !IsSpace(EpText(p.ep)[0])
  {
    hide KeepEp, OneKing, Safe, PseudoEnPassant;
    var s := EpText(p.ep) + rest;
    if p.ep == None {
      assert s[1..] == rest;
    } else {
      var e := p.ep.value;
      KeepEpIff(p, e);
      assert p.(ep := Some(e)) == p;
      assert s[2..] == rest && s[0] == EpText(p.ep)[0] && s[1] == EpText(p.ep)[1];
    }
  }

  lemma BoardAccepted(p: Pos)
    requires Ok(p) && Limits(p.board)
    ensures CheckBoard(p.board) == Fine(p.board) && OneKing(p.board, White) && OneKing(p.board, Black)
  {
    hide OneKing, NoEdgePawns, CountOf, InCheck, EpOk, RightOk, Additional;
    OneKingCounts(p.board, White);
    OneKingCounts(p.board, Black);
  }

  lemma OkRooks(p: Pos)
    requires Ok(p)
    ensures forall r :: r in p.rights ==> r in p.rookSq && OneKing(p.board, r.color)
    ensures OneKing(p.board, p.stm) && OneKing(p.board, p.stm.Flip()) && EpOk(p) && !InCheck(p.board, p.stm.Flip())
  {
    hide InCheck, EpOk, NoEdgePawns, RelativeRank, OneKing;
    forall r | r in p.rights ensures r in p.rookSq && OneKing(p.board, r.color) { assert RightOk(p, r); }
  }

  // What comes back: the position, the rooks the letters of its rights name, and
  // the clocks.
  ghost predicate Rebuilt(p: Pos, rule50: nat, gamePly: nat, chess960: bool, r: Setup)
    requires forall g :: g in p.rights ==> g in p.rookSq && OneKing(p.board, g.color)
  {
    && r.pos.board == p.board && r.pos.stm == p.stm && r.pos.ep == p.ep && r.pos.rights == p.rights
    && (forall g :: g in p.rights ==> g in r.pos.rookSq && Names(p, g, chess960, r.pos.rookSq[g]))
    && r.rule50 == rule50 && r.gamePly == gamePly
  }

  // The position itself comes back.
  ghost predicate Same(p: Pos, rule50: nat, gamePly: nat, r: Setup) {
    && r.pos.board == p.board && r.pos.stm == p.stm && r.pos.ep == p.ep && r.pos.rights == p.rights
    && (forall g :: g in p.rights ==> g in r.pos.rookSq && g in p.rookSq && r.pos.rookSq[g] == p.rookSq[g])
    && r.rule50 == rule50 && r.gamePly == gamePly
  }

  // Every rook with a right is the outermost of its side.
  ghost predicate AllOutermost(p: Pos)
    requires forall g :: g in p.rights ==> g in p.rookSq && OneKing(p.board, g.color)
  {
    forall g :: g in p.rights ==> Outermost(p.board, g, p.rookSq[g])
  }

  lemma RebuiltIsSame(p: Pos, rule50: nat, gamePly: nat, chess960: bool, r: Setup)
    requires forall g :: g in p.rights ==> g in p.rookSq && OneKing(p.board, g.color)
    requires Rebuilt(p, rule50, gamePly, chess960, r)
    ensures Same(p, rule50, gamePly, r) <==> chess960 || AllOutermost(p)
  {
    hide Outermost, Beside, OneKing;
    forall g | g in p.rights && !chess960
      ensures r.pos.rookSq[g] == p.rookSq[g] <==> Outermost(p.board, g, p.rookSq[g]) {
      assert Names(p, g, chess960, r.pos.rookSq[g]);
      if Outermost(p.board, g, p.rookSq[g]) { OnlyOutermost(p.board, g, r.pos.rookSq[g], p.rookSq[g]); }
    }
  }

  lemma RestRoundTrip(p: Pos, rule50: nat, gamePly: nat, chess960: bool)
    requires Ok(p) && OneKing(p.board, White) && OneKing(p.board, Black) && OneKing(p.board, p.stm)
             && OneKing(p.board, p.stm.Flip())
    requires (forall r :: r in p.rights ==> r in p.rookSq && OneKing(p.board, r.color))
             && gamePly % 2 == BlackOne(p.stm)
    ensures var r := SetRest(p.board, p.stm, RestText(p, rule50, gamePly, chess960));
            && (r.Fine? <==> rule50 <= 32767 && Fullmove(p.stm, gamePly) <= 100000)
            && (r.Fine? ==> Rebuilt(p, rule50, gamePly, chess960, r.value))
  {
    hide OneKing, RightsText, Rights, EpText, Decimal, AttackersTo, Of, Fits, EpField, Clocks, InCheck, Ok, Names;
    OkRooks(p);
    var clocks := " " + (Decimal(rule50) + (" " + Decimal(Fullmove(p.stm, gamePly))));
    EpRead(p, clocks);
    assert (EpText(p.ep) + clocks)[0] == EpText(p.ep)[0];
    var h := RightsRoundTrip(p, chess960, EpText(p.ep) + clocks);
    NumberedAll(p.rights);
    ClocksRead(rule50, Fullmove(p.stm, gamePly));
    NotCapturable(p.board, p.stm);
    PlyBack(p.stm, gamePly);
  }

  lemma PlyBack(us: Color, gamePly: nat)
    requires gamePly % 2 == BlackOne(us)
    ensures Max(2 * (Fullmove(us, gamePly) - 1), 0) + BlackOne(us) == gamePly
  {
  }

  // Of the printed positions set accepts exactly those with the clocks in range, and
  // rebuilds them; with Shredder letters always the position itself, with K and Q
  // exactly if every rook with a right is the outermost of its side.
  lemma FenRoundTrip(p: Pos, rule50: nat, gamePly: nat, chess960: bool)
    requires Ok(p) && Limits(p.board) && gamePly % 2 == BlackOne(p.stm)
    ensures forall r :: r in p.rights ==> r in p.rookSq && OneKing(p.board, r.color)
    ensures var r := SetFen(FenText(p, rule50, gamePly, chess960));
            && (r.Fine? <==> rule50 <= 32767 && Fullmove(p.stm, gamePly) <= 100000)
            && (r.Fine? ==> Rebuilt(p, rule50, gamePly, chess960, r.value)
                            && (Same(p, rule50, gamePly, r.value) <==> chess960 || AllOutermost(p)))
  {
    hide Ok, PlacementText, RestText, Place, CheckBoard, SetRest, OneKing, Rebuilt, Same, AllOutermost, Occ, PawnsFit,
      ColorFits;
    OkRooks(p);
    BoardAccepted(p);
    RestRoundTrip(p, rule50, gamePly, chess960);
    var side := if p.stm == White then "w" else "b";
    var rest := RestText(p, rule50, gamePly, chess960);
    PlacementRoundTrip(p.board, side + (" " + rest));
    var t := side + (" " + rest);
    assert t[0] == side[0] && t[1] == ' ' && t[2..] == rest;
    var r := SetFen(FenText(p, rule50, gamePly, chess960));
    if r.Fine? { RebuiltIsSame(p, rule50, gamePly, chess960, r.value); }
  }

  // Along a game from an accepted string, every position prints and reads back.
  lemma {:induction false} LimitsAlongRun(p: Pos, run: seq<Play.Ply>)
    requires Ok(p) && Limits(p.board) && Play.LegalRun(p, run)
    ensures Limits(Play.RunEnd(p, run).board)
    decreases |run|
  {
    hide Ok, LegalMove, Limits, Play.DoMove, Play.DoNull;
    if run != [] {
      Play.PlyOk(p, run[0]);
      OkRooks(p);
      PlyLimits(p, run[0]);
      LimitsAlongRun(Play.DoPly(p, run[0]), run[1..]);
    }
  }

  lemma PlyLimits(p: Pos, a: Play.Ply)
    requires Ok(p) && Limits(p.board) && Play.LegalPly(p, a) && OneKing(p.board, p.stm.Flip())
    ensures Limits(Play.DoPly(p, a).board)
  {
    hide Ok, LegalMove, Limits;
    match a
    case Make(m) => LimitsKept(p, m);
    case Null =>
  }

  // Moves alternate the side to move.
  lemma {:induction false} SideAfter(p: Pos, run: seq<Play.Ply>)
    requires Ok(p) && Play.LegalRun(p, run) && forall i :: 0 <= i < |run| ==> run[i].Make?
    ensures (|run| + BlackOne(p.stm)) % 2 == BlackOne(Play.RunEnd(p, run).stm)
    decreases |run|
  {
    hide Ok, LegalMove, Play.NewEp, After;
    if run != [] {
      Play.PlyOk(p, run[0]);
      OkRooks(p);
      SideAfter(Play.DoPly(p, run[0]), run[1..]);
    }
  }

  lemma PlayedFromFen(s: string, run: seq<Play.Ply>, rule50: nat, chess960: bool)
    requires SetFen(s).Fine? && Ok(SetFen(s).value.pos) && Play.LegalRun(SetFen(s).value.pos, run)
    requires forall i :: 0 <= i < |run| ==> run[i].Make?
    ensures var p, gamePly := Play.RunEnd(SetFen(s).value.pos, run), SetFen(s).value.gamePly + |run|;
            && Ok(p) && (forall r :: r in p.rights ==> r in p.rookSq && OneKing(p.board, r.color)) && gamePly >= 0
            && var r := SetFen(FenText(p, rule50, gamePly, chess960));
               && (r.Fine? <==> rule50 <= 32767 && Fullmove(p.stm, gamePly) <= 100000)
               && (r.Fine? ==> (Same(p, rule50, gamePly, r.value) <==> chess960 || AllOutermost(p)))
  {
    hide SetFen, Ok, Limits, Same, Play.LegalRun, Play.RunEnd, FenText, AllOutermost, Rebuilt, OneKing;
    AcceptedIsOk(s);
    var start := SetFen(s).value;
    LimitsAlongRun(start.pos, run);
    SideAfter(start.pos, run);
    FenRoundTrip(Play.RunEnd(start.pos, run), rule50, start.gamePly + |run|, chess960);
  }
}
