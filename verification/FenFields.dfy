// Which strings set accepts, and what they mean, field by field: stated on the text
// as a grid of cells and on the letters as names of rooks, without a cursor.

module FenFields {
  import opened Chess
  import opened Attacks
  import opened Rules
  import opened KeyUpdate
  import opened Text
  import opened Fen

  predicate NoSpaces(t: string) { forall i :: 0 <= i < |t| ==> !IsSpace(t[i]) }

  // ---------- the placement ----------

  function Blanks(n: nat): string { seq(n, _ => ' ') }

  // Each digit written out as that many blanks.
  function Unrolled(t: string): string {
    if t == "" then "" else (if IsDigit(t[0]) then Blanks(t[0] as int - '0' as int) else [t[0]]) + Unrolled(t[1..])
  }

  predicate DigitsOk(t: string) { forall i :: 0 <= i < |t| && IsDigit(t[i]) ==> '1' <= t[i] <= '8' }

  function Cell(pc: Piece): char { if pc == NoPiece then ' ' else PieceChar(pc) }

  function Row(b: Board, r: int): string
    requires 0 <= r < 8
  {
    seq(8, f requires 0 <= f < 8 => Cell(b[SquareAt(f, r)]))
  }

  // The cells of rank r from file f on, and the ranks below, a slash between ranks.
  function Grid(b: Board, r: int, f: int): string
    requires 0 <= r < 8 && 0 <= f <= 8
    decreases r
  {
    Row(b, r)[f..] + (if r == 0 then "" else "/" + Grid(b, r - 1, 0))
  }

  // The text is a picture of the board.
  predicate Spells(t: string, b: Board) {
    DigitsOk(t) && Unrolled(t) == Grid(b, 7, 0)
  }

  // Everything before the cursor stands as on b, nothing after it.
  predicate Reached(b: Board, c: Cursor) {
    CursorOk(c) && c.board == Upto(b, c.rank, c.file) && c.men == |Occ(c.board)|
  }

  lemma GridStarts(b: Board, r: int, f: int)
    requires 0 <= r < 8 && 0 <= f <= 8
    ensures f < 8 ==> Grid(b, r, f) == [Cell(b[SquareAt(f, r)])] + Grid(b, r, f + 1)
    ensures f == 8 ==> Grid(b, r, f) == if r == 0 then "" else "/" + Grid(b, r - 1, 0)
  {
    hide Cell;
    if f < 8 {
      assert Row(b, r)[f..] == [Row(b, r)[f]] + Row(b, r)[f + 1..];
    } else {
      assert Row(b, r)[8..] == "";
    }
  }

  lemma CellIs(pc: Piece, t: char)
    ensures Cell(pc) == ' ' <==> pc == NoPiece
    ensures Cell(pc) != '/' && !IsDigit(Cell(pc))
    ensures t != ' ' ==> (Cell(pc) == t <==> PieceOf(t) == Some(pc) && pc != NoPiece)
  {
    if pc != NoPiece { PieceRoundTrip(pc); }
    if PieceOf(t).Some? { PieceOfBack(t); }
  }

  lemma PieceOfBack(t: char)
    requires PieceOf(t).Some?
    ensures PieceOf(t).value != NoPiece && PieceChar(PieceOf(t).value) == t
  {
  }

  // A run of blanks on the grid stays on one rank and stands for empty squares.
  lemma {:induction false} BlanksAhead(b: Board, r: int, f: int, n: nat, more: string)
    requires 0 <= r < 8 && 0 <= f <= 8 && Grid(b, r, f) == Blanks(n) + more
    ensures f + n <= 8 && more == Grid(b, r, f + n)
    ensures forall g :: f <= g < f + n ==> b[SquareAt(g, r)] == NoPiece
    decreases n
  {
    if n > 0 {
      GridStarts(b, r, f);
      assert Blanks(n) == [' '] + Blanks(n - 1);
      assert Grid(b, r, f)[0] == ' ';
      hide Cell, Grid, SquareAt;
      if f < 8 {
        CellIs(b[SquareAt(f, r)], ' ');
        assert Grid(b, r, f + 1) == Grid(b, r, f)[1..] == Blanks(n - 1) + more;
        BlanksAhead(b, r, f + 1, n - 1, more);
      }
    } else {
      assert Blanks(0) == "";
    }
  }

  lemma {:induction false} BlanksBack(b: Board, r: int, f: int, n: nat)
    requires 0 <= r < 8 && 0 <= f && f + n <= 8
    requires forall g :: f <= g < f + n ==> b[SquareAt(g, r)] == NoPiece
    ensures Grid(b, r, f) == Blanks(n) + Grid(b, r, f + n)
    decreases n
  {
    if n > 0 {
      GridStarts(b, r, f);
      assert Blanks(n) == [' '] + Blanks(n - 1);
      assert b[SquareAt(f, r)] == NoPiece;
      CellIs(b[SquareAt(f, r)], ' ');
      hide Cell, Grid, SquareAt;
      BlanksBack(b, r, f + 1, n - 1);
    } else {
      assert Blanks(0) == "";
    }
  }

  lemma {:induction false} BlanksSame(b: Board, r: int, f: int, n: nat)
    requires 0 <= r < 8 && 0 <= f && f + n <= 8
    requires forall g :: f <= g < f + n ==> b[SquareAt(g, r)] == NoPiece
    ensures Upto(b, r, f + n) == Upto(b, r, f)
    decreases n
  {
    hide Upto;
    if n > 0 {
      assert b[SquareAt(f, r)] == NoPiece;
      UptoNext(b, r, f);
      assert Upto(b, r, f)[SquareAt(f, r) := NoPiece] == Upto(b, r, f);
      hide SquareAt;
      BlanksSame(b, r, f + 1, n - 1);
    }
  }

  // One character that continues the picture is read, and the cursor follows it.
  lemma OneRead(b: Board, t: char, u: string, c: Cursor)
    requires Reached(b, c) && |Occ(b)| <= 32 && !IsSpace(t) && (IsDigit(t) ==> '1' <= t <= '8')
    requires (if IsDigit(t) then Blanks(t as int - '0' as int) else [t]) + u == Grid(b, c.rank, c.file)
    ensures PlaceOne(t, c).Fine?
    ensures Reached(b, PlaceOne(t, c).value) && u == Grid(b, PlaceOne(t, c).value.rank, PlaceOne(t, c).value.file)
  {
    hide Occ, Grid, PieceOf, Cell, Upto, Blanks;
    var r, f := c.rank, c.file;
    GridStarts(b, r, f);
    if IsDigit(t) {
      var n := t as int - '0' as int;
      BlanksAhead(b, r, f, n, u);
      BlanksSame(b, r, f, n);
    } else {
      assert Grid(b, r, f)[0] == t && Grid(b, r, f)[1..] == u;
      if f == 8 {
        UptoEnds(b, r);
      } else {
        CellIs(b[SquareAt(f, r)], t);
        UptoNext(b, r, f);
        MenChange(Upto(b, r, f), SquareAt(f, r), b[SquareAt(f, r)]);
        UptoSubset(b, r, f + 1);
      }
    }
  }

  lemma {:induction false} PictureRead(b: Board, t: string, sp: char, rest: string, c: Cursor)
    requires Reached(b, c) && |Occ(b)| <= 32 && NoSpaces(t) && DigitsOk(t) && IsSpace(sp)
    requires Unrolled(t) == Grid(b, c.rank, c.file)
    ensures Place(t + [sp] + rest, c) == Fine((Cursor(8, 0, b, |Occ(b)|), rest))
    decreases |t|
  {
    hide Occ, Grid, Upto, Blanks, PlaceOne;
    var s := t + [sp] + rest;
    if t == "" {
      AtEnd(b, c);
      assert s[0] == sp && s[1..] == rest;
    } else {
      OneRead(b, t[0], Unrolled(t[1..]), c);
      assert s == [t[0]] + (t[1..] + [sp] + rest);
      hide Place;
      PlaceStep(t[0], t[1..] + [sp] + rest, c);
      PictureRead(b, t[1..], sp, rest, PlaceOne(t[0], c).value);
    }
  }

  lemma AtEnd(b: Board, c: Cursor)
    requires Reached(b, c) && Grid(b, c.rank, c.file) == ""
    ensures c == Cursor(8, 0, b, |Occ(b)|)
  {
    hide Occ, Upto;
    GridStarts(b, c.rank, c.file);
    UptoEnds(b, 0);
  }

  // Nothing stands after the cursor.
  predicate Clean(c: Cursor) {
    CursorOk(c) && c.board == Upto(c.board, c.rank, c.file) && c.men == |Occ(c.board)|
  }

  lemma OneClean(t: char, c: Cursor)
    requires Clean(c) && !IsSpace(t) && PlaceOne(t, c).Fine?
    ensures Clean(PlaceOne(t, c).value)
  {
    hide Occ, PieceOf;
    var d := PlaceOne(t, c).value;
    if IsDigit(t) || t == '/' {
      UptoWider(c.board, c.rank, c.file, d.rank, d.file);
    } else {
      PieceStands(t);
      hide Upto;
      UptoNext(d.board, c.rank, c.file);
      UptoPut(c.board, c.rank, c.file, d.board[SquareAt(c.file, c.rank)]);
      MenChange(c.board, SquareAt(c.file, c.rank), PieceOf(t).value);
    }
  }

  lemma PieceStands(t: char)
    ensures PieceOf(t).Some? ==> PieceOf(t).value != NoPiece
  {
  }

  lemma UptoWider(b: Board, r: int, f: int, r2: int, f2: int)
    requires 0 <= r2 <= r < 8 && 0 <= f <= 8 && 0 <= f2 <= 8 && (r2 == r ==> f <= f2) && b == Upto(b, r, f)
    ensures b == Upto(b, r2, f2)
  {
    forall s | 0 <= s < 64 ensures b[s] == Upto(b, r2, f2)[s] {
      assert b[s] == Upto(b, r, f)[s];
      assert s / 8 >= 0;
    }
  }

  lemma UptoPut(b: Board, r: int, f: int, pc: Piece)
    requires 0 <= r < 8 && 0 <= f < 8 && b == Upto(b, r, f)
    ensures Upto(b[SquareAt(f, r) := pc], r, f) == b && b[SquareAt(f, r)] == NoPiece
  {
    var s := SquareAt(f, r);
    assert s / 8 == r && s % 8 == f;
    var u := Upto(b[s := pc], r, f);
    forall t | 0 <= t < 64 ensures u[t] == b[t] {
      assert b[t] == Upto(b, r, f)[t];
    }
  }

  lemma UptoTwice(b: Board, r: int, f: int, g: int)
    requires 0 <= r < 8 && 0 <= f <= g <= 8
    ensures Upto(Upto(b, r, g), r, f) == Upto(b, r, f)
    ensures forall h :: 0 <= h < g ==> Upto(b, r, g)[SquareAt(h, r)] == b[SquareAt(h, r)]
    ensures forall h :: f <= h < 8 ==> Upto(b, r, f)[SquareAt(h, r)] == NoPiece
  {
    forall h | 0 <= h < 8 ensures SquareAt(h, r) / 8 == r && SquareAt(h, r) % 8 == h {}
    var u := Upto(Upto(b, r, g), r, f);
    forall s | 0 <= s < 64 ensures u[s] == Upto(b, r, f)[s] {}
  }

  // One character read adds exactly itself to the picture.
  lemma OneWritten(b: Board, t: char, c: Cursor)
    requires Clean(c) && !IsSpace(t) && PlaceOne(t, c).Fine?
    requires CursorOk(PlaceOne(t, c).value)
    requires var d := PlaceOne(t, c).value; Upto(b, d.rank, d.file) == d.board
    ensures Upto(b, c.rank, c.file) == c.board && (IsDigit(t) ==> '1' <= t <= '8')
    ensures var d := PlaceOne(t, c).value;
            (if IsDigit(t) then Blanks(t as int - '0' as int) else [t]) + Grid(b, d.rank, d.file)
            == Grid(b, c.rank, c.file)
  {
    hide Occ, Grid, Upto, PieceOf, Cell, Blanks;
    var r, f, d := c.rank, c.file, PlaceOne(t, c).value;
    if IsDigit(t) {
      var n := t as int - '0' as int;
      UptoTwice(b, r, f, f + n);
      UptoTwice(c.board, r, f, f);
      forall g | f <= g < f + n ensures b[SquareAt(g, r)] == NoPiece {
        assert Upto(b, r, f + n)[SquareAt(g, r)] == b[SquareAt(g, r)];
        assert Upto(c.board, r, f)[SquareAt(g, r)] == NoPiece;
      }
      BlanksBack(b, r, f, n);
    } else if t == '/' {
      UptoEnds(b, r);
      GridStarts(b, r, 8);
    } else {
      UptoTwice(b, r, f, f + 1);
      UptoPut(c.board, r, f, PieceOf(t).value);
      PieceStands(t);
      CellIs(b[SquareAt(f, r)], t);
      GridStarts(b, r, f);
    }
  }

  lemma {:induction false} PictureWritten(t: string, sp: char, rest: string, c: Cursor)
    requires Clean(c) && NoSpaces(t) && IsSpace(sp) && Place(t + [sp] + rest, c).Fine?
    requires var d := Place(t + [sp] + rest, c).value.0; d.rank == 0 && d.file == 8
    ensures var b := Place(t + [sp] + rest, c).value.0.board;
            && Place(t + [sp] + rest, c).value.1 == rest && Upto(b, c.rank, c.file) == c.board
            && DigitsOk(t) && Unrolled(t) == Grid(b, c.rank, c.file)
    decreases |t|
  {
    hide Occ, Grid, Upto, Blanks, PlaceOne;
    var s := t + [sp] + rest;
    if t == "" {
      assert s[0] == sp && s[1..] == rest;
      GridStarts(c.board, 0, 8);
      UptoEnds(c.board, 0);
    } else {
      assert s[0] == t[0] && s[1..] == t[1..] + [sp] + rest;
      OneClean(t[0], c);
      var d := PlaceOne(t[0], c).value;
      PictureWritten(t[1..], sp, rest, d);
      var b := Place(s, c).value.0.board;
      OneWritten(b, t[0], c);
      assert DigitsOk(t) by {
        forall i | 0 <= i < |t| && IsDigit(t[i]) ensures '1' <= t[i] <= '8' {
          if i > 0 { assert t[1..][i - 1] == t[i]; }
        }
      }
    }
  }

  // The placement field is accepted with the board b exactly if it is a picture of b
  // and b has at most 32 men.
  lemma PlacementExact(t: string, sp: char, rest: string, b: Board)
    requires NoSpaces(t) && IsSpace(sp)
    ensures var r := Place(t + [sp] + rest, Start);
            (r.Fine? && r.value.0.rank == 0 && r.value.0.file == 8 && r.value.0.board == b)
            <==> Spells(t, b) && |Occ(b)| <= 32
    ensures Spells(t, b) && |Occ(b)| <= 32 ==> Place(t + [sp] + rest, Start).value.1 == rest
  {
    hide Grid, Place, Occ, Upto, DigitsOk, NoSpaces;
    UptoEnds(b, 7);
    NobodyYet();
    if Spells(t, b) && |Occ(b)| <= 32 {
      PictureRead(b, t, sp, rest, Start);
    }
    var r := Place(t + [sp] + rest, Start);
    if r.Fine? && r.value.0.rank == 0 && r.value.0.file == 8 && r.value.0.board == b {
      UptoEnds(EmptyBoard(), 7);
      PictureWritten(t, sp, rest, Start);
      PlaceCounts(t + [sp] + rest, Start);
    }
  }

  lemma NobodyYet()
    ensures Occ(EmptyBoard()) == {} && |Occ(EmptyBoard())| == 0
  {
  }

  // A placement that no space ends is refused.
  lemma {:induction false} NeverEnded(t: string, c: Cursor)
    requires CursorOk(c) && NoSpaces(t)
    ensures !Place(t, c).Fine?
    decreases |t|
  {
    hide PlaceOne;
    if t != "" && PlaceOne(t[0], c).Fine? {
      PlaceOneOk(t[0], c);
      NeverEnded(t[1..], PlaceOne(t[0], c).value);
    }
  }

  // ---------- the castling letters ----------

  function SideOf(t: char): Color { if 'a' <= t <= 'z' then Black else White }

  predicate RightLetter(t: char) { Upper(t) == 'K' || Upper(t) == 'Q' || 'A' <= Upper(t) <= 'H' }

  // The letter names the right and its rook: K and Q the outermost rook of their side,
  // a file letter the rook on that file; rook and king on the home rank, the king not
  // in a corner.
  predicate Means(b: Board, t: char, r: Right, s: Square)
    requires OneKing(b, r.color)
  {
    && r.color == SideOf(t) && Beside(b, r, s)
    && if Upper(t) == 'K' then r.kingSide && Outermost(b, r, s)
       else if Upper(t) == 'Q' then !r.kingSide && Outermost(b, r, s)
       else 'A' <= Upper(t) <= 'H' && File(s) == Upper(t) as int - 'A' as int
  }

  // The rook a scan notes lies between its corner and the king.
  lemma {:induction false} ScanSide(b: Board, c: Color, dir: int, file: int, i: nat, rook: Option<Square>)
    requires (dir == -1 && file == 7 - i) || (dir == 1 && file == i)
    requires rook.Some? ==> if dir == -1 then File(rook.value) > file else File(rook.value) < file
    ensures var (k, r) := Scan(b, c, dir, file, i, rook);
            k.Some? && r.Some? ==> if dir == -1 then File(r.value) > File(k.value) else File(r.value) < File(k.value)
    decreases 7 - i
  {
    hide HomeSquare, File;
    if i < 7 {
      HomeIs(c, file);
      var s := HomeSquare(c, file);
      if b[s] != Man(c, King) {
        ScanSide(b, c, dir, file + dir, i + 1, if b[s] == Man(c, Rook) && rook == None then Some(s) else rook);
      }
    }
  }

  lemma HomeOrder(c: Color, k: Square, s: Square)
    requires RelativeRank(c, k) == 0 && RelativeRank(c, s) == 0
    ensures k < s <==> File(k) < File(s)
    ensures k == s <==> File(k) == File(s)
  {
  }

  predicate Finds(b: Board, t: char, r: Right, s: Square)
    requires OneKing(b, r.color)
  {
    && Named(b, t) == Fine((Some(KingSq(b, r.color)), Some(s)))
    && r.color == SideOf(t) && (r.kingSide <==> KingSq(b, r.color) < s)
  }

  lemma ScanExact(b: Board, r: Right, s: Square)
    requires OneKing(b, White) && OneKing(b, Black) && OneKing(b, r.color)
    ensures Beside(b, r, s) && Outermost(b, r, s)
            <==> Scan(b, r.color, if r.kingSide then -1 else 1, if r.kingSide then 7 else 0, 0, None)
                 == (Some(KingSq(b, r.color)), Some(s))
  {
    hide Scan, OneKing, Outermost, RelativeRank, File;
    var c, side := r.color, r.kingSide;
    var dir, start := if side then -1 else 1, if side then 7 else 0;
    if Beside(b, r, s) && Outermost(b, r, s) {
      var o := ScanNames(b, r, s);
      OnlyOutermost(b, r, o, s);
    }
    if Scan(b, c, dir, start, 0, None) == (Some(KingSq(b, c)), Some(s)) {
      ScanFinds(b, c, dir, start, 0, None);
      ScanSide(b, c, dir, start, 0, None);
      HomeOrder(c, KingSq(b, c), s);
      var o := ScanNames(b, r, s);
    }
  }

  lemma NamedExact(b: Board, t: char, r: Right, s: Square)
    requires OneKing(b, White) && OneKing(b, Black) && OneKing(b, r.color)
    ensures Means(b, t, r, s) <==> Finds(b, t, r, s)
    ensures Named(b, t).Fine? <==> RightLetter(t)
  {
    hide Scan, OneKing, Outermost, RelativeRank, File, InnerKing, HomeSquare;
    var c := SideOf(t);
    if r.color == c {
      var u := Upper(t);
      if u == 'K' || u == 'Q' {
        ScanLetter(b, t, r, s);
      } else if 'A' <= u <= 'H' {
        InnerKingIs(b, c, 0, None);
        HomeIs(c, u as int - 'A' as int);
      }
    }
  }

  lemma ScanLetter(b: Board, t: char, r: Right, s: Square)
    requires OneKing(b, White) && OneKing(b, Black) && OneKing(b, r.color)
    requires r.color == SideOf(t) && (Upper(t) == 'K' || Upper(t) == 'Q')
    ensures Means(b, t, r, s) <==> Finds(b, t, r, s)
  {
    hide Scan, OneKing, Outermost, RelativeRank, File;
    var side := Right(r.color, Upper(t) == 'K');
    ScanExact(b, side, s);
  }

  // ---------- the castling field ----------

  ghost predicate NamedIn(b: Board, t: string, r: Right)
    requires OneKing(b, r.color)
  {
    exists i, s: Square :: 0 <= i < |t| && Means(b, t[i], r, s)
  }

  // The last letter that names the right names it with this rook.
  ghost predicate LastNames(b: Board, t: string, r: Right, s: Square)
    requires OneKing(b, r.color)
  {
    exists i :: 0 <= i < |t| && Means(b, t[i], r, s) && !NamedIn(b, t[i + 1..], r)
  }

  // What the letters add to the rights held before.
  ghost predicate Adds(b: Board, t: string, g: Granted, h: Granted, r: Right)
    requires OneKing(b, r.color)
  {
    && (r in h.rights <==> r in g.rights || NamedIn(b, t, r))
    && (NamedIn(b, t, r) ==> r in h.rookSq && LastNames(b, t, r, h.rookSq[r]))
    && (!NamedIn(b, t, r) && r in g.rookSq ==> r in h.rookSq && h.rookSq[r] == g.rookSq[r])
  }

  lemma TokenAdds(b: Board, t: char, g: Granted, r: Right)
    requires OneKing(b, White) && OneKing(b, Black) && OneKing(b, r.color)
    ensures TakeToken(b, t, g).Fine? <==> RightLetter(t)
    ensures TakeToken(b, t, g).Fine? ==> Adds(b, [t], g, TakeToken(b, t, g).value, r)
  {
    hide OneKing, Means, Named, RightLetter;
    NamedExact(b, t, r, 0);
    if TakeToken(b, t, g).Fine? {
      var h := TakeToken(b, t, g).value;
      forall s: Square ensures Means(b, t, r, s) <==> Finds(b, t, r, s) { NamedExact(b, t, r, s); }
      assert [t][1..] == "" && [t][0] == t;
      NamedIsPair(b, t);
      var (k, rook) := Named(b, t).value;
      AnyKing(b, SideOf(t));
      if k.Some? && rook.Some? && r == Right(SideOf(t), KingSq(b, SideOf(t)) < rook.value) {
        assert Finds(b, t, r, rook.value);
        assert Means(b, [t][0], r, rook.value);
      }
    }
  }

  lemma NamedSplit(b: Board, t: string, r: Right)
    requires OneKing(b, r.color) && t != ""
    ensures NamedIn(b, t, r) <==> NamedIn(b, [t[0]], r) || NamedIn(b, t[1..], r)
    ensures forall s: Square :: LastNames(b, t[1..], r, s) ==> LastNames(b, t, r, s)
    ensures forall s: Square :: !NamedIn(b, t[1..], r) && LastNames(b, [t[0]], r, s) ==> LastNames(b, t, r, s)
  {
    hide Means, OneKing;
    if NamedIn(b, t, r) {
      var i, s: Square :| 0 <= i < |t| && Means(b, t[i], r, s);
      if i == 0 { assert Means(b, [t[0]][0], r, s); } else { assert Means(b, t[1..][i - 1], r, s); }
    }
    if NamedIn(b, [t[0]], r) {
      var i, s: Square :| 0 <= i < 1 && Means(b, [t[0]][i], r, s);
      assert Means(b, t[0], r, s);
    }
    if NamedIn(b, t[1..], r) {
      var i, s: Square :| 0 <= i < |t[1..]| && Means(b, t[1..][i], r, s);
      assert Means(b, t[i + 1], r, s);
    }
    hide NamedIn;
    forall s: Square | LastNames(b, t[1..], r, s) ensures LastNames(b, t, r, s) {
      var i :| 0 <= i < |t[1..]| && Means(b, t[1..][i], r, s) && !NamedIn(b, t[1..][i + 1..], r);
      assert t[1..][i + 1..] == t[i + 2..] && t[i + 1] == t[1..][i];
    }
    forall s: Square | !NamedIn(b, t[1..], r) && LastNames(b, [t[0]], r, s) ensures LastNames(b, t, r, s) {
      assert Means(b, [t[0]][0], r, s);
      assert Means(b, t[0], r, s);
    }
  }

  lemma AddsBoth(b: Board, t: string, g: Granted, d: Granted, h: Granted, r: Right)
    requires OneKing(b, r.color) && t != "" && Adds(b, [t[0]], g, d, r) && Adds(b, t[1..], d, h, r)
    ensures Adds(b, t, g, h, r)
  {
    hide NamedIn, LastNames;
    NamedSplit(b, t, r);
  }

  // The field is accepted exactly if it has at most four letters and nothing but
  // letters; it grants the rights its letters name.
  lemma {:induction false} RightsExact(b: Board, t: string, sp: char, rest: string, num: nat, g: Granted, r: Right)
    requires OneKing(b, White) && OneKing(b, Black) && OneKing(b, r.color)
    requires NoSpaces(t) && IsSpace(sp) && num <= 4 && (num == 0 && t != "" ==> t[0] != '-')
    ensures Rights(b, t + [sp] + rest, num, g).Fine?
            <==> num + |t| <= 4 && forall i :: 0 <= i < |t| ==> RightLetter(t[i])
    ensures Rights(b, t + [sp] + rest, num, g).Fine? ==>
              && Rights(b, t + [sp] + rest, num, g).value.1 == rest
              && Adds(b, t, g, Rights(b, t + [sp] + rest, num, g).value.0, r)
    decreases |t|
  {
    hide OneKing, TakeToken, RightLetter, Adds, IsSpace;
    var s := t + [sp] + rest;
    if t == "" {
      assert s[0] == sp && s[1..] == rest;
      AddsNothing(b, g, r);
    } else if num < 4 {
      assert s[0] == t[0] && s[1..] == t[1..] + [sp] + rest;
      assert t == [t[0]] + t[1..];
      TokenAdds(b, t[0], g, r);
      if TakeToken(b, t[0], g).Fine? {
        var d := TakeToken(b, t[0], g).value;
        RightsExact(b, t[1..], sp, rest, num + 1, d, r);
        assert (forall i :: 0 <= i < |t| ==> RightLetter(t[i]))
               <==> forall i :: 0 <= i < |t[1..]| ==> RightLetter(t[1..][i]) by {
          if i :| 0 <= i < |t[1..]| && !RightLetter(t[1..][i]) { assert !RightLetter(t[i + 1]); }
          if i :| 0 <= i < |t| && !RightLetter(t[i]) && i > 0 { assert !RightLetter(t[1..][i - 1]); }
        }
        if Rights(b, s, num, g).Fine? {
          AddsBoth(b, t, g, d, Rights(b, s, num, g).value.0, r);
        }
      }
    } else {
      assert s[0] == t[0];
    }
  }

  lemma AddsNothing(b: Board, g: Granted, r: Right)
    requires OneKing(b, r.color)
    ensures Adds(b, "", g, g, r)
  {
  }

  // ---------- the whole string ----------

  // The letters of the castling field, none for a dash.
  function Letters(field: string): string { if field == "-" then "" else field }

  predicate RightsSpelled(field: string) {
    |Letters(field)| <= 4 && forall i :: 0 <= i < |Letters(field)| ==> RightLetter(Letters(field)[i])
  }

  predicate EpSpelled(field: string, us: Color) {
    field == "-" || (|field| == 2 && 'a' <= field[0] <= 'h' && field[1] == (if us == White then '6' else '3'))
  }

  // The square of the field, where a capture on it is legal.
  ghost predicate EpMeant(field: string, p: Pos) {
    if field == "-" then p.ep == None
    else
      && |field| == 2 && 'a' <= field[0] <= 'h'
      && var e := SquareAt(field[0] as int - 'a' as int, if p.stm == White then 5 else 2);
         p.ep == if EpOk(p.(ep := Some(e))) then Some(e) else None
  }

  predicate ClocksFit(s: string) {
    0 <= Clocks(s).0 <= 32767 && 0 <= Clocks(s).1 <= 100000
  }

  // The rights are those the letters name, each with the rook of its last name.
  ghost predicate RightsMeant(field: string, p: Pos)
    requires OneKing(p.board, White) && OneKing(p.board, Black)
  {
    forall r: Right ::
      && OneKing(p.board, r.color)
      && (r in p.rights <==> NamedIn(p.board, Letters(field), r))
      && (r in p.rights ==> r in p.rookSq && LastNames(p.board, Letters(field), r, p.rookSq[r]))
  }

  lemma FieldExact(b: Board, field: string, rest: string)
    requires OneKing(b, White) && OneKing(b, Black)
    requires NoSpaces(field) && field != "" && (field[0] == '-' ==> field == "-") && rest != "" && !IsSpace(rest[0])
    ensures var g := Rights(b, field + " " + rest, 0, NoCastling);
            && (g.Fine? <==> RightsSpelled(field))
            && (g.Fine? ==> g.value.1 == rest
                            && forall p: Pos | p.board == b && p.rights == g.value.0.rights
                                               && p.rookSq == g.value.0.rookSq :: RightsMeant(field, p))
  {
    hide OneKing, RightLetter, NamedIn, LastNames;
    var s := field + " " + rest;
    if field == "-" {
      assert s[0] == '-' && s[1..] == " " + rest;
      SpaceRunIs(" ", rest);
      assert (" " + rest)[1..] == rest;
      forall r: Right ensures OneKing(b, r.color) && Adds(b, "", NoCastling, NoCastling, r) {
        AnyKing(b, r.color);
        AddsNothing(b, NoCastling, r);
      }
    } else {
      forall r: Right
        ensures OneKing(b, r.color)
        ensures Rights(b, s, 0, NoCastling).Fine? <==> RightsSpelled(field)
        ensures Rights(b, s, 0, NoCastling).Fine? ==>
                  && Rights(b, s, 0, NoCastling).value.1 == rest
                  && Adds(b, field, NoCastling, Rights(b, s, 0, NoCastling).value.0, r) {
        AnyKing(b, r.color);
        RightsExact(b, field, ' ', rest, 0, NoCastling, r);
      }
      assert Rights(b, s, 0, NoCastling).Fine? <==> RightsSpelled(field) by {
        assert Right(White, true).color == White;
        AnyKing(b, Right(White, true).color);
      }
    }
  }

  lemma EpExact(b: Board, us: Color, field: string, rest: string)
    requires OneKing(b, us) && (field == "-" || (|field| == 2 && field[0] != '-'))
    ensures var g := EpField(b, us, field + rest);
            && (g.Fine? <==> EpSpelled(field, us))
            && (g.Fine? ==> g.value.1 == rest
                            && forall p: Pos | p.board == b && p.stm == us && p.ep == g.value.0 :: EpMeant(field, p))
  {
    hide OneKing, KeepEp, EpOk;
    var s := field + rest;
    if field == "-" {
      assert s[0] == '-' && s[1..] == rest;
    } else {
      assert s[0] == field[0] && s[1] == field[1] && s[2..] == rest;
      if EpSpelled(field, us) {
        var e := SquareAt(field[0] as int - 'a' as int, if us == White then 5 else 2);
        forall p: Pos | p.board == b && p.stm == us ensures KeepEp(b, us, e) <==> EpOk(p.(ep := Some(e))) {
          KeepEpIff(p, e);
        }
      }
    }
  }

  lemma BoardAccepted(b: Board)
    requires |Occ(b)| <= 32
    ensures CheckBoard(b).Fine? <==> NoEdgePawns(b) && OneKing(b, White) && OneKing(b, Black) && Limits(b)
  {
    hide OneKing, NoEdgePawns, CountOf;
    OneKingCounts(b, White);
    OneKingCounts(b, Black);
  }

  // The fields after the side, given what was placed.
  lemma RestExact(b: Board, us: Color, field: string, ep: string, clocks: string)
    requires OneKing(b, White) && OneKing(b, Black) && OneKing(b, us) && OneKing(b, us.Flip())
    requires NoSpaces(field) && field != "" && (field[0] == '-' ==> field == "-")
    requires NoSpaces(ep) && (ep == "-" || (|ep| == 2 && ep[0] != '-'))
    ensures var r := SetRest(b, us, field + " " + (ep + clocks));
            && (r.Fine? <==> RightsSpelled(field) && EpSpelled(ep, us) && ClocksFit(clocks) && !InCheck(b, us.Flip()))
            && (r.Fine? ==>
                  && r.value.pos.board == b && r.value.pos.stm == us
                  && RightsMeant(field, r.value.pos) && EpMeant(ep, r.value.pos)
                  && r.value.rule50 == Clocks(clocks).0
                  && r.value.gamePly == Max(2 * (Clocks(clocks).1 - 1), 0) + BlackOne(us))
  {
    hide OneKing, Rights, EpField, Clocks, RightsSpelled, RightsMeant, EpSpelled, EpMeant, InCheck, AttackersTo, Of;
    FieldExact(b, field, ep + clocks);
    EpExact(b, us, ep, clocks);
    NotCapturable(b, us);
  }

  // A string of six fields is accepted exactly if the first is a picture of a board
  // of at most 32 men that meets the limits, every other field is spelled right, the
  // clocks are in range and the side that does not move is not in check; the position
  // is the one the fields mean.
  lemma AcceptedExact(place: string, side: char, field: string, ep: string, clocks: string, b: Board)
    requires NoSpaces(place) && NoSpaces(field) && field != "" && (field[0] == '-' ==> field == "-")
    requires NoSpaces(ep) && (ep == "-" || (|ep| == 2 && ep[0] != '-'))
    requires Spells(place, b) && |Occ(b)| <= 32
    ensures var us := if side == 'w' then White else Black;
            var r := SetFen(place + " " + ([side] + " " + (field + " " + (ep + clocks))));
            && (r.Fine? <==>
                && NoEdgePawns(b) && OneKing(b, White) && OneKing(b, Black) && Limits(b) && (side == 'w' || side == 'b')
                && OneKing(b, us.Flip()) && !InCheck(b, us.Flip())
                && RightsSpelled(field) && EpSpelled(ep, us) && ClocksFit(clocks))
            && (r.Fine? ==>
                  && r.value.pos.board == b && r.value.pos.stm == us
                  && RightsMeant(field, r.value.pos) && EpMeant(ep, r.value.pos)
                  && r.value.rule50 == Clocks(clocks).0
                  && r.value.gamePly == Max(2 * (Clocks(clocks).1 - 1), 0) + BlackOne(us))
  {
    hide Spells, Place, OneKing, Clocks, RightsSpelled, RightsMeant, EpSpelled, EpMeant, InCheck, SetRest, CheckBoard,
      NoEdgePawns, Limits, Occ, NoSpaces, Rights, EpField, ClocksFit;
    var rest := [side] + " " + (field + " " + (ep + clocks));
    PlacementExact(place, ' ', rest, b);
    BoardAccepted(b);
    var us := if side == 'w' then White else Black;
    assert rest[0] == side && rest[1] == ' ' && rest[2..] == field + " " + (ep + clocks);
    if CheckBoard(b).Fine? {
      CheckedKings(b);
      AnyKing(b, us);
      AnyKing(b, us.Flip());
      RestExact(b, us, field, ep, clocks);
    }
  }

  // No string is accepted whose first field is a picture of no board.
  lemma AcceptedSpells(place: string, rest: string)
    requires NoSpaces(place) && SetFen(place + " " + rest).Fine?
    ensures Spells(place, SetFen(place + " " + rest).value.pos.board)
  {
    hide Spells, Place, OneKing, CheckBoard, NoSpaces, Rights, EpField, Clocks, AttackersTo, Occ, Of, NoEdgePawns;
    var (c, t) := Place(place + " " + rest, Start).value;
    CheckedKings(c.board);
    PlacementExact(place, ' ', rest, c.board);
  }
}
