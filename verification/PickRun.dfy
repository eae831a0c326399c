// Whole runs of the move picker, and the picker over the lists of the generator.

module PickRun {
  import opened Chess
  import opened Rules
  import opened MoveSort
  import opened MovePick
  import opened GenCount
  import opened Legal
  import GivesCheck

  // ---------- runs ----------

  lemma PopLine(b: Blocks)
    ensures Pop(b).0 == None ==> b.Line() == [] && Pop(b).1 == b
    ensures Pop(b).0.Some? ==> b.Line() == [Pop(b).0.value] + Pop(b).1.Line()
  {
    if b.first != [] {
      assert b.first == [b.first[0]] + b.first[1..];
    } else if b.goodQuiets != [] {
      assert b.goodQuiets == [b.goodQuiets[0]] + b.goodQuiets[1..];
    } else if b.badCaptures != [] {
      assert b.badCaptures == [b.badCaptures[0]] + b.badCaptures[1..];
    } else if b.badQuiets != [] {
      assert b.badQuiets == [b.badQuiets[0]] + b.badQuiets[1..];
    }
  }

  // A run to the end delivers exactly what was to come, in its order.
  method Drain(p: MovePicker) returns (out: seq<Move>)
    requires p.Valid()
    modifies p, p.moves
    ensures p.Valid() && p.ToCome().Line() == []
    ensures out == old(p.ToCome()).Line()
  {
    hide Left, Consistent, Pop, Blocks.Line;
    out := [];
    while true
      invariant p.Valid()
      invariant out + p.ToCome().Line() == old(p.ToCome()).Line()
      decreases |p.ToCome().Line()|
    {
      ghost var b := p.ToCome();
      PopLine(b);
      var r := p.NextMove();
      if r == None {
        return;
      }
      assert out + ([r.value] + p.ToCome().Line()) == (out + [r.value]) + p.ToCome().Line();
      out := out + [r.value];
    }
  }

  // After the end, every further call reports the end.
  lemma EndForever(n: Node, tt: Option<Move>, depth: int, v: View, w: View, r: Option<Move>)
    requires Consistent(n, depth, v) && Consistent(n, depth, w) && Took(n, tt, depth, v, w, r)
    requires Left(n, tt, depth, v).Line() == []
    ensures r == None && Left(n, tt, depth, w).Line() == []
  {
    hide Left, Consistent, Pop, Blocks.Line;
    PopLine(Left(n, tt, depth, v));
  }

  // Quiets skipped after any number of calls: the moves before the call come out as
  // they would have, then what is left of the first block and of the bad captures;
  // so the TT move and every capture still come out, in order.
  method DrainSkipping(p: MovePicker, calls: nat) returns (out: seq<Move>, ghost made: nat, ghost rest: Blocks)
    requires p.Valid()
    modifies p, p.moves
    ensures p.Valid() && p.ToCome().Line() == []
    ensures made <= |out| && (made == calls || rest.Line() == [])
    ensures out[..made] + rest.Line() == old(p.ToCome()).Line()
    ensures out[made..] == rest.first + rest.badCaptures
    ensures multiset(old(p.ToCome()).first) + multiset(old(p.ToCome()).badCaptures) <= multiset(out)
  {
    hide Left, Consistent, Blocks.Line, Pop, Covers;
    out := [];
    ghost var all := p.ToCome();
    CoversAll(all);
    var i := 0;
    while i < calls
      invariant p.Valid() && |out| == i <= calls
      invariant out + p.ToCome().Line() == all.Line()
      invariant Covers(all, out, p.ToCome())
    {
      ghost var b := p.ToCome();
      PopLine(b);
      var r := p.NextMove();
      if r == None {
        break;
      }
      PopCovers(all, out, b);
      assert out + ([r.value] + p.ToCome().Line()) == (out + [r.value]) + p.ToCome().Line();
      out := out + [r.value];
      i := i + 1;
    }
    rest, made := p.ToCome(), i;
    CoversRest(all, out, rest);
    p.SkipQuietMoves();
    LineWithoutQuiets(rest);
    var tail := Drain(p);
    assert (out + tail)[..made] == out && (out + tail)[made..] == tail;
    out := out + tail;
  }

  lemma LineWithoutQuiets(b: Blocks)
    ensures b.(goodQuiets := [], badQuiets := []).Line() == b.first + b.badCaptures
  {
  }

  // What came out and what is left of them hold the first block and the bad captures.
  predicate Covers(all: Blocks, out: seq<Move>, b: Blocks) {
    multiset(all.first) + multiset(all.badCaptures) <= multiset(out) + multiset(b.first) + multiset(b.badCaptures)
  }

  lemma CoversAll(all: Blocks)
    ensures Covers(all, [], all)
  {
  }

  lemma CoversRest(all: Blocks, out: seq<Move>, b: Blocks)
    requires Covers(all, out, b)
    ensures multiset(all.first) + multiset(all.badCaptures) <= multiset(out + (b.first + b.badCaptures))
  {
  }

  lemma PopCovers(all: Blocks, out: seq<Move>, b: Blocks)
    requires Covers(all, out, b) && Pop(b).0.Some?
    ensures Covers(all, out + [Pop(b).0.value], Pop(b).1)
  {
    if b.first != [] {
      assert b.first == [b.first[0]] + b.first[1..];
    } else if b.goodQuiets == [] && b.badCaptures != [] {
      assert b.badCaptures == [b.badCaptures[0]] + b.badCaptures[1..];
    }
  }

  // ---------- sorting changes no count ----------

  lemma Pulled(t: seq<ExtMove>, i: nat)
    requires i < |t|
    ensures multiset(t) == multiset{t[i]} + multiset(t[..i] + t[i + 1..])
  {
    assert t == t[..i] + [t[i]] + t[i + 1..];
  }

  lemma WithoutOne(s: seq<ExtMove>, t: seq<ExtMove>) returns (i: nat)
    requires s != [] && multiset(s) == multiset(t)
    ensures i < |t| && t[i] == s[0] && multiset(s[1..]) == multiset(t[..i] + t[i + 1..])
  {
    assert s[0] in multiset(t);
    i :| 0 <= i < |t| && t[i] == s[0];
    Pulled(t, i);
    Pulled(s, 0);
    assert s[..0] + s[1..] == s[1..];
    assert multiset(s) - multiset{s[0]} == multiset(s[1..]);
  }

  lemma WantMiddle(t: seq<ExtMove>, i: nat, tt: Option<Move>, f: Filter)
    requires i < |t|
    ensures multiset(Want(t, tt, f)) == multiset(Want([t[i]], tt, f)) + multiset(Want(t[..i] + t[i + 1..], tt, f))
  {
    hide Want;
    assert t == t[..i] + ([t[i]] + t[i + 1..]);
    WantConcat(t[..i], [t[i]] + t[i + 1..], tt, f);
    WantConcat([t[i]], t[i + 1..], tt, f);
    WantConcat(t[..i], t[i + 1..], tt, f);
  }

  lemma {:induction false} WantPermutes(s: seq<ExtMove>, t: seq<ExtMove>, tt: Option<Move>, f: Filter)
    requires multiset(s) == multiset(t)
    ensures multiset(Want(s, tt, f)) == multiset(Want(t, tt, f))
  {
    hide Wanted;
    if s == [] {
      assert |multiset(t)| == 0;
    } else {
      var i := WithoutOne(s, t);
      WantPermutes(s[1..], t[..i] + t[i + 1..], tt, f);
      WantMiddle(t, i, tt, f);
      WantMiddle(s, 0, tt, f);
      assert s[..0] + s[1..] == s[1..];
    }
  }

  // A filter and its complement split a list.
  lemma {:induction false} WantSplits(s: seq<ExtMove>, tt: Option<Move>, f: Filter, g: Filter)
    requires forall x :: Keeps(f, x) != Keeps(g, x)
    ensures multiset(Want(s, tt, Every)) == multiset(Want(s, tt, f)) + multiset(Want(s, tt, g))
  {
    hide Keeps;
    if s != [] {
      WantSplits(s[1..], tt, f, g);
      EveryKept(s[0]);
    }
  }

  lemma EveryKept(x: ExtMove)
    ensures Keeps(Every, x)
  {
  }

  // ---------- over the generator's lists ----------

  function MovesOf(s: seq<ExtMove>): seq<Move> {
    seq(|s|, i requires 0 <= i < |s| => s[i].move)
  }

  // Every listed move is wanted once per listing, the TT move excepted.
  lemma {:induction false} WantCounts(s: seq<ExtMove>, tt: Option<Move>, m: Move)
    ensures multiset(Want(s, tt, Every))[m] == if Some(m) == tt then 0 else Count(MovesOf(s), m)
  {
    hide MovesOf;
    if s == [] {
      NoMoves();
    } else {
      WantCounts(s[1..], tt, m);
      MovesOfHead(s);
      CountConcat([s[0].move], MovesOf(s[1..]), m);
    }
  }

  lemma NoMoves()
    ensures MovesOf([]) == []
  {
  }

  lemma MovesOfHead(s: seq<ExtMove>)
    requires s != []
    ensures MovesOf(s) == [s[0].move] + MovesOf(s[1..])
  {
  }

  // The lists the picker works on are the generator's, scored anyhow.
  predicate Lists(pos: Pos, n: Node)
    requires OneKing(pos.board, pos.stm)
  {
    && MovesOf(n.captures) == PieceGen.GenSeq(pos, MoveGen.Captures)
    && MovesOf(n.quiets) == PieceGen.GenSeq(pos, MoveGen.Quiets)
    && (Checkers(pos.board, pos.stm) != {} ==> MovesOf(n.evasions) == PieceGen.GenSeq(pos, MoveGen.Evasions))
  }

  // The order of a main-search run: the TT move if it is legal; captures that pass the
  // exchange test, by falling score; quiets above the threshold as the quiet sort
  // leaves them; the other captures; the other quiets. In check the evasions, by
  // falling score.
  function MainOrder(n: Node, tt: Option<Move>, ttLegal: bool, inCheck: bool, depth: int): seq<Move> {
    var first := if ttLegal then TtOnly(tt) else [];
    if inCheck then first + Want(Sort(n.evasions), tt, Every)
    else
      first + Want(Sort(n.captures), tt, Passing(n.goodSee)) + Want(SortedQuiets(n, depth), tt, Above)
      + Want(Sort(n.captures), tt, Failing(n.goodSee)) + Want(SortedQuiets(n, depth), tt, AtMost)
  }

  lemma StartsInOrder(n: Node, tt: Option<Move>, depth: int, v: View, ttLegal: bool, inCheck: bool)
    requires Consistent(n, depth, v) && !v.skip && (ttLegal ==> tt.Some?)
    requires v.stage == if inCheck then (if ttLegal then EvasionTT else EvasionInit)
                        else (if ttLegal then MainTT else CaptureInit)
    ensures Left(n, tt, depth, v).Line() == MainOrder(n, tt, ttLegal, inCheck, depth)
  {
    hide Want, Sort, SortedQuiets;
  }

  // Quiescence search walks all captures by falling score, ProbCut those that pass its
  // exchange test.
  lemma OtherStarts(n: Node, tt: Option<Move>, depth: int, v: View)
    requires Consistent(n, depth, v)
    ensures v.stage == QsearchTT ==> Left(n, tt, depth, v).Line() == TtOnly(tt) + Want(Sort(n.captures), tt, Every)
    ensures v.stage == QcaptureInit ==> Left(n, tt, depth, v).Line() == Want(Sort(n.captures), tt, Every)
    ensures v.stage == ProbcutTT ==>
              Left(n, tt, depth, v).Line() == TtOnly(tt) + Want(Sort(n.captures), tt, Passing(n.probSee))
    ensures v.stage == ProbcutInit ==> Left(n, tt, depth, v).Line() == Want(Sort(n.captures), tt, Passing(n.probSee))
  {
    hide Want, Sort, SortedQuiets;
  }

  lemma OrderCounts(n: Node, tt: Option<Move>, ttLegal: bool, inCheck: bool, depth: int, m: Move)
    ensures multiset(MainOrder(n, tt, ttLegal, inCheck, depth))[m] ==
            multiset(if ttLegal then TtOnly(tt) else [])[m]
            + (if inCheck then multiset(Want(n.evasions, tt, Every))[m]
               else multiset(Want(n.captures, tt, Every))[m] + multiset(Want(n.quiets, tt, Every))[m])
  {
    hide Want, Sort, PartialSort, TtOnly;
    SortSorts(n.evasions);
    SortSorts(n.captures);
    var k := PartialSortSorts(n.quiets, -QUIET_SORT_SCALE * depth);
    WantPermutes(Sort(n.evasions), n.evasions, tt, Every);
    WantPermutes(Sort(n.captures), n.captures, tt, Every);
    WantPermutes(SortedQuiets(n, depth), n.quiets, tt, Every);
    WantSplits(Sort(n.captures), tt, Passing(n.goodSee), Failing(n.goodSee));
    WantSplits(SortedQuiets(n, depth), tt, Above, AtMost);
  }

  lemma LegalCount(pos: Pos, n: Node, m: Move)
    requires Ok(pos) && Lists(pos, n)
    ensures Ind(LegalMove(pos, m)) ==
            if Checkers(pos.board, pos.stm) != {} then Count(MovesOf(n.evasions), m)
            else Count(MovesOf(n.captures), m) + Count(MovesOf(n.quiets), m)
  {
    hide LegalMove, Ok, Checkers, PieceGen.GenSeq, Count, MovesOf, OneKing, PieceGen.GenAll;
    GivesCheck.OkKings(pos);
    GeneratorIsRules(pos, m);
    GenAllCount(pos, m);
  }

  lemma GenAllCount(pos: Pos, m: Move)
    requires OneKing(pos.board, pos.stm)
    ensures Count(PieceGen.GenAll(pos), m) ==
            if Checkers(pos.board, pos.stm) != {} then Count(PieceGen.GenSeq(pos, MoveGen.Evasions), m)
            else Count(PieceGen.GenSeq(pos, MoveGen.Captures), m) + Count(PieceGen.GenSeq(pos, MoveGen.Quiets), m)
  {
    hide PieceGen.GenSeq, Checkers, OneKing;
  }

  // Each legal move is in the order once.
  lemma OrderIsLegal(pos: Pos, n: Node, tt: Option<Move>, depth: int, m: Move)
    requires Ok(pos) && Lists(pos, n)
    ensures var legal, inCheck := tt.Some? && LegalMove(pos, tt.value), Checkers(pos.board, pos.stm) != {};
            multiset(MainOrder(n, tt, legal, inCheck, depth))[m] == Ind(LegalMove(pos, m))
  {
    hide LegalMove, Ok, Checkers, Want, Lists, Count, MovesOf, MainOrder, OneKing;
    GivesCheck.OkKings(pos);
    OrderCounts(n, tt, tt.Some? && LegalMove(pos, tt.value), Checkers(pos.board, pos.stm) != {}, depth, m);
    LegalCount(pos, n, m);
    WantCounts(n.captures, tt, m);
    WantCounts(n.quiets, tt, m);
    WantCounts(n.evasions, tt, m);
  }

  // The whole run: for every position, every scoring and every exchange oracle,
  // the picker emits each legal move exactly once, in the order above.
  method EmitsLegalMoves(pos: Pos, n: Node, ttm: Option<Move>, ttLegal: bool, inCheck: bool, depth: int,
                         buffer: array<ExtMove>)
    returns (out: seq<Move>)
    requires Ok(pos) && Lists(pos, n) && depth > 0
    requires ttLegal <==> ttm.Some? && LegalMove(pos, ttm.value)
    requires inCheck <==> Checkers(pos.board, pos.stm) != {}
    requires |n.captures| + |n.quiets| <= buffer.Length && |n.evasions| <= buffer.Length
    modifies buffer
    ensures out == MainOrder(n, ttm, ttLegal, inCheck, depth)
    ensures forall m :: multiset(out)[m] == Ind(LegalMove(pos, m))
    ensures ttLegal ==> out != [] && Some(out[0]) == ttm
  {
    hide LegalMove, Ok, Lists, Left, Consistent, Blocks.Line;
    var p := new MovePicker(n, ttm, ttLegal, inCheck, depth, buffer);
    StartsInOrder(n, ttm, depth, p.V(), ttLegal, inCheck);
    forall m ensures multiset(MainOrder(n, ttm, ttLegal, inCheck, depth))[m] == Ind(LegalMove(pos, m)) {
      OrderIsLegal(pos, n, ttm, depth, m);
    }
    out := Drain(p);
  }
}
