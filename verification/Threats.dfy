// The threat records do_move emits for the network: update_piece_threats and the
// piece updates that call it, against the threat relation of the boards.

module Threats {
  import opened Chess
  import opened Geometry
  import opened Attacks
  import opened Rules
  import opened Legal
  import opened GivesCheck

  // pc on `from` attacks `threatened` on `to`.
  datatype Threat = Threat(pc: Piece, threatened: Piece, from: Square, to: Square)

  datatype DirtyThreat = DirtyThreat(threat: Threat, add: bool)

  // ---------- the threat relation ----------

  // Which victims a kind of man threatens. Kings neither threaten nor are
  // threatened.
  predicate Targets(k: PieceType, v: PieceType) {
    && v != King
    && match k
       case Pawn => v == Knight || v == Rook
       case Bishop => v != Queen
       case Rook => v != Queen
       case Knight => true
       case Queen => true
       case King => false
  }

  // The filter spelled out: pawns threaten knights and rooks, bishops and rooks every
  // man but queens and kings, knights and queens every man but kings.
  lemma TargetsAre(v: PieceType)
    ensures Targets(Pawn, v) <==> v == Knight || v == Rook
    ensures Targets(Knight, v) <==> v != King
    ensures Targets(Bishop, v) <==> v != Queen && v != King
    ensures Targets(Rook, v) <==> v != Queen && v != King
    ensures Targets(Queen, v) <==> v != King
    ensures !Targets(King, v)
  {
  }

  predicate Related(b: Board, x: Threat) {
    && x.pc != NoPiece && x.threatened != NoPiece
    && b[x.from] == x.pc && b[x.to] == x.threatened
    && Targets(x.pc.kind, x.threatened.kind)
    && Hits(x.pc, x.from, x.to, Occ(b))
  }

  function Sign(add: bool): int { if add then 1 else -1 }

  // How often a record list adds x, less how often it removes it.
  function Net(l: seq<DirtyThreat>, x: Threat): int {
    multiset(l)[DirtyThreat(x, true)] as int - multiset(l)[DirtyThreat(x, false)] as int
  }

  lemma NetPush(l: seq<DirtyThreat>, r: DirtyThreat, x: Threat)
    ensures Net(l + [r], x) == Net(l, x) + (if r.threat == x then Sign(r.add) else 0)
  {
  }

  // ---------- update_piece_threats ----------

  // can_slider_threat
  predicate SliderMay(victim: Piece, slider: Piece) {
    victim != NoPiece && slider != NoPiece && (victim.kind != Queen || slider.kind == Queen)
  }

  function SliderSight(s: Square, occ: Bitboard): Bitboard {
    SliderAttacks(Bishop, s, occ) + SliderAttacks(Rook, s, occ)
  }

  function Kings(b: Board): Bitboard {
    set s: Square | IsOk(s) && b[s] != NoPiece && b[s].kind == King
  }

  // Sliders of either colour that attack s.
  function SlidersTo(b: Board, s: Square): Bitboard {
    set y: Square | IsOk(y) && b[y] != NoPiece && IsSlider(b[y].kind) && SlidesOn(b[y].kind, s, y)
        && Clear(s, y, Occ(b))
  }

  function ThreatTargets(b: Board, k: PieceType): Bitboard {
    set t: Square | IsOk(t) && b[t] != NoPiece && b[t].kind != King &&
      (if k == Pawn then b[t].kind == Knight || b[t].kind == Rook
       else if k == Bishop || k == Rook then b[t].kind != Queen
       else true)
  }

  function AttackedFrom(pc: Piece, s: Square, occ: Bitboard): Bitboard {
    set t: Square | IsOk(t) && Hits(pc, s, t, occ)
  }

  // Knights that attack s, and pawns if the man on s is worth their attack.
  function Incoming(b: Board, pc: Piece, s: Square): Bitboard {
    set y: Square | IsOk(y) && b[y] != NoPiece &&
      ((b[y].kind == Knight && KnightHits(s, y))
       || (pc != NoPiece && (pc.kind == Knight || pc.kind == Rook) && b[y].kind == Pawn
            && PawnHits(b[y].color.Flip(), s, y)))
  }

  // The man first seen beyond s by the slider on y.
  function Discovered(b: Board, y: Square, s: Square): Bitboard {
    RayPassBB(y, s) * SliderSight(s, Occ(b)) * (Occ(b) - Kings(b))
  }

  // No ray contains the whole board: the default argument skips nothing.
  function NoSkip(): Bitboard { All() }

  predicate Skipped(y: Square, s: Square, skip: Bitboard) {
    RayPassBB(y, s) * skip == skip
  }

  // Records of the man's own attacks.
  method EmitOutgoing(b: Board, pc: Piece, s: Square, put: bool, targets: Bitboard, list: seq<DirtyThreat>)
    returns (r: seq<DirtyThreat>)
    ensures forall x :: Net(r, x) == Net(list, x)
              + Sign(put) * Ind(x.pc == pc && x.from == s && x.to in targets && x.threatened == b[x.to])
  {
    hide Net;
    r := list;
    var t := targets;
    while t != {}
      invariant t <= targets
      invariant forall x :: Net(r, x) == Net(list, x)
                  + Sign(put) * Ind(x.pc == pc && x.from == s && x.to in targets - t && x.threatened == b[x.to])
      decreases t
    {
      var to := Lsb(t);
      forall x ensures Net(r + [DirtyThreat(Threat(pc, b[to], s, to), put)], x)
                       == Net(r, x) + (if x == Threat(pc, b[to], s, to) then Sign(put) else 0) {
        NetPush(r, DirtyThreat(Threat(pc, b[to], s, to), put), x);
      }
      r := r + [DirtyThreat(Threat(pc, b[to], s, to), put)];
      t := t - {to};
    }
  }

  // Records of attacks on the man.
  method EmitIncoming(b: Board, pc: Piece, s: Square, put: bool, sources: Bitboard, list: seq<DirtyThreat>)
    returns (r: seq<DirtyThreat>)
    ensures forall x :: Net(r, x) == Net(list, x)
              + Sign(put) * Ind(x.threatened == pc && x.to == s && x.from in sources && x.pc == b[x.from])
  {
    hide Net;
    r := list;
    var t := sources;
    while t != {}
      invariant t <= sources
      invariant forall x :: Net(r, x) == Net(list, x)
                  + Sign(put) * Ind(x.threatened == pc && x.to == s && x.from in sources - t && x.pc == b[x.from])
      decreases t
    {
      var from := Lsb(t);
      forall x ensures Net(r + [DirtyThreat(Threat(b[from], pc, from, s), put)], x)
                       == Net(r, x) + (if x == Threat(b[from], pc, from, s) then Sign(put) else 0) {
        NetPush(r, DirtyThreat(Threat(b[from], pc, from, s), put), x);
      }
      r := r + [DirtyThreat(Threat(b[from], pc, from, s), put)];
      t := t - {from};
    }
  }

  // A slider's record for the man it sees past s.
  predicate RayRecord(b: Board, s: Square, skip: Bitboard, y: Square, d: Square) {
    d in Discovered(b, y, s) && !Skipped(y, s, skip) && SliderMay(b[d], b[y])
  }

  lemma OneDiscovered(b: Board, y: Square, s: Square, d: Square, e: Square)
    requires y in SlidersTo(b, s) && d in Discovered(b, y, s) && e in Discovered(b, y, s)
    ensures d == e
  {
    SeenBeyond(b, y, s, d);
    SeenBeyond(b, y, s, e);
    if d != e {
      StrictBeyond(y, s, d, e);
    }
  }

  // Discovered is the first non-king man beyond s on the slider's line.
  lemma SeenBeyond(b: Board, y: Square, s: Square, d: Square)
    requires y in SlidersTo(b, s)
    ensures d in Discovered(b, y, s) <==> b[d] != NoPiece && b[d].kind != King && Strict(y, s, d) && Clear(s, d, Occ(b))
  {
    RayPassBBIsRay(y, s, d);
    AlignedSym(y, s);
    if Strict(y, d, s) && d in Occ(b) { StrictSym(y, d, s); }
    if Strict(y, s, d) { StrictAligned(y, s, d); }
  }

  // The records one slider on y contributes.
  function RayPart(b: Board, s: Square, skip: Bitboard, y: Square, x: Threat): int {
    Ind(x.from == y && x.pc == b[y] && x.threatened == b[x.to] && RayRecord(b, s, skip, y, x.to))
  }

  function DirectPart(b: Board, pc: Piece, s: Square, addDirect: bool, y: Square, x: Threat): int {
    Ind(addDirect && x.threatened == pc && x.to == s && x.from == y && x.pc == b[y] && SliderMay(pc, b[y]))
  }

  method ProcessSlider(b: Board, pc: Piece, s: Square, put: bool, addDirect: bool, skip: Bitboard, y: Square,
                       list: seq<DirtyThreat>)
    returns (r: seq<DirtyThreat>)
    requires pc != NoPiece && y in SlidersTo(b, s)
    ensures forall x ::
              Net(r, x) == Net(list, x) - Sign(put) * RayPart(b, s, skip, y, x)
                           + Sign(put) * DirectPart(b, pc, s, addDirect, y, x)
  {
    hide Net, SlidersTo, Discovered, Skipped;
    r := list;
    var seen := Discovered(b, y, s);
    if seen != {} && !Skipped(y, s, skip) {
      var d := Lsb(seen);
      forall e | e in seen ensures e == d { OneDiscovered(b, y, s, d, e); }
      if SliderMay(b[d], b[y]) {
        var rec := DirtyThreat(Threat(b[y], b[d], y, d), !put);
        forall x ensures Net(r + [rec], x) == Net(r, x) + (if x == rec.threat then Sign(!put) else 0) {
          NetPush(r, rec, x);
        }
        r := r + [rec];
      }
    }
    assert forall x :: Net(r, x) == Net(list, x) - Sign(put) * RayPart(b, s, skip, y, x);
    if addDirect && SliderMay(pc, b[y]) {
      var rec := DirtyThreat(Threat(b[y], pc, y, s), put);
      forall x ensures Net(r + [rec], x) == Net(r, x) + (if x == rec.threat then Sign(put) else 0) {
        NetPush(r, rec, x);
      }
      r := r + [rec];
    }
  }

  function RaySum(b: Board, s: Square, skip: Bitboard, ys: Bitboard, x: Threat): int {
    if x.from in ys then RayPart(b, s, skip, x.from, x) else 0
  }

  function DirectSum(b: Board, pc: Piece, s: Square, addDirect: bool, ys: Bitboard, x: Threat): int {
    if x.from in ys then DirectPart(b, pc, s, addDirect, x.from, x) else 0
  }

  // process_sliders
  method ProcessSliders(b: Board, pc: Piece, s: Square, put: bool, addDirect: bool, skip: Bitboard,
                        list: seq<DirtyThreat>)
    returns (r: seq<DirtyThreat>)
    requires pc != NoPiece
    ensures forall x :: Net(r, x) == Net(list, x) - Sign(put) * RaySum(b, s, skip, SlidersTo(b, s), x)
                                     + Sign(put) * DirectSum(b, pc, s, addDirect, SlidersTo(b, s), x)
  {
    hide Net, SlidersTo, RayRecord, SliderMay;
    var sliders := SlidersTo(b, s);
    r := list;
    var t := sliders;
    while t != {}
      invariant t <= sliders
      invariant forall x :: Net(r, x) == Net(list, x) - Sign(put) * RaySum(b, s, skip, sliders - t, x)
                                         + Sign(put) * DirectSum(b, pc, s, addDirect, sliders - t, x)
      decreases t
    {
      var y := Lsb(t);
      r := ProcessSlider(b, pc, s, put, addDirect, skip, y, r);
      assert sliders - (t - {y}) == (sliders - t) + {y};
      t := t - {y};
    }
    assert sliders - {} == sliders;
  }

  // x is a threat by or on the man pc, standing on s of a board otherwise like b.
  predicate Touching(b: Board, pc: Piece, s: Square, x: Threat) {
    Related(b[s := pc], x) && (x.from == s || x.to == s)
  }

  // x is a slider's threat through s.
  predicate Through(b: Board, s: Square, skip: Bitboard, x: Threat) {
    x.from in SlidersTo(b, s) && x.pc == b[x.from] && x.threatened == b[x.to] && RayRecord(b, s, skip, x.from, x.to)
  }

  predicate OutPart(b: Board, pc: Piece, s: Square, x: Threat)
    requires pc != NoPiece
  {
    x.pc == pc && x.from == s && x.to in AttackedFrom(pc, s, Occ(b)) * ThreatTargets(b, pc.kind)
        && x.threatened == b[x.to]
  }

  predicate InPart(b: Board, pc: Piece, s: Square, x: Threat) {
    x.threatened == pc && x.to == s && x.from in Incoming(b, pc, s) && x.pc == b[x.from]
  }

  predicate SlidePart(b: Board, pc: Piece, s: Square, x: Threat) {
    x.threatened == pc && x.to == s && x.from in SlidersTo(b, s) && x.pc == b[x.from] && SliderMay(pc, b[x.from])
  }

  // The three sets of direct records are the threats that touch s, each once.
  lemma DirectParts(b: Board, pc: Piece, s: Square, x: Threat)
    requires pc != NoPiece && pc.kind != King && b[s] != NoPiece
    ensures Ind(OutPart(b, pc, s, x)) + Ind(InPart(b, pc, s, x)) + Ind(SlidePart(b, pc, s, x))
            == Ind(Touching(b, pc, s, x))
  {
    OccSame(b, s, pc);
    if x.from == s {
      OutIff(b, pc, s, x);
    } else if x.to == s {
      InIff(b, pc, s, x);
    }
  }

  lemma OccSame(b: Board, s: Square, pc: Piece)
    requires pc != NoPiece && b[s] != NoPiece
    ensures Occ(b[s := pc]) == Occ(b)
  {
  }

  lemma OutIff(b: Board, pc: Piece, s: Square, x: Threat)
    requires pc != NoPiece && pc.kind != King && b[s] != NoPiece && x.from == s
    ensures OutPart(b, pc, s, x) <==> Related(b[s := pc], x)
    ensures !InPart(b, pc, s, x) && !SlidePart(b, pc, s, x)
  {
    hide KnightHits, Clear, Occ;
    OccSame(b, s, pc);
    NoSelfHit(pc, s, Occ(b));
    NoSelfHits(b, s);
  }

  lemma NoSelfHit(pc: Piece, s: Square, occ: Bitboard)
    ensures !Hits(pc, s, s, occ)
  {
  }

  lemma NoSelfHits(b: Board, s: Square)
    ensures s !in SlidersTo(b, s) && forall pc :: s !in Incoming(b, pc, s)
  {
  }

  lemma InIff(b: Board, pc: Piece, s: Square, x: Threat)
    requires pc != NoPiece && pc.kind != King && b[s] != NoPiece && x.to == s && x.from != s
    ensures Ind(InPart(b, pc, s, x)) + Ind(SlidePart(b, pc, s, x)) == Ind(Related(b[s := pc], x))
    ensures !OutPart(b, pc, s, x)
  {
    hide Clear, Occ;
    OccSame(b, s, pc);
    ClearSym(s, x.from, Occ(b));
    AlignedSym(s, x.from);
    if b[x.from] != NoPiece {
      PawnFlip(b[x.from].color, x.from, s);
      KnightSym(x.from, s);
    }
  }

  lemma KnightSym(a: Square, b: Square)
    ensures KnightHits(a, b) == KnightHits(b, a)
  {
  }

  // What the records of one update add up to: the threats by and on the man, less
  // the slider threats through its square that are not skipped.
  ghost predicate Emitted(b: Board, pc: Piece, s: Square, put: bool, computeRay: bool, skip: Bitboard,
                          list: seq<DirtyThreat>, r: seq<DirtyThreat>) {
    forall x :: Net(r, x) == Net(list, x) + Sign(put) * Ind(Touching(b, pc, s, x))
                             - Sign(put) * Ind(computeRay && Through(b, s, skip, x))
  }

  method UpdatePieceThreats(b: Board, pc: Piece, s: Square, put: bool, computeRay: bool, skip: Bitboard,
                            list: seq<DirtyThreat>)
    returns (r: seq<DirtyThreat>)
    requires pc != NoPiece && b[s] != NoPiece
    ensures forall x :: Net(r, x) == Net(list, x) + Sign(put) * Ind(Touching(b, pc, s, x))
                                     - Sign(put) * Ind(computeRay && Through(b, s, skip, x))
  {
    hide Net, Touching, RayRecord, SliderMay, AttackedFrom, ThreatTargets, Incoming, SlidersTo;
    if pc.kind == King {
      forall x ensures !Touching(b, pc, s, x) { KingUntouched(b, pc, s, x); }
      r := list;
      if computeRay {
        r := ProcessSliders(b, pc, s, put, false, skip, r);
      }
      return;
    }
    r := EmitOutgoing(b, pc, s, put, AttackedFrom(pc, s, Occ(b)) * ThreatTargets(b, pc.kind), list);
    var incoming := Incoming(b, pc, s);
    if computeRay {
      r := ProcessSliders(b, pc, s, put, true, skip, r);
    } else {
      incoming := incoming + (set y: Square | y in SlidersTo(b, s) && SliderMay(pc, b[y]));
      IncomingApart(b, pc, s);
    }
    r := EmitIncoming(b, pc, s, put, incoming, r);
    forall x
      ensures Ind(OutPart(b, pc, s, x)) + Ind(InPart(b, pc, s, x)) + Ind(SlidePart(b, pc, s, x))
              == Ind(Touching(b, pc, s, x)) {
      DirectParts(b, pc, s, x);
    }
  }

  lemma KingUntouched(b: Board, pc: Piece, s: Square, x: Threat)
    requires pc != NoPiece && pc.kind == King
    ensures !Touching(b, pc, s, x)
  {
  }

  lemma IncomingApart(b: Board, pc: Piece, s: Square)
    ensures Incoming(b, pc, s) * SlidersTo(b, s) == {}
  {
  }

  // ---------- what one update does to the relation ----------

  predicate SliderThreat(x: Threat) {
    x.pc != NoPiece && IsSlider(x.pc.kind)
  }

  lemma ClearBoth(y: Square, s: Square, d: Square, occ: Bitboard)
    requires Strict(y, s, d)
    ensures Clear(y, d, occ - {s}) <==> Clear(y, s, occ) && Clear(s, d, occ)
  {
    hide Strict;
    if Clear(y, d, occ - {s}) {
      forall x | x in occ ensures !Strict(y, x, s) && !Strict(s, x, d) { NotInside(y, s, d, occ, x); }
    }
    if Clear(y, s, occ) && Clear(s, d, occ) {
      forall x | x in occ - {s} ensures !Strict(y, x, d) {
        if Strict(y, x, d) {
          StrictOrder(y, s, x, d);
          if Strict(y, s, x) { StrictTrans(y, s, x, d); }
        }
      }
    }
  }

  lemma NotInside(y: Square, s: Square, d: Square, occ: Bitboard, x: Square)
    requires Strict(y, s, d) && Clear(y, d, occ - {s}) && x in occ
    ensures !Strict(y, x, s) && !Strict(s, x, d)
  {
    if Strict(y, x, s) {
      StrictTrans(y, x, s, d);
      StrictIrreflexive(y, s);
    }
    if Strict(s, x, d) {
      StrictSym(s, x, d);
      StrictSym(y, s, d);
      StrictTrans(d, x, s, y);
      StrictSym(d, x, y);
      StrictIrreflexive(d, s);
    }
  }

  lemma StrictIrreflexive(a: Square, x: Square)
    ensures !Strict(a, x, x)
  {
  }

  lemma OccWithout(b: Board, s: Square)
    ensures Occ(b[s := NoPiece]) == Occ(b) - {s}
  {
  }

  // The threats through s are those that lifting the man on s reveals.
  lemma ThroughMeans(b: Board, s: Square, x: Threat)
    requires b[s] != NoPiece
    ensures Through(b, s, NoSkip(), x) <==>
            x.from != s && x.to != s && Related(b[s := NoPiece], x) && !Related(b, x)
  {
    hide Clear, Strict, RayRecord, SlidesOn, Occ;
    OccWithout(b, s);
    ThroughPlain(b, s, x);
    if Strict(x.from, s, x.to) {
      ThroughDistinct(x.from, s, x.to);
      ClearBoth(x.from, s, x.to, Occ(b));
      SlidesSplitAll(x.from, s, x.to);
      Blocked(x.from, s, x.to, Occ(b));
      ClearSym(x.from, s, Occ(b));
      OccMember(b, s);
    } else {
      ClearElsewhere(x.from, s, x.to, Occ(b));
    }
    if !SliderThreat(x) { OccIrrelevant(x, Occ(b), Occ(b) - {s}); }
  }

  lemma ThroughDistinct(y: Square, s: Square, d: Square)
    requires Strict(y, s, d)
    ensures y != s && d != s
  {
  }

  lemma SlidesSplitAll(y: Square, s: Square, d: Square)
    requires Strict(y, s, d)
    ensures forall k :: SlidesOn(k, y, d) == SlidesOn(k, s, y)
  {
    forall k ensures SlidesOn(k, y, d) == SlidesOn(k, s, y) { SlidesSplit(k, y, s, d); }
  }

  lemma OccIrrelevant(x: Threat, occ: Bitboard, occ2: Bitboard)
    requires !SliderThreat(x)
    ensures Hits(x.pc, x.from, x.to, occ) == Hits(x.pc, x.from, x.to, occ2)
  {
  }

  lemma OccMember(b: Board, s: Square)
    ensures s in Occ(b) <==> b[s] != NoPiece
  {
  }

  lemma Blocked(y: Square, s: Square, d: Square, occ: Bitboard)
    requires Strict(y, s, d)
    ensures s in occ ==> !Clear(y, d, occ)
  {
  }

  lemma ClearElsewhere(y: Square, s: Square, d: Square, occ: Bitboard)
    requires !Strict(y, s, d)
    ensures Clear(y, d, occ - {s}) == Clear(y, d, occ)
  {
  }

  lemma SlidesSplit(k: PieceType, y: Square, s: Square, d: Square)
    requires Strict(y, s, d)
    ensures SlidesOn(k, y, d) == SlidesOn(k, s, y)
  {
    StrictAligned(y, s, d);
    AlignedSym(s, y);
  }

  // Through, with the tables it is looked up in replaced by what they mean.
  lemma ThroughPlain(b: Board, s: Square, x: Threat)
    ensures Through(b, s, NoSkip(), x) <==>
            && x.pc == b[x.from] && x.threatened == b[x.to] && SliderThreat(x) && x.threatened != NoPiece
            && Targets(x.pc.kind, x.threatened.kind)
            && SlidesOn(x.pc.kind, s, x.from) && Clear(s, x.from, Occ(b))
            && Strict(x.from, s, x.to) && Clear(s, x.to, Occ(b))
  {
    hide Clear, Strict, Discovered, SlidesOn, Occ, RayPassBB;
    NeverSkips(x.from, s);
    if x.from in SlidersTo(b, s) {
      SeenBeyond(b, x.from, s, x.to);
    }
  }

  lemma NeverSkips(y: Square, s: Square)
    ensures !Skipped(y, s, NoSkip())
  {
    RayPassBBIsRay(y, s, y);
    assert y in All();
  }

  // Lifting the man on s.
  lemma RemoveDelta(b: Board, s: Square, x: Threat)
    requires b[s] != NoPiece
    ensures Ind(Related(b[s := NoPiece], x)) - Ind(Related(b, x)) ==
            Ind(Through(b, s, NoSkip(), x)) - Ind(Touching(b, b[s], s, x))
  {
    hide Through;
    ThroughMeans(b, s, x);
    assert b[s := b[s]] == b;
    if x.from == s || x.to == s {
      GoneWithIt(b, s, x);
    } else {
      KeptWithout(b, s, x);
    }
  }

  lemma GoneWithIt(b: Board, s: Square, x: Threat)
    requires x.from == s || x.to == s
    ensures !Related(b[s := NoPiece], x)
  {
  }

  lemma KeptWithout(b: Board, s: Square, x: Threat)
    requires x.from != s && x.to != s
    ensures Related(b, x) ==> Related(b[s := NoPiece], x)
  {
    hide Strict;
    OccWithout(b, s);
  }

  // ---------- what an update of the board records ----------

  // The records of r beyond list turn the threat relation of b into that of b2.
  ghost predicate Turns(b: Board, b2: Board, list: seq<DirtyThreat>, r: seq<DirtyThreat>) {
    forall x :: Net(r, x) == Net(list, x) + Ind(Related(b2, x)) - Ind(Related(b, x))
  }

  // The same where a list is given; without one nothing is recorded.
  ghost predicate Recorded(b: Board, b2: Board, dts: Option<seq<DirtyThreat>>, r: Option<seq<DirtyThreat>>) {
    r.Some? == dts.Some? && (dts.Some? ==> Turns(b, b2, dts.value, r.value))
  }

  lemma RecordedSame(b: Board, dts: Option<seq<DirtyThreat>>)
    ensures Recorded(b, b, dts, dts)
  {
    hide Net, Related;
  }

  lemma RecordedOn(b: Board, b1: Board, b2: Board, dts: Option<seq<DirtyThreat>>, r1: Option<seq<DirtyThreat>>,
                   r2: Option<seq<DirtyThreat>>)
    requires Recorded(b, b1, dts, r1) && Recorded(b1, b2, r1, r2)
    ensures Recorded(b, b2, dts, r2)
  {
    hide Net, Related;
  }

  lemma RemovalTurns(b: Board, s: Square, list: seq<DirtyThreat>, r: seq<DirtyThreat>)
    requires b[s] != NoPiece && Emitted(b, b[s], s, false, true, NoSkip(), list, r)
    ensures Turns(b, b[s := NoPiece], list, r)
  {
    hide Net, Through, Touching, Related;
    forall x ensures Net(r, x) == Net(list, x) + Ind(Related(b[s := NoPiece], x)) - Ind(Related(b, x)) {
      RemoveDelta(b, s, x);
    }
  }

  lemma PlacingTurns(b: Board, s: Square, pc: Piece, list: seq<DirtyThreat>, r: seq<DirtyThreat>)
    requires b[s] == NoPiece && pc != NoPiece && Emitted(b[s := pc], pc, s, true, true, NoSkip(), list, r)
    ensures Turns(b, b[s := pc], list, r)
  {
    hide Net, Through, Touching, Related;
    var b2: Board := b[s := pc];
    assert b2[s := NoPiece] == b;
    forall x ensures Net(r, x) == Net(list, x) + Ind(Related(b2, x)) - Ind(Related(b, x)) { RemoveDelta(b2, s, x); }
  }

  lemma SwapDelta(b: Board, s: Square, pc: Piece, x: Threat)
    requires b[s] != NoPiece && pc != NoPiece
    ensures Ind(Related(b[s := pc], x)) - Ind(Related(b, x)) ==
            Ind(Touching(b[s := pc], pc, s, x)) - Ind(Touching(b[s := pc], b[s], s, x))
  {
    hide Hits;
    OccSame(b, s, pc);
    assert b[s := pc][s := b[s]] == b && b[s := pc][s := pc] == b[s := pc];
  }

  // Both halves of a capture scan the board with the new man already standing.
  lemma SwapTurns(b: Board, s: Square, pc: Piece, list: seq<DirtyThreat>, r1: seq<DirtyThreat>, r2: seq<DirtyThreat>)
    requires b[s] != NoPiece && pc != NoPiece
    requires Emitted(b[s := pc], b[s], s, false, false, NoSkip(), list, r1)
    requires Emitted(b[s := pc], pc, s, true, false, NoSkip(), r1, r2)
    ensures Turns(b, b[s := pc], list, r2)
  {
    hide Net, Through, Touching, Related;
    var b2: Board := b[s := pc];
    forall x ensures Net(r2, x) == Net(list, x) + Ind(Related(b2, x)) - Ind(Related(b, x)) { SwapDelta(b, s, pc, x); }
  }

  // ---------- along-ray moves ----------

  lemma SkippedMeans(y: Square, s: Square, from: Square, to: Square)
    ensures Skipped(y, s, {from, to}) <==> from in RayPassBB(y, s) && to in RayPassBB(y, s)
  {
    hide RayPassBB;
  }

  // A slider's view past one end of the move is skipped at both ends or neither.
  lemma SkippedCancels(b: Board, from: Square, to: Square, x: Threat)
    requires b[from] != NoPiece && b[to] == NoPiece && Clear(from, to, Occ(b))
    ensures var b2 := b[from := NoPiece][to := b[from]];
            (Through(b, from, NoSkip(), x) && Skipped(x.from, from, {from, to}))
            <==> (Through(b2, to, NoSkip(), x) && Skipped(x.from, to, {from, to}))
  {
    var b1: Board := b[from := NoPiece];
    var b2: Board := b1[to := b[from]];
    assert b2[to := NoPiece] == b1;
    hide Related, Through, Skipped, RayPassBB, Strict, Clear, Occ;
    ThroughMeans(b, from, x);
    ThroughMeans(b2, to, x);
    SkippedMeans(x.from, from, from, to);
    SkippedMeans(x.from, to, from, to);
    RayPassBBIsRay(x.from, from, to);
    RayPassBBIsRay(x.from, from, from);
    RayPassBBIsRay(x.from, to, from);
    RayPassBBIsRay(x.from, to, to);
    if Through(b, from, NoSkip(), x) && Skipped(x.from, from, {from, to}) {
      ThroughPlain(b, from, x);
      AlongAhead(b, from, to, x);
    }
    if Through(b2, to, NoSkip(), x) && Skipped(x.from, to, {from, to}) {
      ThroughPlain(b2, to, x);
      AlongBack(b, from, to, x);
    }
  }

  lemma AlongAhead(b: Board, from: Square, to: Square, x: Threat)
    requires b[from] != NoPiece && b[to] == NoPiece && Clear(from, to, Occ(b))
    requires Related(b[from := NoPiece], x) && SliderThreat(x)
    requires Strict(x.from, from, x.to) && (Strict(x.from, to, from) || Strict(x.from, from, to))
    ensures x.from != to && x.to != to && !Related(b[from := NoPiece][to := b[from]], x) && Aligned(x.from, to)
  {
    hide Strict, Occ, Clear, Targets;
    OccMember(b, x.to);
    if Strict(x.from, from, to) {
      StrictAligned(x.from, from, to);
      StrictBeyond(x.from, from, x.to, to);
      if Strict(from, x.to, to) { Blocked(from, x.to, to, Occ(b)); }
      assert Strict(x.from, to, x.to) by { AheadOrder(x.from, from, to, x.to); }
    } else {
      StrictAligned(x.from, to, from);
      StrictTrans(x.from, to, from, x.to);
    }
    var b2: Board := b[from := NoPiece][to := b[from]];
    OccMember(b2, to);
    Blocked(x.from, to, x.to, Occ(b2));
  }

  lemma AheadOrder(y: Square, from: Square, to: Square, d: Square)
    requires Strict(y, from, to) && Strict(y, from, d) && to != d && !Strict(from, d, to)
    ensures Strict(y, to, d)
  {
  }

  lemma AlongBack(b: Board, from: Square, to: Square, x: Threat)
    requires b[from] != NoPiece && b[to] == NoPiece && Clear(from, to, Occ(b))
    requires Related(b[from := NoPiece], x) && SliderThreat(x)
    requires Strict(x.from, to, x.to) && (Strict(x.from, to, from) || Strict(x.from, from, to))
    ensures x.from != from && x.to != from && !Related(b, x) && Aligned(x.from, from)
  {
    hide Strict, Occ, Clear, Targets;
    OccMember(b, x.to);
    OccMember(b, from);
    if Strict(x.from, to, from) {
      StrictAligned(x.from, to, from);
      ClearSym(from, to, Occ(b));
      if Strict(to, x.to, from) { Blocked(to, x.to, from, Occ(b)); }
      AheadOrder(x.from, to, from, x.to);
    } else {
      StrictAligned(x.from, from, to);
      StrictTrans(x.from, from, to, x.to);
    }
    Blocked(x.from, from, x.to, Occ(b));
  }

  lemma SkipSplits(b: Board, s: Square, skip: Bitboard, x: Threat)
    ensures Through(b, s, skip, x) <==> Through(b, s, NoSkip(), x) && !Skipped(x.from, s, skip)
  {
    hide Skipped, SlidersTo, Discovered;
    NeverSkips(x.from, s);
  }

  lemma MoveDelta(b: Board, from: Square, to: Square, x: Threat)
    requires b[from] != NoPiece && b[to] == NoPiece && from != to && Clear(from, to, Occ(b))
    ensures var b2 := b[from := NoPiece][to := b[from]];
            Ind(Related(b2, x)) - Ind(Related(b, x)) ==
              Ind(Through(b, from, {from, to}, x)) - Ind(Touching(b, b[from], from, x))
              + Ind(Touching(b2, b[from], to, x)) - Ind(Through(b2, to, {from, to}, x))
  {
    hide Related, Through, Touching, Skipped, Clear;
    var b1: Board := b[from := NoPiece];
    var b2: Board := b1[to := b[from]];
    assert b2[to := NoPiece] == b1;
    RemoveDelta(b, from, x);
    RemoveDelta(b2, to, x);
    SkipSplits(b, from, {from, to}, x);
    SkipSplits(b2, to, {from, to}, x);
    SkippedCancels(b, from, to, x);
  }

  lemma MoveTurns(b: Board, from: Square, to: Square, list: seq<DirtyThreat>, r1: seq<DirtyThreat>,
                  r2: seq<DirtyThreat>)
    requires b[from] != NoPiece && b[to] == NoPiece && from != to && Clear(from, to, Occ(b))
    requires Emitted(b, b[from], from, false, true, {from, to}, list, r1)
    requires Emitted(b[from := NoPiece][to := b[from]], b[from], to, true, true, {from, to}, r1, r2)
    ensures Turns(b, b[from := NoPiece][to := b[from]], list, r2)
  {
    hide Net, Through, Touching, Related, Clear;
    var b2: Board := b[from := NoPiece][to := b[from]];
    forall x ensures Net(r2, x) == Net(list, x) + Ind(Related(b2, x)) - Ind(Related(b, x)) {
      MoveDelta(b, from, to, x);
    }
  }

  // ---------- whole moves ----------

  lemma PathClear(p: Pos, m: Move)
    requires Ok(p) && LegalMove(p, m) && m.kind == Normal && p.board[m.to] == NoPiece
    ensures m.from != m.to && Clear(m.from, m.to, Occ(p.board))
  {
    hide Safe, InCheck, RightOk, EpOk;
    NormalQuiet(p, m);
  }

  lemma EpPathClear(p: Pos, m: Move)
    requires Ok(p) && LegalMove(p, m) && m.kind == EnPassant
    ensures m.from != m.to && Clear(m.from, m.to, Occ(p.board[CapSq(m) := NoPiece]))
  {
    hide Safe, InCheck, RightOk, EpOk;
    EpFacts(p, m);
  }

  // From an empty list the records are the change of the relation.
  lemma TurnsFromNothing(b: Board, b2: Board, r: seq<DirtyThreat>)
    requires Turns(b, b2, [], r)
    ensures forall x :: Net(r, x) == Ind(Related(b2, x)) - Ind(Related(b, x))
  {
    hide Net, Related;
    EmptyNet();
  }

  lemma EmptyNet()
    ensures forall x :: Net([], x) == 0
  {
  }
}
