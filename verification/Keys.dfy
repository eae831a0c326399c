// Zobrist keys. A key is an exclusive-or of table words; the table words are
// random, so a key is modelled by the set of words that enter it an odd number
// of times, and exclusive-or by symmetric difference. Every table of 64-bit
// words is an image of this group (EvalXor), so an equation of keys holds for
// every table.

module Keys {
  import opened Chess
  import opened Rules

  // One word of the tables in namespace Zobrist.
  datatype Word =
    | Psq(pc: Piece, index: int) | EpWord(file: int) | CastleWord(rights: set<Right>) | SideWord | NoPawnsWord

  type Key = set<Word>

  // Pawns on their last rank have the word zero.
  predicate ZeroWord(pc: Piece, index: int) {
    pc == NoPiece || (pc.kind == Pawn && (if pc.color == White then 56 <= index < 64 else 0 <= index < 8))
  }

  function PsqKey(pc: Piece, index: int): Key {
    if ZeroWord(pc, index) then {} else {Psq(pc, index)}
  }

  function EpKey(ep: Option<Square>): Key {
    if ep.Some? then {EpWord(File(ep.value))} else {}
  }

  function SideKey(c: Color): Key {
    if c == Black then {SideWord} else {}
  }

  // ---------- exclusive-or ----------

  lemma XorElement<T>(a: set<T>, b: set<T>, x: T)
    ensures x in Xor(a, b) <==> ((x in a) != (x in b))
  {
  }

  // What the proof below uses of exclusive-or on words of type V.
  ghost predicate XorLaws<V(!new)>(op: (V, V) -> V, zero: V) {
    && (forall a, b, c :: op(a, op(b, c)) == op(b, op(a, c)))
    && (forall a, c :: op(a, op(a, c)) == c)
    && (forall a :: op(a, zero) == a)
  }

  // The words of a symbolic key combined under a table.
  ghost function Eval<V>(k: Key, table: Word -> V, op: (V, V) -> V, zero: V): V {
    if k == {} then zero else var w :| w in k; op(table(w), Eval(k - {w}, table, op, zero))
  }

  // Any word may be taken out first.
  lemma {:induction false} EvalPick<V(!new)>(k: Key, table: Word -> V, op: (V, V) -> V, zero: V, w: Word)
    requires w in k && XorLaws(op, zero)
    ensures Eval(k, table, op, zero) == op(table(w), Eval(k - {w}, table, op, zero))
    decreases k
  {
    var v :| v in k && Eval(k, table, op, zero) == op(table(v), Eval(k - {v}, table, op, zero));
    if v != w {
      EvalPick(k - {v}, table, op, zero, w);
      EvalPick(k - {w}, table, op, zero, v);
      assert k - {v} - {w} == k - {w} - {v};
    }
  }

  // Toggling one word.
  lemma EvalToggle<V(!new)>(k: Key, table: Word -> V, op: (V, V) -> V, zero: V, w: Word)
    requires XorLaws(op, zero)
    ensures Eval(Xor(k, {w}), table, op, zero) == op(table(w), Eval(k, table, op, zero))
  {
    hide Eval;
    if w in k {
      assert Xor(k, {w}) == k - {w};
      EvalPick(k, table, op, zero, w);
    } else {
      assert Xor(k, {w}) == k + {w};
      EvalPick(k + {w}, table, op, zero, w);
      assert k + {w} - {w} == k;
    }
  }

  // Symmetric difference becomes exclusive-or.
  lemma {:induction false} EvalXor<V(!new)>(a: Key, b: Key, table: Word -> V, op: (V, V) -> V, zero: V)
    requires XorLaws(op, zero)
    ensures Eval(Xor(a, b), table, op, zero) == op(Eval(a, table, op, zero), Eval(b, table, op, zero))
    decreases b
  {
    if b == {} {
      assert Xor(a, b) == a;
    } else {
      var w :| w in b;
      EvalXor(a, b - {w}, table, op, zero);
      assert Xor(a, b) == Xor(Xor(a, b - {w}), {w});
      EvalToggle(Xor(a, b - {w}), table, op, zero, w);
      EvalPick(b, table, op, zero, w);
    }
  }

  // The engine's instance: 64-bit words.
  function WordXor(a: bv64, b: bv64): bv64 { a ^ b }

  lemma WordsXor()
    ensures XorLaws(WordXor, 0)
  {
    hide WordXor;
    forall a: bv64, b: bv64, c: bv64 ensures WordXor(a, WordXor(b, c)) == WordXor(b, WordXor(a, c)) {
      WordSwap(a, b, c);
    }
    forall a: bv64, c: bv64 ensures WordXor(a, WordXor(a, c)) == c { WordCancel(a, c); }
    forall a: bv64 ensures WordXor(a, 0) == a { WordZero(a); }
  }

  lemma WordSwap(a: bv64, b: bv64, c: bv64)
    ensures WordXor(a, WordXor(b, c)) == WordXor(b, WordXor(a, c))
  {
    assert a ^ (b ^ c) == b ^ (a ^ c);
  }

  lemma WordCancel(a: bv64, c: bv64)
    ensures WordXor(a, WordXor(a, c)) == c
  {
    assert a ^ (a ^ c) == c;
  }

  lemma WordZero(a: bv64)
    ensures WordXor(a, 0) == a
  {
  }
}
