// The text form of one NUMA node: processor indices and ranges, printed as maximal
// runs and read back.

module NumaText {
  import opened Chess
  import opened Text

  // ---------- lists of indices ----------

  const MAX_CPU_INDEX := 65535
  const MAX_INDICES := 0x10_0000

  function Range(first: nat, last: nat): (r: seq<nat>)
    requires first <= last + 1
    ensures |r| == last + 1 - first && forall i :: 0 <= i < |r| ==> r[i] == first + i
  {
    seq(last + 1 - first, i requires 0 <= i < last + 1 - first => first + i)
  }

  // The loop from first to last: nothing when they are upside down.
  function Between(first: nat, last: nat): seq<nat> {
    if first <= last then Range(first, last) else []
  }

  // One component: a count or a range. The size test wraps when the range is
  // upside down.
  function Component(ss: string): Option<seq<nat>> {
    var parts := SplitAt(ss, '-');
    if |parts| == 1 then
      var c := StrToSize(parts[0]);
      if c == None || c.value > MAX_CPU_INDEX then None else Some([c.value])
    else if |parts| == 2 then
      var a, b := StrToSize(parts[0]), StrToSize(parts[1]);
      if a == None || b == None || b.value > MAX_CPU_INDEX || (b.value - a.value) % U64 >= MAX_INDICES then None
      else Some(Between(a.value, b.value))
    else None
  }

  function Components(parts: seq<string>): Option<seq<nat>> {
    if parts == [] then Some([])
    else
      var rest := Components(parts[..|parts| - 1]);
      var ss := parts[|parts| - 1];
      if rest == None then None
      else if ss == "" then rest
      else
        var c := Component(ss);
        if c == None then None else Some(rest.value + c.value)
  }

  // indices_from_shortened_string
  function Indices(s: string): Option<seq<nat>> {
    Components(SplitAt(s, ','))
  }

  lemma {:induction false} OneFailsAll(parts: seq<string>, k: nat)
    requires k <= |parts| && Components(parts[..k]) == None
    ensures Components(parts) == None
    decreases |parts| - k
  {
    if k < |parts| {
      assert parts[..k + 1][..k] == parts[..k];
      OneFailsAll(parts, k + 1);
    } else {
      assert parts[..k] == parts;
    }
  }

  // The whole string is refused exactly if some component that is not empty is.
  lemma {:induction false} RefusedIff(parts: seq<string>)
    ensures Components(parts) == None <==> exists i :: 0 <= i < |parts| && parts[i] != "" && Component(parts[i]) == None
  {
    hide Component;
    if parts != [] {
      var init := parts[..|parts| - 1];
      RefusedIff(init);
      if i :| 0 <= i < |init| && init[i] != "" && Component(init[i]) == None {
        assert parts[i] == init[i];
      }
      if i :| 0 <= i < |parts| && parts[i] != "" && Component(parts[i]) == None && i < |parts| - 1 {
        assert init[i] == parts[i];
      }
    }
  }

  // A printed index is accepted up to the largest processor number.
  lemma OneIndex(a: nat)
    requires a < U64
    ensures Component(Decimal(a)) == if a <= MAX_CPU_INDEX then Some([a]) else None
  {
    hide StrToSize, Decimal;
    DecimalDigits(a);
    DigitsFree(Decimal(a), '-');
    assert Join([Decimal(a)], '-') == Decimal(a);
    SplitJoin([Decimal(a)], '-');
    CountRoundTrip(a);
  }

  // A printed range is accepted exactly if its end is a processor number.
  lemma OneRange(a: nat, b: nat)
    requires a <= b < U64
    ensures Component(Decimal(a) + "-" + Decimal(b)) == if b <= MAX_CPU_INDEX then Some(Range(a, b)) else None
  {
    hide StrToSize, Decimal;
    TwoCounts(a, b);
    CountRoundTrip(a);
    CountRoundTrip(b);
  }

  method IndicesFromShortenedString(s: string) returns (r: Option<seq<nat>>)
    ensures r == Indices(s)
  {
    hide StrToSize;
    var list := [];
    var parts := Split(s, ',');
    var i := 0;
    while i < |parts|
      invariant 0 <= i <= |parts|
      invariant Components(parts[..i]) == Some(list)
    {
      assert parts[..i + 1][..i] == parts[..i];
      var ss := parts[i];
      if ss != "" {
        var c := ParseComponent(ss);
        if c == None {
          OneFailsAll(parts, i + 1);
          return None;
        }
        list := list + c.value;
      }
      i := i + 1;
    }
    assert parts[..i] == parts;
    return Some(list);
  }

  method ParseComponent(ss: string) returns (r: Option<seq<nat>>)
    ensures r == Component(ss)
  {
    hide StrToSize;
    var parts := Split(ss, '-');
    if |parts| == 1 {
      var c := StrToSize(parts[0]);
      if c == None || c.value > MAX_CPU_INDEX {
        return None;
      }
      return Some([c.value]);
    } else if |parts| == 2 {
      var cfirst, clast := StrToSize(parts[0]), StrToSize(parts[1]);
      if cfirst == None || clast == None || clast.value > MAX_CPU_INDEX {
        return None;
      }
      if (clast.value - cfirst.value) % U64 >= MAX_INDICES {
        return None;
      }
      var indices := [];
      var c := cfirst.value;
      while c <= clast.value
        invariant cfirst.value <= c && (cfirst.value <= clast.value ==> c <= clast.value + 1)
        invariant cfirst.value > clast.value ==> c == cfirst.value
        invariant indices == if c == cfirst.value then [] else Range(cfirst.value, c - 1)
      {
        indices := indices + [c];
        c := c + 1;
      }
      return Some(indices);
    }
    return None;
  }

  // A range printed upside down is refused unless its first index is so close to
  // the top of the word that the wrapped size passes; then it adds nothing.
  lemma UpsideDownRefusedIff(a: nat, b: nat)
    requires b < a < U64 && b <= MAX_CPU_INDEX
    ensures Component(Decimal(a) + "-" + Decimal(b)) == None <==> U64 - (a - b) >= MAX_INDICES
    ensures U64 - (a - b) < MAX_INDICES ==> Component(Decimal(a) + "-" + Decimal(b)) == Some([])
  {
    hide StrToSize, Decimal;
    TwoCounts(a, b);
    CountRoundTrip(a);
    CountRoundTrip(b);
    WrapsHigh(b - a);
  }

  lemma WrapsHigh(d: int)
    requires -U64 < d < 0
    ensures d % U64 == d + U64
  {
  }

  lemma TwoCounts(a: nat, b: nat)
    ensures SplitAt(Decimal(a) + "-" + Decimal(b), '-') == [Decimal(a), Decimal(b)]
  {
    hide Decimal;
    DecimalDigits(a);
    DecimalDigits(b);
    DigitsFree(Decimal(a), '-');
    DigitsFree(Decimal(b), '-');
    var parts := [Decimal(a), Decimal(b)];
    assert parts[1..] == [Decimal(b)];
    assert Join(parts, '-') == Decimal(a) + "-" + Decimal(b);
    SplitJoin(parts, '-');
  }

  // ---------- runs ----------

  predicate Ascending(s: seq<nat>) { forall i, j :: 0 <= i < j < |s| ==> s[i] < s[j] }

  // The maximal runs of consecutive numbers.
  function Runs(s: seq<nat>): (r: seq<(nat, nat)>)
    requires Ascending(s)
    ensures s != [] ==> r != [] && r[|r| - 1].1 == s[|s| - 1]
    ensures forall i :: 0 <= i < |r| ==> r[i].0 <= r[i].1 && r[i].1 in s
  {
    if s == [] then []
    else
      var t, x := s[..|s| - 1], s[|s| - 1];
      var r := Runs(t);
      if t != [] && t[|t| - 1] + 1 == x then r[..|r| - 1] + [(r[|r| - 1].0, x)] else r + [(x, x)]
  }

  function Expand(runs: seq<(nat, nat)>): seq<nat>
    requires forall i :: 0 <= i < |runs| ==> runs[i].0 <= runs[i].1
  {
    if runs == [] then [] else Expand(runs[..|runs| - 1]) + Range(runs[|runs| - 1].0, runs[|runs| - 1].1)
  }

  lemma ExpandLast(r: seq<(nat, nat)>, l: (nat, nat))
    requires (forall i :: 0 <= i < |r| ==> r[i].0 <= r[i].1) && l.0 <= l.1
    ensures Expand(r + [l]) == Expand(r) + Range(l.0, l.1)
  {
    assert (r + [l])[..|r|] == r;
  }

  lemma RangeMore(a: nat, b: nat)
    requires a <= b
    ensures Range(a, b + 1) == Range(a, b) + [b + 1] && Range(b, b) == [b]
  {
  }

  predicate Meets(t: seq<nat>, x: nat) { t != [] && t[|t| - 1] + 1 == x }

  lemma RunsStep(t: seq<nat>, x: nat)
    requires Ascending(t + [x]) && Ascending(t)
    ensures Meets(t, x) ==> Runs(t) != [] && Runs(t)[|Runs(t)| - 1].1 + 1 == x
                            && Runs(t + [x]) == Runs(t)[..|Runs(t)| - 1] + [(Runs(t)[|Runs(t)| - 1].0, x)]
    ensures !Meets(t, x) ==> Runs(t + [x]) == Runs(t) + [(x, x)]
  {
    assert (t + [x])[..|t|] == t;
  }

  lemma {:induction false} ExpandRuns(s: seq<nat>)
    requires Ascending(s)
    ensures Expand(Runs(s)) == s
  {
    hide Expand, Range, Ascending;
    if s == [] {
      NoRuns();
    } else {
      var t, x := s[..|s| - 1], s[|s| - 1];
      assert s == t + [x];
      ShorterAscends(s);
      ExpandRuns(t);
      ExpandStep(t, x);
    }
  }

  lemma ShorterAscends(s: seq<nat>)
    requires Ascending(s) && s != []
    ensures Ascending(s[..|s| - 1])
  {
  }

  lemma ExpandStep(t: seq<nat>, x: nat)
    requires Ascending(t + [x]) && Ascending(t) && Expand(Runs(t)) == t
    ensures Expand(Runs(t + [x])) == t + [x]
  {
    hide Expand, Range, Ascending;
    RunsStep(t, x);
    var r := Runs(t);
    if Meets(t, x) {
      var l := r[|r| - 1];
      assert r == r[..|r| - 1] + [l];
      ExpandLast(r[..|r| - 1], l);
      ExpandLast(r[..|r| - 1], (l.0, x));
      RangeMore(l.0, l.1);
    } else {
      ExpandLast(r, (x, x));
      RangeMore(x, x);
    }
  }

  lemma NoRuns()
    ensures Expand([]) == []
  {
  }

  function RunText(run: (nat, nat)): string {
    if run.0 == run.1 then Decimal(run.1) else Decimal(run.0) + "-" + Decimal(run.1)
  }

  function RunTexts(runs: seq<(nat, nat)>): (r: seq<string>)
    ensures |r| == |runs|
  {
    seq(|runs|, i requires 0 <= i < |runs| => RunText(runs[i]))
  }

  // One node of to_string: its runs, joined by commas.
  function NodeText(cpus: seq<nat>): string
    requires Ascending(cpus) && cpus != []
  {
    Join(RunTexts(Runs(cpus)), ',')
  }

  lemma RunTextFree(run: (nat, nat), c: char)
    requires !IsDigit(c) && c != '-'
    ensures Free(RunText(run), c) && RunText(run) != ""
  {
    DecimalDigits(run.0);
    DecimalDigits(run.1);
    DigitsFree(Decimal(run.0), c);
    DigitsFree(Decimal(run.1), c);
  }

  // A printed run reads back as the run.
  lemma RunRoundTrip(run: (nat, nat))
    requires run.0 <= run.1 <= MAX_CPU_INDEX
    ensures Component(RunText(run)) == Some(Range(run.0, run.1))
  {
    hide StrToSize, Decimal;
    CountRoundTrip(run.0);
    CountRoundTrip(run.1);
    if run.0 == run.1 {
      DecimalDigits(run.1);
      DigitsFree(Decimal(run.1), '-');
      SplitJoin([Decimal(run.1)], '-');
      assert Range(run.0, run.1) == [run.1];
    } else {
      TwoCounts(run.0, run.1);
      assert (run.1 - run.0) % U64 == run.1 - run.0;
    }
  }

  lemma {:induction false} RunsRoundTrip(runs: seq<(nat, nat)>)
    requires forall i :: 0 <= i < |runs| ==> runs[i].0 <= runs[i].1 <= MAX_CPU_INDEX
    ensures Components(RunTexts(runs)) == Some(Expand(runs))
  {
    hide Component, RunText, Range;
    if runs == [] {
      assert RunTexts(runs) == [];
    } else {
      var t, l := runs[..|runs| - 1], runs[|runs| - 1];
      RunsRoundTrip(t);
      assert RunTexts(runs)[..|runs| - 1] == RunTexts(t);
      RunTextFree(l, ',');
      RunRoundTrip(l);
    }
  }

  lemma JoinNonEmpty(parts: seq<string>, d: char)
    requires |parts| >= 1 && parts[0] != ""
    ensures Join(parts, d) != ""
  {
  }

  lemma {:induction false} JoinFree(parts: seq<string>, d: char, c: char)
    requires |parts| >= 1 && c != d && forall i :: 0 <= i < |parts| ==> Free(parts[i], c)
    ensures Free(Join(parts, d), c)
  {
    if |parts| > 1 { JoinFree(parts[1..], d, c); }
  }

  // A printed node reads back as its processors, in order.
  lemma NodeRoundTrip(cpus: seq<nat>)
    requires Ascending(cpus) && cpus != [] && forall i :: 0 <= i < |cpus| ==> cpus[i] <= MAX_CPU_INDEX
    ensures Indices(NodeText(cpus)) == Some(cpus) && NodeText(cpus) != "" && Free(NodeText(cpus), ':')
  {
    hide Component, RunText, Range, Join;
    var runs := Runs(cpus);
    var texts := RunTexts(runs);
    forall i | 0 <= i < |texts| ensures Free(texts[i], ',') && Free(texts[i], ':') && texts[i] != "" {
      RunTextFree(runs[i], ',');
      RunTextFree(runs[i], ':');
    }
    SplitJoin(texts, ',');
    JoinNonEmpty(texts, ',');
    JoinFree(texts, ',', ':');
    RunsRoundTrip(runs);
    ExpandRuns(cpus);
  }
}
