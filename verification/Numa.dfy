// The NUMA configuration: nodes of processors and the index back, built from text
// or from L3 domains, printed, and used to spread threads.

module Numa {
  import opened Chess
  import opened Text
  import opened NumaText

  // A node is its processors in ascending order, as the ordered set iterates them.
  type Node = s: seq<nat> | Ascending(s) witness []

  predicate Within(s: seq<nat>) { forall i :: 0 <= i < |s| ==> s[i] <= MAX_CPU_INDEX }

  function InsertCpu(s: seq<nat>, c: nat): seq<nat> {
    if s == [] || s[|s| - 1] < c then s + [c]
    else if s[|s| - 1] == c then s
    else InsertCpu(s[..|s| - 1], c) + [s[|s| - 1]]
  }

  lemma AscendLast(t: seq<nat>, l: nat)
    requires Ascending(t) && forall x :: x in t ==> x < l
    ensures Ascending(t + [l])
  {
    forall i, j | 0 <= i < j < |t + [l]| ensures (t + [l])[i] < (t + [l])[j] {
      if j == |t| { assert t[i] in t; }
    }
  }

  lemma LastIsTop(s: seq<nat>, x: nat)
    requires Ascending(s) && x in s
    ensures x <= s[|s| - 1]
  {
  }

  lemma SplitLast(s: seq<nat>)
    requires Ascending(s) && s != []
    ensures var t, l := s[..|s| - 1], s[|s| - 1];
            Ascending(t) && s == t + [l] && forall x :: x in t ==> x < l
  {
  }

  lemma {:induction false} InsertCpuIs(s: seq<nat>, c: nat)
    requires Ascending(s)
    ensures Ascending(InsertCpu(s, c))
    ensures forall x :: x in InsertCpu(s, c) <==> x in s || x == c
  {
    if s == [] || s[|s| - 1] < c {
      forall x | x in s ensures x < c { LastIsTop(s, x); }
      hide Ascending;
      AscendLast(s, c);
    } else if s[|s| - 1] > c {
      var t, l := s[..|s| - 1], s[|s| - 1];
      hide Ascending;
      SplitLast(s);
      InsertCpuIs(t, c);
      AscendLast(InsertCpu(t, c), l);
    }
  }

  // The nodes and the index agree: each processor is in the one node the index
  // names, and nowhere else.
  predicate Agree(nodes: seq<Node>, byCpu: map<nat, nat>) {
    && (forall n, c :: 0 <= n < |nodes| && c in nodes[n] ==> c in byCpu && byCpu[c] == n)
    && (forall c :: c in byCpu ==> byCpu[c] < |nodes| && c in nodes[byCpu[c]])
  }

  function Padded(nodes: seq<Node>, n: nat): (r: seq<Node>)
    ensures |r| == (if |nodes| <= n then n + 1 else |nodes|)
    ensures forall i :: 0 <= i < |r| ==> r[i] == if i < |nodes| then nodes[i] else []
  {
    nodes + seq((if |nodes| <= n then n + 1 - |nodes| else 0), _ => [])
  }

  datatype Config = Config(nodes: seq<Node>, byCpu: map<nat, nat>)

  // add_cpu_to_node; none when the processor is taken.
  function AddCpu(c: Config, n: nat, cpu: nat): Option<Config> {
    if cpu in c.byCpu then None
    else
      var nodes := Padded(c.nodes, n);
      InsertCpuIs(nodes[n], cpu);
      Some(Config(nodes[n := InsertCpu(nodes[n], cpu)], c.byCpu[cpu := n]))
  }

  lemma AddCpuAgrees(c: Config, n: nat, cpu: nat)
    requires Agree(c.nodes, c.byCpu) && cpu !in c.byCpu
    ensures AddCpu(c, n, cpu).Some? && Agree(AddCpu(c, n, cpu).value.nodes, AddCpu(c, n, cpu).value.byCpu)
    ensures AddCpu(c, n, cpu).value.byCpu.Keys == c.byCpu.Keys + {cpu}
  {
    hide InsertCpu, Ascending;
    var nodes := Padded(c.nodes, n);
    InsertCpuIs(nodes[n], cpu);
  }

  // ---------- from_string on values ----------

  function AddAll(c: Config, n: nat, cpus: seq<nat>): Option<Config> {
    if cpus == [] then Some(c)
    else
      var d := AddAll(c, n, cpus[..|cpus| - 1]);
      if d == None then None else AddCpu(d.value, n, cpus[|cpus| - 1])
  }

  // The nodes read so far and the number of the next.
  function ReadNodes(parts: seq<string>): Option<(Config, nat)> {
    if parts == [] then Some((Config([], map[]), 0))
    else
      var past := ReadNodes(parts[..|parts| - 1]);
      var indices := Indices(parts[|parts| - 1]);
      if past == None || indices == None then None
      else if indices.value == [] then past
      else
        var c := AddAll(past.value.0, past.value.1, indices.value);
        if c == None then None else Some((c.value, past.value.1 + 1))
  }

  function FromText(s: string): Option<Config> {
    var r := ReadNodes(SplitAt(s, ':'));
    if r == None || r.value.1 == 0 then None else Some(r.value.0)
  }

  function ToText(nodes: seq<Node>): string
    requires |nodes| >= 1 && forall i :: 0 <= i < |nodes| ==> nodes[i] != []
  {
    Join(seq(|nodes|, i requires 0 <= i < |nodes| => NodeText(nodes[i])), ':')
  }

  // ---------- agreement and round trip ----------

  lemma {:induction false} AddAllAgrees(c: Config, n: nat, cpus: seq<nat>)
    requires Agree(c.nodes, c.byCpu) && AddAll(c, n, cpus).Some?
    ensures Agree(AddAll(c, n, cpus).value.nodes, AddAll(c, n, cpus).value.byCpu)
  {
    hide Agree, AddCpu;
    if cpus != [] {
      var d := AddAll(c, n, cpus[..|cpus| - 1]);
      AddAllAgrees(c, n, cpus[..|cpus| - 1]);
      AddSome(d.value, n, cpus[|cpus| - 1]);
      AddCpuAgrees(d.value, n, cpus[|cpus| - 1]);
    }
  }

  lemma AddSome(c: Config, n: nat, cpu: nat)
    ensures AddCpu(c, n, cpu).Some? <==> cpu !in c.byCpu
  {
  }

  // Whatever text is accepted, the nodes it gives are consistent.
  lemma {:induction false} ReadNodesAgree(parts: seq<string>)
    requires ReadNodes(parts).Some?
    ensures Agree(ReadNodes(parts).value.0.nodes, ReadNodes(parts).value.0.byCpu)
  {
    hide Agree, Indices, AddAll;
    if parts == [] {
      NothingAgrees();
    } else {
      var past := ReadNodes(parts[..|parts| - 1]);
      ReadNodesAgree(parts[..|parts| - 1]);
      var indices := Indices(parts[|parts| - 1]);
      if indices.value != [] { AddAllAgrees(past.value.0, past.value.1, indices.value); }
    }
  }

  lemma NothingAgrees()
    ensures Agree([], map[])
  {
  }

  lemma AppendLast(s: seq<nat>, c: nat)
    requires Ascending(s + [c])
    ensures InsertCpu(s, c) == s + [c] && Ascending(s)
  {
    if s != [] { assert (s + [c])[|s| - 1] < (s + [c])[|s|]; }
    forall i, j | 0 <= i < j < |s| ensures s[i] < s[j] { assert (s + [c])[i] < (s + [c])[j]; }
  }

  function CpusOf(s: seq<nat>): set<nat> { set x | x in s }

  // The result of adding the list as a new node.
  predicate Appended(c: Config, cpus: Node, r: Option<Config>) {
    r.Some? && r.value.nodes == c.nodes + [cpus] && r.value.byCpu.Keys == c.byCpu.Keys + CpusOf(cpus)
  }

  // Adding a fresh ascending list to the next node yields that node.
  lemma {:induction false} AddAllAppends(c: Config, cpus: Node)
    requires cpus != [] && forall x :: x in cpus ==> x !in c.byCpu
    ensures Appended(c, cpus, AddAll(c, |c.nodes|, cpus))
    decreases |cpus|
  {
    hide AddAll, Appended, Ascending;
    SplitLast(cpus);
    var t, x := cpus[..|cpus| - 1], cpus[|cpus| - 1];
    if t == [] {
      AppendsFirst(c, x);
    } else {
      AddAllAppends(c, t);
      AppendsNext(c, t, x);
    }
  }

  lemma AppendsFirst(c: Config, x: nat)
    requires x !in c.byCpu
    ensures Ascending([x]) && Appended(c, [x], AddAll(c, |c.nodes|, [x]))
  {
    hide AddCpu, AddAll;
    AddAllStep(c, |c.nodes|, [], x);
    CpusSplit([], x);
    assert [] + [x] == [x];
    NoneAdded(c, |c.nodes|);
    AppendNew(c, x);
  }

  lemma AppendsNext(c: Config, t: Node, x: nat)
    requires Ascending(t + [x]) && x !in t && x !in c.byCpu && Appended(c, t, AddAll(c, |c.nodes|, t))
    ensures Appended(c, t + [x], AddAll(c, |c.nodes|, t + [x]))
  {
    hide AddCpu, AddAll, Ascending;
    AddAllStep(c, |c.nodes|, t, x);
    CpusSplit(t, x);
    AppendMore(c.nodes, AddAll(c, |c.nodes|, t).value, t, x);
  }

  lemma AddAllStep(c: Config, n: nat, t: seq<nat>, x: nat)
    ensures AddAll(c, n, t + [x]) == if AddAll(c, n, t) == None then None else AddCpu(AddAll(c, n, t).value, n, x)
  {
    assert (t + [x])[..|t|] == t;
  }

  lemma CpusSplit(t: seq<nat>, x: nat)
    ensures CpusOf(t + [x]) == CpusOf(t) + {x} && CpusOf([]) == {}
  {
  }

  lemma NoneAdded(c: Config, n: nat)
    ensures AddAll(c, n, []) == Some(c)
  {
  }

  lemma AppendNew(c: Config, x: nat)
    requires x !in c.byCpu
    ensures AddCpu(c, |c.nodes|, x).Some?
    ensures AddCpu(c, |c.nodes|, x).value.nodes == c.nodes + [[x]]
    ensures AddCpu(c, |c.nodes|, x).value.byCpu.Keys == c.byCpu.Keys + {x}
  {
    assert Padded(c.nodes, |c.nodes|) == c.nodes + [[]];
    assert InsertCpu([], x) == [x];
    assert (c.nodes + [[]])[|c.nodes| := [x]] == c.nodes + [[x]];
  }

  lemma AppendMore(nodes: seq<Node>, d: Config, t: Node, x: nat)
    requires d.nodes == nodes + [t] && x !in d.byCpu && Ascending(t + [x])
    ensures AddCpu(d, |nodes|, x).Some?
    ensures AddCpu(d, |nodes|, x).value.nodes == nodes + [t + [x]]
    ensures AddCpu(d, |nodes|, x).value.byCpu.Keys == d.byCpu.Keys + {x}
  {
    AppendLast(t, x);
    assert Padded(d.nodes, |nodes|) == d.nodes;
  }

  // Nodes that name each processor once.
  predicate Disjoint(nodes: seq<Node>) {
    forall i, j, c :: 0 <= i < j < |nodes| && c in nodes[i] ==> c !in nodes[j]
  }

  function NodeTexts(nodes: seq<Node>): (r: seq<string>)
    requires forall i :: 0 <= i < |nodes| ==> nodes[i] != []
    ensures |r| == |nodes|
  {
    seq(|nodes|, i requires 0 <= i < |nodes| => NodeText(nodes[i]))
  }

  lemma {:induction false} ReadBack(nodes: seq<Node>)
    requires Disjoint(nodes) && forall i :: 0 <= i < |nodes| ==> nodes[i] != [] && Within(nodes[i])
    ensures ReadNodes(NodeTexts(nodes)).Some? && ReadNodes(NodeTexts(nodes)).value.0.nodes == nodes
    ensures ReadNodes(NodeTexts(nodes)).value.1 == |nodes|
    decreases |nodes|
  {
    hide NodeText, Indices, AddAll, Agree;
    if nodes == [] {
      assert NodeTexts(nodes) == [];
    } else {
      var t, l := nodes[..|nodes| - 1], nodes[|nodes| - 1];
      assert nodes == t + [l];
      DisjointPrefix(nodes);
      ReadBack(t);
      assert NodeTexts(nodes)[..|nodes| - 1] == NodeTexts(t);
      NodeRoundTrip(l);
      ReadNodesAgree(NodeTexts(t));
      var c := ReadNodes(NodeTexts(t)).value.0;
      FreshNode(nodes, c);
      AddAllAppends(c, l);
    }
  }

  lemma DisjointPrefix(nodes: seq<Node>)
    requires Disjoint(nodes) && nodes != []
    ensures Disjoint(nodes[..|nodes| - 1])
  {
  }

  lemma FreshNode(nodes: seq<Node>, c: Config)
    requires Disjoint(nodes) && nodes != [] && c.nodes == nodes[..|nodes| - 1] && Agree(c.nodes, c.byCpu)
    ensures forall x :: x in nodes[|nodes| - 1] ==> x !in c.byCpu
  {
    var l := nodes[|nodes| - 1];
    forall x | x in c.byCpu ensures x !in l {
      var n := c.byCpu[x];
      assert x in c.nodes[n] && c.nodes[n] == nodes[n] && n < |nodes| - 1;
    }
  }

  // Every configuration with non-empty disjoint nodes is read back from its text,
  // with the index that agrees with it.
  lemma TextRoundTrip(nodes: seq<Node>)
    requires |nodes| >= 1 && Disjoint(nodes) && forall i :: 0 <= i < |nodes| ==> nodes[i] != [] && Within(nodes[i])
    ensures FromText(ToText(nodes)).Some? && FromText(ToText(nodes)).value.nodes == nodes
    ensures Agree(nodes, FromText(ToText(nodes)).value.byCpu)
  {
    hide NodeText, Agree;
    var texts := NodeTexts(nodes);
    forall i | 0 <= i < |texts| ensures Free(texts[i], ':') && texts[i] != "" { NodeRoundTrip(nodes[i]); }
    SplitJoin(texts, ':');
    JoinNonEmpty(texts, ':');
    ReadBack(nodes);
    ReadNodesAgree(texts);
    assert ToText(nodes) == Join(texts, ':');
  }

  // ---------- the object ----------

  class NumaConfig {
    var nodes: seq<Node>
    var nodeByCpu: map<nat, nat>
    var highestCpuIndex: nat
    var customAffinity: bool

    ghost predicate Valid()
      reads this
    {
      Agree(nodes, nodeByCpu) && forall c :: c in nodeByCpu ==> c <= highestCpuIndex
    }

    constructor Empty()
      ensures Valid() && nodes == [] && nodeByCpu == map[] && highestCpuIndex == 0 && !customAffinity
    {
      nodes, nodeByCpu, highestCpuIndex, customAffinity := [], map[], 0, false;
    }

    // A taken processor leaves everything as it was.
    method AddCpuToNode(n: nat, c: nat) returns (ok: bool)
      requires Valid()
      modifies this
      ensures Valid() && customAffinity == old(customAffinity)
      ensures ok <==> c !in old(nodeByCpu)
      ensures ok ==> Some(Config(nodes, nodeByCpu)) == AddCpu(Config(old(nodes), old(nodeByCpu)), n, c)
      ensures !ok ==> nodes == old(nodes) && nodeByCpu == old(nodeByCpu) && highestCpuIndex == old(highestCpuIndex)
    {
      hide Agree, InsertCpu;
      if c in nodeByCpu {
        return false;
      }
      AddCpuAgrees(Config(nodes, nodeByCpu), n, c);
      ghost var was := nodes;
      while |nodes| <= n
        invariant |nodes| <= |was| || |nodes| <= n + 1
        invariant |was| <= |nodes| && nodes[..|was|] == was && forall i :: |was| <= i < |nodes| ==> nodes[i] == []
        invariant nodeByCpu == old(nodeByCpu) && highestCpuIndex == old(highestCpuIndex)
                  && customAffinity == old(customAffinity)
        decreases n + 1 - |nodes|
      {
        nodes := nodes + [[]];
      }
      assert nodes == Padded(was, n);
      InsertCpuIs(nodes[n], c);
      nodes := nodes[n := InsertCpu(nodes[n], c)];
      nodeByCpu := nodeByCpu[c := n];
      if c > highestCpuIndex {
        highestCpuIndex := c;
      }
      return true;
    }

    // A range with any processor taken leaves everything as it was.
    method AddCpuRangeToNode(n: nat, cfirst: nat, clast: nat) returns (ok: bool)
      requires Valid() && cfirst <= clast
      modifies this
      ensures Valid()
      ensures ok <==> forall c :: cfirst <= c <= clast ==> c !in old(nodeByCpu)
      ensures ok ==>
                Some(Config(nodes, nodeByCpu)) == AddAll(Config(old(nodes), old(nodeByCpu)), n, Range(cfirst, clast))
      ensures !ok ==> nodes == old(nodes) && nodeByCpu == old(nodeByCpu) && highestCpuIndex == old(highestCpuIndex)
    {
      hide Agree, AddCpu;
      var c := cfirst;
      while c <= clast
        invariant cfirst <= c <= clast + 1
        invariant forall x :: cfirst <= x < c ==> x !in nodeByCpu
      {
        if c in nodeByCpu {
          return false;
        }
        c := c + 1;
      }
      ghost var start := Config(nodes, nodeByCpu);
      c := cfirst;
      while c <= clast
        invariant cfirst <= c <= clast + 1 && Valid()
        invariant Some(Config(nodes, nodeByCpu)) == AddAll(start, n, if c == cfirst then [] else Range(cfirst, c - 1))
        invariant forall x :: c <= x <= clast ==> x !in nodeByCpu
      {
        ghost var now := Config(nodes, nodeByCpu);
        RangeNext(start, n, cfirst, c);
        AddCpuKeys(now, n, c);
        var added := AddCpuToNode(n, c);
        c := c + 1;
      }
      return true;
    }
  }

  lemma RangeNext(start: Config, n: nat, cfirst: nat, c: nat)
    requires cfirst <= c
    ensures var d := AddAll(start, n, if c == cfirst then [] else Range(cfirst, c - 1));
            AddAll(start, n, Range(cfirst, c)) == if d == None then None else AddCpu(d.value, n, c)
  {
    hide AddCpu;
    assert Range(cfirst, c)[..c - cfirst] == if c == cfirst then [] else Range(cfirst, c - 1);
  }

  lemma AddCpuKeys(c: Config, n: nat, cpu: nat)
    requires cpu !in c.byCpu
    ensures AddCpu(c, n, cpu).Some? && AddCpu(c, n, cpu).value.byCpu.Keys == c.byCpu.Keys + {cpu}
  {
  }

  // from_string
  method FromString(s: string) returns (r: NumaConfig?)
    ensures r == null <==> FromText(s) == None
    ensures r != null ==> fresh(r) && r.Valid() && r.customAffinity && FromText(s) == Some(Config(r.nodes, r.nodeByCpu))
  {
    hide Agree, Indices, AddAll;
    var cfg := new NumaConfig.Empty();
    var n := 0;
    var parts := Split(s, ':');
    var i := 0;
    while i < |parts|
      invariant 0 <= i <= |parts| && cfg.Valid()
      invariant ReadNodes(parts[..i]) == Some((Config(cfg.nodes, cfg.nodeByCpu), n))
    {
      assert parts[..i + 1][..i] == parts[..i];
      var indices := IndicesFromShortenedString(parts[i]);
      if indices == None {
        NodeFailsAll(parts, i + 1);
        return null;
      }
      if indices.value != [] {
        var ok := AddIndices(cfg, n, indices.value);
        if !ok {
          NodeFailsAll(parts, i + 1);
          return null;
        }
        n := n + 1;
      }
      i := i + 1;
    }
    assert parts[..i] == parts;
    if n == 0 {
      return null;
    }
    cfg.customAffinity := true;
    return cfg;
  }

  method AddIndices(cfg: NumaConfig, n: nat, cpus: seq<nat>) returns (ok: bool)
    requires cfg.Valid()
    modifies cfg
    ensures cfg.Valid()
    ensures ok <==> AddAll(Config(old(cfg.nodes), old(cfg.nodeByCpu)), n, cpus).Some?
    ensures ok ==> Some(Config(cfg.nodes, cfg.nodeByCpu)) == AddAll(Config(old(cfg.nodes), old(cfg.nodeByCpu)), n, cpus)
  {
    hide Agree, AddCpu;
    ghost var start := Config(cfg.nodes, cfg.nodeByCpu);
    var i := 0;
    while i < |cpus|
      invariant 0 <= i <= |cpus| && cfg.Valid()
      invariant Some(Config(cfg.nodes, cfg.nodeByCpu)) == AddAll(start, n, cpus[..i])
    {
      assert cpus[..i + 1][..i] == cpus[..i];
      AddSome(Config(cfg.nodes, cfg.nodeByCpu), n, cpus[i]);
      var added := cfg.AddCpuToNode(n, cpus[i]);
      if !added {
        CpuFailsAll(start, n, cpus, i + 1);
        return false;
      }
      i := i + 1;
    }
    assert cpus[..i] == cpus;
    return true;
  }

  lemma {:induction false} CpuFailsAll(c: Config, n: nat, cpus: seq<nat>, k: nat)
    requires k <= |cpus| && AddAll(c, n, cpus[..k]) == None
    ensures AddAll(c, n, cpus) == None
    decreases |cpus| - k
  {
    hide AddCpu;
    if k < |cpus| {
      assert cpus[..k + 1][..k] == cpus[..k];
      CpuFailsAll(c, n, cpus, k + 1);
    } else {
      assert cpus[..k] == cpus;
    }
  }

  lemma {:induction false} NodeFailsAll(parts: seq<string>, k: nat)
    requires k <= |parts| && ReadNodes(parts[..k]) == None
    ensures ReadNodes(parts) == None
    decreases |parts| - k
  {
    hide Indices, AddAll;
    if k < |parts| {
      assert parts[..k + 1][..k] == parts[..k];
      NodeFailsAll(parts, k + 1);
    } else {
      assert parts[..k] == parts;
    }
  }

  // ---------- to_string ----------

  // s[from..i] counts up by ones.
  predicate Consecutive(s: seq<nat>, from: nat, i: nat)
    requires from <= i <= |s|
  {
    forall k :: from <= k < i ==> s[k] == s[from] + (k - from)
  }

  lemma {:induction false} OneRun(s: seq<nat>, from: nat, i: nat)
    requires Ascending(s) && from < i <= |s| && Consecutive(s, from, i)
    requires from == 0 || s[from - 1] + 1 != s[from]
    ensures Ascending(s[..i]) && Ascending(s[..from]) && Runs(s[..i]) == Runs(s[..from]) + [(s[from], s[i - 1])]
    decreases i
  {
    hide Ascending, Runs;
    PrefixAscends(s, i);
    PrefixAscends(s, i - 1);
    PrefixAscends(s, from);
    var t, x := s[..i - 1], s[i - 1];
    assert s[..i] == t + [x];
    RunsStep(t, x);
    if i - 1 > from {
      assert s[i - 2] == s[from] + (i - 2 - from) && x == s[from] + (i - 1 - from);
      OneRun(s, from, i - 1);
      var r := Runs(s[..from]);
      assert (r + [(s[from], s[i - 2])])[..|r|] == r;
    } else {
      assert t == s[..from];
    }
  }

  lemma PrefixAscends(s: seq<nat>, i: nat)
    requires Ascending(s) && i <= |s|
    ensures Ascending(s[..i])
  {
  }

  // Runs joined so far: the text before the first run is empty.
  function JoinedRuns(runs: seq<(nat, nat)>): string {
    if runs == [] then "" else Join(RunTexts(runs), ',')
  }

  lemma {:induction false} JoinMore(parts: seq<string>, p: string, d: char)
    requires |parts| >= 1
    ensures Join(parts + [p], d) == Join(parts, d) + [d] + p
  {
    if |parts| == 1 {
      assert (parts + [p])[1..] == [p];
    } else {
      assert (parts + [p])[1..] == parts[1..] + [p];
      JoinMore(parts[1..], p, d);
    }
  }

  lemma JoinedMore(runs: seq<(nat, nat)>, run: (nat, nat))
    ensures JoinedRuns(runs + [run]) == (if runs == [] then "" else JoinedRuns(runs) + ",") + RunText(run)
  {
    hide RunText;
    if runs == [] {
      assert RunTexts([run]) == [RunText(run)];
    } else {
      assert RunTexts(runs + [run]) == RunTexts(runs) + [RunText(run)];
      JoinMore(RunTexts(runs), RunText(run), ',');
    }
  }

  // The loop over one node: a run ends where the next processor does not follow.
  method PrintNode(cpus: Node) returns (str: string)
    requires cpus != []
    ensures str == NodeText(cpus)
  {
    hide Runs, Ascending, RunText, Decimal, Join;
    str := "";
    var isFirstSet := true;
    var rangeStart := 0;
    var it := 0;
    PrefixAscends(cpus, 0);
    NoRunsYet();
    assert cpus[..0] == [];
    while it < |cpus|
      invariant 0 <= rangeStart <= it <= |cpus| && Ascending(cpus) && Ascending(cpus[..rangeStart])
      invariant rangeStart < it ==> Consecutive(cpus, rangeStart, it) && it < |cpus| && cpus[it - 1] + 1 == cpus[it]
      invariant rangeStart == 0 || rangeStart == |cpus| || cpus[rangeStart - 1] + 1 != cpus[rangeStart]
      invariant rangeStart == |cpus| ==> it == |cpus|
      invariant it == |cpus| ==> rangeStart == |cpus|
      invariant isFirstSet <==> Runs(cpus[..rangeStart]) == []
      invariant str == JoinedRuns(Runs(cpus[..rangeStart]))
    {
      assert Consecutive(cpus, rangeStart, it + 1);
      if it + 1 == |cpus| || cpus[it + 1] != cpus[it] + 1 {
        OneRun(cpus, rangeStart, it + 1);
        JoinedMore(Runs(cpus[..rangeStart]), (cpus[rangeStart], cpus[it]));
        if !isFirstSet {
          str := str + ",";
        }
        str := str + PrintRun(cpus[rangeStart], cpus[it], it != rangeStart);
        SameEnds(cpus, rangeStart, it);
        rangeStart := it + 1;
        isFirstSet := false;
      }
      it := it + 1;
    }
    assert cpus[..|cpus|] == cpus;
    NodeIsJoined(cpus);
  }

  lemma NoRunsYet()
    ensures Ascending([]) && Runs([]) == []
  {
  }

  function PrintRun(first: nat, last: nat, many: bool): string {
    if many then Decimal(first) + "-" + Decimal(last) else Decimal(last)
  }

  lemma SameEnds(s: seq<nat>, from: nat, i: nat)
    requires Ascending(s) && from <= i < |s|
    ensures PrintRun(s[from], s[i], i != from) == RunText((s[from], s[i]))
  {
    hide Decimal;
    if from < i { assert s[from] < s[i]; }
  }

  lemma NodeIsJoined(cpus: seq<nat>)
    requires Ascending(cpus) && cpus != []
    ensures NodeText(cpus) == JoinedRuns(Runs(cpus))
  {
  }

  // to_string
  method ToStringOf(nodes: seq<Node>) returns (str: string)
    requires |nodes| >= 1 && forall i :: 0 <= i < |nodes| ==> nodes[i] != []
    ensures str == ToText(nodes)
  {
    hide NodeText, Join;
    str := PrintNode(nodes[0]);
    var i := 1;
    JoinOne(NodeText(nodes[0]), ':');
    assert NodeTexts(nodes[..1]) == [NodeText(nodes[0])];
    while i < |nodes|
      invariant 1 <= i <= |nodes| && str == Join(NodeTexts(nodes[..i]), ':')
    {
      var text := PrintNode(nodes[i]);
      assert NodeTexts(nodes[..i + 1]) == NodeTexts(nodes[..i]) + [text];
      JoinMore(NodeTexts(nodes[..i]), text, ':');
      str := str + ":" + text;
      i := i + 1;
    }
    assert nodes[..|nodes|] == nodes;
    assert ToText(nodes) == Join(NodeTexts(nodes), ':');
  }

  lemma JoinOne(p: string, d: char)
    ensures Join([p], d) == p
  {
  }

  // ---------- L3 domains ----------

  function All(ds: seq<set<nat>>): set<nat> {
    if ds == [] then {} else All(ds[..|ds| - 1]) + ds[|ds| - 1]
  }

  lemma {:induction false} AllConcat(a: seq<set<nat>>, b: seq<set<nat>>)
    ensures All(a + b) == All(a) + All(b)
    decreases |b|
  {
    if b == [] {
      assert a + b == a;
    } else {
      assert (a + b)[..|a + b| - 1] == a + b[..|b| - 1];
      AllConcat(a, b[..|b| - 1]);
    }
  }

  lemma AllOne(x: set<nat>)
    ensures All([x]) == x
  {
    assert [x][..0] == [];
  }

  predicate Apart(ds: seq<set<nat>>) {
    forall i, j :: 0 <= i < j < |ds| ==> ds[i] !! ds[j]
  }

  function Merged(ds: seq<set<nat>>, j: nat): seq<set<nat>>
    requires j + 1 < |ds|
  {
    ds[..j] + [ds[j] + ds[j + 1]] + ds[j + 2..]
  }

  lemma MergedAt(ds: seq<set<nat>>, j: nat, i: nat)
    requires j + 1 < |ds| && i < |ds| - 1
    ensures Merged(ds, j)[i] == if i < j then ds[i] else if i == j then ds[j] + ds[j + 1] else ds[i + 1]
  {
  }

  lemma MergeKeepsCpus(ds: seq<set<nat>>, j: nat)
    requires j + 1 < |ds|
    ensures All(Merged(ds, j)) == All(ds)
  {
    var a, x, y, b := ds[..j], ds[j], ds[j + 1], ds[j + 2..];
    AroundPair(ds, j);
    MergedIs(ds, j);
    hide *;
    AllThree(a, [x] + [y], b);
    AllThree(a, [x + y], b);
    AllConcat([x], [y]);
    AllOne(x);
    AllOne(y);
    AllOne(x + y);
  }

  lemma MergedIs(ds: seq<set<nat>>, j: nat)
    requires j + 1 < |ds|
    ensures Merged(ds, j) == ds[..j] + [ds[j] + ds[j + 1]] + ds[j + 2..]
  {
  }

  lemma AllThree(a: seq<set<nat>>, m: seq<set<nat>>, b: seq<set<nat>>)
    ensures All(a + m + b) == All(a) + All(m) + All(b)
  {
    hide All;
    AllConcat(a + m, b);
    AllConcat(a, m);
  }

  lemma AroundPair<T>(ds: seq<T>, j: nat)
    requires j + 1 < |ds|
    ensures ds == ds[..j] + ([ds[j]] + [ds[j + 1]]) + ds[j + 2..]
  {
  }

  lemma MergeKeepsApart(ds: seq<set<nat>>, j: nat)
    requires j + 1 < |ds| && Apart(ds)
    ensures Apart(Merged(ds, j))
  {
    var m := Merged(ds, j);
    forall a, b | 0 <= a < b < |m| ensures m[a] !! m[b] {
      MergedAt(ds, j, a);
      MergedAt(ds, j, b);
    }
  }

  // A bundle is an original domain or within the size.
  predicate Bundled(ds: seq<set<nat>>, orig: seq<set<nat>>, size: nat) {
    forall i :: 0 <= i < |ds| ==> |ds[i]| <= size || ds[i] in orig
  }

  lemma UnionSize(a: set<nat>, b: set<nat>)
    ensures |a + b| <= |a| + |b|
  {
    assert a + b == a + (b - a) && a !! (b - a);
    assert b == (b - a) + (a * b) && (b - a) !! (a * b);
  }

  lemma MergeKeepsBundled(ds: seq<set<nat>>, orig: seq<set<nat>>, j: nat, size: nat)
    requires j + 1 < |ds| && Bundled(ds, orig, size) && |ds[j]| + |ds[j + 1]| <= size
    ensures Bundled(Merged(ds, j), orig, size)
  {
    var m := Merged(ds, j);
    UnionSize(ds[j], ds[j + 1]);
    forall i | 0 <= i < |m| ensures |m[i]| <= size || m[i] in orig { MergedAt(ds, j, i); }
  }

  predicate Fits(ds: seq<set<nat>>, j: nat, size: nat)
    requires j + 1 < |ds|
  {
    |ds[j]| + |ds[j + 1]| <= size
  }

  // Bundle i joins the domains between two neighbouring cuts.
  predicate Cell(ds: seq<set<nat>>, orig: seq<set<nat>>, cuts: seq<nat>, i: nat)
    requires i < |ds| && |cuts| == |ds| + 1
  {
    cuts[i] < cuts[i + 1] <= |orig| && ds[i] == All(orig[cuts[i]..cuts[i + 1]])
  }

  predicate CutAt(ds: seq<set<nat>>, orig: seq<set<nat>>, cuts: seq<nat>) {
    && |cuts| == |ds| + 1 && cuts[0] == 0 && cuts[|ds|] == |orig|
    && forall i :: 0 <= i < |ds| ==> Cell(ds, orig, cuts, i)
  }

  lemma CutAtEach(ds: seq<set<nat>>) returns (cuts: seq<nat>)
    ensures CutAt(ds, ds, cuts)
  {
    cuts := seq(|ds| + 1, i => i);
    forall i | 0 <= i < |ds| ensures Cell(ds, ds, cuts, i) {
      AllOne(ds[i]);
      assert ds[i..i + 1] == [ds[i]];
    }
  }

  lemma CutLess(ds: seq<set<nat>>, orig: seq<set<nat>>, cuts: seq<nat>, j: nat) returns (less: seq<nat>)
    requires CutAt(ds, orig, cuts) && j + 1 < |ds|
    ensures CutAt(Merged(ds, j), orig, less)
  {
    less := cuts[..j + 1] + cuts[j + 2..];
    MergedShorter(ds, j);
    hide Merged, Cell, All;
    forall i | 0 <= i < |ds| - 1 ensures Cell(Merged(ds, j), orig, less, i) {
      CellAfter(ds, orig, cuts, j, i);
    }
  }

  lemma CellAfter(ds: seq<set<nat>>, orig: seq<set<nat>>, cuts: seq<nat>, j: nat, i: nat)
    requires CutAt(ds, orig, cuts) && j + 1 < |ds| && i < |ds| - 1 && |Merged(ds, j)| == |ds| - 1
    ensures Cell(Merged(ds, j), orig, cuts[..j + 1] + cuts[j + 2..], i)
  {
    hide All, Merged;
    MergedAt(ds, j, i);
    assert Cell(ds, orig, cuts, i) && Cell(ds, orig, cuts, i + 1);
    if i == j {
      var a, b, c := cuts[j], cuts[j + 1], cuts[j + 2];
      AllConcat(orig[a..b], orig[b..c]);
      assert orig[a..b] + orig[b..c] == orig[a..c];
    }
  }

  // What merging leaves: runs of neighbouring domains joined, every bundle an
  // original domain or within the size, and no adjacent pair that still fits.
  ghost predicate Merges(ds: seq<set<nat>>, orig: seq<set<nat>>, size: nat) {
    && (exists cuts :: CutAt(ds, orig, cuts))
    && Bundled(ds, orig, size)
    && forall j :: 0 <= j && j + 1 < |ds| ==> !Fits(ds, j, size)
  }

  // The merge loop of from_l3_info on the domains of one node. It ends, loses no
  // processor and keeps the bundles apart.
  method MergeDomains(domains: seq<set<nat>>, bundleSize: nat) returns (ds: seq<set<nat>>)
    ensures Merges(ds, domains, bundleSize)
    ensures All(ds) == All(domains)
    ensures Apart(domains) ==> Apart(ds)
  {
    hide All, Apart, Bundled, Merged, CutAt;
    OriginalsBundled(domains, bundleSize);
    ds := domains;
    ghost var cuts := CutAtEach(domains);
    while true
      invariant All(ds) == All(domains) && (Apart(domains) ==> Apart(ds)) && Bundled(ds, domains, bundleSize)
      invariant CutAt(ds, domains, cuts)
      decreases |ds|
    {
      var changed := false;
      ghost var before := |ds|;
      var j := 0;
      while j + 1 < |ds|
        invariant All(ds) == All(domains) && (Apart(domains) ==> Apart(ds)) && Bundled(ds, domains, bundleSize)
        invariant |ds| <= before && CutAt(ds, domains, cuts)
        invariant changed ==> |ds| < before
        invariant !changed ==> forall i :: 0 <= i < j && i + 1 < |ds| ==> !Fits(ds, i, bundleSize)
        decreases |ds| - j
      {
        if |ds[j]| + |ds[j + 1]| <= bundleSize {
          changed := true;
          MergeKeepsCpus(ds, j);
          if Apart(ds) { MergeKeepsApart(ds, j); }
          MergeKeepsBundled(ds, domains, j, bundleSize);
          MergedShorter(ds, j);
          cuts := CutLess(ds, domains, cuts, j);
          ds := Merged(ds, j);
        }
        j := j + 1;
      }
      if !changed {
        return;
      }
    }
  }

  lemma MergedShorter(ds: seq<set<nat>>, j: nat)
    requires j + 1 < |ds|
    ensures |Merged(ds, j)| == |ds| - 1
  {
  }

  lemma OriginalsBundled(ds: seq<set<nat>>, size: nat)
    ensures Bundled(ds, ds, size)
  {
  }

  function Flat(parts: seq<seq<set<nat>>>): seq<set<nat>> {
    if parts == [] then [] else Flat(parts[..|parts| - 1]) + parts[|parts| - 1]
  }

  // The index sends a processor to the first bundle that holds it.
  ghost predicate Placed(byCpu: map<nat, nat>, ds: seq<set<nat>>) {
    && byCpu.Keys == All(ds)
    && forall i, c :: 0 <= i < |ds| && c in ds[i] && c !in All(ds[..i]) ==> c in byCpu && byCpu[c] == i
  }

  datatype L3Domain = L3Domain(systemNode: nat, cpus: set<nat>)

  // The domains of one system node, in order.
  function OfNode(domains: seq<L3Domain>, n: nat): seq<set<nat>> {
    if domains == [] then []
    else OfNode(domains[..|domains| - 1], n)
         + if domains[|domains| - 1].systemNode == n then [domains[|domains| - 1].cpus] else []
  }

  // The system nodes that occur.
  function SystemNodes(domains: seq<L3Domain>): set<nat> {
    set d | d in domains :: d.systemNode
  }

  function Cpus(domains: seq<L3Domain>): set<nat> {
    set d, c | d in domains && c in d.cpus :: c
  }

  ghost predicate Grouped(list: map<nat, seq<set<nat>>>, domains: seq<L3Domain>) {
    && list.Keys == SystemNodes(domains)
    && (forall n :: n in list ==> list[n] == OfNode(domains, n))
  }

  function Added(list: map<nat, seq<set<nat>>>, d: L3Domain): map<nat, seq<set<nat>>> {
    list[d.systemNode := (if d.systemNode in list then list[d.systemNode] else []) + [d.cpus]]
  }

  lemma {:induction false} NoneOfNode(domains: seq<L3Domain>, n: nat)
    requires n !in SystemNodes(domains)
    ensures OfNode(domains, n) == []
  {
    if domains != [] {
      var init, last := domains[..|domains| - 1], domains[|domains| - 1];
      assert last.systemNode in SystemNodes(domains);
      forall d | d in init ensures d in domains && d.systemNode in SystemNodes(domains) {}
      NoneOfNode(init, n);
    }
  }

  lemma GroupedMore(list: map<nat, seq<set<nat>>>, domains: seq<L3Domain>, d: L3Domain)
    requires Grouped(list, domains)
    ensures Grouped(Added(list, d), domains + [d])
  {
    var more := domains + [d];
    NodesMore(domains, d);
    if d.systemNode !in list { NoneOfNode(domains, d.systemNode); }
    hide SystemNodes;
    forall n | n in Added(list, d) ensures Added(list, d)[n] == OfNode(more, n) {
      OfNodeMore(domains, d, n);
    }
  }

  lemma NoneGrouped()
    ensures Grouped(map[], [])
  {
  }

  lemma NodesMore(domains: seq<L3Domain>, d: L3Domain)
    ensures SystemNodes(domains + [d]) == SystemNodes(domains) + {d.systemNode}
  {
    assert forall x :: x in domains + [d] <==> x in domains || x == d;
    assert d in domains + [d];
  }

  lemma OfNodeMore(domains: seq<L3Domain>, d: L3Domain, n: nat)
    ensures OfNode(domains + [d], n) == OfNode(domains, n) + if d.systemNode == n then [d.cpus] else []
  {
    assert (domains + [d])[..|domains|] == domains;
  }

  // list[d.systemNumaIndex].emplace_back(d) for every domain.
  method GroupDomains(domains: seq<L3Domain>) returns (list: map<nat, seq<set<nat>>>)
    ensures Grouped(list, domains)
  {
    hide Grouped, Added;
    list := map[];
    NoneGrouped();
    var i := 0;
    while i < |domains|
      invariant 0 <= i <= |domains| && Grouped(list, domains[..i])
    {
      GroupedMore(list, domains[..i], domains[i]);
      assert domains[..i] + [domains[i]] == domains[..i + 1];
      list := Added(list, domains[i]);
      i := i + 1;
    }
    assert domains[..i] == domains;
  }

  lemma {:induction false} LeastFrom(s: set<nat>, t: nat) returns (m: nat)
    requires t in s
    ensures m in s && forall n :: n in s ==> m <= n
    decreases t
  {
    m := t;
    if n :| n in s && n < t {
      m := LeastFrom(s, n);
    }
  }

  predicate Rising(keys: seq<nat>) { forall i, j :: 0 <= i < j < |keys| ==> keys[i] < keys[j] }

  // from_l3_info: the domains of each system node, nodes in ascending order, are
  // merged and become the nodes in that order; every processor of every domain is
  // assigned, and nodes and index agree.
  method FromL3Info(domains: seq<L3Domain>, bundleSize: nat)
    returns (cfg: NumaConfig, ghost keys: seq<nat>, ghost parts: seq<seq<set<nat>>>)
    ensures fresh(cfg) && cfg.Valid() && cfg.nodeByCpu.Keys == Cpus(domains)
    ensures Rising(keys) && (set k | k in keys) == SystemNodes(domains) && |parts| == |keys|
    ensures forall k :: 0 <= k < |keys| ==> Merges(parts[k], OfNode(domains, keys[k]), bundleSize)
    ensures Placed(cfg.nodeByCpu, Flat(parts))
  {
    hide Agree, Merges, Apart, Placed, Flat, All, Cpus, OfNode, SystemNodes, Rising;
    cfg := new NumaConfig.Empty();
    parts, keys := [], [];
    var n := 0;
    var list := GroupDomains(domains);
    var rest := list.Keys;
    NonePlaced(cfg.nodeByCpu);
    StartRising(list.Keys);
    NoneCovered(list);
    while rest != {}
      invariant rest <= list.Keys && cfg.Valid() && fresh(cfg) && |parts| == |keys|
      invariant Visited(list.Keys, keys, rest)
      invariant forall h :: 0 <= h < |keys| ==> keys[h] in list && Merges(parts[h], list[keys[h]], bundleSize)
      invariant Placed(cfg.nodeByCpu, Flat(parts)) && n == |Flat(parts)|
      invariant CoversKeys(list, keys, cfg.nodeByCpu.Keys)
      decreases rest
    {
      ghost var some :| some in rest;
      ghost var least := LeastFrom(rest, some);
      var k :| k in rest && forall j :: j in rest ==> k <= j;
      var ds := MergeDomains(list[k], bundleSize);
      ghost var before := cfg.nodeByCpu.Keys;
      n := AddDomains(cfg, n, ds, Flat(parts));
      FlatMore(parts, ds);
      NextVisited(list.Keys, keys, rest, k);
      CoversMore(list, keys, before, k);
      parts, keys, rest := parts + [ds], keys + [k], rest - {k};
    }
    AllVisited(list.Keys, keys);
    AllCovered(domains, list, keys, cfg.nodeByCpu.Keys);
  }

  // The keys visited so far, in ascending order, and the rest above them.
  ghost predicate Visited(all: set<nat>, keys: seq<nat>, rest: set<nat>) {
    && Rising(keys) && (forall k :: k in all <==> k in keys || k in rest)
    && forall k, r :: k in keys && r in rest ==> k < r
  }

  lemma StartRising(all: set<nat>)
    ensures Visited(all, [], all)
  {
  }

  lemma NextVisited(all: set<nat>, keys: seq<nat>, rest: set<nat>, k: nat)
    requires Visited(all, keys, rest) && k in rest && forall j :: j in rest ==> k <= j
    ensures Visited(all, keys + [k], rest - {k})
  {
    forall i | 0 <= i < |keys| ensures keys[i] < k { assert keys[i] in keys; }
  }

  lemma AllVisited(all: set<nat>, keys: seq<nat>)
    requires Visited(all, keys, {})
    ensures Rising(keys) && (set k | k in keys) == all
  {
  }

  // The processors in the domains of the nodes visited.
  ghost predicate CoversKeys(list: map<nat, seq<set<nat>>>, keys: seq<nat>, cpus: set<nat>) {
    (forall k :: k in keys ==> k in list) && forall c :: c in cpus <==> exists k :: k in keys && c in All(list[k])
  }

  lemma NoneCovered(list: map<nat, seq<set<nat>>>)
    ensures CoversKeys(list, [], {})
  {
  }

  lemma CoversMore(list: map<nat, seq<set<nat>>>, keys: seq<nat>, cpus: set<nat>, k: nat)
    requires CoversKeys(list, keys, cpus) && k in list
    ensures CoversKeys(list, keys + [k], cpus + All(list[k]))
  {
    hide All;
    forall c ensures c in cpus + All(list[k]) <==> exists j :: j in keys + [k] && c in All(list[j]) {
      if j :| j in keys && c in All(list[j]) { assert j in keys + [k]; }
      if c in All(list[k]) { assert k in keys + [k]; }
    }
  }

  lemma {:induction false} NodeCpus(domains: seq<L3Domain>, n: nat, c: nat)
    ensures c in All(OfNode(domains, n)) <==> exists d :: d in domains && d.systemNode == n && c in d.cpus
  {
    if domains != [] {
      var init, last := domains[..|domains| - 1], domains[|domains| - 1];
      NodeCpus(init, n, c);
      AllConcat(OfNode(init, n), if last.systemNode == n then [last.cpus] else []);
      AllOne(last.cpus);
      assert forall d :: d in domains <==> d in init || d == last;
    }
  }

  lemma AllCovered(domains: seq<L3Domain>, list: map<nat, seq<set<nat>>>, keys: seq<nat>, cpus: set<nat>)
    requires Grouped(list, domains)
    requires CoversKeys(list, keys, cpus) && (set k | k in keys) == list.Keys
    ensures cpus == Cpus(domains)
  {
    hide All, OfNode;
    forall c ensures c in cpus <==> c in Cpus(domains) {
      forall n: nat
        ensures c in All(OfNode(domains, n)) <==> exists d :: d in domains && d.systemNode == n && c in d.cpus {
        NodeCpus(domains, n, c);
      }
      if c in cpus {
        var k :| k in keys && c in All(list[k]);
        assert k in list.Keys;
      }
      if c in Cpus(domains) {
        var d :| d in domains && c in d.cpus;
        assert d.systemNode in SystemNodes(domains) && d.systemNode in list.Keys;
        assert d.systemNode in keys;
      }
    }
  }

  lemma NonePlaced(byCpu: map<nat, nat>)
    requires byCpu == map[]
    ensures Placed(byCpu, Flat([])) && |Flat([])| == 0
  {
  }

  lemma FlatMore(parts: seq<seq<set<nat>>>, ds: seq<set<nat>>)
    ensures Flat(parts + [ds]) == Flat(parts) + ds
  {
    assert (parts + [ds])[..|parts|] == parts;
  }

  // Each bundle becomes a node of its own.
  method AddDomains(cfg: NumaConfig, first: nat, ds: seq<set<nat>>, ghost placed: seq<set<nat>>) returns (n: nat)
    requires cfg.Valid() && Placed(cfg.nodeByCpu, placed) && first == |placed|
    modifies cfg
    ensures cfg.Valid() && cfg.nodeByCpu.Keys == old(cfg.nodeByCpu.Keys) + All(ds) && n == first + |ds|
    ensures Placed(cfg.nodeByCpu, placed + ds)
  {
    hide Agree, All, Placed;
    n := first;
    ghost var start := cfg.nodeByCpu.Keys;
    var i := 0;
    AllNone();
    assert ds[..0] == [] && placed + [] == placed;
    while i < |ds|
      invariant 0 <= i <= |ds| && cfg.Valid() && cfg.nodeByCpu.Keys == start + All(ds[..i]) && n == first + i
      invariant Placed(cfg.nodeByCpu, placed + ds[..i])
    {
      AddDomain(cfg, n, ds[i], placed + ds[..i]);
      AllNext(ds, i);
      assert placed + ds[..i] + [ds[i]] == placed + ds[..i + 1];
      n := n + 1;
      i := i + 1;
    }
    assert ds[..i] == ds;
  }

  lemma AllNext(ds: seq<set<nat>>, i: nat)
    requires i < |ds|
    ensures All(ds[..i + 1]) == All(ds[..i]) + ds[i]
  {
    assert ds[..i + 1][..i] == ds[..i];
  }

  lemma AllNone()
    ensures All([]) == {}
  {
  }

  // The processors of a bundle that have no node yet join node n.
  method AddDomain(cfg: NumaConfig, n: nat, cpus: set<nat>, ghost placed: seq<set<nat>>)
    requires cfg.Valid() && Placed(cfg.nodeByCpu, placed) && n == |placed|
    modifies cfg
    ensures cfg.Valid() && cfg.nodeByCpu.Keys == old(cfg.nodeByCpu.Keys) + cpus
    ensures Placed(cfg.nodeByCpu, placed + [cpus])
  {
    hide Agree, AddCpu, Placed, Grown;
    ghost var start := cfg.nodeByCpu;
    var rest := cpus;
    GrownAll(start, cpus, n);
    while rest != {}
      invariant rest <= cpus && cfg.Valid() && Grown(start, cpus, rest, n, cfg.nodeByCpu)
      decreases rest
    {
      var cpu :| cpu in rest;
      ghost var now := cfg.nodeByCpu;
      ghost var before := Config(cfg.nodes, cfg.nodeByCpu);
      var added := cfg.AddCpuToNode(n, cpu);
      if added { IndexAfter(before, n, cpu, Config(cfg.nodes, cfg.nodeByCpu)); }
      GrowsBy(start, cpus, rest, n, cpu, now);
      rest := rest - {cpu};
    }
    GrownPlaced(start, cpus, n, cfg.nodeByCpu, placed);
  }

  lemma IndexAfter(c: Config, n: nat, cpu: nat, d: Config)
    requires Some(d) == AddCpu(c, n, cpu)
    ensures d.byCpu == c.byCpu[cpu := n]
  {
  }

  // The index once all of cpus but rest are offered to node n.
  predicate Grown(start: map<nat, nat>, cpus: set<nat>, rest: set<nat>, n: nat, byCpu: map<nat, nat>) {
    && byCpu.Keys == start.Keys + (cpus - rest)
    && forall c :: c in byCpu ==> byCpu[c] == if c in start then start[c] else n
  }

  lemma GrownAll(start: map<nat, nat>, cpus: set<nat>, n: nat)
    ensures Grown(start, cpus, cpus, n, start)
  {
  }

  lemma GrowsBy(start: map<nat, nat>, cpus: set<nat>, rest: set<nat>, n: nat, cpu: nat, byCpu: map<nat, nat>)
    requires cpu in rest && rest <= cpus && Grown(start, cpus, rest, n, byCpu)
    ensures cpu in byCpu ==> Grown(start, cpus, rest - {cpu}, n, byCpu)
    ensures cpu !in byCpu ==> Grown(start, cpus, rest - {cpu}, n, byCpu[cpu := n])
  {
  }

  lemma GrownPlaced(start: map<nat, nat>, cpus: set<nat>, n: nat, byCpu: map<nat, nat>, placed: seq<set<nat>>)
    requires Placed(start, placed) && n == |placed| && Grown(start, cpus, {}, n, byCpu)
    ensures byCpu.Keys == start.Keys + cpus && Placed(byCpu, placed + [cpus])
  {
    var ds := placed + [cpus];
    AllNext(ds, n);
    assert ds[..n + 1] == ds && ds[..n] == placed;
    forall i, c | 0 <= i < |ds| && c in ds[i] && c !in All(ds[..i]) ensures c in byCpu && byCpu[c] == i {
      if i < n { assert ds[..i] == placed[..i]; }
    }
  }

  // ---------- threads over nodes ----------

  function Sum(s: seq<nat>): nat {
    if s == [] then 0 else Sum(s[..|s| - 1]) + s[|s| - 1]
  }

  lemma {:induction false} SumUpdate(s: seq<nat>, i: nat, v: nat)
    requires i < |s|
    ensures Sum(s[i := v]) == Sum(s) - s[i] + v
  {
    var l := |s| - 1;
    if i == l {
      assert s[i := v][..l] == s[..l];
    } else {
      assert s[i := v][..l] == s[..l][i := v];
      SumUpdate(s[..l], i, v);
    }
  }

  lemma {:induction false} SumBelow(a: seq<nat>, b: seq<nat>)
    requires |a| == |b| && forall i :: 0 <= i < |a| ==> a[i] >= b[i]
    ensures Sum(a) >= Sum(b)
  {
    if a != [] { SumBelow(a[..|a| - 1], b[..|b| - 1]); }
  }

  lemma {:induction false} SumZero(n: nat)
    ensures Sum(seq(n, _ => 0)) == 0
  {
    if n > 0 {
      SumZero(n - 1);
      assert seq(n, _ => 0)[..n - 1] == seq(n - 1, _ => 0);
    }
  }

  // While fewer threads than processors are placed, some node has room.
  lemma SomeRoom(occ: seq<nat>, sizes: seq<nat>)
    requires |occ| == |sizes| && Sum(occ) < Sum(sizes)
    ensures exists i :: 0 <= i < |occ| && occ[i] < sizes[i]
  {
    if forall i :: 0 <= i < |occ| ==> occ[i] >= sizes[i] { SumBelow(occ, sizes); }
  }

  function Whole(n: nat): real { n as real }

  // Rounding to single precision, of which only this is used: it is monotone, and
  // the integers up to 2^24 and the number next above one are representable.
  ghost predicate Rounds(rnd: real -> real) {
    && (forall x: real, y: real :: x <= y ==> rnd(x) <= rnd(y))
    && (forall n :: n <= 0x100_0000 ==> rnd(Whole(n)) == Whole(n))
    && rnd(1.0 + 1.0 / 8388608.0) == 1.0 + 1.0 / 8388608.0
  }

  // The fill ratio as computed: both counts and their quotient are rounded.
  function Fill(rnd: real -> real, occ: nat, size: nat): real
    requires Rounds(rnd) && size > 0
  {
    SizePositive(rnd, size);
    rnd(rnd(Whole(occ + 1)) / rnd(Whole(size)))
  }

  lemma Quotient(a: real, b: real)
    requires b > 0.0
    ensures (a / b) * b == a
  {
  }

  lemma SignTimes(x: real, b: real)
    requires b > 0.0
    ensures x > 0.0 <==> x * b > 0.0
  {
    if x > 0.0 { assert x * b > 0.0; }
    if x < 0.0 { assert x * b < 0.0; }
  }

  lemma QuotientOrder(a: real, c: real, b: real)
    requires b > 0.0
    ensures a / b <= c / b <==> a <= c
  {
    Quotient(a, b);
    Quotient(c, b);
    SignTimes(a / b - c / b, b);
    assert (a / b - c / b) * b == a - c;
  }

  lemma SizePositive(rnd: real -> real, size: nat)
    requires Rounds(rnd) && size > 0
    ensures rnd(Whole(size)) > 0.0
  {
    assert rnd(Whole(1)) == 1.0;
  }

  // One thread more never lowers the ratio.
  lemma FillGrows(rnd: real -> real, occ: nat, size: nat)
    requires Rounds(rnd) && size > 0
    ensures Fill(rnd, occ, size) <= Fill(rnd, occ + 1, size)
  {
    SizePositive(rnd, size);
    QuotientOrder(rnd(Whole(occ + 1)), rnd(Whole(occ + 2)), rnd(Whole(size)));
  }

  // A ratio at most one means room for the thread, on nodes of at most 2^23
  // processors: the quotient n + 1 over n is still told from one.
  lemma FillRoom(rnd: real -> real, occ: nat, size: nat)
    requires Rounds(rnd) && 0 < size <= 0x80_0000 && occ <= size
    ensures Fill(rnd, occ, size) <= 1.0 <==> occ < size
  {
    var a, b := Whole(occ + 1), Whole(size);
    assert rnd(a) == a && rnd(b) == b && rnd(Whole(1)) == 1.0;
    Quotient(b, b);
    SignTimes(b / b - 1.0, b);
    SignTimes(1.0 - b / b, b);
    assert (b / b - 1.0) * b == 0.0;
    if occ < size {
      QuotientOrder(a, b, b);
    } else {
      JustOver(a, b);
    }
  }

  lemma JustOver(a: real, b: real)
    requires 0.0 < b <= 8388608.0 && a == b + 1.0
    ensures a / b >= 1.0 + 1.0 / 8388608.0
  {
    var e := 1.0 / 8388608.0;
    Quotient(a, b);
    assert e * 8388608.0 == 1.0;
    SignTimes(1.0 + e - a / b, b);
    assert (1.0 + e - a / b) * b == e * b - 1.0;
    assert e * b <= e * 8388608.0;
  }

  // A node's last thread left it no fuller than any other node would become with
  // one thread more.
  predicate Balanced(rnd: real -> real, occ: seq<nat>, sizes: seq<nat>)
    requires Rounds(rnd) && |occ| == |sizes| && forall i :: 0 <= i < |sizes| ==> sizes[i] > 0
  {
    forall n, m :: 0 <= n < |occ| && 0 <= m < |occ| && occ[n] > 0
        ==> Fill(rnd, occ[n] - 1, sizes[n]) <= Fill(rnd, occ[m], sizes[m])
  }

  lemma StaysBalanced(rnd: real -> real, occ: seq<nat>, sizes: seq<nat>, best: nat)
    requires Rounds(rnd) && |occ| == |sizes| && (forall i :: 0 <= i < |sizes| ==> sizes[i] > 0)
    requires Balanced(rnd, occ, sizes) && best < |occ|
    requires forall m :: 0 <= m < |occ| ==> Fill(rnd, occ[best], sizes[best]) <= Fill(rnd, occ[m], sizes[m])
    ensures Balanced(rnd, occ[best := occ[best] + 1], sizes)
  {
    hide Rounds, Fill;
    var o := occ[best := occ[best] + 1];
    FillGrows(rnd, occ[best], sizes[best]);
    forall n, m | 0 <= n < |o| && 0 <= m < |o| && o[n] > 0
      ensures Fill(rnd, o[n] - 1, sizes[n]) <= Fill(rnd, o[m], sizes[m]) {
      if n == best {
        assert Fill(rnd, occ[best], sizes[best]) <= Fill(rnd, occ[m], sizes[m]);
      } else {
        assert Fill(rnd, occ[n] - 1, sizes[n]) <= Fill(rnd, occ[m], sizes[m]);
      }
    }
  }

  // No node has more than 2^23 processors.
  predicate SmallNodes(sizes: seq<nat>) { forall i :: 0 <= i < |sizes| ==> sizes[i] <= 0x80_0000 }

  // How many threads a list places on each node.
  function CountOn(ns: seq<nat>, n: nat): nat {
    if ns == [] then 0 else CountOn(ns[..|ns| - 1], n) + (if ns[|ns| - 1] == n then 1 else 0)
  }

  // After the threads placed already, node n is the first that one more fills least.
  predicate FirstLeast(rnd: real -> real, placed: seq<nat>, sizes: seq<nat>, n: nat)
    requires Rounds(rnd) && forall i :: 0 <= i < |sizes| ==> sizes[i] > 0
  {
    && n < |sizes|
    && forall m :: 0 <= m < |sizes| ==>
         && Fill(rnd, CountOn(placed, n), sizes[n]) <= Fill(rnd, CountOn(placed, m), sizes[m])
         && (m < n ==> Fill(rnd, CountOn(placed, n), sizes[n]) < Fill(rnd, CountOn(placed, m), sizes[m]))
  }

  // distribute_threads_among_numa_nodes. With no more threads than processors no
  // node is over-filled, and the load is balanced.
  method DistributeThreads(rnd: real -> real, sizes: seq<nat>, numThreads: nat)
    returns (ns: seq<nat>, ghost occ: seq<nat>)
    requires Rounds(rnd) && |sizes| >= 1 && forall i :: 0 <= i < |sizes| ==> sizes[i] > 0
    ensures |ns| == numThreads && (forall i :: 0 <= i < |ns| ==> FirstLeast(rnd, ns[..i], sizes, ns[i]))
    ensures |occ| == |sizes| && forall n :: 0 <= n < |sizes| ==> occ[n] == CountOn(ns, n)
    ensures numThreads <= Sum(sizes) && SmallNodes(sizes) ==> forall n :: 0 <= n < |sizes| ==> occ[n] <= sizes[n]
    ensures Balanced(rnd, occ, sizes)
  {
    hide Rounds, Fill, Balanced, Sum, CountOn;
    var nodes := |sizes|;
    if nodes == 1 {
      ns := seq(numThreads, _ => 0);
      assert forall i :: 0 <= i < |ns| ==> FirstLeast(rnd, ns[..i], sizes, ns[i]);
      occ := [numThreads];
      AllOnOne(numThreads);
      OneNodeSum(sizes);
      OneNodeBalanced(rnd, numThreads, sizes);
      return;
    }
    var occupation := seq(nodes, _ => 0);
    SumZero(nodes);
    EmptyBalanced(rnd, sizes);
    ns := [];
    NoneOn();
    var c := 0;
    while c < numThreads
      invariant 0 <= c <= numThreads && |ns| == c && |occupation| == nodes && Sum(occupation) == c
      invariant forall i :: 0 <= i < |ns| ==> FirstLeast(rnd, ns[..i], sizes, ns[i])
      invariant forall n :: 0 <= n < nodes ==> occupation[n] == CountOn(ns, n)
      invariant numThreads <= Sum(sizes) && SmallNodes(sizes) ==>
                  forall n :: 0 <= n < nodes ==> occupation[n] <= sizes[n]
      invariant Balanced(rnd, occupation, sizes)
    {
      var bestNode, n := 0, 1;
      while n < nodes
        invariant 1 <= n <= nodes && bestNode < n
        invariant forall m :: 0 <= m < n ==>
                    Fill(rnd, occupation[bestNode], sizes[bestNode]) <= Fill(rnd, occupation[m], sizes[m])
        invariant forall m :: 0 <= m < bestNode ==>
                    Fill(rnd, occupation[bestNode], sizes[bestNode]) < Fill(rnd, occupation[m], sizes[m])
      {
        if Fill(rnd, occupation[n], sizes[n]) < Fill(rnd, occupation[bestNode], sizes[bestNode]) {
          bestNode := n;
        }
        n := n + 1;
      }
      if numThreads <= Sum(sizes) && SmallNodes(sizes) { RoomAtBest(rnd, occupation, sizes, bestNode); }
      StaysBalanced(rnd, occupation, sizes, bestNode);
      SumUpdate(occupation, bestNode, occupation[bestNode] + 1);
      assert FirstLeast(rnd, ns, sizes, bestNode);
      CountMore(ns, bestNode);
      PrefixesKept(rnd, ns, sizes, bestNode);
      ns := ns + [bestNode];
      occupation := occupation[bestNode := occupation[bestNode] + 1];
      c := c + 1;
    }
    occ := occupation;
  }

  lemma NoneOn()
    ensures forall n :: CountOn([], n) == 0
  {
  }

  lemma CountMore(ns: seq<nat>, best: nat)
    ensures forall n :: CountOn(ns + [best], n) == CountOn(ns, n) + (if n == best then 1 else 0)
  {
    assert (ns + [best])[..|ns|] == ns;
  }

  lemma PrefixesKept(rnd: real -> real, ns: seq<nat>, sizes: seq<nat>, best: nat)
    requires Rounds(rnd) && (forall i :: 0 <= i < |sizes| ==> sizes[i] > 0) && FirstLeast(rnd, ns, sizes, best)
    requires forall i :: 0 <= i < |ns| ==> FirstLeast(rnd, ns[..i], sizes, ns[i])
    ensures forall i :: 0 <= i <= |ns| ==> FirstLeast(rnd, (ns + [best])[..i], sizes, (ns + [best])[i])
  {
    hide FirstLeast, Rounds;
    forall i | 0 <= i <= |ns| ensures FirstLeast(rnd, (ns + [best])[..i], sizes, (ns + [best])[i]) {
      assert (ns + [best])[..i] == ns[..i];
      if i == |ns| { assert ns[..i] == ns; }
    }
  }

  lemma RoomAtBest(rnd: real -> real, occ: seq<nat>, sizes: seq<nat>, best: nat)
    requires Rounds(rnd) && |occ| == |sizes| && (forall i :: 0 <= i < |sizes| ==> sizes[i] > 0) && best < |occ|
    requires SmallNodes(sizes) && (forall i :: 0 <= i < |occ| ==> occ[i] <= sizes[i]) && Sum(occ) < Sum(sizes)
    requires forall m :: 0 <= m < |occ| ==> Fill(rnd, occ[best], sizes[best]) <= Fill(rnd, occ[m], sizes[m])
    ensures occ[best] < sizes[best]
  {
    hide Rounds, Fill;
    SomeRoom(occ, sizes);
    var i :| 0 <= i < |occ| && occ[i] < sizes[i];
    FillRoom(rnd, occ[i], sizes[i]);
    FillRoom(rnd, occ[best], sizes[best]);
  }

  lemma {:induction false} AllOnOne(n: nat)
    ensures CountOn(seq(n, _ => 0), 0) == n
  {
    if n > 0 {
      AllOnOne(n - 1);
      assert seq(n, _ => 0)[..n - 1] == seq(n - 1, _ => 0);
    }
  }

  lemma OneNodeSum(sizes: seq<nat>)
    requires |sizes| == 1
    ensures Sum(sizes) == sizes[0]
  {
    assert sizes[..0] == [];
  }

  lemma OneNodeBalanced(rnd: real -> real, n: nat, sizes: seq<nat>)
    requires Rounds(rnd) && |sizes| == 1 && sizes[0] > 0
    ensures Balanced(rnd, [n], sizes)
  {
    if n > 0 { FillGrows(rnd, n - 1, sizes[0]); }
  }

  lemma EmptyBalanced(rnd: real -> real, sizes: seq<nat>)
    requires Rounds(rnd) && forall i :: 0 <= i < |sizes| ==> sizes[i] > 0
    ensures Balanced(rnd, seq(|sizes|, _ => 0), sizes)
  {
  }
}
