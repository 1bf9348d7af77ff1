/** Dependency-ordered startup: a levelled topological sort
    (ProjectConfig::startup_order in src/config.rs). */
module Scheduler {

  // Each process with its `depends_on` list, which may repeat entries.
  type Graph = map<string, seq<string>>

  datatype Order = Ok(groups: seq<seq<string>>) | UnknownDep(from: string, to: string) | CycleDetected

  // --- What the result should mean ----------------------------------------------------

  predicate Unknown(g: Graph, from: string, to: string) {
    from in g && to in g[from] && to !in g
  }

  ghost predicate Closed(g: Graph) {
    forall n, d :: n in g && d in g[n] ==> d in g
  }

  // Some chain of `k` dependencies starts at `n`.
  ghost predicate HasChain(g: Graph, n: string, k: nat)
    decreases k
  {
    n in g && (k > 0 ==> exists d :: d in g[n] && HasChain(g, d, k - 1))
  }

  // The longest chain of dependencies starting at `n` has `k` of them.
  ghost predicate Level(g: Graph, n: string, k: nat) {
    HasChain(g, n, k) && !HasChain(g, n, k + 1)
  }

  // A walk along dependencies that comes back to where it began.
  ghost predicate Cycle(g: Graph, p: seq<string>) {
    |p| >= 2 && p[0] == p[|p| - 1] && Walk(g, p)
  }

  ghost predicate Walk(g: Graph, p: seq<string>) {
    (forall i :: 0 <= i < |p| ==> p[i] in g) && forall i :: 0 <= i < |p| - 1 ==> p[i + 1] in g[p[i]]
  }

  ghost predicate Cyclic(g: Graph) { exists p :: Cycle(g, p) }

  // --- Names in order -------------------------------------------------------------------

  predicate Le(a: string, b: string) {
    a == [] || (b != [] && (a[0] < b[0] || (a[0] == b[0] && Le(a[1..], b[1..]))))
  }

  lemma {:induction false} LeTotal(a: string, b: string)
    ensures Le(a, b) || Le(b, a)
  {
    if a != [] && b != [] && a[0] == b[0] { LeTotal(a[1..], b[1..]); }
  }

  lemma {:induction false} LeTransitive(a: string, b: string, c: string)
    requires Le(a, b) && Le(b, c)
    ensures Le(a, c)
  {
    if a != [] && b != [] && c != [] && a[0] == b[0] && b[0] == c[0] { LeTransitive(a[1..], b[1..], c[1..]); }
  }

  // The order of a dictionary: a beginning comes first, and otherwise the first character that
  // differs decides.
  lemma {:induction false} LeIsDictionary(a: string, b: string)
    ensures Le(a, b) <==> a <= b || exists k: nat :: k < |a| && k < |b| && a[..k] == b[..k] && a[k] < b[k]
  {
    if a == [] || b == [] {
    } else if a[0] == b[0] {
      LeIsDictionary(a[1..], b[1..]);
      assert a <= b <==> a[1..] <= b[1..];
      if k: nat :| k < |a[1..]| && k < |b[1..]| && a[1..][..k] == b[1..][..k] && a[1..][k] < b[1..][k] {
        assert a[..k + 1] == [a[0]] + a[1..][..k] && b[..k + 1] == [b[0]] + b[1..][..k];
        assert a[k + 1] < b[k + 1];
      }
      if k: nat :| k < |a| && k < |b| && a[..k] == b[..k] && a[k] < b[k] {
        assert k > 0;
        assert a[1..][..k - 1] == a[..k][1..] && b[1..][..k - 1] == b[..k][1..];
        assert a[1..][k - 1] < b[1..][k - 1];
      }
    } else {
      DifferentStarts(a, b);
      if a[0] < b[0] { assert a[..0] == b[..0]; }
    }
  }

  lemma DifferentStarts(a: string, b: string)
    requires a != [] && b != [] && a[0] != b[0]
    ensures !(a <= b) && forall k :: 0 < k <= |a| && k <= |b| ==> a[..k] != b[..k]
  {
    forall k | 0 < k <= |a| && k <= |b| ensures a[..k] != b[..k] {
      assert a[..k][0] == a[0] && b[..k][0] == b[0];
    }
  }

  predicate Sorted(s: seq<string>) {
    forall i, j :: 0 <= i < j < |s| ==> Le(s[i], s[j])
  }

  // Inserts one name into a sorted list.
  method Insert(s: seq<string>, x: string) returns (r: seq<string>)
    requires Sorted(s) && x !in s && forall i, j :: 0 <= i < j < |s| ==> s[i] != s[j]
    ensures Sorted(r) && (forall y :: y in r <==> y == x || y in s) && forall i, j :: 0 <= i < j < |r| ==> r[i] != r[j]
  {
    var k := 0;
    while k < |s| && Le(s[k], x)
      invariant k <= |s| && forall i :: 0 <= i < k ==> Le(s[i], x)
    {
      k := k + 1;
    }
    if k < |s| {
      LeTotal(s[k], x);
      forall j | k <= j < |s| ensures Le(x, s[j]) {
        if j > k { LeTransitive(x, s[k], s[j]); }
      }
    }
    r := s[..k] + [x] + s[k..];
  }

  // A set of names as a sorted list without repetitions.
  method SortNames(names: set<string>) returns (r: seq<string>)
    ensures Sorted(r) && (forall y :: y in r <==> y in names) && forall i, j :: 0 <= i < j < |r| ==> r[i] != r[j]
  {
    r := [];
    var todo := names;
    while todo != {}
      invariant todo <= names && Sorted(r) && forall y :: y in r <==> y in names && y !in todo
      invariant forall i, j :: 0 <= i < j < |r| ==> r[i] != r[j]
    {
      var x :| x in todo;
      todo := todo - {x};
      r := Insert(r, x);
    }
  }

  // --- Counting -----------------------------------------------------------------------

  function Count(s: seq<string>, x: string): nat {
    if s == [] then 0 else Count(s[..|s| - 1], x) + if s[|s| - 1] == x then 1 else 0
  }

  // How many entries of `s`, repetitions included, lie in `names`.
  function CountIn(s: seq<string>, names: set<string>): nat {
    if s == [] then 0 else CountIn(s[..|s| - 1], names) + if s[|s| - 1] in names then 1 else 0
  }

  lemma CountSnoc(s: seq<string>, y: string, x: string)
    ensures Count(s + [y], x) == Count(s, x) + if y == x then 1 else 0
  {
    assert (s + [y])[..|s|] == s;
  }

  lemma {:induction false} CountInAll(s: seq<string>, names: set<string>)
    requires forall x :: x in s ==> x in names
    ensures CountIn(s, names) == |s|
  {
    if s != [] { CountInAll(s[..|s| - 1], names); }
  }

  lemma {:induction false} CountInZero(s: seq<string>, names: set<string>)
    ensures CountIn(s, names) == 0 <==> forall x :: x in s ==> x !in names
  {
    if s != [] {
      CountInZero(s[..|s| - 1], names);
      assert s == s[..|s| - 1] + [s[|s| - 1]];
    }
  }

  lemma {:induction false} CountInRemove(s: seq<string>, names: set<string>, x: string)
    requires x in names
    ensures CountIn(s, names - {x}) + Count(s, x) == CountIn(s, names)
  {
    if s != [] { CountInRemove(s[..|s| - 1], names, x); }
  }

  // --- Chains and cycles ----------------------------------------------------------------

  lemma {:induction false} ChainShorter(g: Graph, n: string, k: nat)
    requires HasChain(g, n, k + 1)
    ensures HasChain(g, n, k)
    decreases k
  {
    if k > 0 {
      var d :| d in g[n] && HasChain(g, d, k);
      ChainShorter(g, d, k - 1);
    }
  }

  // A process on a cycle starts chains of every length.
  lemma {:induction false} CycleChains(g: Graph, p: seq<string>, i: nat, k: nat)
    requires Cycle(g, p) && i < |p|
    ensures HasChain(g, p[i], k)
    decreases k
  {
    if k > 0 {
      var j := if i == |p| - 1 then 0 else i;
      CycleChains(g, p, j + 1, k - 1);
      assert p[j + 1] in g[p[i]];
    }
  }

  ghost predicate DependsInto(g: Graph, n: string, names: set<string>)
    requires n in g
  {
    exists d :: d in g[n] && d in names
  }

  lemma PickDependency(g: Graph, n: string, names: set<string>) returns (d: string)
    requires n in g && DependsInto(g, n, names)
    ensures d in g[n] && d in names
  {
    d :| d in g[n] && d in names;
  }

  // A walk through a finite set, each of whose members depends on another one, goes on
  // for as long as we like.
  lemma {:induction false} LongWalk(g: Graph, names: set<string>, len: nat) returns (p: seq<string>)
    requires names != {} && names <= g.Keys
    requires forall n :: n in names ==> DependsInto(g, n, names)
    ensures |p| == len + 1 && Walk(g, p) && forall i :: 0 <= i < |p| ==> p[i] in names
    decreases len
  {
    hide DependsInto;
    if len == 0 {
      var n :| n in names;
      p := [n];
    } else {
      var q := LongWalk(g, names, len - 1);
      var d := PickDependency(g, q[|q| - 1], names);
      p := q + [d];
    }
  }

  lemma {:induction false} Pigeonhole(p: seq<string>, names: set<string>)
    requires forall i :: 0 <= i < |p| ==> p[i] in names
    requires forall i, j :: 0 <= i < j < |p| ==> p[i] != p[j]
    ensures |p| <= |names|
  {
    if p != [] {
      var last := p[|p| - 1];
      Pigeonhole(p[..|p| - 1], names - {last});
    }
  }

  lemma StuckMeansCyclic(g: Graph, names: set<string>)
    requires names != {} && names <= g.Keys
    requires forall n :: n in names ==> DependsInto(g, n, names)
    ensures Cyclic(g)
  {
    hide DependsInto;
    var p := LongWalk(g, names, |names|);
    if !exists i, j :: 0 <= i < j < |p| && p[i] == p[j] {
      Pigeonhole(p, names);
    }
    var i, j :| 0 <= i < j < |p| && p[i] == p[j];
    WalkBack(g, p, i, j);
  }

  // The part of a walk between two visits of one place.
  lemma WalkBack(g: Graph, p: seq<string>, i: nat, j: nat)
    requires Walk(g, p) && i < j < |p| && p[i] == p[j]
    ensures Cycle(g, p[i..j + 1])
  {
    var c := p[i..j + 1];
    assert forall k :: 0 <= k < |c| ==> c[k] == p[i + k];
  }

  // --- The sort --------------------------------------------------------------------------

  function Dependents(dependents: map<string, seq<string>>, d: string): seq<string> {
    if d in dependents then dependents[d] else []
  }

  // Enters the dependencies of one process; stops at one that is not defined.
  method AddDependencies(g: Graph, name: string, inDegree0: map<string, nat>, dependents0: map<string, seq<string>>)
    returns (bad: seq<(string, string)>, inDegree: map<string, nat>, dependents: map<string, seq<string>>)
    requires name in g && inDegree0.Keys == g.Keys && inDegree0[name] == 0
    ensures |bad| <= 1 && (bad != [] ==> Unknown(g, bad[0].0, bad[0].1))
    ensures bad == [] ==> inDegree == inDegree0[name := |g[name]|] && forall d :: d in g[name] ==> d in g
    ensures bad == [] ==> forall n, d :: Count(Dependents(dependents, d), n)
                                         == Count(Dependents(dependents0, d), n) + if n == name then Count(g[name], d) else 0
  {
    bad, inDegree, dependents := [], inDegree0, dependents0;
    var k := 0;
    forall d ensures Count(g[name][..0], d) == 0 {
      assert g[name][..0] == [];
    }
    while k < |g[name]|
      invariant k <= |g[name]| && inDegree == inDegree0[name := k]
      invariant forall n, d :: Count(Dependents(dependents, d), n)
                               == Count(Dependents(dependents0, d), n) + if n == name then Count(g[name][..k], d) else 0
      invariant forall d :: d in g[name][..k] ==> d in g
    {
      var dep := g[name][k];
      if dep !in g {
        bad := [(name, dep)];
        return;
      }
      assert g[name][..k + 1] == g[name][..k] + [dep];
      forall n, d
        ensures Count(Dependents(dependents, d) + [name], n) == Count(Dependents(dependents, d), n) + if n == name then 1 else 0
        ensures Count(g[name][..k + 1], d) == Count(g[name][..k], d) + if dep == d then 1 else 0
      {
        CountSnoc(Dependents(dependents, d), name, n);
        CountSnoc(g[name][..k], dep, d);
      }
      dependents := dependents[dep := Dependents(dependents, dep) + [name]];
      inDegree := inDegree[name := inDegree[name] + 1];
      k := k + 1;
    }
    assert g[name][..k] == g[name];
  }

  // In-degrees, repetitions counted, and for each process the processes depending on it.
  method CountDependencies(g: Graph)
    returns (bad: seq<(string, string)>, inDegree: map<string, nat>, dependents: map<string, seq<string>>)
    ensures |bad| <= 1 && (bad != [] ==> Unknown(g, bad[0].0, bad[0].1))
    ensures bad == [] ==> Closed(g)
    ensures bad == [] ==> inDegree.Keys == g.Keys && forall n :: n in g ==> inDegree[n] == |g[n]|
    ensures bad == [] ==> forall n, d :: n in g ==> Count(Dependents(dependents, d), n) == Count(g[n], d)
  {
    inDegree := map n | n in g :: 0;
    dependents := map[];
    bad := [];
    var todo := g.Keys;
    while todo != {}
      invariant todo <= g.Keys && inDegree.Keys == g.Keys && bad == []
      invariant forall n :: n in g ==> inDegree[n] == if n in todo then 0 else |g[n]|
      invariant forall n, d :: n in g ==> Count(Dependents(dependents, d), n) == if n in todo then 0 else Count(g[n], d)
      invariant forall n, d :: n in g && n !in todo && d in g[n] ==> d in g
    {
      var name :| name in todo;
      todo := todo - {name};
      bad, inDegree, dependents := AddDependencies(g, name, inDegree, dependents);
      if bad != [] {
        return;
      }
    }
  }

  // `remaining` counts, for each process left, its dependencies still left.
  ghost predicate Counts(g: Graph, remaining: map<string, nat>) {
    remaining.Keys <= g.Keys && forall n :: n in remaining ==> remaining[n] == CountIn(g[n], remaining.Keys)
  }

  // Takes one ready process out and lowers the counts of its dependents; no count goes
  // below zero, however often an entry is repeated.
  method Release(g: Graph, before: map<string, nat>, dependents: map<string, seq<string>>, name: string) returns (remaining: map<string, nat>)
    requires Counts(g, before) && name in before
    requires forall n :: n in g ==> Count(Dependents(dependents, name), n) == Count(g[n], name)
    ensures Counts(g, remaining) && remaining.Keys == before.Keys - {name}
  {
    remaining := before - {name};
    var deps := Dependents(dependents, name);
    forall n | n in g ensures CountIn(g[n], before.Keys - {name}) + Count(deps, n) == CountIn(g[n], before.Keys) {
      CountInRemove(g[n], before.Keys, name);
    }
    var k := 0;
    while k < |deps|
      invariant k <= |deps| && remaining.Keys == before.Keys - {name}
      invariant forall n :: n in remaining ==> remaining[n] + Count(deps[..k], n) == before[n]
    {
      var dep := deps[k];
      assert deps[..k + 1] == deps[..k] + [dep];
      forall n ensures Count(deps[..k + 1], n) == Count(deps[..k], n) + if dep == n then 1 else 0 {
        CountSnoc(deps[..k], dep, n);
      }
      if dep in remaining {
        CountPrefix(deps, k + 1, dep);
        remaining := remaining[dep := remaining[dep] - 1];
      }
      k := k + 1;
    }
    assert deps[..k] == deps;
  }

  lemma {:induction false} CountPrefix(s: seq<string>, k: nat, x: string)
    requires k <= |s|
    ensures Count(s[..k], x) <= Count(s, x)
    decreases |s|
  {
    if k == |s| {
      assert s[..k] == s;
    } else {
      assert s[..|s| - 1][..k] == s[..k];
      CountPrefix(s[..|s| - 1], k, x);
    }
  }

  // The names whose longest chain of dependencies has `k` of them, in order.
  ghost predicate IsGroup(g: Graph, k: nat, group: seq<string>) {
    Sorted(group) && group != [] && (forall n :: n in group <==> Level(g, n, k))
    && forall i, j :: 0 <= i < j < |group| ==> group[i] != group[j]
  }

  ghost predicate Grouped(groups: seq<seq<string>>, n: string) {
    exists k :: 0 <= k < |groups| && n in groups[k]
  }

  lemma OneMoreGroup(g: Graph, groups: seq<seq<string>>, group: seq<string>)
    requires forall k :: 0 <= k < |groups| ==> IsGroup(g, k, groups[k])
    requires IsGroup(g, |groups|, group)
    ensures forall k :: 0 <= k < |groups| + 1 ==> IsGroup(g, k, (groups + [group])[k])
    ensures forall n :: Grouped(groups + [group], n) <==> Grouped(groups, n) || n in group
  {
    var all := groups + [group];
    assert all[|groups|] == group;
    forall n | Grouped(groups, n) ensures Grouped(all, n) {
      var k :| 0 <= k < |groups| && n in groups[k];
      assert n in all[k];
    }
    forall n | n in group ensures Grouped(all, n) {
      assert n in all[|groups|];
    }
  }

  // What is left after `k` rounds: the names that start a chain of `k` dependencies.
  ghost predicate LeftAfter(g: Graph, k: nat, names: set<string>) {
    forall n :: n in names <==> HasChain(g, n, k)
  }

  lemma NextRound(g: Graph, k: nat, left: set<string>, ready: set<string>)
    requires Closed(g) && LeftAfter(g, k, left)
    requires forall n :: n in ready <==> n in left && forall d :: d in g[n] ==> d !in left
    ensures forall n :: n in ready <==> Level(g, n, k)
    ensures LeftAfter(g, k + 1, left - ready)
  {
    forall n ensures HasChain(g, n, k + 1) <==> n in left && n !in ready {
      if HasChain(g, n, k + 1) {
        ChainShorter(g, n, k);
        var d :| d in g[n] && HasChain(g, d, k);
        assert d in left;
      }
    }
  }

  // A process is ready when nothing it depends on is left.
  lemma ReadyMeans(g: Graph, remaining: map<string, nat>, ready: set<string>)
    requires Counts(g, remaining) && ready == set n | n in remaining && remaining[n] == 0
    ensures forall n :: n in ready <==> n in remaining && forall d :: d in g[n] ==> d !in remaining
    ensures remaining.Keys <= g.Keys
    ensures ready == {} ==> forall n :: n in remaining ==> DependsInto(g, n, remaining.Keys)
  {
    forall n | n in remaining ensures n in ready <==> !DependsInto(g, n, remaining.Keys) {
      CountInZero(g[n], remaining.Keys);
    }
  }

  // Removes a whole group.
  method ReleaseAll(g: Graph, before: map<string, nat>, dependents: map<string, seq<string>>, ready: set<string>)
    returns (remaining: map<string, nat>)
    requires Counts(g, before) && ready <= before.Keys
    requires forall n, d :: n in g ==> Count(Dependents(dependents, d), n) == Count(g[n], d)
    ensures Counts(g, remaining) && remaining.Keys == before.Keys - ready
  {
    remaining := before;
    var todo := ready;
    while todo != {}
      invariant todo <= ready && todo <= remaining.Keys && Counts(g, remaining)
      invariant remaining.Keys == before.Keys - (ready - todo)
    {
      var name :| name in todo;
      todo := todo - {name};
      remaining := Release(g, remaining, dependents, name);
    }
  }

  lemma AllInGraph(g: Graph)
    ensures LeftAfter(g, 0, g.Keys)
  {
  }

  lemma NothingLeft(g: Graph, k: nat)
    requires LeftAfter(g, k, {})
    ensures !Cyclic(g)
  {
    if p :| Cycle(g, p) {
      CycleChains(g, p, 0, k);
    }
  }

  // Takes out the processes that are ready, in order; none is when nothing is left or
  // when what is left is stuck on a cycle.
  method NextGroup(g: Graph, ghost round: nat, before: map<string, nat>, dependents: map<string, seq<string>>)
    returns (group: seq<string>, remaining: map<string, nat>)
    requires Closed(g) && Counts(g, before) && LeftAfter(g, round, before.Keys)
    requires forall n, d :: n in g ==> Count(Dependents(dependents, d), n) == Count(g[n], d)
    ensures group == [] && before != map[] ==> Cyclic(g)
    ensures group != [] ==> IsGroup(g, round, group) && Counts(g, remaining) && LeftAfter(g, round + 1, remaining.Keys)
    ensures group != [] ==> remaining.Keys < before.Keys && forall n :: n in before && n !in remaining ==> n in group
  {
    hide HasChain, Level, CountIn, Count, Sorted, DependsInto, Cyclic, Closed;
    var ready := set n | n in before && before[n] == 0;
    ReadyMeans(g, before, ready);
    if ready == {} {
      if before != map[] {
        assert before.Keys != {};
        StuckMeansCyclic(g, before.Keys);
      }
      return [], before;
    }
    NextRound(g, round, before.Keys, ready);
    remaining := ReleaseAll(g, before, dependents, ready);
    group := SortNames(ready);
    var n :| n in ready;
    assert n in group && n in before && n !in remaining;
  }

  // The startup order is exact: it fails on an unknown dependency just when there is one,
  // otherwise it reports a cycle just when there is one, and otherwise group k holds
  // exactly the processes whose longest chain of dependencies has length k.
  method StartupOrder(g: Graph) returns (r: Order)
    ensures r.UnknownDep? ==> Unknown(g, r.from, r.to)
    ensures r.UnknownDep? <==> !Closed(g)
    ensures r.CycleDetected? <==> Closed(g) && Cyclic(g)
    ensures r.Ok? ==> forall k :: 0 <= k < |r.groups| ==> IsGroup(g, k, r.groups[k])
    ensures r.Ok? ==> forall n :: n in g ==> Grouped(r.groups, n)
  {
    var bad, inDegree, dependents := CountDependencies(g);
    if bad != [] {
      return UnknownDep(bad[0].0, bad[0].1);
    }
    var groups := [];
    var remaining := inDegree;
    forall n | n in g ensures CountIn(g[n], g.Keys) == |g[n]| {
      CountInAll(g[n], g.Keys);
    }
    AllInGraph(g);
    assert remaining.Keys == g.Keys;
    while true
      invariant Counts(g, remaining) && LeftAfter(g, |groups|, remaining.Keys)
      invariant forall k :: 0 <= k < |groups| ==> IsGroup(g, k, groups[k])
      invariant forall n :: n in g && n !in remaining ==> Grouped(groups, n)
      decreases |remaining.Keys|
    {
      hide HasChain, Level, CountIn, Count, Sorted, Cyclic, Closed, Grouped;
      var group, left := NextGroup(g, |groups|, remaining, dependents);
      if group == [] {
        if remaining == map[] {
          NothingLeft(g, |groups|);
          return Ok(groups);
        }
        return CycleDetected;
      }
      SmallerSet(left.Keys, remaining.Keys);
      OneMoreGroup(g, groups, group);
      groups, remaining := groups + [group], left;
    }
  }

  lemma SmallerSet(a: set<string>, b: set<string>)
    requires a < b
    ensures |a| < |b|
  {
    assert b == a + (b - a);
    assert b - a != {};
  }

  // --- What the order is for ----------------------------------------------------------------

  lemma {:induction false} ChainFits(g: Graph, n: string, j: nat, k: nat)
    requires HasChain(g, n, k) && j <= k
    ensures HasChain(g, n, j)
    decreases k - j
  {
    if j < k {
      ChainShorter(g, n, k - 1);
      ChainFits(g, n, j, k - 1);
    }
  }

  // Every dependency starts in a strictly earlier group.
  lemma DependenciesFirst(g: Graph, n: string, d: string, j: nat, k: nat)
    requires Level(g, n, k) && n in g && d in g[n] && Level(g, d, j)
    ensures j < k
  {
    if j >= k { ChainFits(g, d, k, j); }
  }

  // No process is in two groups.
  lemma LevelUnique(g: Graph, n: string, j: nat, k: nat)
    requires Level(g, n, j) && Level(g, n, k)
    ensures j == k
  {
    if j < k { ChainFits(g, n, j + 1, k); }
    if k < j { ChainFits(g, n, k + 1, j); }
  }
}
