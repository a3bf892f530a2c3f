/** Which nodes are targets and primers when all listings show one snapshot of the cluster. */
module TargetSets {
  import opened NodeLists
  import opened NameOrder
  import opened Passes
  import opened NodeSelection
  import opened SelectionFacts

  ghost predicate Matches(n: Node, labels: Labels) {
    forall k :: k in labels ==> k in n.labels && n.labels[k] == labels[k]
  }

  ghost predicate UniquePools(pools: seq<Pool>) {
    forall i, j :: 0 <= i < j < |pools| ==> pools[i].name != pools[j].name
  }

  /** Every call succeeds and sees the same nodes, in whatever order. The library joins labels with disjoint keys;
      what it does with common keys is left open. */
  ghost predicate Snapshot(c: Cluster) {
    && Visits(c) && c.nodes.Ok? && c.pools.Ok? && UniqueNodes(c.nodes.value) && UniquePools(c.pools.value)
    && (forall l :: c.matching(l).Ok? && forall n :: n in c.matching(l).value <==> n in c.nodes.value && Matches(n, l))
    && (forall a: Labels, b: Labels :: a.Keys !! b.Keys ==> c.merge(a, b) == Ok(a + b))
  }

  ghost predicate Usable(c: Cluster, sel: Selectors, p: Pool)
    requires c.pools.Ok?
  {
    p in c.pools.value && p.name in sel.pools && p.selector.Some?
  }

  ghost predicate DisjointKeys(c: Cluster, sel: Selectors)
    requires c.pools.Ok?
  {
    sel.nodeSelector.Some? ==> forall p :: Usable(c, sel, p) ==> p.selector.value.Keys !! sel.nodeSelector.value.Keys
  }

  /** The node is a target for its own sake, not only as a primer. */
  ghost predicate Wanted(c: Cluster, sel: Selectors, n: Node)
    requires c.pools.Ok?
  {
    match sel.nodeSelector
    case None => sel.pools == [] && !PreheatOff(n)
    case Some(extra) =>
      if exists p :: Usable(c, sel, p)
      then Matches(n, extra) && exists p :: Usable(c, sel, p) && Matches(n, p.selector.value)
      else Matches(n, extra) && !PreheatOff(n)
  }

  // ---- Pools ----

  lemma {:induction false} ValidPoolsAre(defined: seq<string>, pools: seq<Pool>)
    requires UniquePools(pools)
    ensures var valid := ValidPools(defined, pools);
            && (forall p :: p in pools && p.name in defined && p.selector.Some? ==>
                  p.name in valid && valid[p.name] == p.selector.value)
            && (forall k :: k in valid ==>
                  exists p :: p in pools && p.name == k && k in defined && p.selector == Some(valid[k]))
  {
    if pools != [] {
      var front, last := pools[..|pools| - 1], pools[|pools| - 1];
      ValidPoolsAre(defined, front);
      assert pools == front + [last];
    }
  }

  lemma {:induction false} MergePoolsIs(c: Cluster, keys: seq<string>, valid: map<string, Labels>, extra: Labels)
    requires NoDuplicates(keys) && (forall k :: k in keys ==> k in valid && valid[k].Keys !! extra.Keys)
    requires forall a: Labels, b: Labels :: a.Keys !! b.Keys ==> c.merge(a, b) == Ok(a + b)
    ensures var r := MergePools(c, keys, valid, extra);
            && r.Ok? && r.value.Keys == valid.Keys
            && (forall k :: k in keys ==> r.value[k] == valid[k] + extra)
            && (forall k :: k in valid && k !in keys ==> r.value[k] == valid[k])
    decreases |keys|
  {
    if keys != [] {
      MergePoolsIs(c, keys[1..], valid[keys[0] := valid[keys[0]] + extra], extra);
    }
  }

  lemma MatchesBoth(n: Node, a: Labels, b: Labels)
    requires a.Keys !! b.Keys
    ensures Matches(n, a + b) <==> Matches(n, a) && Matches(n, b)
  {
    if Matches(n, a + b) {
      forall k | k in a ensures k in n.labels && n.labels[k] == a[k] { assert k in a + b && (a + b)[k] == a[k]; }
      forall k | k in b ensures k in n.labels && n.labels[k] == b[k] { assert k in a + b && (a + b)[k] == b[k]; }
    }
  }

  /** Some listed pool shows a node of that name. */
  ghost predicate Listed(c: Cluster, keys: seq<string>, merged: map<string, Labels>, x: string)
    requires c.nodes.Ok? && forall k :: k in keys ==> k in merged
  {
    exists k, n :: k in keys && n in c.nodes.value && n.name == x && Matches(n, merged[k])
  }

  lemma {:induction false} ListPoolsIs(c: Cluster, keys: seq<string>, merged: map<string, Labels>, targets: seq<string>)
    requires Snapshot(c) && NoDuplicates(targets) && forall k :: k in keys ==> k in merged
    ensures var r := ListPools(c, keys, merged, targets);
            && r.Ok? && NoDuplicates(r.value)
            && (forall x :: x in r.value <==> x in targets || Listed(c, keys, merged, x))
    decreases |keys|
  {
    if keys != [] {
      var k, rest, nodes := keys[0], keys[1..], c.matching(merged[keys[0]]).value;
      var longer := AppendMissing(targets, Names(nodes), []);
      AppendMissingIs(targets, Names(nodes), []);
      ListPoolsIs(c, rest, merged, longer);
      assert keys == [k] + rest;
      forall x ensures Listed(c, keys, merged, x) <==> x in Names(nodes) || Listed(c, rest, merged, x) {
        ListedStep(c, keys, merged, nodes, x);
      }
    }
  }

  lemma ListedStep(c: Cluster, keys: seq<string>, merged: map<string, Labels>, nodes: seq<Node>, x: string)
    requires c.nodes.Ok? && keys != [] && forall k :: k in keys ==> k in merged
    requires forall n :: n in nodes <==> n in c.nodes.value && Matches(n, merged[keys[0]])
    ensures Listed(c, keys, merged, x) <==> x in Names(nodes) || Listed(c, keys[1..], merged, x)
  {
    if Listed(c, keys, merged, x) {
      var k, n :| k in keys && n in c.nodes.value && n.name == x && Matches(n, merged[k]);
      if k == keys[0] {
        var i :| 0 <= i < |nodes| && nodes[i] == n;
        assert Names(nodes)[i] == x;
      } else {
        assert k in keys[1..];
      }
    }
    if x in Names(nodes) {
      var i :| 0 <= i < |nodes| && Names(nodes)[i] == x;
      assert nodes[i] in nodes && keys[0] in keys;
    }
    if Listed(c, keys[1..], merged, x) {
      var k, n :| k in keys[1..] && n in c.nodes.value && n.name == x && Matches(n, merged[k]);
      assert k in keys;
    }
  }

  // ---- The base targets ----

  ghost function WantedNames(c: Cluster, sel: Selectors): set<string>
    requires c.nodes.Ok? && c.pools.Ok?
  {
    set n | n in c.nodes.value && Wanted(c, sel, n) :: n.name
  }

  ghost predicate Exactly(list: seq<string>, names: set<string>) {
    NoDuplicates(list) && forall x :: x in list <==> x in names
  }

  lemma ByPoolsIs(c: Cluster, sel: Selectors, extra: Labels)
    requires Snapshot(c) && DisjointKeys(c, sel) && sel.nodeSelector == Some(extra)
    requires exists p :: Usable(c, sel, p)
    ensures var s := ByPools(c, ValidPools(sel.pools, c.pools.value), extra);
            s.Selected? && Exactly(s.targets, WantedNames(c, sel))
  {
    var valid := ValidPools(sel.pools, c.pools.value);
    ValidPoolsAre(sel.pools, c.pools.value);
    var keys := c.order(0, valid.Keys);
    VisitsKeys(c, 0, valid.Keys);
    forall k | k in keys ensures valid[k].Keys !! extra.Keys {
      var p :| p in c.pools.value && p.name == k && k in sel.pools && p.selector == Some(valid[k]);
      assert Usable(c, sel, p);
    }
    MergePoolsIs(c, keys, valid, extra);
    var merged := MergePools(c, keys, valid, extra).value;
    var again := c.order(1, merged.Keys);
    VisitsKeys(c, 1, merged.Keys);
    ListPoolsIs(c, again, merged, []);
    forall n | n in c.nodes.value
      ensures Wanted(c, sel, n) <==> exists k :: k in valid && Matches(n, valid[k] + extra)
    {
      WantedByPool(c, sel, extra, valid, n);
    }
    forall x ensures Listed(c, again, merged, x) <==> x in WantedNames(c, sel) {
      ListedIsWanted(c, sel, extra, valid, merged, again, x);
    }
  }

  /** Being wanted, said with the map of valid pools. */
  lemma WantedByPool(c: Cluster, sel: Selectors, extra: Labels, valid: map<string, Labels>, n: Node)
    requires c.pools.Ok? && UniquePools(c.pools.value) && sel.nodeSelector == Some(extra)
    requires valid == ValidPools(sel.pools, c.pools.value) && exists p :: Usable(c, sel, p)
    requires forall k :: k in valid ==> valid[k].Keys !! extra.Keys
    ensures Wanted(c, sel, n) <==> exists k :: k in valid && Matches(n, valid[k] + extra)
  {
    ValidPoolsAre(sel.pools, c.pools.value);
    if k :| k in valid && Matches(n, valid[k] + extra) {
      MatchesBoth(n, valid[k], extra);
      var p :| p in c.pools.value && p.name == k && k in sel.pools && p.selector == Some(valid[k]);
      assert Usable(c, sel, p);
    }
    if Wanted(c, sel, n) {
      var p :| Usable(c, sel, p) && Matches(n, p.selector.value);
      MatchesBoth(n, valid[p.name], extra);
    }
  }

  lemma ListedIsWanted(c: Cluster, sel: Selectors, extra: Labels, valid: map<string, Labels>,
                       merged: map<string, Labels>, keys: seq<string>, x: string)
    requires c.nodes.Ok? && c.pools.Ok? && merged.Keys == valid.Keys
    requires forall k :: k in keys <==> k in valid
    requires forall k :: k in valid ==> merged[k] == valid[k] + extra
    requires forall n :: n in c.nodes.value ==>
               (Wanted(c, sel, n) <==> exists k :: k in valid && Matches(n, valid[k] + extra))
    ensures Listed(c, keys, merged, x) <==> x in WantedNames(c, sel)
  {
    if Listed(c, keys, merged, x) {
      var k, n :| k in keys && n in c.nodes.value && n.name == x && Matches(n, merged[k]);
      assert Matches(n, valid[k] + extra);
    }
    if x in WantedNames(c, sel) {
      var n :| n in c.nodes.value && Wanted(c, sel, n) && n.name == x;
      var k :| k in valid && Matches(n, valid[k] + extra);
      assert k in keys && Matches(n, merged[k]);
    }
  }

  lemma SomeUsable(c: Cluster, sel: Selectors)
    requires c.pools.Ok? && UniquePools(c.pools.value)
    ensures (exists p :: Usable(c, sel, p)) <==> sel.pools != [] && |ValidPools(sel.pools, c.pools.value)| > 0
  {
    var valid := ValidPools(sel.pools, c.pools.value);
    ValidPoolsAre(sel.pools, c.pools.value);
    if |valid| > 0 {
      var k :| k in valid.Keys;
      var p :| p in c.pools.value && p.name == k && k in sel.pools && p.selector == Some(valid[k]);
      assert Usable(c, sel, p);
    }
    if p :| Usable(c, sel, p) {
      assert p.name in valid.Keys;
    }
  }

  lemma BaseIs(c: Cluster, sel: Selectors)
    requires Snapshot(c) && DisjointKeys(c, sel)
    ensures var s := BaseTargets(c, sel, c.nodes.value);
            s.Selected? && Exactly(s.targets, WantedNames(c, sel))
  {
    var nodes := c.nodes.value;
    SomeUsable(c, sel);
    match sel.nodeSelector
    case None =>
      if sel.pools == [] {
        NamesWhereAt(nodes, PreheatOff);
        NamesWhereAt(nodes, NameOutside(NamesWhere(nodes, PreheatOff)));
      }
    case Some(extra) =>
      if exists p :: Usable(c, sel, p) {
        ByPoolsIs(c, sel, extra);
      } else {
        NamesWhereIs(c.matching(extra).value, Enabled);
        AppendMissingIs([], NamesWhere(c.matching(extra).value, Enabled), []);
        forall x ensures x in NamesWhere(c.matching(extra).value, Enabled) <==> x in WantedNames(c, sel) {
          assert x in NamesWhere(c.matching(extra).value, Enabled) <==> x in NamesOf(c.matching(extra).value, Enabled);
        }
      }
  }

  // ---- The final sets ----

  ghost predicate Target(c: Cluster, sel: Selectors, prime: bool, n: Node)
    requires c.pools.Ok?
  {
    Wanted(c, sel, n) || (prime && Eligible(n))
  }

  ghost function TargetNames(c: Cluster, sel: Selectors, prime: bool): set<string>
    requires c.nodes.Ok? && c.pools.Ok?
  {
    set n | n in c.nodes.value && Target(c, sel, prime, n) :: n.name
  }

  ghost function PrimerNames(c: Cluster, prime: bool): set<string>
    requires c.nodes.Ok?
  {
    set n | n in c.nodes.value && prime && Eligible(n) :: n.name
  }

  /** The main theorem of the selection: exactly the wanted nodes and, with priming, all eligible nodes are targets, and
      exactly the eligible ones are primers. In one snapshot the branch that picks a single primer never picks one. */
  lemma SelectsExactly(c: Cluster, sel: Selectors, prime: bool)
    requires Snapshot(c) && DisjointKeys(c, sel)
    ensures var s := Select(c, sel, prime);
            && s.Selected?
            && Exactly(s.targets, TargetNames(c, sel, prime))
            && Exactly(s.primers, PrimerNames(c, prime))
  {
    var nodes := c.nodes.value;
    BaseIs(c, sel);
    var base := BaseTargets(c, sel, nodes).targets;
    SortIsSame(base);
    var primers, eligible := NamesWhere(nodes, Eligible), NamesOf(nodes, Eligible);
    var barred := NamesWhere(nodes, PrimingOff) + NamesWhere(nodes, PreheatOff);
    EligibleIsFree(nodes);
    NamesWhereIs(nodes, Eligible);
    assert forall x :: x in primers <==> x in Elements(primers);
    WantedOrBarred(c, sel, base);
    FinalSets(prime, SortNames(base), primers, barred, WantedNames(c, sel), eligible);
    SortIsSame(WithPrimers(prime, SortNames(base), primers, barred).primers);
    FinalNames(c, sel, prime);
  }

  lemma WantedOrBarred(c: Cluster, sel: Selectors, base: seq<string>)
    requires c.nodes.Ok? && c.pools.Ok? && UniqueNodes(c.nodes.value) && Exactly(base, WantedNames(c, sel))
    ensures var nodes := c.nodes.value;
            forall x :: x in base ==>
              x in NamesWhere(nodes, Eligible) || x in NamesWhere(nodes, PrimingOff) + NamesWhere(nodes, PreheatOff)
  {
    EligibleIsFree(c.nodes.value);
  }

  lemma FinalNames(c: Cluster, sel: Selectors, prime: bool)
    requires c.nodes.Ok? && c.pools.Ok?
    ensures var eligible := if prime then NamesOf(c.nodes.value, Eligible) else {};
            TargetNames(c, sel, prime) == WantedNames(c, sel) + eligible && PrimerNames(c, prime) == eligible
  {
  }

  lemma FinalSets(prime: bool, list: seq<string>, primers: seq<string>, barred: seq<string>, wanted: set<string>,
                  eligible: set<string>)
    requires Exactly(list, wanted) && Exactly(primers, eligible)
    requires forall x :: x in primers ==> x !in barred
    requires forall x :: x in list ==> x in primers || x in barred
    ensures var s := WithPrimers(prime, list, primers, barred);
            && Exactly(s.targets, wanted + if prime then eligible else {})
            && Exactly(s.primers, if prime then eligible else {})
  {
    AppendMissingIs(list, primers, barred);
    FirstOutsideIs(list, barred);
    SortIsSame(primers);
  }

  /** A disabled node is a target exactly if a node selector and some usable pool both match it: with both selectors the
      label that switches preheating off is not looked at. */
  lemma DisabledTargetsExactly(c: Cluster, sel: Selectors, prime: bool, n: Node)
    requires Snapshot(c) && DisjointKeys(c, sel) && n in c.nodes.value && PreheatOff(n)
    ensures var s := Select(c, sel, prime);
            s.Selected? &&
            (n.name in s.targets <==>
               && sel.nodeSelector.Some? && Matches(n, sel.nodeSelector.value)
               && exists p :: Usable(c, sel, p) && Matches(n, p.selector.value))
  {
    SelectsExactly(c, sel, prime);
    NamedOnce(c, sel, prime, n);
  }

  lemma NamedOnce(c: Cluster, sel: Selectors, prime: bool, n: Node)
    requires c.nodes.Ok? && c.pools.Ok? && UniqueNodes(c.nodes.value) && n in c.nodes.value
    ensures n.name in TargetNames(c, sel, prime) <==> Target(c, sel, prime, n)
  {
    if n.name in TargetNames(c, sel, prime) {
      var m :| m in c.nodes.value && Target(c, sel, prime, m) && m.name == n.name;
      assert m == n;
    }
  }
}
