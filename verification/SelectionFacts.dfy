/** What the selection promises the scheduler, and which nodes it picks. */
module SelectionFacts {
  import opened NodeLists
  import opened NameOrder
  import opened Passes
  import opened Runs
  import opened NodeSelection

  // ---- Lists ----

  ghost predicate UniqueNodes(nodes: seq<Node>) {
    forall i, j :: 0 <= i < j < |nodes| ==> nodes[i].name != nodes[j].name
  }

  ghost function NamesOf(nodes: seq<Node>, test: Node -> bool): set<string> {
    set n | n in nodes && test(n) :: n.name
  }

  lemma {:induction false} NamesWhereIs(nodes: seq<Node>, test: Node -> bool)
    ensures Elements(NamesWhere(nodes, test)) == NamesOf(nodes, test)
  {
    if nodes != [] {
      var front, last := nodes[..|nodes| - 1], nodes[|nodes| - 1];
      NamesWhereIs(front, test);
      assert nodes == front + [last];
      assert NamesOf(nodes, test) == NamesOf(front, test) + if test(last) then {last.name} else {};
    }
  }

  lemma {:induction false} NamesWhereUnique(nodes: seq<Node>, test: Node -> bool)
    requires UniqueNodes(nodes)
    ensures NoDuplicates(NamesWhere(nodes, test))
  {
    if nodes != [] {
      var front, last := nodes[..|nodes| - 1], nodes[|nodes| - 1];
      NamesWhereUnique(front, test);
      NamesWhereIs(front, test);
      assert last.name !in Elements(NamesWhere(front, test));
    }
  }

  lemma {:induction false} AppendMissingIs(list: seq<string>, names: seq<string>, barred: seq<string>)
    ensures var r := AppendMissing(list, names, barred);
            && (NoDuplicates(list) ==> NoDuplicates(r))
            && (forall x :: x in r <==> x in list || (x in names && x !in barred))
  {
    if names != [] {
      AppendMissingIs(list, names[..|names| - 1], barred);
      assert names == names[..|names| - 1] + [names[|names| - 1]];
    }
  }

  lemma {:induction false} FirstOutsideIs(names: seq<string>, barred: seq<string>)
    ensures var r := FirstOutside(names, barred);
            && NoDuplicates(r) && (forall x :: x in r ==> x in names && x !in barred)
            && (r == [] <==> forall x :: x in names ==> x in barred)
  {
    if names != [] {
      FirstOutsideIs(names[1..], barred);
    }
  }

  lemma SortIsSame(xs: seq<string>)
    ensures Elements(SortNames(xs)) == Elements(xs) && |SortNames(xs)| == |xs|
    ensures forall x :: x in SortNames(xs) <==> x in xs
    ensures NoDuplicates(xs) ==> NoDuplicates(SortNames(xs))
  {
    SortIsSorted(xs);
    SameElements(xs, SortNames(xs));
    assert forall x :: x in Elements(xs) <==> x in xs;
    assert forall x :: x in Elements(SortNames(xs)) <==> x in SortNames(xs);
  }

  // ---- What every selection keeps ----

  /** Some listing of nodes has the name. */
  ghost predicate InCluster(c: Cluster, name: string) {
    || (c.nodes.Ok? && exists n :: n in c.nodes.value && n.name == name)
    || exists labels, n :: c.matching(labels).Ok? && n in c.matching(labels).value && n.name == name
  }

  ghost predicate FromCluster(c: Cluster, names: seq<string>) {
    NoDuplicates(names) && forall x :: x in names ==> InCluster(c, x)
  }

  lemma {:induction false} ListPoolsFromCluster(c: Cluster, keys: seq<string>, merged: map<string, Labels>,
                                                targets: seq<string>)
    requires forall k :: k in keys ==> k in merged
    requires FromCluster(c, targets)
    ensures var r := ListPools(c, keys, merged, targets); r.Ok? ==> FromCluster(c, r.value)
    decreases |keys|
  {
    if keys != [] && c.matching(merged[keys[0]]).Ok? {
      var nodes := c.matching(merged[keys[0]]).value;
      AppendMissingIs(targets, Names(nodes), []);
      forall x | x in Names(nodes) ensures InCluster(c, x) {
        var i :| 0 <= i < |nodes| && Names(nodes)[i] == x;
        assert nodes[i] in c.matching(merged[keys[0]]).value;
      }
      ListPoolsFromCluster(c, keys[1..], merged, AppendMissing(targets, Names(nodes), []));
    }
  }

  lemma WhereFromCluster(c: Cluster, nodes: seq<Node>, test: Node -> bool)
    requires forall n :: n in nodes ==> InCluster(c, n.name)
    ensures forall x :: x in NamesWhere(nodes, test) ==> InCluster(c, x)
  {
    NamesWhereIs(nodes, test);
    forall x | x in NamesWhere(nodes, test) ensures InCluster(c, x) {
      assert x in Elements(NamesWhere(nodes, test));
    }
  }

  lemma BaseFromCluster(c: Cluster, sel: Selectors)
    requires Visits(c) && c.nodes.Ok? && UniqueNodes(c.nodes.value)
    ensures var s := BaseTargets(c, sel, c.nodes.value); s.Selected? ==> FromCluster(c, s.targets)
  {
    var nodes := c.nodes.value;
    if BaseTargets(c, sel, nodes).Selected? {
      match sel.nodeSelector {
        case None =>
          NamesWhereUnique(nodes, NameOutside(NamesWhere(nodes, PreheatOff)));
          WhereFromCluster(c, nodes, NameOutside(NamesWhere(nodes, PreheatOff)));
        case Some(extra) =>
          var valid := if sel.pools == [] then map[] else ValidPools(sel.pools, c.pools.value);
          if |valid| > 0 {
            VisitsKeys(c, 0, valid.Keys);
            var merged := MergePools(c, c.order(0, valid.Keys), valid, extra).value;
            VisitsKeys(c, 1, merged.Keys);
            ListPoolsFromCluster(c, c.order(1, merged.Keys), merged, []);
          } else {
            var listed := c.matching(extra).value;
            AppendMissingIs([], NamesWhere(listed, Enabled), []);
            WhereFromCluster(c, listed, Enabled);
          }
      }
    }
  }

  /** What the scheduler relies on holds for every answer of the cluster, also when the listings differ: primers are
      targets, no primer is disabled or barred from priming, and no name is listed twice. */
  lemma PrimersAreTargets(c: Cluster, sel: Selectors, prime: bool)
    requires Visits(c) && c.nodes.Ok? && UniqueNodes(c.nodes.value)
    ensures var s := Select(c, sel, prime);
            s.Selected? ==>
              && FromCluster(c, s.targets) && NoDuplicates(s.primers)
              && (forall x :: x in s.primers ==> x in s.targets)
              && (forall n :: n in c.nodes.value && n.name in s.primers ==> Eligible(n))
              && (!prime ==> s.primers == [])
  {
    var nodes := c.nodes.value;
    BaseFromCluster(c, sel);
    var b := BaseTargets(c, sel, nodes);
    if b.Selected? {
      SortIsSame(b.targets);
      var primers, off, disabled := NamesWhere(nodes, Eligible), NamesWhere(nodes, PrimingOff), NamesWhere(nodes,
                                                                                                           PreheatOff);
      EligibleIsFree(nodes);
      WhereFromCluster(c, nodes, Eligible);
      SortIsSame(primers);
      PrimersWithin(prime, SortNames(b.targets), primers, off + disabled);
      SortIsSame(WithPrimers(prime, SortNames(b.targets), primers, off + disabled).primers);
    }
  }

  lemma PrimersWithin(prime: bool, targets: seq<string>, primers: seq<string>, barred: seq<string>)
    requires NoDuplicates(targets) && NoDuplicates(primers) && (forall x :: x in primers ==> x !in barred)
    ensures var s := WithPrimers(prime, targets, primers, barred);
            && NoDuplicates(s.targets) && NoDuplicates(s.primers)
            && (forall x :: x in s.primers ==> x in s.targets && x !in barred)
            && (forall x :: x in s.targets ==> x in targets || x in primers)
  {
    AppendMissingIs(targets, primers, barred);
    FirstOutsideIs(targets, barred);
    SortIsSame(primers);
  }

  /** With unique names a primer is on neither of the two lists of barred nodes. */
  lemma EligibleIsFree(nodes: seq<Node>)
    requires UniqueNodes(nodes)
    ensures var barred := NamesWhere(nodes, PrimingOff) + NamesWhere(nodes, PreheatOff);
            && NoDuplicates(NamesWhere(nodes, Eligible))
            && (forall n :: n in nodes ==> (n.name in NamesWhere(nodes, Eligible) <==> Eligible(n)))
            && (forall n :: n in nodes ==> (n.name in barred <==> !Eligible(n)))
            && (forall x :: x in NamesWhere(nodes, Eligible) ==> x !in barred)
  {
    NamesWhereAt(nodes, Eligible);
    NamesWhereAt(nodes, PrimingOff);
    NamesWhereAt(nodes, PreheatOff);
  }

  lemma NamesWhereAt(nodes: seq<Node>, test: Node -> bool)
    requires UniqueNodes(nodes)
    ensures NoDuplicates(NamesWhere(nodes, test))
    ensures forall n :: n in nodes ==> (n.name in NamesWhere(nodes, test) <==> test(n))
    ensures forall x :: x in NamesWhere(nodes, test) ==> exists n :: n in nodes && n.name == x && test(n)
  {
    NamesWhereIs(nodes, test);
    NamesWhereUnique(nodes, test);
    var names := NamesWhere(nodes, test);
    forall x | x in names ensures exists n :: n in nodes && n.name == x && test(n) {
      assert x in Elements(names);
    }
    forall n | n in nodes ensures n.name in names <==> test(n) {
      assert n.name in names <==> n.name in Elements(names);
      if n.name in names {
        var m :| m in nodes && m.name == n.name && test(m);
        assert m == n;
      }
    }
  }

  /** The selection gives the scheduler what its theorems ask for. */
  lemma SelectionFeedsScheduler(c: Cluster, sel: Selectors, prime: bool, o: Observation)
    requires Visits(c) && (c.nodes.Ok? ==> UniqueNodes(c.nodes.value)) && o.selection == Select(c, sel, prime)
    ensures WellSelected(o)
  {
    if c.nodes.Ok? {
      PrimersAreTargets(c, sel, prime);
    }
  }
}
