/** The selection for every answer of the cluster, also when its listings differ: when it fails and why, and which nodes
    it names. */
module SelectionAnswers {
  import opened NodeLists
  import opened NameOrder
  import opened Passes
  import opened FrontFacts
  import opened NodeSelection
  import opened SelectionFacts
  import opened TargetSets

  // ---- The loops over the pools ----

  lemma {:induction false} MergeAll(c: Cluster, keys: seq<string>, valid: map<string, Labels>, extra: Labels)
    requires NoDuplicates(keys) && forall k :: k in keys ==> k in valid
    ensures var r := MergePools(c, keys, valid, extra);
            && (r.Ok? <==> forall k :: k in keys ==> c.merge(valid[k], extra).Ok?)
            && (r.Err? ==> exists k :: k in keys && c.merge(valid[k], extra) == Err(r.message))
            && (r.Ok? ==>
                  && (forall k :: k in keys ==> r.value[k] == c.merge(valid[k], extra).value)
                  && (forall k :: k in valid && k !in keys ==> r.value[k] == valid[k]))
    decreases |keys|
  {
    if keys != [] {
      var reply := c.merge(valid[keys[0]], extra);
      assert keys == [keys[0]] + keys[1..];
      if reply.Ok? {
        MergeAll(c, keys[1..], valid[keys[0] := reply.value], extra);
      }
    }
  }

  lemma {:induction false} ListAll(c: Cluster, keys: seq<string>, merged: map<string, Labels>, targets: seq<string>)
    requires forall k :: k in keys ==> k in merged
    ensures var r := ListPools(c, keys, merged, targets);
            && (r.Ok? <==> forall k :: k in keys ==> c.matching(merged[k]).Ok?)
            && (r.Err? ==> exists k :: k in keys && c.matching(merged[k]) == Err(r.message))
            && (r.Ok? ==>
                  forall x :: x in r.value <==>
                    x in targets || exists k :: k in keys && x in Names(c.matching(merged[k]).value))
    decreases |keys|
  {
    if keys != [] {
      var reply := c.matching(merged[keys[0]]);
      assert keys == [keys[0]] + keys[1..];
      if reply.Ok? {
        AppendMissingIs(targets, Names(reply.value), []);
        ListAll(c, keys[1..], merged, AppendMissing(targets, Names(reply.value), []));
      }
    }
  }

  // ---- Which calls a selector makes ----

  ghost predicate Pooled(c: Cluster, sel: Selectors) {
    sel.nodeSelector.Some? && sel.pools != [] && c.pools.Ok? && exists p :: Usable(c, sel, p)
  }

  /** What the library makes of the selector of a usable pool and the node selector. */
  function Joint(c: Cluster, sel: Selectors, p: Pool): Reply<Labels>
    requires sel.nodeSelector.Some? && p.selector.Some?
  {
    c.merge(p.selector.value, sel.nodeSelector.value)
  }

  ghost predicate MergeFails(c: Cluster, sel: Selectors, p: Pool)
    requires Pooled(c, sel)
  {
    Usable(c, sel, p) && Joint(c, sel, p).Err?
  }

  ghost predicate ListingFails(c: Cluster, sel: Selectors, p: Pool)
    requires Pooled(c, sel)
  {
    Usable(c, sel, p) && Joint(c, sel, p).Ok? && c.matching(Joint(c, sel, p).value).Err?
  }

  /** Some call that this selector makes reports an error. */
  ghost predicate CallFails(c: Cluster, sel: Selectors) {
    || c.nodes.Err?
    || (sel.pools != [] && c.pools.Err?)
    || (if Pooled(c, sel) then exists p :: MergeFails(c, sel, p) || ListingFails(c, sel, p)
        else sel.nodeSelector.Some? && c.matching(sel.nodeSelector.value).Err?)
  }

  /** The reason that such an error is reported with, by the first call that fails. */
  ghost predicate Explained(c: Cluster, sel: Selectors, s: Selection)
    requires s.Unselected?
  {
    if c.nodes.Err? then s == Unselected("GetNodesFailed", true, c.nodes.message)
    else if sel.pools != [] && c.pools.Err? then s == Unselected("GetMachineConfigPoolsFailed", false, c.pools.message)
    else if !Pooled(c, sel) then
      && sel.nodeSelector.Some? && c.matching(sel.nodeSelector.value).Err?
      && s == Unselected("GetNodesFailed", false, c.matching(sel.nodeSelector.value).message)
    else if exists p :: MergeFails(c, sel, p) then
      && s == Unselected("SetupFailed", false, s.message)
      && exists p :: MergeFails(c, sel, p) && Joint(c, sel, p).message == s.message
    else
      && s == Unselected("GetNodesFailed", false, s.message)
      && exists p :: ListingFails(c, sel, p) && c.matching(Joint(c, sel, p).value).message == s.message
  }

  // ---- Which nodes the answers name ----

  /** A listing that the selectors ask for shows a node of that name. */
  ghost predicate Shown(c: Cluster, sel: Selectors, x: string)
    requires c.nodes.Ok? && !CallFails(c, sel)
  {
    if Pooled(c, sel) then exists p :: ShownBy(c, sel, p, x)
    else if sel.nodeSelector.Some? then NamedIn(c.matching(sel.nodeSelector.value).value, x, Admitted)
    else sel.pools == [] && NamedIn(c.nodes.value, x, Admitted)
  }

  ghost predicate ShownBy(c: Cluster, sel: Selectors, p: Pool, x: string)
    requires Pooled(c, sel)
  {
    && Usable(c, sel, p) && Joint(c, sel, p).Ok? && c.matching(Joint(c, sel, p).value).Ok?
    && x in Names(c.matching(Joint(c, sel, p).value).value)
  }

  predicate Admitted(n: Node) {
    !Excluded(n)
  }

  predicate MayPrime(n: Node) {
    !Excluded(n) && !BarredFromPriming(n)
  }

  ghost predicate NamedIn(nodes: seq<Node>, x: string, test: Node -> bool) {
    exists n :: n in nodes && n.name == x && test(n)
  }

  // ---- Both selectors ----

  /** The map of valid pools holds exactly the selectors of the usable pools. */
  lemma PooledMap(c: Cluster, sel: Selectors)
    requires c.pools.Ok? && UniquePools(c.pools.value)
    ensures var valid := ValidPools(sel.pools, c.pools.value);
            && (forall p :: Usable(c, sel, p) ==> p.name in valid && valid[p.name] == p.selector.value)
            && (forall k :: k in valid ==> exists p :: Usable(c, sel, p) && p.name == k && p.selector.value == valid[k])
            && ((exists p :: Usable(c, sel, p)) <==> sel.pools != [] && |valid| > 0)
  {
    ValidPoolsAre(sel.pools, c.pools.value);
    SomeUsable(c, sel);
    var valid := ValidPools(sel.pools, c.pools.value);
    forall k | k in valid ensures exists p :: Usable(c, sel, p) && p.name == k && p.selector.value == valid[k] {
      var p :| p in c.pools.value && p.name == k && k in sel.pools && p.selector == Some(valid[k]);
      assert Usable(c, sel, p);
    }
  }

  lemma ByPoolsAnswers(c: Cluster, sel: Selectors)
    requires Visits(c) && c.nodes.Ok? && Pooled(c, sel) && UniquePools(c.pools.value)
    ensures var s := ByPools(c, ValidPools(sel.pools, c.pools.value), sel.nodeSelector.value);
            && (s.Unselected? <==> CallFails(c, sel)) && (s.Unselected? ==> Explained(c, sel, s))
            && (s.Selected? ==> forall x :: x in s.targets <==> Shown(c, sel, x))
  {
    var extra, valid := sel.nodeSelector.value, ValidPools(sel.pools, c.pools.value);
    PooledMap(c, sel);
    var keys := c.order(0, valid.Keys);
    VisitsKeys(c, 0, valid.Keys);
    MergeAll(c, keys, valid, extra);
    var r := MergePools(c, keys, valid, extra);
    if r.Err? {
      var k :| k in keys && c.merge(valid[k], extra) == Err(r.message);
      var p :| Usable(c, sel, p) && p.name == k && p.selector.value == valid[k];
      assert MergeFails(c, sel, p) && Joint(c, sel, p).message == r.message;
    } else {
      forall p ensures !MergeFails(c, sel, p) {
        if Usable(c, sel, p) { assert p.name in keys; }
      }
      MergedAnswers(c, sel, r.value);
    }
  }

  /** The merged selectors by pool. */
  ghost predicate Merged(c: Cluster, sel: Selectors, merged: map<string, Labels>)
    requires Pooled(c, sel)
  {
    && (forall p :: Usable(c, sel, p) ==> p.name in merged && Joint(c, sel, p) == Ok(merged[p.name]))
    && (forall k :: k in merged ==> exists p :: Usable(c, sel, p) && p.name == k)
  }

  lemma MergedAnswers(c: Cluster, sel: Selectors, merged: map<string, Labels>)
    requires Visits(c) && c.nodes.Ok? && Pooled(c, sel) && Merged(c, sel, merged)
    ensures var keys := c.order(1, merged.Keys);
            && (forall k :: k in keys <==> k in merged)
            && var r := ListPools(c, keys, merged, []);
            && (r.Err? <==> CallFails(c, sel))
            && (r.Err? ==> Explained(c, sel, Unselected("GetNodesFailed", false, r.message)))
            && (r.Ok? ==> forall x :: x in r.value <==> Shown(c, sel, x))
  {
    var keys := c.order(1, merged.Keys);
    VisitsKeys(c, 1, merged.Keys);
    ListAll(c, keys, merged, []);
    ListingsFail(c, sel, keys, merged);
    var r := ListPools(c, keys, merged, []);
    if r.Ok? {
      forall x ensures x in r.value <==> exists p :: ShownBy(c, sel, p, x) { ListingsShow(c, sel, keys, merged, x); }
    } else {
      var k :| k in keys && c.matching(merged[k]) == Err(r.message);
      var p :| Usable(c, sel, p) && p.name == k;
      assert ListingFails(c, sel, p) && c.matching(Joint(c, sel, p).value).message == r.message;
    }
  }

  lemma ListingsFail(c: Cluster, sel: Selectors, keys: seq<string>, merged: map<string, Labels>)
    requires c.nodes.Ok? && Pooled(c, sel) && Merged(c, sel, merged) && forall k :: k in keys <==> k in merged
    ensures CallFails(c, sel) <==> exists k :: k in keys && c.matching(merged[k]).Err?
    ensures forall p :: !MergeFails(c, sel, p)
  {
    if k :| k in keys && c.matching(merged[k]).Err? {
      var p :| Usable(c, sel, p) && p.name == k;
      assert ListingFails(c, sel, p);
    }
  }

  lemma ListingsShow(c: Cluster, sel: Selectors, keys: seq<string>, merged: map<string, Labels>, x: string)
    requires c.nodes.Ok? && Pooled(c, sel) && Merged(c, sel, merged) && forall k :: k in keys <==> k in merged
    requires forall k :: k in keys ==> c.matching(merged[k]).Ok?
    ensures (exists p :: ShownBy(c, sel, p, x)) <==> exists k :: k in keys && x in Names(c.matching(merged[k]).value)
  {
    if k :| k in keys && x in Names(c.matching(merged[k]).value) {
      var p :| Usable(c, sel, p) && p.name == k;
      assert ShownBy(c, sel, p, x);
    }
  }

  // ---- The whole selection ----

  lemma NamesAreNamed(nodes: seq<Node>, test: Node -> bool, other: Node -> bool)
    requires forall n :: n in nodes ==> (test(n) <==> other(n))
    ensures forall x :: x in NamesWhere(nodes, test) <==> NamedIn(nodes, x, other)
  {
    NamesWhereIs(nodes, test);
    forall x ensures x in NamesWhere(nodes, test) <==> NamedIn(nodes, x, other) {
      assert x in NamesWhere(nodes, test) <==> x in NamesOf(nodes, test);
    }
  }

  lemma BaseAnswers(c: Cluster, sel: Selectors)
    requires Visits(c) && c.nodes.Ok? && UniqueNodes(c.nodes.value) && (c.pools.Ok? ==> UniquePools(c.pools.value))
    ensures var s := BaseTargets(c, sel, c.nodes.value);
            && (s.Unselected? <==> CallFails(c, sel)) && (s.Unselected? ==> Explained(c, sel, s))
            && (s.Selected? ==> forall x :: x in s.targets <==> Shown(c, sel, x))
  {
    if sel.pools == [] || c.pools.Ok? {
      if c.pools.Ok? { PooledMap(c, sel); }
      if Pooled(c, sel) {
        ByPoolsAnswers(c, sel);
      } else if sel.nodeSelector.Some? {
        SelectorAnswers(c, sel.nodeSelector.value);
      } else if sel.pools == [] {
        AllAnswers(c.nodes.value);
      }
    }
  }

  lemma SelectorAnswers(c: Cluster, extra: Labels)
    ensures var s := ByNodeSelector(c, extra);
            && (s.Unselected? <==> c.matching(extra).Err?)
            && (s.Unselected? ==> s == Unselected("GetNodesFailed", false, c.matching(extra).message))
            && (s.Selected? ==> forall x :: x in s.targets <==> NamedIn(c.matching(extra).value, x, Admitted))
  {
    if c.matching(extra).Ok? {
      var nodes := c.matching(extra).value;
      forall n: Node ensures Enabled(n) <==> Admitted(n) { LabelsMean(n); }
      NamesAreNamed(nodes, Enabled, Admitted);
      AppendMissingIs([], NamesWhere(nodes, Enabled), []);
    }
  }

  lemma AllAnswers(nodes: seq<Node>)
    requires UniqueNodes(nodes)
    ensures forall x :: x in NamesWhere(nodes, NameOutside(NamesWhere(nodes, PreheatOff))) <==>
              NamedIn(nodes, x, Admitted)
  {
    var off := NamesWhere(nodes, PreheatOff);
    NamesWhereAt(nodes, PreheatOff);
    forall n | n in nodes ensures NameOutside(off)(n) <==> Admitted(n) { LabelsMean(n); }
    NamesAreNamed(nodes, NameOutside(off), Admitted);
  }

  /** The selection fails exactly when a call that this selector makes fails, with the reason of the first such call.
      A failed listing is never read as an empty one. */
  lemma FailsExactly(c: Cluster, sel: Selectors, prime: bool)
    requires Visits(c) && (c.nodes.Ok? ==> UniqueNodes(c.nodes.value)) && (c.pools.Ok? ==> UniquePools(c.pools.value))
    ensures var s := Select(c, sel, prime);
            (s.Unselected? <==> CallFails(c, sel)) && (s.Unselected? ==> Explained(c, sel, s))
  {
    if c.nodes.Ok? {
      BaseAnswers(c, sel);
    }
  }

  /** Otherwise the targets are the nodes that the listings of the selectors show and, with priming, those that may
      prime; excluded nodes are left out of the two listings in which the label is looked at. */
  lemma TargetsAnswer(c: Cluster, sel: Selectors, prime: bool)
    requires Visits(c) && c.nodes.Ok? && UniqueNodes(c.nodes.value) && (c.pools.Ok? ==> UniquePools(c.pools.value))
    requires !CallFails(c, sel)
    ensures var s := Select(c, sel, prime);
            s.Selected? &&
            forall x :: x in s.targets <==> Shown(c, sel, x) || (prime && NamedIn(c.nodes.value, x, MayPrime))
  {
    var nodes := c.nodes.value;
    BaseAnswers(c, sel);
    var base := BaseTargets(c, sel, nodes).targets;
    SortIsSame(base);
    EligibleIsFree(nodes);
    PrimersAreNamed(nodes);
    var primers, barred := NamesWhere(nodes, Eligible), NamesWhere(nodes, PrimingOff) + NamesWhere(nodes, PreheatOff);
    AppendMissingIs(SortNames(base), primers, barred);
    SortIsSame(primers);
  }

  lemma PrimersAreNamed(nodes: seq<Node>)
    ensures forall x :: x in NamesWhere(nodes, Eligible) <==> NamedIn(nodes, x, MayPrime)
  {
    forall n: Node ensures Eligible(n) <==> MayPrime(n) { LabelsMean(n); }
    NamesAreNamed(nodes, Eligible, MayPrime);
  }

  // ---- Primers ----

  lemma {:induction false} FirstOutsideAt(names: seq<string>, barred: seq<string>)
    ensures var r := FirstOutside(names, barred);
            if forall x :: x in names ==> x in barred then r == []
            else exists i :: 0 <= i < |names| && r == [names[i]] && names[i] !in barred
                             && forall j :: 0 <= j < i ==> names[j] in barred
  {
    if names != [] && names[0] in barred {
      var rest := names[1..];
      FirstOutsideAt(rest, barred);
      if x :| x in names && x !in barred {
        assert x in rest;
        var i :| 0 <= i < |rest| && FirstOutside(rest, barred) == [rest[i]] && rest[i] !in barred
                 && forall j :: 0 <= j < i ==> rest[j] in barred;
        assert names[i + 1] == rest[i];
        forall j | 0 <= j < i + 1 ensures names[j] in barred {
          if j > 0 { assert names[j] == rest[j - 1]; }
        }
      }
    }
  }

  /** With priming the primers are all nodes that may prime. If there is none, the first target in the order of the sort
      stands in that the listing of all nodes does not bar, if there is one. */
  lemma PrimersAnswer(c: Cluster, sel: Selectors, prime: bool)
    requires Visits(c) && c.nodes.Ok? && UniqueNodes(c.nodes.value) && (c.pools.Ok? ==> UniquePools(c.pools.value))
    requires !CallFails(c, sel)
    ensures Select(c, sel, prime).Selected?
    ensures var s, some := Select(c, sel, prime), exists x :: NamedIn(c.nodes.value, x, MayPrime);
            && (!prime ==> s.primers == [])
            && (prime && some ==> forall x :: x in s.primers <==> NamedIn(c.nodes.value, x, MayPrime))
            && (prime && !some ==>
                  if forall x :: x in s.targets ==> Barred(c.nodes.value, x) then s.primers == []
                  else exists x :: s.primers == [x] && FirstFree(c.nodes.value, s.targets, x))
  {
    var nodes := c.nodes.value;
    BaseAnswers(c, sel);
    PrimersAreNamed(nodes);
    var primers := NamesWhere(nodes, Eligible);
    SortIsSame(primers);
    PrimersForm(c, sel, prime);
    if primers == [] {
      FallbackAnswers(nodes, BaseTargets(c, sel, nodes).targets);
    } else {
      assert NamedIn(nodes, primers[0], MayPrime);
    }
  }

  lemma PrimersForm(c: Cluster, sel: Selectors, prime: bool)
    requires Visits(c) && c.nodes.Ok? && BaseTargets(c, sel, c.nodes.value).Selected?
    ensures var s, nodes := Select(c, sel, prime), c.nodes.value;
            var list, primers := SortNames(BaseTargets(c, sel, nodes).targets), NamesWhere(nodes, Eligible);
            var barred := NamesWhere(nodes, PrimingOff) + NamesWhere(nodes, PreheatOff);
            && s.Selected?
            && s.primers == (if !prime then [] else if primers != [] then SortNames(primers)
                             else FirstOutside(list, barred))
            && (prime && primers == [] ==> s.targets == list)
  {
    var nodes := c.nodes.value;
    var list := SortNames(BaseTargets(c, sel, nodes).targets);
    var barred := NamesWhere(nodes, PrimingOff) + NamesWhere(nodes, PreheatOff);
    FirstOutsideAt(list, barred);
    SortOfFew(FirstOutside(list, barred));
    SortOfFew([]);
  }

  lemma FallbackAnswers(nodes: seq<Node>, base: seq<string>)
    ensures var list, barred := SortNames(base), NamesWhere(nodes, PrimingOff) + NamesWhere(nodes, PreheatOff);
            if forall x :: x in list ==> Barred(nodes, x) then FirstOutside(list, barred) == []
            else exists x :: FirstOutside(list, barred) == [x] && FirstFree(nodes, list, x)
  {
    var list, barred := SortNames(base), NamesWhere(nodes, PrimingOff) + NamesWhere(nodes, PreheatOff);
    BarredAreNamed(nodes);
    FirstOutsideAt(list, barred);
    SortIsSorted(base);
    SortedAscends(list);
    if x :| x in list && x !in barred {
      FirstIsFree(nodes, list, barred);
    }
  }

  ghost predicate Barred(nodes: seq<Node>, x: string) {
    exists n :: n in nodes && n.name == x && (Excluded(n) || BarredFromPriming(n))
  }

  ghost predicate FirstFree(nodes: seq<Node>, targets: seq<string>, x: string) {
    && x in targets && !Barred(nodes, x)
    && forall y :: y in targets && !Barred(nodes, y) ==> !Ascends(y, x)
  }

  lemma BarredAreNamed(nodes: seq<Node>)
    ensures forall x :: x in NamesWhere(nodes, PrimingOff) + NamesWhere(nodes, PreheatOff) <==> Barred(nodes, x)
  {
    forall n: Node ensures PreheatOff(n) <==> Excluded(n) { LabelsMean(n); }
    forall n: Node ensures PrimingOff(n) <==> BarredFromPriming(n) { LabelsMean(n); }
    NamesAreNamed(nodes, PreheatOff, Excluded);
    NamesAreNamed(nodes, PrimingOff, BarredFromPriming);
    forall x ensures Barred(nodes, x) <==> NamedIn(nodes, x, Excluded) || NamedIn(nodes, x, BarredFromPriming) {
    }
  }

  lemma FirstIsFree(nodes: seq<Node>, list: seq<string>, barred: seq<string>)
    requires Ascending(list) && (forall x :: x in barred <==> Barred(nodes, x)) && exists x :: x in list && x !in barred
    ensures exists x :: FirstOutside(list, barred) == [x] && FirstFree(nodes, list, x)
  {
    FirstOutsideAt(list, barred);
    var i :| 0 <= i < |list| && FirstOutside(list, barred) == [list[i]] && list[i] !in barred
             && forall j :: 0 <= j < i ==> list[j] in barred;
    forall y | y in list && !Barred(nodes, y) ensures !Ascends(y, list[i]) {
      var j :| 0 <= j < |list| && list[j] == y;
      if j == i { NotBeforeItself(y); }
    }
    assert FirstFree(nodes, list, list[i]);
  }

  lemma NotBeforeItself(x: string)
    ensures !Ascends(x, x)
  {
  }

  lemma SortOfFew(xs: seq<string>)
    requires |xs| <= 1
    ensures SortNames(xs) == xs
  {
    if xs != [] { assert xs == [xs[0]] && xs[..0] == []; }
  }

  // ---- An ordinary cluster ----

  lemma {:induction false} AllNames(nodes: seq<Node>, test: Node -> bool)
    requires forall n :: n in nodes ==> test(n)
    ensures NamesWhere(nodes, test) == Names(nodes)
  {
    if nodes != [] {
      var front, last := nodes[..|nodes| - 1], nodes[|nodes| - 1];
      AllNames(front, test);
      assert last in nodes && Names(nodes) == Names(front) + [last.name];
    }
  }

  lemma {:induction false} NothingAppended(list: seq<string>, names: seq<string>, barred: seq<string>)
    requires forall x :: x in names ==> x in list
    ensures AppendMissing(list, names, barred) == list
  {
    if names != [] {
      NothingAppended(list, names[..|names| - 1], barred);
      assert names[|names| - 1] in names;
    }
  }

  /** No selector, and neither label on any node: all nodes are targets, in the order of the sort, and with priming all
      of them are primers. */
  lemma PlainCluster(c: Cluster, sel: Selectors, prime: bool)
    requires Visits(c) && c.nodes.Ok? && UniqueNodes(c.nodes.value) && sel == Selectors(None, [])
    requires forall n :: n in c.nodes.value ==>
               "openshift.kemo.dev/disable-preheat" !in n.labels && "openshift.kemo.dev/primer-node" !in n.labels
    ensures var s := Select(c, sel, prime);
            && s.Selected? && Ascending(s.targets) && multiset(s.targets) == multiset(Names(c.nodes.value))
            && s.primers == if prime then s.targets else []
  {
    var nodes := c.nodes.value;
    var names := Names(nodes);
    forall n | n in nodes ensures Eligible(n) && !PreheatOff(n) { LabelsMean(n); }
    AllNames(nodes, Eligible);
    NamesWhereAt(nodes, PreheatOff);
    FirstIsMember(NamesWhere(nodes, PreheatOff));
    AllNames(nodes, NameOutside([]));
    SortIsSorted(names);
    SortedAscends(SortNames(names));
    SortIsSame(names);
    NothingAppended(SortNames(names), names, NamesWhere(nodes, PrimingOff) + NamesWhere(nodes, PreheatOff));
    SortOfFew([]);
  }

  // ---- What the pass makes of it ----

  /** A pass whose selection failed ends without a job and leaves the saved lists as they were. */
  lemma FailedSelectionKeeps(p: Pass, cfg: Config, o: Observation, c: Cluster, sel: Selectors, prime: bool)
    requires Visits(c) && (c.nodes.Ok? ==> UniqueNodes(c.nodes.value)) && (c.pools.Ok? ==> UniquePools(c.pools.value))
    requires CallFails(c, sel) && o.selection == Select(c, sel, prime) && !o.disabled
    ensures var f := Reconcile(p, cfg, o);
            && f == Stop(f.p, Failed) && ListsOf(f.p.saved) == ListsOf(p.saved)
            && f.p.jobs == p.jobs && f.p.saved.versions.lastCompleted == p.saved.versions.lastCompleted
  {
    FailsExactly(c, sel, prime);
    FrontKeepsLists(p, o);
  }
}
