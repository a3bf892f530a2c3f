/** Selections of different listings: growing clusters, and the same cluster listed in another order. */
module ListingOrder {
  import opened NodeLists
  import opened NameOrder
  import opened Passes
  import opened Partition
  import opened NodeSelection
  import opened SelectionFacts
  import opened TargetSets

  function TargetsIn(s: Selection): seq<string> {
    if s.Selected? then s.targets else []
  }

  /** The targets before they are sorted and primers are added. */
  function Base(c: Cluster, sel: Selectors): seq<string>
    requires Visits(c) && c.nodes.Ok?
  {
    TargetsIn(BaseTargets(c, sel, c.nodes.value))
  }

  // ---- Growth ----

  ghost predicate SamePools(c: Cluster, d: Cluster)
    requires c.pools.Ok? && d.pools.Ok?
  {
    forall p :: p in c.pools.value <==> p in d.pools.value
  }

  /** When nodes only join, targets only grow: what the theorems on whole runs ask for. */
  lemma TargetsGrow(c: Cluster, d: Cluster, sel: Selectors, prime: bool, o: Observation)
    requires Snapshot(c) && DisjointKeys(c, sel) && Snapshot(d) && DisjointKeys(d, sel) && SamePools(c, d)
    requires forall n :: n in c.nodes.value ==> n in d.nodes.value
    requires o.selection == Select(d, sel, prime) && !o.disabled
    ensures Grows(Elements(TargetsIn(Select(c, sel, prime))), o)
  {
    SelectsExactly(c, sel, prime);
    SelectsExactly(d, sel, prime);
    forall p ensures Usable(c, sel, p) <==> Usable(d, sel, p) {
    }
    forall x | x in TargetsIn(Select(c, sel, prime)) ensures x in o.selection.targets {
      var n :| n in c.nodes.value && Target(c, sel, prime, n) && n.name == x;
      assert Wanted(c, sel, n) ==> Wanted(d, sel, n);
      assert n in d.nodes.value && Target(d, sel, prime, n);
    }
  }

  // ---- Order ----

  /** The late primers: eligible, but not on the list that was sorted. */
  function LateFor(list: seq<string>): Node -> bool {
    (n: Node) => Eligible(n) && n.name !in list
  }

  lemma {:induction false} AppendedPrimers(list: seq<string>, nodes: seq<Node>, barred: seq<string>)
    requires UniqueNodes(nodes) && forall n :: n in nodes && Eligible(n) ==> n.name !in barred
    ensures AppendMissing(list, NamesWhere(nodes, Eligible), barred) == list + NamesWhere(nodes, LateFor(list))
  {
    if nodes != [] {
      var front, last := nodes[..|nodes| - 1], nodes[|nodes| - 1];
      AppendedPrimers(list, front, barred);
      AppendedLast(list, NamesWhere(front, Eligible), last.name, barred);
      LateIsNew(list, nodes);
      assert last in nodes;
    }
  }

  lemma AppendedLast(list: seq<string>, names: seq<string>, x: string, barred: seq<string>)
    ensures var before := AppendMissing(list, names, barred);
            && AppendMissing(list, names + [x], barred) == (if x in before || x in barred then before else before + [x])
            && AppendMissing(list, names + [], barred) == before
  {
    assert (names + [x])[..|names|] == names && names + [] == names;
  }

  lemma LateIsNew(list: seq<string>, nodes: seq<Node>)
    requires UniqueNodes(nodes) && nodes != []
    ensures nodes[|nodes| - 1].name !in NamesWhere(nodes[..|nodes| - 1], LateFor(list))
  {
    NamesWhereAt(nodes[..|nodes| - 1], LateFor(list));
  }

  /** The selection of a snapshot, written out. */
  lemma SelectForm(c: Cluster, sel: Selectors, prime: bool)
    requires Snapshot(c) && DisjointKeys(c, sel)
    ensures var base, nodes := Base(c, sel), c.nodes.value;
            var primers := SortNames(NamesWhere(nodes, Eligible));
            Select(c, sel, prime) ==
              if !prime then Selected(SortNames(base), [])
              else if base == [] then Selected(primers, primers)
              else Selected(SortNames(base) + NamesWhere(nodes, LateFor(SortNames(base))), primers)
  {
    var nodes := c.nodes.value;
    BaseIs(c, sel);
    var base := Base(c, sel);
    SortIsSame(base);
    var barred := NamesWhere(nodes, PrimingOff) + NamesWhere(nodes, PreheatOff);
    EligibleIsFree(nodes);
    AppendedPrimers(SortNames(base), nodes, barred);
    if NamesWhere(nodes, Eligible) == [] {
      SelectsExactly(c, sel, prime);
      NothingEligible(c, sel, SortNames(base), barred);
    }
  }

  lemma NothingEligible(c: Cluster, sel: Selectors, list: seq<string>, barred: seq<string>)
    requires Snapshot(c) && NamesWhere(c.nodes.value, Eligible) == []
    requires barred == NamesWhere(c.nodes.value, PrimingOff) + NamesWhere(c.nodes.value, PreheatOff)
    requires forall x :: x in list ==> x in WantedNames(c, sel)
    ensures NamesWhere(c.nodes.value, LateFor(list)) == [] && FirstOutside(list, barred) == []
  {
    var nodes := c.nodes.value;
    EligibleIsFree(nodes);
    NamesWhereAt(nodes, LateFor(list));
    FirstIsMember(NamesWhere(nodes, LateFor(list)));
    FirstOutsideIs(list, barred);
    forall x | x in list ensures x in barred {
      var n :| n in nodes && Wanted(c, sel, n) && n.name == x;
      assert n.name !in NamesWhere(nodes, Eligible);
    }
  }

  ghost predicate SameContent(c: Cluster, d: Cluster)
    requires c.nodes.Ok? && d.nodes.Ok? && c.pools.Ok? && d.pools.Ok?
  {
    (forall n :: n in c.nodes.value <==> n in d.nodes.value) && SamePools(c, d)
  }

  lemma SameSets(c: Cluster, d: Cluster, sel: Selectors)
    requires Snapshot(c) && Snapshot(d) && SameContent(c, d)
    ensures WantedNames(c, sel) == WantedNames(d, sel)
    ensures DisjointKeys(c, sel) ==> DisjointKeys(d, sel)
    ensures forall test :: NamesOf(c.nodes.value, test) == NamesOf(d.nodes.value, test)
  {
    forall p ensures Usable(c, sel, p) <==> Usable(d, sel, p) {
    }
    forall n ensures Wanted(c, sel, n) <==> Wanted(d, sel, n) {
    }
  }

  ghost function AllNames(c: Cluster): set<string>
    requires c.nodes.Ok?
  {
    set n | n in c.nodes.value :: n.name
  }

  /** Lists of the same names sort alike. */
  lemma SortsAlike(c: Cluster, xs: seq<string>, ys: seq<string>, names: set<string>)
    requires c.nodes.Ok? && CaseDistinct(AllNames(c)) && names <= AllNames(c)
    requires Exactly(xs, names) && Exactly(ys, names)
    ensures SortNames(xs) == SortNames(ys)
  {
    assert Elements(xs) == names == Elements(ys);
    SortForgetsOrder(xs, ys);
  }

  lemma WhereExactly(nodes: seq<Node>, test: Node -> bool)
    requires UniqueNodes(nodes)
    ensures Exactly(NamesWhere(nodes, test), NamesOf(nodes, test))
  {
    NamesWhereIs(nodes, test);
    NamesWhereUnique(nodes, test);
    forall x ensures x in NamesWhere(nodes, test) <==> x in NamesOf(nodes, test) {
      assert x in NamesWhere(nodes, test) <==> x in Elements(NamesWhere(nodes, test));
    }
  }

  /** What does not depend on the order of the listing. */
  lemma SortedPartsAgree(c: Cluster, d: Cluster, sel: Selectors)
    requires Snapshot(c) && DisjointKeys(c, sel) && Snapshot(d) && SameContent(c, d) && CaseDistinct(AllNames(c))
    ensures DisjointKeys(d, sel)
    ensures SortNames(Base(c, sel)) == SortNames(Base(d, sel))
    ensures Base(c, sel) == [] <==> Base(d, sel) == []
    ensures SortNames(NamesWhere(c.nodes.value, Eligible)) == SortNames(NamesWhere(d.nodes.value, Eligible))
  {
    SameSets(c, d, sel);
    BaseIs(c, sel);
    BaseIs(d, sel);
    var b, e := Base(c, sel), Base(d, sel);
    SortsAlike(c, b, e, WantedNames(c, sel));
    SortIsSame(b);
    SortIsSame(e);
    WhereExactly(c.nodes.value, Eligible);
    WhereExactly(d.nodes.value, Eligible);
    SortsAlike(c, NamesWhere(c.nodes.value, Eligible), NamesWhere(d.nodes.value, Eligible),
               NamesOf(c.nodes.value, Eligible));
  }

  /** The primers that the sorted targets lack, in the order of the listing. */
  function LateNames(c: Cluster, sel: Selectors): seq<string>
    requires Visits(c) && c.nodes.Ok?
  {
    NamesWhere(c.nodes.value, LateFor(SortNames(Base(c, sel))))
  }

  ghost predicate OrderIrrelevant(c: Cluster, sel: Selectors, prime: bool)
    requires Snapshot(c)
  {
    forall d :: Snapshot(d) && SameContent(c, d) ==> Select(d, sel, prime) == Select(c, sel, prime)
  }

  ghost predicate Late(c: Cluster, sel: Selectors, n: Node)
    requires c.nodes.Ok? && c.pools.Ok?
  {
    n in c.nodes.value && Eligible(n) && !Wanted(c, sel, n)
  }

  lemma LateNamesAre(c: Cluster, sel: Selectors)
    requires Snapshot(c) && DisjointKeys(c, sel)
    ensures Exactly(LateNames(c, sel), set n | n in c.nodes.value && Late(c, sel, n) :: n.name)
  {
    BaseIs(c, sel);
    var list := SortNames(Base(c, sel));
    SortIsSame(Base(c, sel));
    WhereExactly(c.nodes.value, LateFor(list));
    forall n | n in c.nodes.value ensures LateFor(list)(n) <==> Late(c, sel, n) {
      if n.name in list {
        var m :| m in c.nodes.value && Wanted(c, sel, m) && m.name == n.name;
        assert m == n;
      }
    }
  }

  /** The main theorem on order. When names differ by more than case, every listing of the same nodes gives the same two
      lists exactly if no primers are appended behind the sorted targets, or at most one: the appended ones are not
      sorted again. */
  lemma OrderIrrelevantExactly(c: Cluster, sel: Selectors, prime: bool)
    requires Snapshot(c) && DisjointKeys(c, sel) && CaseDistinct(AllNames(c))
    ensures OrderIrrelevant(c, sel, prime) <==>
              (!prime || (forall n :: n in c.nodes.value ==> !Wanted(c, sel, n))
               || forall m, n :: Late(c, sel, m) && Late(c, sel, n) ==> m == n)
  {
    LateNamesAre(c, sel);
    BaseIs(c, sel);
    var base := Base(c, sel);
    EmptyWhenUnwanted(c, sel, base);
    if !prime || base == [] || |LateNames(c, sel)| <= 1 {
      forall d | Snapshot(d) && SameContent(c, d) ensures Select(d, sel, prime) == Select(c, sel, prime) {
        OrderForgotten(c, d, sel, prime);
      }
    } else {
      var d := c.(nodes := Ok(Reversed(c.nodes.value)));
      ReversedSnapshot(c);
      OrderRemembered(c, d, sel);
    }
    AtMostOneLate(c, sel, LateNames(c, sel));
  }

  lemma EmptyWhenUnwanted(c: Cluster, sel: Selectors, base: seq<string>)
    requires c.nodes.Ok? && c.pools.Ok? && Exactly(base, WantedNames(c, sel))
    ensures base == [] <==> forall n :: n in c.nodes.value ==> !Wanted(c, sel, n)
  {
    FirstIsMember(base);
    forall n | n in c.nodes.value && Wanted(c, sel, n) ensures n.name in base {
    }
  }

  lemma AtMostOneLate(c: Cluster, sel: Selectors, late: seq<string>)
    requires Snapshot(c) && Exactly(late, set n | n in c.nodes.value && Late(c, sel, n) :: n.name)
    ensures |late| <= 1 <==> forall m, n :: Late(c, sel, m) && Late(c, sel, n) ==> m == n
  {
    if |late| > 1 {
      assert late[0] in late && late[1] in late && late[0] != late[1];
      var m :| m in c.nodes.value && Late(c, sel, m) && m.name == late[0];
      var n :| n in c.nodes.value && Late(c, sel, n) && n.name == late[1];
    } else {
      forall m, n | Late(c, sel, m) && Late(c, sel, n) ensures m == n {
        assert m.name in late && n.name in late;
      }
    }
  }

  lemma OrderForgotten(c: Cluster, d: Cluster, sel: Selectors, prime: bool)
    requires Snapshot(c) && DisjointKeys(c, sel) && CaseDistinct(AllNames(c)) && Snapshot(d) && SameContent(c, d)
    requires !prime || Base(c, sel) == [] || |LateNames(c, sel)| <= 1
    ensures Select(d, sel, prime) == Select(c, sel, prime)
  {
    SortedPartsAgree(c, d, sel);
    SelectForm(c, sel, prime);
    SelectForm(d, sel, prime);
    LateNamesAre(c, sel);
    LateNamesAre(d, sel);
    SameSets(c, d, sel);
    WhereExactly(c.nodes.value, LateFor(SortNames(Base(c, sel))));
    WhereExactly(d.nodes.value, LateFor(SortNames(Base(d, sel))));
    if |LateNames(c, sel)| <= 1 {
      ShortListsAgree(LateNames(c, sel), LateNames(d, sel));
    }
  }

  lemma ShortListsAgree(xs: seq<string>, ys: seq<string>)
    requires |xs| <= 1 && NoDuplicates(ys) && (forall x :: x in xs <==> x in ys)
    ensures xs == ys
  {
    assert Elements(xs) == Elements(ys);
    SizeOfElements(xs);
    SizeOfElements(ys);
    FirstIsMember(xs);
    FirstIsMember(ys);
  }

  function Reversed<T>(xs: seq<T>): seq<T> {
    seq(|xs|, i requires 0 <= i < |xs| => xs[|xs| - 1 - i])
  }

  lemma {:induction false} ReversedNames(nodes: seq<Node>, test: Node -> bool)
    ensures NamesWhere(Reversed(nodes), test) == Reversed(NamesWhere(nodes, test))
  {
    if nodes != [] {
      var front, last := nodes[..|nodes| - 1], nodes[|nodes| - 1];
      ReversedNames(front, test);
      assert Reversed(nodes) == [last] + Reversed(front);
      NamesApart([last], Reversed(front), test);
      assert [last] == [] + [last] && [last][..0] == [];
      assert NamesWhere([last], test) == if test(last) then [last.name] else [];
    }
  }

  lemma {:induction false} NamesApart(a: seq<Node>, b: seq<Node>, test: Node -> bool)
    ensures NamesWhere(a + b, test) == NamesWhere(a, test) + NamesWhere(b, test)
    decreases |b|
  {
    if b == [] {
      assert a + b == a;
    } else {
      var front := b[..|b| - 1];
      NamesApart(a, front, test);
      assert (a + b)[..|a + b| - 1] == a + front;
    }
  }

  lemma ReversedSnapshot(c: Cluster)
    requires Snapshot(c)
    ensures var d := c.(nodes := Ok(Reversed(c.nodes.value))); Snapshot(d) && SameContent(c, d)
  {
    var nodes := c.nodes.value;
    var back := Reversed(nodes);
    forall n ensures n in nodes <==> n in back {
      if n in nodes {
        var i :| 0 <= i < |nodes| && nodes[i] == n;
        assert back[|nodes| - 1 - i] == n;
      }
    }
  }

  lemma OrderRemembered(c: Cluster, d: Cluster, sel: Selectors)
    requires Snapshot(c) && DisjointKeys(c, sel) && CaseDistinct(AllNames(c)) && Snapshot(d) && SameContent(c, d)
    requires d == c.(nodes := Ok(Reversed(c.nodes.value)))
    requires Base(c, sel) != []
    requires |LateNames(c, sel)| > 1
    ensures Select(d, sel, true) != Select(c, sel, true)
  {
    SortedPartsAgree(c, d, sel);
    SelectForm(c, sel, true);
    SelectForm(d, sel, true);
    LateNamesAre(c, sel);
    var list, late := SortNames(Base(c, sel)), LateNames(c, sel);
    ReversedNames(c.nodes.value, LateFor(list));
    TailsDiffer(list, late);
  }

  lemma TailsDiffer(list: seq<string>, late: seq<string>)
    requires |late| > 1 && NoDuplicates(late)
    ensures list + late != list + Reversed(late)
  {
    assert (list + late)[|list|] == late[0] && (list + Reversed(late))[|list|] == late[|late| - 1];
  }

  /** With no selector every listing of the same nodes gives the same targets and primers, sorted. */
  lemma NoSelectorForgetsOrder(c: Cluster, d: Cluster, prime: bool)
    requires Snapshot(c) && Snapshot(d) && SameContent(c, d) && CaseDistinct(AllNames(c))
    ensures var sel := Selectors(None, []);
            Select(c, sel, prime) == Select(d, sel, prime) && Sorted(TargetsIn(Select(c, sel, prime)))
  {
    var sel := Selectors(None, []);
    OrderIrrelevantExactly(c, sel, prime);
    SelectForm(c, sel, prime);
    LateNamesAre(c, sel);
    FirstIsMember(LateNames(c, sel));
    SortIsSorted(Base(c, sel));
    SortIsSorted(NamesWhere(c.nodes.value, Eligible));
  }
}
