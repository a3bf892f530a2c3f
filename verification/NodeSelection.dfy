/** Which nodes an accelerator targets, and which of them are primers. */
module NodeSelection {
  import opened NodeLists
  import opened NameOrder
  import opened Passes

  type Labels = map<string, string>

  datatype Node = Node(name: string, labels: Labels)

  /** A MachineConfigPool with the labels of its node selector, if it has one. */
  datatype Pool = Pool(name: string, selector: Option<Labels>)

  datatype Selectors = Selectors(nodeSelector: Option<Labels>, pools: seq<string>)

  /** What the API server answers to each call, how the library merges labels, and the order in which the k-th
      `range` over a map visits its keys. */
  datatype Cluster = Cluster(nodes: Reply<seq<Node>>, pools: Reply<seq<Pool>>, matching: Labels -> Reply<seq<Node>>,
                             merge: (Labels, Labels) -> Reply<Labels>, order: (nat, set<string>) -> seq<string>)

  const DISABLE_LABEL := "openshift.kemo.dev/disable-preheat"
  const PRIMER_LABEL := "openshift.kemo.dev/primer-node"

  predicate LabelSays(n: Node, key: string, text: string) {
    key in n.labels && ToLower(n.labels[key]) == text
  }

  predicate PreheatOff(n: Node) {
    LabelSays(n, DISABLE_LABEL, "true")
  }

  predicate Enabled(n: Node) {
    !PreheatOff(n)
  }

  predicate PrimingOff(n: Node) {
    LabelSays(n, PRIMER_LABEL, "false")
  }

  /** Every node is a primer that is not switched off in one of the two ways. */
  predicate Eligible(n: Node) {
    !PreheatOff(n) && !PrimingOff(n)
  }

  // ---- The labels by their texts ----

  /** "true" in whatever case. */
  predicate SpellsTrue(value: string) {
    && |value| == 4 && (value[0] == 't' || value[0] == 'T') && (value[1] == 'r' || value[1] == 'R')
    && (value[2] == 'u' || value[2] == 'U') && (value[3] == 'e' || value[3] == 'E')
  }

  /** "false" in whatever case. */
  predicate SpellsFalse(value: string) {
    && |value| == 5 && (value[0] == 'f' || value[0] == 'F') && (value[1] == 'a' || value[1] == 'A')
    && (value[2] == 'l' || value[2] == 'L') && (value[3] == 's' || value[3] == 'S')
    && (value[4] == 'e' || value[4] == 'E')
  }

  predicate Excluded(n: Node) {
    "openshift.kemo.dev/disable-preheat" in n.labels && SpellsTrue(n.labels["openshift.kemo.dev/disable-preheat"])
  }

  predicate BarredFromPriming(n: Node) {
    "openshift.kemo.dev/primer-node" in n.labels && SpellsFalse(n.labels["openshift.kemo.dev/primer-node"])
  }

  lemma TrueIsSpelled(value: string)
    ensures ToLower(value) == "true" <==> SpellsTrue(value)
  {
    var small := ToLower(value);
    if SpellsTrue(value) {
      assert small[0] == 't' && small[1] == 'r' && small[2] == 'u' && small[3] == 'e';
      assert small == "true";
    }
    if small == "true" {
      assert LowerChar(value[0]) == small[0] && LowerChar(value[1]) == small[1];
      assert LowerChar(value[2]) == small[2] && LowerChar(value[3]) == small[3];
    }
  }

  lemma FalseIsSpelled(value: string)
    ensures ToLower(value) == "false" <==> SpellsFalse(value)
  {
    var small := ToLower(value);
    if SpellsFalse(value) {
      assert small[0] == 'f' && small[1] == 'a' && small[2] == 'l' && small[3] == 's' && small[4] == 'e';
      assert small == "false";
    }
    if small == "false" {
      assert LowerChar(value[0]) == small[0] && LowerChar(value[1]) == small[1] && LowerChar(value[2]) == small[2];
      assert LowerChar(value[3]) == small[3] && LowerChar(value[4]) == small[4];
    }
  }

  /** What the two labels mean: a node without the key says nothing, and every value but the one word says nothing. */
  lemma LabelsMean(n: Node)
    ensures PreheatOff(n) <==> Excluded(n)
    ensures PrimingOff(n) <==> BarredFromPriming(n)
  {
    if DISABLE_LABEL in n.labels { TrueIsSpelled(n.labels[DISABLE_LABEL]); }
    if PRIMER_LABEL in n.labels { FalseIsSpelled(n.labels[PRIMER_LABEL]); }
  }

  lemma {:induction false} NamesWhereHas(nodes: seq<Node>, test: Node -> bool)
    ensures forall x :: x in NamesWhere(nodes, test) <==>
              exists i :: 0 <= i < |nodes| && nodes[i].name == x && test(nodes[i])
  {
    if nodes != [] {
      var front, last := nodes[..|nodes| - 1], nodes[|nodes| - 1];
      NamesWhereHas(front, test);
      forall x | exists i :: 0 <= i < |nodes| && nodes[i].name == x && test(nodes[i])
        ensures x in NamesWhere(nodes, test)
      {
        var i :| 0 <= i < |nodes| && nodes[i].name == x && test(nodes[i]);
        if i < |front| { assert front[i] == nodes[i]; }
      }
      forall x | x in NamesWhere(nodes, test)
        ensures exists i :: 0 <= i < |nodes| && nodes[i].name == x && test(nodes[i])
      {
        if x in NamesWhere(front, test) {
          var i :| 0 <= i < |front| && front[i].name == x && test(front[i]);
          assert nodes[i] == front[i];
        } else {
          assert last.name == x && test(last);
        }
      }
    }
  }

  /** The three lists by the texts of the labels. */
  lemma LabelListsAre(nodes: seq<Node>)
    ensures forall x :: x in NamesWhere(nodes, PreheatOff) <==>
              exists i :: 0 <= i < |nodes| && nodes[i].name == x && Excluded(nodes[i])
    ensures forall x :: x in NamesWhere(nodes, PrimingOff) <==>
              exists i :: 0 <= i < |nodes| && nodes[i].name == x && BarredFromPriming(nodes[i])
    ensures forall x :: x in NamesWhere(nodes, Eligible) <==>
              exists i :: 0 <= i < |nodes| && nodes[i].name == x && !Excluded(nodes[i]) && !BarredFromPriming(nodes[i])
  {
    NamesWhereHas(nodes, PreheatOff);
    NamesWhereHas(nodes, PrimingOff);
    NamesWhereHas(nodes, Eligible);
    forall i | 0 <= i < |nodes|
      ensures PreheatOff(nodes[i]) <==> Excluded(nodes[i])
      ensures PrimingOff(nodes[i]) <==> BarredFromPriming(nodes[i])
    {
      LabelsMean(nodes[i]);
    }
  }

  function NameOutside(names: seq<string>): Node -> bool {
    (n: Node) => n.name !in names
  }

  ghost predicate Visits(c: Cluster) {
    forall k, keys :: NoDuplicates(c.order(k, keys)) && Elements(c.order(k, keys)) == keys
  }

  // ---- Lists of names ----

  function NamesWhere(nodes: seq<Node>, test: Node -> bool): seq<string> {
    if nodes == [] then []
    else
      var last := nodes[|nodes| - 1];
      NamesWhere(nodes[..|nodes| - 1], test) + if test(last) then [last.name] else []
  }

  function Names(nodes: seq<Node>): seq<string> {
    seq(|nodes|, i requires 0 <= i < |nodes| => nodes[i].name)
  }

  /** `list` with each of `names` behind it that it lacks and that is not barred. */
  function AppendMissing(list: seq<string>, names: seq<string>, barred: seq<string>): seq<string> {
    if names == [] then list
    else
      var before, last := AppendMissing(list, names[..|names| - 1], barred), names[|names| - 1];
      if last in before || last in barred then before else before + [last]
  }

  // ---- Labels ----

  method DetermineLabeledNodes(nodes: seq<Node>)
    returns (prohibited: seq<string>, primers: seq<string>, primingProhibited: seq<string>)
    ensures prohibited == NamesWhere(nodes, PreheatOff)
    ensures primers == NamesWhere(nodes, Eligible)
    ensures primingProhibited == NamesWhere(nodes, PrimingOff)
    ensures forall x :: x in prohibited <==>
              exists i :: 0 <= i < |nodes| && nodes[i].name == x && Excluded(nodes[i])
    ensures forall x :: x in primingProhibited <==>
              exists i :: 0 <= i < |nodes| && nodes[i].name == x && BarredFromPriming(nodes[i])
    ensures forall x :: x in primers <==>
              exists i :: 0 <= i < |nodes| && nodes[i].name == x && !Excluded(nodes[i]) && !BarredFromPriming(nodes[i])
  {
    LabelListsAre(nodes);
    prohibited, primers, primingProhibited := [], [], [];
    for i := 0 to |nodes|
      invariant prohibited == NamesWhere(nodes[..i], PreheatOff)
      invariant primers == NamesWhere(nodes[..i], Eligible)
      invariant primingProhibited == NamesWhere(nodes[..i], PrimingOff)
    {
      var node := nodes[i];
      assert nodes[..i + 1][..i] == nodes[..i];
      var preheatingProhibited := false;
      if LabelSays(node, DISABLE_LABEL, "true") {
        prohibited := prohibited + [node.name];
        preheatingProhibited := true;
      }
      if LabelSays(node, PRIMER_LABEL, "false") {
        primingProhibited := primingProhibited + [node.name];
      } else if !preheatingProhibited {
        primers := primers + [node.name];
      }
    }
    assert nodes[..|nodes|] == nodes;
  }

  // ---- Machine config pools ----

  /** The defined pools that exist and have a selector; a later pool of the same name wins. */
  function ValidPools(defined: seq<string>, pools: seq<Pool>): map<string, Labels> {
    if pools == [] then map[]
    else
      var before, last := ValidPools(defined, pools[..|pools| - 1]), pools[|pools| - 1];
      if last.name in defined && last.selector.Some? then before[last.name := last.selector.value] else before
  }

  method DetermineValidMachineConfigPools(defined: seq<string>, pools: seq<Pool>) returns (valid: map<string, Labels>)
    ensures valid == ValidPools(defined, pools)
  {
    valid := map[];
    for i := 0 to |pools|
      invariant valid == ValidPools(defined, pools[..i])
    {
      assert pools[..i + 1][..i] == pools[..i];
      if pools[i].name in defined && pools[i].selector.Some? {
        valid := valid[pools[i].name := pools[i].selector.value];
      }
    }
    assert pools[..|pools|] == pools;
  }

  // ---- Targets ----

  /** Merging the selector into one pool after the other; the first error ends it. */
  function MergePools(c: Cluster, keys: seq<string>, valid: map<string, Labels>, extra: Labels)
    : (r: Reply<map<string, Labels>>)
    requires forall k :: k in keys ==> k in valid
    ensures r.Ok? ==> r.value.Keys == valid.Keys
    decreases |keys|
  {
    if keys == [] then Ok(valid)
    else
      match c.merge(valid[keys[0]], extra)
      case Err(m) => Err(m)
      case Ok(merged) => MergePools(c, keys[1..], valid[keys[0] := merged], extra)
  }

  /** Listing the nodes of one pool after the other. */
  function ListPools(c: Cluster, keys: seq<string>, merged: map<string, Labels>,
                     targets: seq<string>): Reply<seq<string>>
    requires forall k :: k in keys ==> k in merged
    decreases |keys|
  {
    if keys == [] then Ok(targets)
    else
      match c.matching(merged[keys[0]])
      case Err(m) => Err(m)
      case Ok(nodes) => ListPools(c, keys[1..], merged, AppendMissing(targets, Names(nodes), []))
  }

  const GET_NODES_FAILED := "GetNodesFailed"
  const GET_POOLS_FAILED := "GetMachineConfigPoolsFailed"
  const SETUP_FAILED := "SetupFailed"

  /** Both kinds of selector. */
  function ByPools(c: Cluster, valid: map<string, Labels>, extra: Labels): Selection
    requires Visits(c)
  {
    VisitsKeys(c, 0, valid.Keys);
    match MergePools(c, c.order(0, valid.Keys), valid, extra)
    case Err(m) => Unselected(SETUP_FAILED, false, m)
    case Ok(merged) =>
      VisitsKeys(c, 1, merged.Keys);
      match ListPools(c, c.order(1, merged.Keys), merged, [])
      case Err(m) => Unselected(GET_NODES_FAILED, false, m)
      case Ok(targets) => Selected(targets, [])
  }

  lemma VisitsKeys(c: Cluster, k: nat, keys: set<string>)
    requires Visits(c)
    ensures forall x :: x in c.order(k, keys) <==> x in keys
  {
    assert Elements(c.order(k, keys)) == keys;
  }

  /** A node selector alone: the label is looked at in the listing itself. */
  function ByNodeSelector(c: Cluster, extra: Labels): Selection {
    match c.matching(extra)
    case Err(m) => Unselected(GET_NODES_FAILED, false, m)
    case Ok(nodes) => Selected(AppendMissing([], NamesWhere(nodes, Enabled), []), [])
  }

  /** The targets before primers are added and before they are sorted. */
  function BaseTargets(c: Cluster, sel: Selectors, nodes: seq<Node>): Selection
    requires Visits(c)
  {
    if sel.pools != [] && c.pools.Err? then Unselected(GET_POOLS_FAILED, false, c.pools.message)
    else
      var valid := if sel.pools == [] then map[] else ValidPools(sel.pools, c.pools.value);
      match sel.nodeSelector
      case None =>
        Selected(if sel.pools == [] then NamesWhere(nodes, NameOutside(NamesWhere(nodes, PreheatOff))) else [], [])
      case Some(extra) => if |valid| > 0 then ByPools(c, valid, extra) else ByNodeSelector(c, extra)
  }

  // ---- Primers ----

  function FirstOutside(names: seq<string>, barred: seq<string>): seq<string> {
    if names == [] then [] else if names[0] !in barred then [names[0]] else FirstOutside(names[1..], barred)
  }

  /** The final targets and primers. */
  function WithPrimers(prime: bool, targets: seq<string>, primers: seq<string>, barred: seq<string>): Selection {
    if !prime then Selected(targets, [])
    else if targets != [] then
      if primers == [] then Selected(targets, FirstOutside(targets, barred))
      else Selected(AppendMissing(targets, primers, barred), primers)
    else Selected(SortNames(primers), primers)
  }

  /** The whole selection. */
  function Select(c: Cluster, sel: Selectors, prime: bool): Selection
    requires Visits(c)
  {
    match c.nodes
    case Err(m) => Unselected(GET_NODES_FAILED, true, m)
    case Ok(nodes) =>
      match BaseTargets(c, sel, nodes)
      case Unselected(r, d, m) => Unselected(r, d, m)
      case Selected(base, _) =>
        var barred := NamesWhere(nodes, PrimingOff) + NamesWhere(nodes, PreheatOff);
        var s := WithPrimers(prime, SortNames(base), NamesWhere(nodes, Eligible), barred);
        Selected(s.targets, SortNames(s.primers))
  }

  // ---- The loops ----

  method AppendNames(list: seq<string>, names: seq<string>) returns (longer: seq<string>)
    ensures longer == AppendMissing(list, names, [])
  {
    longer := list;
    for i := 0 to |names|
      invariant longer == AppendMissing(list, names[..i], [])
    {
      assert names[..i + 1][..i] == names[..i];
      if names[i] !in longer {
        longer := longer + [names[i]];
      }
    }
    assert names[..|names|] == names;
  }

  method TargetAllNodes(nodes: seq<Node>, prohibited: seq<string>) returns (targets: seq<string>)
    ensures targets == NamesWhere(nodes, NameOutside(prohibited))
  {
    targets := [];
    for i := 0 to |nodes|
      invariant targets == NamesWhere(nodes[..i], NameOutside(prohibited))
    {
      assert nodes[..i + 1][..i] == nodes[..i];
      if nodes[i].name !in prohibited {
        targets := targets + [nodes[i].name];
      }
    }
    assert nodes[..|nodes|] == nodes;
  }

  method TargetPools(c: Cluster, valid: map<string, Labels>, extra: Labels) returns (s: Selection)
    requires Visits(c)
    ensures s == ByPools(c, valid, extra)
  {
    var selectors := valid;
    VisitsKeys(c, 0, valid.Keys);
    var keys := c.order(0, valid.Keys);
    ghost var merged := MergePools(c, keys, valid, extra);
    for i := 0 to |keys|
      invariant selectors.Keys == valid.Keys
      invariant merged == MergePools(c, keys[i..], selectors, extra)
    {
      assert keys[i..][1..] == keys[i + 1..];
      var reply := c.merge(selectors[keys[i]], extra);
      if reply.Err? {
        return Unselected(SETUP_FAILED, false, reply.message);
      }
      selectors := selectors[keys[i] := reply.value];
    }
    s := TargetListings(c, selectors);
  }

  method TargetListings(c: Cluster, selectors: map<string, Labels>) returns (s: Selection)
    requires Visits(c)
    ensures (VisitsKeys(c, 1, selectors.Keys);
             s == match ListPools(c, c.order(1, selectors.Keys), selectors, [])
                  case Err(m) => Unselected(GET_NODES_FAILED, false, m)
                  case Ok(targets) => Selected(targets, []))
  {
    VisitsKeys(c, 1, selectors.Keys);
    var keys, targets := c.order(1, selectors.Keys), [];
    ghost var listed := ListPools(c, keys, selectors, []);
    for i := 0 to |keys|
      invariant listed == ListPools(c, keys[i..], selectors, targets)
    {
      assert keys[i..][1..] == keys[i + 1..];
      var reply := c.matching(selectors[keys[i]]);
      if reply.Err? {
        return Unselected(GET_NODES_FAILED, false, reply.message);
      }
      targets := AppendNames(targets, Names(reply.value));
    }
    s := Selected(targets, []);
  }

  method TargetByNodeSelector(c: Cluster, extra: Labels) returns (s: Selection)
    ensures s == ByNodeSelector(c, extra)
  {
    var reply := c.matching(extra);
    if reply.Err? {
      return Unselected(GET_NODES_FAILED, false, reply.message);
    }
    var nodes, targets := reply.value, [];
    for i := 0 to |nodes|
      invariant targets == AppendMissing([], NamesWhere(nodes[..i], Enabled), [])
    {
      assert nodes[..i + 1][..i] == nodes[..i];
      ghost var before := NamesWhere(nodes[..i], Enabled);
      if !LabelSays(nodes[i], DISABLE_LABEL, "true") {
        assert (before + [nodes[i].name])[..|before|] == before;
        if nodes[i].name !in targets {
          targets := targets + [nodes[i].name];
        }
      } else {
        assert before + [] == before;
      }
    }
    assert nodes[..|nodes|] == nodes;
    s := Selected(targets, []);
  }

  method DetermineBaseTargets(c: Cluster, sel: Selectors, nodes: seq<Node>,
                              prohibited: seq<string>) returns (s: Selection)
    requires Visits(c) && prohibited == NamesWhere(nodes, PreheatOff)
    ensures s == BaseTargets(c, sel, nodes)
  {
    var targets, valid := [], map[];
    if sel.nodeSelector.None? && |sel.pools| == 0 {
      targets := TargetAllNodes(nodes, prohibited);
    }
    if |sel.pools| > 0 {
      if c.pools.Err? {
        return Unselected(GET_POOLS_FAILED, false, c.pools.message);
      }
      valid := DetermineValidMachineConfigPools(sel.pools, c.pools.value);
    }
    s := Selected(targets, []);
    if sel.nodeSelector.Some? {
      if |valid| > 0 {
        s := TargetPools(c, valid, sel.nodeSelector.value);
      } else {
        s := TargetByNodeSelector(c, sel.nodeSelector.value);
      }
    }
  }

  method DeterminePrimerNodes(prime: bool, targets: seq<string>, prohibited: seq<string>, primers: seq<string>,
                              primingProhibited: seq<string>) returns (s: Selection)
    ensures s == WithPrimers(prime, targets, primers, primingProhibited + prohibited)
  {
    var barred := primingProhibited + prohibited;
    if !prime {
      return Selected(targets, []);
    }
    if |targets| == 0 {
      var sorted := SortSliceOfStrings(primers);
      return Selected(sorted, primers);
    }
    if |primers| == 0 {
      for i := 0 to |targets|
        invariant FirstOutside(targets, barred) == FirstOutside(targets[i..], barred)
      {
        assert targets[i..][1..] == targets[i + 1..];
        if targets[i] !in primingProhibited && targets[i] !in prohibited {
          return Selected(targets, [targets[i]]);
        }
      }
      return Selected(targets, []);
    }
    var longer := targets;
    for i := 0 to |primers|
      invariant longer == AppendMissing(targets, primers[..i], barred)
    {
      assert primers[..i + 1][..i] == primers[..i];
      if primers[i] !in longer && primers[i] !in primingProhibited && primers[i] !in prohibited {
        longer := longer + [primers[i]];
      }
    }
    assert primers[..|primers|] == primers;
    s := Selected(longer, primers);
  }

  method DetermineTargetedNodes(c: Cluster, sel: Selectors, prime: bool) returns (s: Selection)
    requires Visits(c)
    ensures s == Select(c, sel, prime)
  {
    if c.nodes.Err? {
      return Unselected(GET_NODES_FAILED, true, c.nodes.message);
    }
    var nodes := c.nodes.value;
    var prohibited, primers, primingProhibited := DetermineLabeledNodes(nodes);
    s := DetermineBaseTargets(c, sel, nodes, prohibited);
    if s.Unselected? {
      return;
    }
    var targets := SortSliceOfStrings(s.targets);
    s := DeterminePrimerNodes(prime, targets, prohibited, primers, primingProhibited);
    primers := SortSliceOfStrings(s.primers);
    s := Selected(s.targets, primers);
  }
}
