/** What one dispatch takes off the waiting list. With parallelism 0 the loop ranges over the array that it cuts,
    so it serves every second node; the number of passes that empty the list is exact. */
module Drain {
  import opened NodeLists
  import opened PullJobs
  import opened Passes

  ghost predicate FaultFree(fails: Faults) {
    forall k: nat :: !fails(k)
  }

  function IssuesOf(nodes: seq<string>, release: string): seq<Issue> {
    seq(|nodes|, i requires 0 <= i < |nodes| => Issue(nodes[i], release))
  }

  /** From `p` to `q` jobs were created for exactly `nodes`, in this order, and `waiting` is left. */
  ghost predicate Served(p: Pass, q: Pass, hash: Hash, nodes: seq<string>, waiting: seq<string>) {
    var v := p.mem.versions.desired;
    && q.mem == p.mem.(waiting := waiting, warming := p.mem.warming + nodes)
    && q.issued == p.issued + IssuesOf(nodes, v)
    && q.saved == (if nodes == [] then p.saved else q.mem)
    && (forall n :: HasJob(q.jobs, hash, n, v) <==> HasJob(p.jobs, hash, n, v) || n in nodes)
    && (forall k :: k in p.jobs ==> k in q.jobs && q.jobs[k] == p.jobs[k])
  }

  lemma ServedInTurn(p: Pass, q: Pass, r: Pass, hash: Hash, a: seq<string>, b: seq<string>, w1: seq<string>,
                     w2: seq<string>)
    requires Served(p, q, hash, a, w1) && Served(q, r, hash, b, w2) && b != []
    ensures Served(p, r, hash, a + b, w2)
  {
    var v := p.mem.versions.desired;
    assert IssuesOf(a + b, v) == IssuesOf(a, v) + IssuesOf(b, v);
  }

  /** A node that has a job already is passed over. */
  lemma PassedOver(p: Pass, cfg: Config, fails: Faults, node: string, removal: Removal)
    requires FaultFree(fails) && HasJob(p.jobs, cfg.hash, node, p.mem.versions.desired)
    ensures var a := TryNode(p, cfg, fails, node, removal);
            && !a.created && a.flow == Next(a.flow.p) && a.flow.p == p.(clock := a.flow.p.clock)
  {
  }

  /** A waiting node without a job is served. */
  lemma NodeServed(p: Pass, cfg: Config, fails: Faults, node: string, removal: Removal)
    requires FaultFree(fails) && !HasJob(p.jobs, cfg.hash, node, p.mem.versions.desired)
    requires !(node in p.mem.warming && node in p.mem.preheated)
    requires node in p.mem.waiting || removal.IfPresent?
    ensures var a := TryNode(p, cfg, fails, node, removal);
            a.created && a.flow.Next? && Served(p, a.flow.p, cfg.hash, [node], Remaining(p.mem.waiting, node))
  {
    var v := p.mem.versions.desired;
    var q := TryNode(p, cfg, fails, node, removal).flow.p;
    forall n ensures HasJob(q.jobs, cfg.hash, n, v) ==> HasJob(p.jobs, cfg.hash, n, v) || n == node {
      if HasJob(q.jobs, cfg.hash, n, v) && !HasJob(p.jobs, cfg.hash, n, v) {
        NameDeterminesNode(cfg.hash, v, n, node);
      }
    }
  }

  /** A primer without a job, in whatever lists. It gets its job, and the pass dies right after that exactly if several
      nodes wait and it is none of them; one other waiting node is left alone. */
  lemma PrimerServed(p: Pass, cfg: Config, fails: Faults, node: string)
    requires FaultFree(fails) && !HasJob(p.jobs, cfg.hash, node, p.mem.versions.desired)
    requires !(node in p.mem.warming && node in p.mem.preheated)
    ensures var a, w := TryNode(p, cfg, fails, node, ByPrimer), p.mem.waiting;
            && a.created && HasJob(a.flow.p.jobs, cfg.hash, node, p.mem.versions.desired)
            && if node !in w && |w| >= 2 then a.flow == Stop(a.flow.p, LostMove) && a.flow.p.saved == p.saved
               else
                 && a.flow.Next? && a.flow.p.saved == a.flow.p.mem
                 && a.flow.p.mem == p.mem.(waiting := if node in w then CutFirst(w, node) else w,
                                           warming := p.mem.warming + [node])
  {
  }

  // ---- Parallelism 0 ----

  /** The nodes that one pass serves: those at even positions, and the last one. */
  function Taken(w: seq<string>): seq<string> {
    if w == [] then [] else seq(|w| / 2 + 1, k requires 0 <= k < |w| / 2 + 1 => w[Min(2 * k, |w| - 1)])
  }

  /** The nodes that one pass leaves waiting: those at odd positions before the last. */
  function Left(w: seq<string>): seq<string> {
    if w == [] then [] else seq((|w| - 1) / 2, k requires 0 <= k < (|w| - 1) / 2 => w[2 * k + 1])
  }

  /** Which of `n` nodes cell `j` holds after `i` turns: the odd ones come first, then the rest from 2i on, then
      copies of the last. */
  function Origin(i: nat, n: nat, j: nat): (k: nat)
    requires 2 * i <= n && j < n
    ensures k < n
  {
    if j < i then 2 * j + 1 else Min(j + i, n - 1)
  }

  /** The cells after `i` turns of the loop. */
  function CellsAfter(w: seq<string>, i: nat): seq<string>
    requires 2 * i <= |w|
  {
    seq(|w|, j requires 0 <= j < |w| => w[Origin(i, |w|, j)])
  }

  /** The waiting list after `i` turns. */
  function Midway(w: seq<string>, i: nat): seq<string>
    requires 2 * i <= |w|
  {
    CellsAfter(w, i)[..|w| - i]
  }

  lemma IndexInUnique(xs: seq<string>, k: nat)
    requires NoDuplicates(xs) && k < |xs|
    ensures IndexOf(xs, xs[k]) == k
  {
  }

  lemma MidwayUnique(w: seq<string>, i: nat)
    requires NoDuplicates(w) && 2 * i <= |w|
    ensures NoDuplicates(Midway(w, i))
  {
    var m := Midway(w, i);
    forall j, k | 0 <= j < k < |m| ensures m[j] != m[k] {
      assert m[j] == w[Origin(i, |w|, j)] && m[k] == w[Origin(i, |w|, k)];
    }
  }

  /** Taking entry `k` off a list without duplicates shifts its cells. */
  lemma CutAt(cells: seq<string>, live: nat, k: nat)
    requires k < live <= |cells| && NoDuplicates(cells[..live])
    ensures cells[k] in cells[..live]
    ensures AfterRemoval(cells, live, cells[k]) == Shifted(cells, k, live)
    ensures Remaining(cells[..live], cells[k]) == Shifted(cells, k, live)[..live - 1]
  {
    var m := cells[..live];
    assert m[k] == cells[k];
    IndexInUnique(m, k);
    ShiftedIsCut(cells, k, live);
  }

  lemma ShiftMidway(w: seq<string>, i: nat)
    requires 2 * i + 1 < |w|
    ensures Shifted(CellsAfter(w, i), i, |w| - i) == CellsAfter(w, i + 1)
  {
    var a, b := Shifted(CellsAfter(w, i), i, |w| - i), CellsAfter(w, i + 1);
    forall x | 0 <= x < |w| ensures a[x] == b[x] {
      assert Origin(i, |w|, if i <= x < |w| - i - 1 then x + 1 else x) == Origin(i + 1, |w|, x);
    }
  }

  lemma ShiftEnd(w: seq<string>, i: nat)
    requires w != [] && 2 * i <= |w| <= 2 * i + 1
    ensures var cells, last := CellsAfter(w, i), w[|w| - 1];
            && Shifted(cells, |w| - i - 1, |w| - i) == cells
            && cells[|w| - i - 1] == last
            && (forall j :: i <= j < |w| ==> cells[j] == last)
  {
  }

  lemma OddsAreLeft(w: seq<string>, i: nat)
    requires w != [] && 2 * i <= |w| <= 2 * i + 1
    ensures CellsAfter(w, i)[..|w| - i - 1] == Left(w)
  {
    var a, b := CellsAfter(w, i)[..|w| - i - 1], Left(w);
    assert |a| == |b|;
    forall j | 0 <= j < |a| ensures a[j] == b[j] {
      assert Origin(i, |w|, j) == 2 * j + 1;
    }
  }

  /** A turn at an even position that is not the last. */
  lemma MidwayTurn(w: seq<string>, i: nat)
    requires NoDuplicates(w) && 2 * i + 1 < |w|
    ensures var cells := CellsAfter(w, i);
            && cells[i] == w[2 * i] && w[2 * i] in Midway(w, i)
            && Remaining(Midway(w, i), w[2 * i]) == Midway(w, i + 1)
            && AfterRemoval(cells, |w| - i, w[2 * i]) == CellsAfter(w, i + 1)
  {
    ShiftMidway(w, i);
    MidwayUnique(w, i);
    assert CellsAfter(w, i)[i] == w[2 * i];
    CutAt(CellsAfter(w, i), |w| - i, i);
  }

  /** The turn that serves the last node: the one at an even position, or the first stale cell. */
  lemma LastTurn(w: seq<string>, i: nat)
    requires NoDuplicates(w) && w != [] && 2 * i <= |w| <= 2 * i + 1
    ensures var cells, last := CellsAfter(w, i), w[|w| - 1];
            && last in Midway(w, i)
            && Remaining(Midway(w, i), last) == Left(w)
            && AfterRemoval(cells, |w| - i, last) == cells
            && (forall j :: i <= j < |w| ==> cells[j] == last)
  {
    ShiftEnd(w, i);
    OddsAreLeft(w, i);
    MidwayUnique(w, i);
    CutAt(CellsAfter(w, i), |w| - i, |w| - i - 1);
  }

  /** Turns over stale cells do nothing. */
  lemma {:induction false} StaleTurns(p: Pass, cfg: Config, fails: Faults, cells: seq<string>, n: nat, i: nat,
                                      x: string)
    requires FaultFree(fails) && i <= n <= |cells| && |p.mem.waiting| <= |cells|
    requires forall j :: i <= j < n ==> cells[j] == x
    requires HasJob(p.jobs, cfg.hash, x, p.mem.versions.desired)
    ensures var r := DispatchShared(p, cfg, fails, cells, n, i);
            r.flow == Next(r.flow.p) && r.flow.p == p.(clock := r.flow.p.clock) && r.cells == cells[..n]
    decreases n - i
  {
    if i < n {
      PassedOver(p, cfg, fails, cells[i], ByIndex);
      StaleTurns(TryNode(p, cfg, fails, cells[i], ByIndex).flow.p, cfg, fails, cells, n, i + 1, x);
    }
  }

  /** A state in the middle of the loop: the nodes at even positions below 2i have jobs, the others do not. */
  ghost predicate MidwayPass(p: Pass, hash: Hash, w: seq<string>, i: nat)
    requires 2 * i <= |w|
  {
    && p.mem.waiting == Midway(w, i)
    && (forall k :: 0 <= k < |w| && (k % 2 == 1 || k >= 2 * i) ==> !HasJob(p.jobs, hash, w[k], p.mem.versions.desired))
    && (forall k :: 0 <= k < |w| ==> w[k] !in p.mem.preheated)
  }

  lemma TurnKeepsOthers(p: Pass, q: Pass, hash: Hash, w: seq<string>, i: nat)
    requires NoDuplicates(w) && 2 * i + 1 < |w|
    requires MidwayPass(p, hash, w, i) && Served(p, q, hash, [w[2 * i]], Midway(w, i + 1))
    ensures MidwayPass(q, hash, w, i + 1)
  {
  }

  /** One turn that serves its node. */
  lemma Turn(p: Pass, cfg: Config, fails: Faults, cells: seq<string>, n: nat, i: nat, node: string)
    requires FaultFree(fails) && i < n <= |cells| && |p.mem.waiting| <= |cells| && cells[i] == node
    requires node in p.mem.waiting && node !in p.mem.preheated
             && !HasJob(p.jobs, cfg.hash, node, p.mem.versions.desired)
    ensures var q := TryNode(p, cfg, fails, node, ByIndex).flow.p;
            && Served(p, q, cfg.hash, [node], Remaining(p.mem.waiting, node))
            && DispatchShared(p, cfg, fails, cells, n, i)
               == DispatchShared(q, cfg, fails, AfterRemoval(cells, |p.mem.waiting|, node), n, i + 1)
  {
    NodeServed(p, cfg, fails, node, ByIndex);
  }

  /** The last node is served, and the stale cells behind it are passed over. */
  lemma FinalTurns(p: Pass, cfg: Config, fails: Faults, cells: seq<string>, n: nat, i: nat, last: string)
    requires FaultFree(fails) && i < n <= |cells| && |p.mem.waiting| <= |cells|
    requires last in p.mem.waiting && last !in p.mem.preheated
             && !HasJob(p.jobs, cfg.hash, last, p.mem.versions.desired)
    requires forall j :: i <= j < n ==> cells[j] == last
    requires AfterRemoval(cells, |p.mem.waiting|, last) == cells
    ensures var r := DispatchShared(p, cfg, fails, cells, n, i);
            && r.flow.Next? && Served(p, r.flow.p, cfg.hash, [last], Remaining(p.mem.waiting, last))
            && r.cells == cells[..n]
  {
    Turn(p, cfg, fails, cells, n, i, last);
    StaleTurns(TryNode(p, cfg, fails, last, ByIndex).flow.p, cfg, fails, cells, n, i + 1, last);
  }

  /** A turn that serves its node, and what the later turns serve. */
  lemma TurnAndRest(p: Pass, cfg: Config, fails: Faults, cells: seq<string>, n: nat, i: nat, node: string,
                    after: seq<string>,
                    rest: seq<string>, left: seq<string>)
    requires FaultFree(fails) && i < n <= |cells| == |after| && |p.mem.waiting| <= |cells| && cells[i] == node
    requires node in p.mem.waiting && node !in p.mem.preheated
             && !HasJob(p.jobs, cfg.hash, node, p.mem.versions.desired)
    requires after == AfterRemoval(cells, |p.mem.waiting|, node) && rest != []
    requires var q := TryNode(p, cfg, fails, node, ByIndex).flow.p;
             |q.mem.waiting| <= |cells| &&
             var f := DispatchShared(q, cfg, fails, after, n, i + 1).flow;
             f.Next? && Served(q, f.p, cfg.hash, rest, left)
    ensures var r, q := DispatchShared(p, cfg, fails, cells, n, i), TryNode(p, cfg, fails, node, ByIndex).flow.p;
            && r.flow.Next? && Served(p, r.flow.p, cfg.hash, [node] + rest, left)
            && r.cells == DispatchShared(q, cfg, fails, after, n, i + 1).cells
  {
    Turn(p, cfg, fails, cells, n, i, node);
    var q := TryNode(p, cfg, fails, node, ByIndex).flow.p;
    ServedInTurn(p, q, DispatchShared(q, cfg, fails, after, n, i + 1).flow.p, cfg.hash, [node], rest,
                 Remaining(p.mem.waiting, node), left);
  }

  lemma TurnsAtEnd(p: Pass, cfg: Config, fails: Faults, w: seq<string>, i: nat, cells: seq<string>)
    requires FaultFree(fails) && NoDuplicates(w) && w != [] && 2 * i <= |w| <= 2 * i + 1 && cells == CellsAfter(w, i)
    requires MidwayPass(p, cfg.hash, w, i) && |p.mem.waiting| <= |cells|
    ensures var r := DispatchShared(p, cfg, fails, cells, |w|, i);
            r.flow.Next? && Served(p, r.flow.p, cfg.hash, [w[|w| - 1]], Left(w)) && r.cells == cells
  {
    assert i == |w| / 2 && cells[..|w|] == cells;
    LastTurn(w, i);
    FinalTurns(p, cfg, fails, cells, |w|, i, w[|w| - 1]);
  }

  lemma NextUp(p: Pass, hash: Hash, w: seq<string>, i: nat, cells: seq<string>)
    requires NoDuplicates(w) && 2 * i + 1 < |w| && cells == CellsAfter(w, i) && MidwayPass(p, hash, w, i)
    ensures var node := w[2 * i];
            && cells[i] == node && node in p.mem.waiting && node !in p.mem.preheated
            && !HasJob(p.jobs, hash, node, p.mem.versions.desired)
            && Remaining(p.mem.waiting, node) == Midway(w, i + 1)
            && CellsAfter(w, i + 1) == AfterRemoval(cells, |p.mem.waiting|, node)
  {
    MidwayTurn(w, i);
    var m := Midway(w, i);
    assert p.mem.waiting == m && |m| == |w| - i;
  }

  lemma AfterTurn(p: Pass, cfg: Config, fails: Faults, w: seq<string>, i: nat)
    requires FaultFree(fails) && NoDuplicates(w) && 2 * i + 1 < |w| && MidwayPass(p, cfg.hash, w, i)
    requires w[2 * i] in p.mem.waiting && Remaining(p.mem.waiting, w[2 * i]) == Midway(w, i + 1)
    ensures var q := TryNode(p, cfg, fails, w[2 * i], ByIndex).flow.p;
            MidwayPass(q, cfg.hash, w, i + 1) && |q.mem.waiting| <= |w|
  {
    NodeServed(p, cfg, fails, w[2 * i], ByIndex);
    TurnKeepsOthers(p, TryNode(p, cfg, fails, w[2 * i], ByIndex).flow.p, cfg.hash, w, i);
  }

  lemma {:induction false} TurnsFrom(p: Pass, cfg: Config, fails: Faults, w: seq<string>, i: nat, cells: seq<string>)
    requires FaultFree(fails) && NoDuplicates(w) && w != [] && 2 * i <= |w| && cells == CellsAfter(w, i)
    requires MidwayPass(p, cfg.hash, w, i) && |p.mem.waiting| <= |cells|
    ensures var r := DispatchShared(p, cfg, fails, cells, |w|, i);
            r.flow.Next? && Served(p, r.flow.p, cfg.hash, Taken(w)[i..], Left(w)) && r.cells == CellsAfter(w, |w| / 2)
    decreases |w| - 2 * i
  {
    TakenFrom(w, i);
    if 2 * i + 1 < |w| {
      var node, after := w[2 * i], CellsAfter(w, i + 1);
      NextUp(p, cfg.hash, w, i, cells);
      AfterTurn(p, cfg, fails, w, i);
      var q := TryNode(p, cfg, fails, node, ByIndex).flow.p;
      TurnsFrom(q, cfg, fails, w, i + 1, after);
      TurnAndRest(p, cfg, fails, cells, |w|, i, node, after, Taken(w)[i + 1..], Left(w));
    } else {
      TurnsAtEnd(p, cfg, fails, w, i, cells);
      assert i == |w| / 2;
    }
  }

  lemma TakenFrom(w: seq<string>, i: nat)
    requires w != [] && 2 * i <= |w|
    ensures Taken(w)[i..] == if 2 * i + 1 < |w| then [w[2 * i]] + Taken(w)[i + 1..] else [w[|w| - 1]]
    ensures 2 * i + 1 < |w| ==> Taken(w)[i + 1..] != []
  {
  }

  /** The exact effect of the dispatch loop for parallelism 0 on waiting nodes that have no job yet: it serves
      `Taken` and leaves `Left`. */
  lemma OnePassServes(p: Pass, cfg: Config, fails: Faults)
    requires FaultFree(fails) && cfg.parallelism == 0 && NoDuplicates(p.mem.waiting)
    requires forall n :: n in p.mem.waiting ==>
               !HasJob(p.jobs, cfg.hash, n, p.mem.versions.desired) && n !in p.mem.preheated
    ensures var f := DispatchNodes(p, cfg, fails).flow;
            f.Next? && Served(p, f.p, cfg.hash, Taken(p.mem.waiting), Left(p.mem.waiting))
  {
    var w := p.mem.waiting;
    assert w[0..] == w;
    if w == [] {
      assert IssuesOf([], p.mem.versions.desired) == [];
      assert p.mem.warming + [] == p.mem.warming;
    } else {
      assert CellsAfter(w, 0) == w;
      assert Taken(w)[0..] == Taken(w);
      TurnsFrom(p, cfg, fails, w, 0, w);
    }
  }

  /** The cells that the loop has gone through, whose nodes it reports as warming: those that it left waiting, and then
      the last node over and over. */
  lemma ReportedCells(p: Pass, cfg: Config, fails: Faults)
    requires FaultFree(fails) && cfg.parallelism == 0 && NoDuplicates(p.mem.waiting) && p.mem.waiting != []
    requires forall n :: n in p.mem.waiting ==>
               !HasJob(p.jobs, cfg.hash, n, p.mem.versions.desired) && n !in p.mem.preheated
    ensures var cells, w := DispatchNodes(p, cfg, fails).cells, p.mem.waiting;
            && |cells| == |w| && Left(w) == cells[..|Left(w)|]
            && forall j :: |Left(w)| <= j < |w| ==> cells[j] == w[|w| - 1]
  {
    var w := p.mem.waiting;
    assert w[0..] == w && CellsAfter(w, 0) == w;
    TurnsFrom(p, cfg, fails, w, 0, w);
    EndCells(w);
  }

  lemma EndCells(w: seq<string>)
    requires w != []
    ensures var cells := CellsAfter(w, |w| / 2);
            && Left(w) == cells[..|Left(w)|]
            && forall j :: |Left(w)| <= j < |w| ==> cells[j] == w[|w| - 1]
  {
    var cells := CellsAfter(w, |w| / 2);
    forall j | 0 <= j < |Left(w)| ensures cells[j] == Left(w)[j] {
      assert Origin(|w| / 2, |w|, j) == 2 * j + 1;
    }
  }

  // ---- How many passes ----

  /** The waiting list after `k` passes in which no node joins. */
  function LeftAfter(w: seq<string>, k: nat): seq<string>
    decreases k
  {
    if k == 0 then w else LeftAfter(Left(w), k - 1)
  }

  function Pow2(k: nat): (r: nat)
    ensures r > 0
  {
    if k == 0 then 1 else 2 * Pow2(k - 1)
  }

  /** `a` divided by 2^k. */
  function Halved(a: nat, k: nat): nat
    decreases k
  {
    if k == 0 then a else Halved(a / 2, k - 1)
  }

  lemma {:induction false} HalvedBound(a: nat, k: nat)
    ensures Halved(a, k) < 2 <==> a < Pow2(k + 1)
    decreases k
  {
    if k > 0 {
      HalvedBound(a / 2, k - 1);
    }
  }

  lemma {:induction false} HalvedOne(k: nat)
    ensures Halved(0, k) == 0 && Halved(1, k) <= 1
    decreases k
  {
    if k > 0 {
      HalvedOne(k - 1);
    }
  }

  /** How many nodes `k` passes leave of n: floor((n + 1) / 2^k) - 1, or none. */
  lemma {:induction false} LeftAfterSize(w: seq<string>, k: nat)
    ensures |LeftAfter(w, k)| == if Halved(|w| + 1, k) == 0 then 0 else Halved(|w| + 1, k) - 1
    decreases k
  {
    if k > 0 {
      LeftAfterSize(Left(w), k - 1);
      if w == [] {
        HalvedOne(k - 1);
      } else {
        assert |Left(w)| + 1 == (|w| + 1) / 2;
      }
    }
  }

  /** Where the `j`-th of them stood. */
  function Position(k: nat, j: nat): nat {
    if k == 0 then j else 2 * Position(k - 1, j) + 1
  }

  /** Which nodes they are. */
  lemma {:induction false} LeftAfterAt(w: seq<string>, k: nat, j: nat)
    requires j < |LeftAfter(w, k)|
    ensures Position(k, j) < |w| && LeftAfter(w, k)[j] == w[Position(k, j)]
    decreases k
  {
    if k > 0 {
      LeftAfterAt(Left(w), k - 1, j);
      assert Left(w)[Position(k - 1, j)] == w[2 * Position(k - 1, j) + 1];
    }
  }

  /** They are every 2^k-th. */
  lemma {:induction false} PositionIsMultiple(k: nat, j: nat)
    ensures Position(k, j) + 1 == Pow2(k) * (j + 1)
  {
    if k > 0 {
      PositionIsMultiple(k - 1, j);
      Doubled(Pow2(k - 1), j + 1);
    }
  }

  lemma Doubled(x: nat, y: nat)
    ensures (2 * x) * y == 2 * (x * y)
  {
  }

  /** Of n waiting nodes none is left after `k` passes exactly if n + 1 < 2^(k+1): it takes floor(log2(n + 1)) passes,
      and no fewer. */
  lemma DrainedAfter(w: seq<string>, k: nat)
    ensures LeftAfter(w, k) == [] <==> |w| + 1 < Pow2(k + 1)
  {
    LeftAfterSize(w, k);
    HalvedBound(|w| + 1, k);
  }
}
