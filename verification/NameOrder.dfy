/** The order of node names: lexicographic, ignoring case, and sorting by it. */
module NameOrder {
  import opened NodeLists

  function UpperChar(c: char): char {
    if 'a' <= c <= 'z' then 'A' + (c - 'a') else c
  }

  function LowerChar(c: char): char {
    if 'A' <= c <= 'Z' then 'a' + (c - 'A') else c
  }

  function ToUpper(s: string): string {
    seq(|s|, i requires 0 <= i < |s| => UpperChar(s[i]))
  }

  function ToLower(s: string): string {
    seq(|s|, i requires 0 <= i < |s| => LowerChar(s[i]))
  }

  /** The `<` of strings. */
  predicate Before(x: string, y: string) {
    y != "" && (x == "" || x[0] < y[0] || (x[0] == y[0] && Before(x[1..], y[1..])))
  }

  lemma {:induction false} BeforeIsTotal(x: string, y: string)
    ensures x == y <==> !Before(x, y) && !Before(y, x)
    ensures !(Before(x, y) && Before(y, x))
  {
    if x != "" && y != "" && x[0] == y[0] {
      BeforeIsTotal(x[1..], y[1..]);
      assert x == [x[0]] + x[1..] && y == [y[0]] + y[1..];
    }
  }

  lemma {:induction false} BeforeIsTransitive(x: string, y: string, z: string)
    requires Before(x, y) && Before(y, z)
    ensures Before(x, z)
  {
    if x != "" && x[0] == y[0] == z[0] {
      BeforeIsTransitive(x[1..], y[1..], z[1..]);
    }
  }

  /** The `Less` of the sort: case does not matter. */
  predicate Less(x: string, y: string) {
    Before(ToUpper(x), ToUpper(y))
  }

  /** The code of a character, that of the capital for a small letter. */
  function Rank(c: char): int {
    if 97 <= c as int <= 122 then c as int - 32 else c as int
  }

  /** The names agree up to case below some position; there `x` ends and `y` goes on, or the character of `x` has the
      smaller rank. */
  ghost predicate Ascends(x: string, y: string) {
    exists k: nat :: AscendsAt(x, y, k)
  }

  ghost predicate AscendsAt(x: string, y: string, k: nat) {
    && k <= |x| && k < |y| && (forall i :: 0 <= i < k ==> Rank(x[i]) == Rank(y[i]))
    && (k == |x| || Rank(x[k]) < Rank(y[k]))
  }

  /** The order of the sort is that order, written out on the letters. */
  lemma {:induction false} LessIsAscending(x: string, y: string)
    ensures Less(x, y) <==> Ascends(x, y)
  {
    if x == "" || y == "" {
      assert y != "" ==> AscendsAt(x, y, 0);
    } else {
      assert ToUpper(x)[1..] == ToUpper(x[1..]) && ToUpper(y)[1..] == ToUpper(y[1..]);
      UpperRanks(x[0], y[0]);
      LessIsAscending(x[1..], y[1..]);
      AscendsBehind(x, y);
    }
  }

  lemma UpperRanks(a: char, b: char)
    ensures UpperChar(a) == UpperChar(b) <==> Rank(a) == Rank(b)
    ensures UpperChar(a) < UpperChar(b) <==> Rank(a) < Rank(b)
  {
  }

  lemma AscendsBehind(x: string, y: string)
    requires x != "" && y != ""
    ensures Ascends(x, y) <==> Rank(x[0]) < Rank(y[0]) || (Rank(x[0]) == Rank(y[0]) && Ascends(x[1..], y[1..]))
  {
    if k: nat :| AscendsAt(x, y, k) {
      if k > 0 { assert AscendsAt(x[1..], y[1..], k - 1); }
    }
    if Rank(x[0]) < Rank(y[0]) {
      assert AscendsAt(x, y, 0);
    }
    if Rank(x[0]) == Rank(y[0]) && Ascends(x[1..], y[1..]) {
      var k: nat :| AscendsAt(x[1..], y[1..], k);
      assert AscendsAt(x, y, k + 1);
    }
  }

  /** No name stands behind one that it ascends to. */
  ghost predicate Ascending(xs: seq<string>) {
    forall i, j :: 0 <= i < j < |xs| ==> !Ascends(xs[j], xs[i])
  }

  lemma SortedAscends(xs: seq<string>)
    ensures Sorted(xs) <==> Ascending(xs)
  {
    forall i, j | 0 <= i < j < |xs| ensures Less(xs[j], xs[i]) <==> Ascends(xs[j], xs[i]) {
      LessIsAscending(xs[j], xs[i]);
    }
  }

  lemma NotLessIsTransitive(x: string, y: string, z: string)
    requires !Less(y, x) && !Less(z, y)
    ensures !Less(z, x)
  {
    BeforeIsTotal(ToUpper(x), ToUpper(y));
    BeforeIsTotal(ToUpper(y), ToUpper(z));
    BeforeIsTotal(ToUpper(x), ToUpper(z));
    if Before(ToUpper(x), ToUpper(y)) && Before(ToUpper(y), ToUpper(z)) {
      BeforeIsTransitive(ToUpper(x), ToUpper(y), ToUpper(z));
    }
  }

  ghost predicate Sorted(xs: seq<string>) {
    forall i, j :: 0 <= i < j < |xs| ==> !Less(xs[j], xs[i])
  }

  /** No two different names agree up to case. */
  ghost predicate CaseDistinct(names: set<string>) {
    forall x, y :: x in names && y in names && ToUpper(x) == ToUpper(y) ==> x == y
  }

  /** `x` put into a sorted list, behind those it is not less than. */
  function Insert(xs: seq<string>, x: string): seq<string> {
    if xs == [] || !Less(x, xs[|xs| - 1]) then xs + [x]
    else Insert(xs[..|xs| - 1], x) + [xs[|xs| - 1]]
  }

  function SortNames(xs: seq<string>): seq<string> {
    if xs == [] then [] else Insert(SortNames(xs[..|xs| - 1]), xs[|xs| - 1])
  }

  /** Nothing in `xs` is above `x`. */
  ghost predicate Tops(x: string, xs: seq<string>) {
    forall i :: 0 <= i < |xs| ==> !Less(x, xs[i])
  }

  lemma SortedWith(xs: seq<string>, x: string)
    requires Sorted(xs) && Tops(x, xs)
    ensures Sorted(xs + [x])
  {
  }

  lemma TopsAll(xs: seq<string>, x: string)
    requires Sorted(xs) && xs != [] && !Less(x, xs[|xs| - 1])
    ensures Tops(x, xs)
  {
    forall i | 0 <= i < |xs| ensures !Less(x, xs[i]) {
      if i < |xs| - 1 {
        NotLessIsTransitive(xs[i], xs[|xs| - 1], x);
      }
    }
  }

  lemma LastApart(xs: seq<string>)
    requires xs != []
    ensures multiset(xs) == multiset(xs[..|xs| - 1]) + multiset{xs[|xs| - 1]}
  {
    assert xs == xs[..|xs| - 1] + [xs[|xs| - 1]];
  }

  lemma {:induction false} InsertMembers(xs: seq<string>, x: string)
    ensures multiset(Insert(xs, x)) == multiset(xs) + multiset{x}
  {
    if xs != [] && Less(x, xs[|xs| - 1]) {
      InsertMembers(xs[..|xs| - 1], x);
      LastApart(xs);
    }
  }

  lemma {:induction false} InsertSorts(xs: seq<string>, x: string)
    requires Sorted(xs)
    ensures Sorted(Insert(xs, x))
    ensures forall y :: Tops(y, xs) && !Less(y, x) ==> Tops(y, Insert(xs, x))
  {
    if xs == [] {
    } else if !Less(x, xs[|xs| - 1]) {
      TopsAll(xs, x);
      SortedWith(xs, x);
    } else {
      var front, last := xs[..|xs| - 1], xs[|xs| - 1];
      FrontIsSorted(xs);
      InsertSorts(front, x);
      BeforeIsTotal(ToUpper(x), ToUpper(last));
      assert Tops(last, front);
      SortedWith(Insert(front, x), last);
      forall y | Tops(y, xs) && !Less(y, x) ensures Tops(y, Insert(xs, x)) {
        assert Tops(y, front) && !Less(y, xs[|xs| - 1]);
      }
    }
  }

  lemma {:induction false} SortIsSorted(xs: seq<string>)
    ensures Sorted(SortNames(xs)) && multiset(SortNames(xs)) == multiset(xs)
  {
    if xs != [] {
      var front, last := xs[..|xs| - 1], xs[|xs| - 1];
      SortIsSorted(front);
      InsertSorts(SortNames(front), last);
      InsertMembers(SortNames(front), last);
      LastApart(xs);
    }
  }

  lemma SortKeepsLength(xs: seq<string>)
    ensures |SortNames(xs)| == |xs|
  {
    SortIsSorted(xs);
    SameElements(SortNames(xs), xs);
  }

  /** A sorted permutation is unique when no two different names agree up to case. */
  lemma {:induction false} SortedIsUnique(xs: seq<string>, ys: seq<string>)
    requires multiset(xs) == multiset(ys) && Sorted(xs) && Sorted(ys) && CaseDistinct(Elements(xs))
    ensures xs == ys
  {
    SameElements(xs, ys);
    if xs != [] {
      LastAgrees(xs, ys);
      FrontIsSorted(xs);
      FrontIsSorted(ys);
      SortedIsUnique(xs[..|xs| - 1], ys[..|ys| - 1]);
      assert xs == xs[..|xs| - 1] + [xs[|xs| - 1]] && ys == ys[..|ys| - 1] + [ys[|ys| - 1]];
    }
  }

  lemma LastAgrees(xs: seq<string>, ys: seq<string>)
    requires xs != [] && ys != [] && Sorted(xs) && Sorted(ys) && Elements(xs) == Elements(ys)
             && CaseDistinct(Elements(xs))
    ensures xs[|xs| - 1] == ys[|ys| - 1]
  {
    var x, y := xs[|xs| - 1], ys[|ys| - 1];
    assert x in Elements(xs) && y in Elements(ys);
    LastIsGreatest(xs, y);
    LastIsGreatest(ys, x);
    BeforeIsTotal(ToUpper(x), ToUpper(y));
  }

  lemma FrontIsSorted(xs: seq<string>)
    requires xs != [] && Sorted(xs)
    ensures Sorted(xs[..|xs| - 1]) && Elements(xs[..|xs| - 1]) <= Elements(xs)
    ensures multiset(xs[..|xs| - 1]) == multiset(xs) - multiset{xs[|xs| - 1]}
  {
    var front := xs[..|xs| - 1];
    assert xs == front + [xs[|xs| - 1]];
    forall i, j | 0 <= i < j < |front| ensures !Less(front[j], front[i]) {
      assert front[i] == xs[i] && front[j] == xs[j];
    }
  }

  lemma LastIsGreatest(xs: seq<string>, y: string)
    requires y in xs && Sorted(xs)
    ensures !Less(xs[|xs| - 1], y)
  {
    var i :| 0 <= i < |xs| && xs[i] == y;
    BeforeIsTotal(ToUpper(y), ToUpper(y));
  }

  lemma SameElements(xs: seq<string>, ys: seq<string>)
    requires multiset(xs) == multiset(ys)
    ensures Elements(xs) == Elements(ys) && |xs| == |ys|
    ensures NoDuplicates(xs) ==> NoDuplicates(ys)
  {
    assert |multiset(xs)| == |xs| && |multiset(ys)| == |ys|;
    forall x ensures x in xs <==> x in ys {
      assert x in xs <==> x in multiset(xs);
      assert x in ys <==> x in multiset(ys);
    }
    if NoDuplicates(xs) {
      UniqueByCount(xs);
      UniqueByCount(ys);
    }
  }

  lemma {:induction false} UniqueByCount(xs: seq<string>)
    ensures NoDuplicates(xs) <==> forall x :: multiset(xs)[x] <= 1
  {
    if xs != [] {
      var front, last := xs[..|xs| - 1], xs[|xs| - 1];
      UniqueByCount(front);
      assert xs == front + [last];
      assert multiset(xs) == multiset(front) + multiset{last};
      assert last in front <==> multiset(front)[last] > 0;
      assert NoDuplicates(xs) ==> NoDuplicates(front) && last !in front;
      if forall x :: multiset(xs)[x] <= 1 {
        forall x ensures multiset(front)[x] <= 1 { assert multiset(xs)[x] <= 1; }
        assert multiset(xs)[last] <= 1;
      }
    }
  }

  /** Two listings of the same names sort to the same list. */
  lemma SortForgetsOrder(xs: seq<string>, ys: seq<string>)
    requires NoDuplicates(xs) && NoDuplicates(ys) && Elements(xs) == Elements(ys) && CaseDistinct(Elements(xs))
    ensures SortNames(xs) == SortNames(ys)
  {
    SameMultiset(xs, ys);
    SortIsSorted(xs);
    SortIsSorted(ys);
    SameElements(xs, SortNames(xs));
    SortedIsUnique(SortNames(xs), SortNames(ys));
  }

  lemma SameMultiset(xs: seq<string>, ys: seq<string>)
    requires NoDuplicates(xs) && NoDuplicates(ys) && Elements(xs) == Elements(ys)
    ensures multiset(xs) == multiset(ys)
  {
    UniqueByCount(xs);
    UniqueByCount(ys);
    forall x ensures multiset(xs)[x] == multiset(ys)[x] {
      assert x in xs <==> x in Elements(xs);
      assert x in ys <==> x in Elements(ys);
    }
  }

  // ---- In place ----

  /** `x` is less than every name of the list from position `j` on. */
  ghost predicate Overtakes(x: string, xs: seq<string>, j: nat) {
    forall k :: j <= k < |xs| ==> Less(x, xs[k])
  }

  /** The position of the inserted name: just above the last one that it is not less than. */
  lemma {:induction false} InsertAt(xs: seq<string>, x: string, j: nat)
    requires j <= |xs| && Overtakes(x, xs, j)
    requires j == 0 || !Less(x, xs[j - 1])
    ensures Insert(xs, x) == xs[..j] + [x] + xs[j..]
    decreases |xs|
  {
    if j < |xs| {
      var front := xs[..|xs| - 1];
      InsertAt(front, x, j);
      assert front[..j] == xs[..j] && front[j..] + [xs[|xs| - 1]] == xs[j..];
    }
  }

  /** The list in which element `i` has moved down to position `j`. */
  ghost function Sunk(s: seq<string>, i: nat, j: nat): seq<string>
    requires j <= i < |s|
  {
    s[..j] + [s[i]] + s[j..i] + s[i + 1..]
  }

  lemma SwapSinks(s: seq<string>, i: nat, j: nat)
    requires 0 < j <= i < |s|
    ensures var t := Sunk(s, i, j);
            t[j] == s[i] && t[j - 1] == s[j - 1] && t[j := t[j - 1]][j - 1 := t[j]] == Sunk(s, i, j - 1)
  {
    assert s[j - 1..i] == [s[j - 1]] + s[j..i];
    assert s[..j] == s[..j - 1] + [s[j - 1]];
  }

  /** One element sinks to its place among the sorted cells below it. */
  method Sink(a: array<string>, i: nat)
    requires i < a.Length
    modifies a
    ensures var s := old(a[..]); a[..] == Insert(s[..i], s[i]) + s[i + 1..]
  {
    ghost var s := a[..];
    var j: nat := i;
    while j > 0 && Less(a[j], a[j - 1])
      invariant j <= i && a[..] == Sunk(s, i, j)
      invariant Overtakes(s[i], s[..i], j)
    {
      SwapSinks(s, i, j);
      assert a[j] == a[..][j] && a[j - 1] == a[..][j - 1];
      a[j], a[j - 1] := a[j - 1], a[j];
      j := j - 1;
    }
    if j > 0 {
      SwapSinks(s, i, j);
      assert a[j] == a[..][j] && a[j - 1] == a[..][j - 1];
    }
    InsertAt(s[..i], s[i], j);
  }

  lemma PartsOf(s: seq<string>, sorted: seq<string>, xs: seq<string>, i: nat)
    requires i < |xs| && |sorted| == i && s == sorted + xs[i..]
    ensures |s| == |xs| && s[..i] == sorted && s[i] == xs[i] && s[i + 1..] == xs[i + 1..]
    ensures xs[..i + 1][..i] == xs[..i]
  {
    assert xs[i..][1..] == xs[i + 1..];
  }

  method SortInPlace(a: array<string>)
    modifies a
    ensures a[..] == SortNames(old(a[..]))
  {
    ghost var xs := a[..];
    for i := 0 to a.Length
      invariant a[..] == SortNames(xs[..i]) + xs[i..]
    {
      SortKeepsLength(xs[..i]);
      PartsOf(a[..], SortNames(xs[..i]), xs, i);
      Sink(a, i);
    }
    assert xs[..a.Length] == xs;
  }

  method SortSliceOfStrings(input: seq<string>) returns (sorted: seq<string>)
    ensures sorted == SortNames(input)
    ensures Ascending(sorted) && multiset(sorted) == multiset(input)
  {
    var a := new string[|input|](i requires 0 <= i < |input| => input[i]);
    assert a[..] == input;
    SortInPlace(a);
    SortIsSorted(input);
    sorted := a[..];
    SortedAscends(sorted);
  }
}
