/** Lists of node names as the status of an UpgradeAccelerator keeps them: searching, cutting one
    element out, and counting arguments about lists without duplicates. */
module NodeLists {

  ghost predicate NoDuplicates(xs: seq<string>) {
    forall i, j :: 0 <= i < j < |xs| ==> xs[i] != xs[j]
  }

  lemma FirstIsMember(xs: seq<string>)
    ensures xs != [] ==> xs[0] in xs
  {
  }

  /** In a list without duplicates nothing before a position is also after it. */
  lemma ApartAt(xs: seq<string>, k: nat)
    requires NoDuplicates(xs) && k <= |xs|
    ensures forall x :: x in xs[..k] ==> x in xs && x !in xs[k..]
  {
    forall i | k <= i < |xs| ensures xs[i] !in xs[..k] {
    }
    assert forall j :: 0 <= j < |xs[k..]| ==> xs[k..][j] == xs[k + j];
  }

  function Elements(xs: seq<string>): set<string> {
    set x | x in xs
  }

  /** `slices.Index`: the first position of `x`, or -1. */
  function IndexOf(xs: seq<string>, x: string): (i: int)
    ensures -1 <= i < |xs|
    ensures i >= 0 ==> xs[i] == x && x !in xs[..i]
    ensures i < 0 <==> x !in xs
  {
    if xs == [] then -1
    else if xs[0] == x then 0
    else
      var i := IndexOf(xs[1..], x);
      if i < 0 then -1 else i + 1
  }

  /** The list that `append(xs[:i], xs[i+1:]...)` leaves. */
  function Cut(xs: seq<string>, i: nat): seq<string>
    requires i < |xs|
  {
    xs[..i] + xs[i + 1..]
  }

  function CutFirst(xs: seq<string>, x: string): seq<string>
    requires x in xs
  {
    Cut(xs, IndexOf(xs, x))
  }

  /** The text `strings.Join(xs, sep)`. */
  function Join(xs: seq<string>, sep: string): string {
    if xs == [] then "" else if |xs| == 1 then xs[0] else xs[0] + sep + Join(xs[1..], sep)
  }

  /** The separator stands between any two neighbours. */
  lemma {:induction false} JoinParts(xs: seq<string>, ys: seq<string>, sep: string)
    requires xs != [] && ys != []
    ensures Join(xs + ys, sep) == Join(xs, sep) + sep + Join(ys, sep)
  {
    if |xs| == 1 {
      assert (xs + ys)[1..] == ys;
    } else {
      assert (xs + ys)[1..] == xs[1..] + ys;
      JoinParts(xs[1..], ys, sep);
      var tail := Join(xs[1..], sep);
      assert xs[0] + sep + (tail + sep + Join(ys, sep)) == (xs[0] + sep + tail) + sep + Join(ys, sep);
    }
  }

  /** Cutting one occurrence loses exactly that occurrence. */
  lemma CutFirstMembers(xs: seq<string>, x: string)
    requires x in xs
    ensures |CutFirst(xs, x)| == |xs| - 1
    ensures forall y :: y != x ==> (y in CutFirst(xs, x) <==> y in xs)
    ensures forall y :: y in CutFirst(xs, x) ==> y in xs
  {
    var i := IndexOf(xs, x);
    assert xs == xs[..i] + [x] + xs[i + 1..];
  }

  lemma CutFirstUnique(xs: seq<string>, x: string)
    requires x in xs && NoDuplicates(xs)
    ensures x !in CutFirst(xs, x) && NoDuplicates(CutFirst(xs, x))
  {
    var i := IndexOf(xs, x);
    var ys := CutFirst(xs, x);
    assert forall k :: 0 <= k < |ys| ==> ys[k] == if k < i then xs[k] else xs[k + 1];
  }

  lemma {:induction false} SizeOfElements(xs: seq<string>)
    ensures |Elements(xs)| <= |xs|
    ensures NoDuplicates(xs) ==> |Elements(xs)| == |xs|
  {
    if xs != [] {
      var last, front := xs[|xs| - 1], xs[..|xs| - 1];
      SizeOfElements(front);
      assert Elements(xs) == Elements(front) + {last};
      if NoDuplicates(xs) {
        assert last !in Elements(front);
      }
    }
  }

  lemma SubsetSize(a: set<string>, b: set<string>)
    requires a <= b
    ensures |a| <= |b|
    ensures |a| == |b| ==> a == b
  {
    assert b == a + (b - a);
    assert |b| == |a| + |b - a|;
    if |a| == |b| {
      assert b - a == {};
    }
  }

  /** Pigeonhole: of two duplicate-free lists of equal length, one covers the other exactly when it is
      covered by it. */
  lemma EqualLengthCoverage(xs: seq<string>, ys: seq<string>)
    requires NoDuplicates(xs) && NoDuplicates(ys) && |xs| == |ys|
    ensures (forall x :: x in xs ==> x in ys) <==> (forall y :: y in ys ==> y in xs)
  {
    SizeOfElements(xs);
    SizeOfElements(ys);
    if forall x :: x in xs ==> x in ys {
      assert Elements(xs) <= Elements(ys);
      SubsetSize(Elements(xs), Elements(ys));
      forall y | y in ys ensures y in xs { assert y in Elements(ys); assert y in Elements(xs); }
    }
    if forall y :: y in ys ==> y in xs {
      assert Elements(ys) <= Elements(xs);
      SubsetSize(Elements(ys), Elements(xs));
      forall x | x in xs ensures x in ys { assert x in Elements(xs); assert x in Elements(ys); }
    }
  }
}
