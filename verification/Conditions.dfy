/** The condition list of the status, a list that the controller uses as a map keyed by type. */
module Conditions {

  const PRIMER := "Primer"
  const RUNNING := "Running"
  const FAILURE := "Failure"
  const SUCCESSFUL := "Successful"
  const COMPLETED := "Completed"
  const PRIMING_IN_PROGRESS := "PrimingInProgress"
  const INFRASTRUCTURE_FOUND := "InfrastructureFound"
  const SETUP_COMPLETE := "SetupComplete"

  const STATUS_TRUE := "True"
  const STATUS_FALSE := "False"

  const PRIMER_COMPLETED := "PrimingCompleted"
  const PRIMER_SKIPPED := "PrimingSkipped"
  const PRIMER_IN_PROGRESS := "PrimingInProgress"

  /** `at` stands for the transition time, an opaque stamp. */
  datatype Condition = Condition(ctype: string, status: string, reason: string, message: string, at: nat)

  /** What a condition says, without its stamp. */
  datatype Content = Content(status: string, reason: string, message: string)

  function ContentOf(c: Condition): Content {
    Content(c.status, c.reason, c.message)
  }

  /** The list after `appendCondition`. */
  function Upsert(cs: seq<Condition>, c: Condition): seq<Condition> {
    if cs == [] then [c]
    else if cs[0].ctype == c.ctype then
      if ContentOf(cs[0]) == ContentOf(c) then cs else [c] + cs[1..]
    else [cs[0]] + Upsert(cs[1..], c)
  }

  /** The first condition of the type is the one that is overwritten. */
  lemma {:induction false} UpsertAt(cs: seq<Condition>, c: Condition, i: nat)
    requires i <= |cs| && (forall j :: 0 <= j < i ==> cs[j].ctype != c.ctype)
    ensures i == |cs| ==> Upsert(cs, c) == cs + [c]
    ensures i < |cs| && cs[i].ctype == c.ctype ==>
              Upsert(cs, c) == if ContentOf(cs[i]) == ContentOf(c) then cs else cs[i := c]
  {
    if i > 0 {
      UpsertAt(cs[1..], c, i - 1);
    }
  }

  /** The list after `deleteCondition`. */
  function Without(cs: seq<Condition>, ctype: string): seq<Condition> {
    if cs == [] then []
    else if cs[0].ctype == ctype then Without(cs[1..], ctype)
    else [cs[0]] + Without(cs[1..], ctype)
  }

  /** The result of `getConditionReason`. */
  function ReasonOf(cs: seq<Condition>, ctype: string): string {
    if cs == [] then ""
    else if cs[0].ctype == ctype then cs[0].reason
    else ReasonOf(cs[1..], ctype)
  }

  /** One call of the condition code: `appendCondition`, or `deleteCondition`. */
  datatype ConditionOp =
    | Put(ctype: string, status: string, reason: string, message: string)
    | Drop(ctype: string)

  function Apply(cs: seq<Condition>, op: ConditionOp, now: nat): seq<Condition> {
    match op
    case Put(t, status, reason, message) => Upsert(cs, Condition(t, status, reason, message, now))
    case Drop(t) => Without(cs, t)
  }

  // ---- Reasons ----

  lemma {:induction false} UpsertReason(cs: seq<Condition>, c: Condition, t: string)
    ensures ReasonOf(Upsert(cs, c), t) == if t == c.ctype then c.reason else ReasonOf(cs, t)
  {
    if cs != [] && cs[0].ctype != c.ctype {
      UpsertReason(cs[1..], c, t);
    }
  }

  lemma {:induction false} WithoutReason(cs: seq<Condition>, gone: string, t: string)
    ensures ReasonOf(Without(cs, gone), t) == if t == gone then "" else ReasonOf(cs, t)
  {
    if cs != [] {
      WithoutReason(cs[1..], gone, t);
    }
  }

  // ---- The list refines a map ----

  ghost predicate UniqueTypes(cs: seq<Condition>) {
    forall i, j :: 0 <= i < j < |cs| ==> cs[i].ctype != cs[j].ctype
  }

  /** The map that a list with unique types stands for. */
  ghost function AsMap(cs: seq<Condition>): map<string, Content> {
    if cs == [] then map[] else AsMap(cs[1..])[cs[0].ctype := ContentOf(cs[0])]
  }

  /** The same operation on the map. */
  ghost function ApplyToMap(m: map<string, Content>, op: ConditionOp): map<string, Content> {
    match op
    case Put(t, status, reason, message) => m[t := Content(status, reason, message)]
    case Drop(t) => m - {t}
  }

  ghost function ApplyAll(cs: seq<Condition>, ops: seq<ConditionOp>, now: nat -> nat): seq<Condition> {
    if ops == [] then cs
    else Apply(ApplyAll(cs, ops[..|ops| - 1], now), ops[|ops| - 1], now(|ops|))
  }

  ghost function ApplyAllToMap(m: map<string, Content>, ops: seq<ConditionOp>): map<string, Content> {
    if ops == [] then m
    else ApplyToMap(ApplyAllToMap(m, ops[..|ops| - 1]), ops[|ops| - 1])
  }

  lemma {:induction false} UpsertMap(cs: seq<Condition>, c: Condition)
    ensures AsMap(Upsert(cs, c)) == AsMap(cs)[c.ctype := ContentOf(c)]
  {
    if cs == [] {
    } else if cs[0].ctype == c.ctype {
      assert ([c] + cs[1..])[1..] == cs[1..];
    } else {
      UpsertMap(cs[1..], c);
      assert Upsert(cs, c)[1..] == Upsert(cs[1..], c);
    }
  }

  lemma {:induction false} WithoutMap(cs: seq<Condition>, t: string)
    ensures AsMap(Without(cs, t)) == AsMap(cs) - {t}
  {
    if cs != [] {
      WithoutMap(cs[1..], t);
      if cs[0].ctype != t {
        assert Without(cs, t)[1..] == Without(cs[1..], t);
      }
    }
  }

  lemma {:induction false} UpsertTypes(cs: seq<Condition>, c: Condition, t: string)
    requires t != c.ctype && forall i :: 0 <= i < |cs| ==> cs[i].ctype != t
    ensures forall i :: 0 <= i < |Upsert(cs, c)| ==> Upsert(cs, c)[i].ctype != t
  {
    if cs != [] {
      UpsertTypes(cs[1..], c, t);
    }
  }

  lemma {:induction false} UpsertUnique(cs: seq<Condition>, c: Condition)
    requires UniqueTypes(cs)
    ensures UniqueTypes(Upsert(cs, c))
  {
    if cs != [] && cs[0].ctype != c.ctype {
      UpsertUnique(cs[1..], c);
      UpsertTypes(cs[1..], c, cs[0].ctype);
    }
  }

  lemma {:induction false} WithoutTypes(cs: seq<Condition>, gone: string, t: string)
    requires forall i :: 0 <= i < |cs| ==> cs[i].ctype != t
    ensures forall i :: 0 <= i < |Without(cs, gone)| ==> Without(cs, gone)[i].ctype != t
  {
    if cs != [] {
      WithoutTypes(cs[1..], gone, t);
    }
  }

  lemma {:induction false} WithoutUnique(cs: seq<Condition>, t: string)
    requires UniqueTypes(cs)
    ensures UniqueTypes(Without(cs, t))
  {
    if cs != [] {
      WithoutUnique(cs[1..], t);
      if cs[0].ctype != t {
        WithoutTypes(cs[1..], t, cs[0].ctype);
      }
    }
  }

  /** Any sequence of appends and deletes on the list is the same sequence of updates on the map, and
      never gives two conditions one type. */
  lemma {:induction false} ListRefinesMap(cs: seq<Condition>, ops: seq<ConditionOp>, now: nat -> nat)
    requires UniqueTypes(cs)
    ensures UniqueTypes(ApplyAll(cs, ops, now))
    ensures AsMap(ApplyAll(cs, ops, now)) == ApplyAllToMap(AsMap(cs), ops)
  {
    if ops != [] {
      var op := ops[|ops| - 1];
      ListRefinesMap(cs, ops[..|ops| - 1], now);
      var before := ApplyAll(cs, ops[..|ops| - 1], now);
      match op
      case Put(t, s, r, m) =>
        UpsertMap(before, Condition(t, s, r, m, now(|ops|)));
        UpsertUnique(before, Condition(t, s, r, m, now(|ops|)));
      case Drop(t) =>
        WithoutMap(before, t);
        WithoutUnique(before, t);
    }
  }

  /** `getConditionReason` is lookup in that map, with the empty string for a missing key. */
  lemma {:induction false} ReasonIsLookup(cs: seq<Condition>, t: string)
    ensures ReasonOf(cs, t) == if t in AsMap(cs) then AsMap(cs)[t].reason else ""
  {
    if cs != [] {
      ReasonIsLookup(cs[1..], t);
    }
  }

  /** Writing the content that is already there changes nothing, not even the stamp; writing another
      content stamps that one condition and keeps every other condition and its place. */
  lemma StampChangesWithContent(cs: seq<Condition>, c: Condition, i: nat)
    requires UniqueTypes(cs) && i < |cs| && cs[i].ctype == c.ctype
    ensures Upsert(cs, c) == if ContentOf(cs[i]) == ContentOf(c) then cs else cs[i := c]
  {
    UpsertAt(cs, c, i);
  }

  /** `deleteConditions` in one sweep: keep, in order, the conditions of every type that is not named. */
  function Keep(cs: seq<Condition>, gone: set<string>): seq<Condition> {
    if cs == [] then []
    else if cs[0].ctype in gone then Keep(cs[1..], gone)
    else [cs[0]] + Keep(cs[1..], gone)
  }

  function Drops(types: seq<string>): seq<ConditionOp> {
    seq(|types|, i requires 0 <= i < |types| => Drop(types[i]))
  }

  lemma {:induction false} WithoutAfterKeep(cs: seq<Condition>, gone: set<string>, t: string)
    ensures Without(Keep(cs, gone), t) == Keep(cs, gone + {t})
  {
    if cs != [] {
      WithoutAfterKeep(cs[1..], gone, t);
      if cs[0].ctype !in gone {
        assert Keep(cs, gone)[1..] == Keep(cs[1..], gone);
      }
    }
  }

  /** Deleting types one at a time is that sweep, so neither the order in which they are named nor a
      repetition matters. */
  lemma {:induction false} DropsAreSubtraction(cs: seq<Condition>, types: seq<string>, now: nat -> nat)
    ensures ApplyAll(cs, Drops(types), now) == Keep(cs, set t | t in types)
  {
    if types == [] {
      KeepAll(cs);
      assert (set t | t in types) == {} && Drops(types) == [];
    } else {
      var front, last := types[..|types| - 1], types[|types| - 1];
      DropsAreSubtraction(cs, front, now);
      assert Drops(types)[..|types| - 1] == Drops(front);
      WithoutAfterKeep(cs, (set t | t in front), last);
      assert (set t | t in types) == (set t | t in front) + {last};
    }
  }

  lemma {:induction false} KeepAll(cs: seq<Condition>)
    ensures Keep(cs, {}) == cs
  {
    if cs != [] {
      KeepAll(cs[1..]);
    }
  }
}
