// By when a block provably existed: the merges that fix a branch (aggregator/recognition).
module Witnesses {
  import opened Options

  // A merge at this time fixed the branch up to this position.
  datatype Fix = Fix(index: nat, time: int)

  ghost predicate ByPosition(s: seq<Fix>) {
    forall i, j | 0 <= i < j < |s| :: s[i].index <= s[j].index
  }

  predicate Behind(a: Fix, b: Fix) { a.index > b.index || (a.index == b.index && a.time > b.time) }

  ghost predicate SameFixes(a: seq<Fix>, b: seq<Fix>) { forall f :: f in a <==> f in b }

  lemma Inserted(s: seq<Fix>, at: nat, f: Fix, some: seq<Fix>)
    requires at <= |s| && SameFixes(s, some)
    ensures SameFixes(s[..at] + [f] + s[at..], some + [f])
  {
    assert s == s[..at] + s[at..];
  }

  // A fix put in its place.
  method Insert(s: seq<Fix>, f: Fix) returns (at: nat)
    requires ByPosition(s)
    ensures at <= |s| && ByPosition(s[..at] + [f] + s[at..])
  {
    at := |s|;
    while at > 0 && Behind(s[at - 1], f)
      invariant at <= |s| && forall j | at <= j < |s| :: f.index <= s[j].index
    {
      at := at - 1;
    }
  }

  method SortFixes(fixes: seq<Fix>) returns (s: seq<Fix>)
    ensures ByPosition(s) && SameFixes(s, fixes)
  {
    s := [];
    for i := 0 to |fixes|
      invariant ByPosition(s) && SameFixes(s, fixes[..i])
    {
      hide ByPosition, SameFixes;
      var at := Insert(s, fixes[i]);
      Inserted(s, at, fixes[i], fixes[..i]);
      assert fixes[..i + 1] == fixes[..i] + [fixes[i]];
      s := s[..at] + [fixes[i]] + s[at..];
    }
    assert fixes[..|fixes|] == fixes;
  }

  // The least time of the j-th and all later fixes.
  ghost predicate IsLeast(s: seq<Fix>, j: nat, time: int) {
    (exists i :: j <= i < |s| && s[i].time == time) && forall i | j <= i < |s| :: time <= s[i].time
  }

  // The fixes by position, each with the earliest time of its own and all further ones.
  ghost predicate Raised(fixes: seq<Fix>, s: seq<Fix>, v: seq<Fix>) {
    && ByPosition(s) && SameFixes(s, fixes) && |v| == |s|
    && forall j | 0 <= j < |s| :: v[j].index == s[j].index && IsLeast(s, j, v[j].time)
  }

  method WitnessTimes(fixes: seq<Fix>) returns (v: seq<Fix>, ghost s: seq<Fix>)
    ensures Raised(fixes, s, v)
  {
    hide ByPosition, SameFixes, IsLeast;
    v := SortFixes(fixes);
    s := v;
    if v == [] { return; }
    var i := |v| - 1;
    LastIsLeast(s);
    while i > 0
      invariant 0 <= i < |v| == |s|
      invariant forall j | 0 <= j < |s| :: v[j].index == s[j].index
      invariant forall j | 0 <= j < i :: v[j] == s[j]
      invariant forall j | i <= j < |s| :: IsLeast(s, j, v[j].time)
    {
      var least := if v[i].time < v[i - 1].time then v[i].time else v[i - 1].time;
      LeastOfMore(s, i, v[i].time);
      v := v[i - 1 := Fix(v[i - 1].index, least)];
      i := i - 1;
    }
  }

  lemma LastIsLeast(s: seq<Fix>)
    requires s != []
    ensures IsLeast(s, |s| - 1, s[|s| - 1].time)
  {
  }

  lemma LeastOfMore(s: seq<Fix>, i: nat, time: int)
    requires 0 < i < |s| && IsLeast(s, i, time)
    ensures IsLeast(s, i - 1, if time < s[i - 1].time then time else s[i - 1].time)
  {
  }

  // The earliest merge that fixes a position, if any does.
  method WitnessedAt(fixes: seq<Fix>, ghost s: seq<Fix>, v: seq<Fix>, index: nat) returns (t: Option<int>)
    requires Raised(fixes, s, v)
    ensures t.None? <==> forall f | f in fixes :: f.index < index
    ensures t.Some? ==> exists f | f in fixes :: f.index >= index && f.time == t.value
    ensures t.Some? ==> forall f | f in fixes && f.index >= index :: t.value <= f.time
  {
    hide ByPosition, SameFixes, IsLeast;
    var at := 0;
    while at < |v| && v[at].index < index
      invariant at <= |v| && forall j | 0 <= j < at :: s[j].index < index
    {
      at := at + 1;
    }
    if at == |v| {
      NoneFixes(fixes, s, index);
      return None;
    }
    t := Some(v[at].time);
    FixesFrom(fixes, s, at, index, v[at].time);
  }

  lemma NoneFixes(fixes: seq<Fix>, s: seq<Fix>, index: nat)
    requires SameFixes(s, fixes) && forall j | 0 <= j < |s| :: s[j].index < index
    ensures forall f | f in fixes :: f.index < index
  {
    assert forall f | f in fixes :: f in s;
  }

  lemma FixesFrom(fixes: seq<Fix>, s: seq<Fix>, at: nat, index: nat, time: int)
    requires SameFixes(s, fixes) && ByPosition(s) && at < |s| && IsLeast(s, at, time) && s[at].index >= index
    requires forall j | 0 <= j < at :: s[j].index < index
    ensures exists f | f in fixes :: f.index >= index && f.time == time
    ensures forall f | f in fixes && f.index >= index :: time <= f.time
  {
    var i :| at <= i < |s| && s[i].time == time;
    assert s[i] in fixes;
    forall f | f in fixes && f.index >= index ensures time <= f.time {
      assert f in s;
      var j :| 0 <= j < |s| && s[j] == f;
    }
  }
}
