// Rings of help: A is helped by B, B by C, C by A (aggregator/match_view).
module Rings {
  import opened Sums

  const MAX_RING: nat := 6

  // Whom each seeker is helped by.
  type Helps = map<nat, seq<nat>>

  predicate Helped(helps: Helps, a: nat, b: nat) { a in helps && b in helps[a] }

  // A way of help among distinct chains none of which is smaller than the first.
  ghost predicate IsWay(helps: Helps, p: seq<nat>) {
    && p != [] && Distinct(p)
    && (forall i | 0 <= i < |p| :: p[0] <= p[i])
    && forall i | 0 <= i < |p| - 1 :: Helped(helps, p[i], p[i + 1])
  }

  // A way that closes: a ring told from its smallest member.
  ghost predicate IsRing(helps: Helps, r: seq<nat>) {
    IsWay(helps, r) && 2 <= |r| <= 6 && Helped(helps, r[|r| - 1], r[0])
  }

  // Every simple cycle has one telling that starts at its smallest member.
  ghost predicate IsCycle(helps: Helps, c: seq<nat>) {
    && c != [] && Distinct(c)
    && forall i | 0 <= i < |c| :: Helped(helps, c[i], c[if i + 1 < |c| then i + 1 else 0])
  }

  function Turned(c: seq<nat>, k: nat): seq<nat>
    requires k <= |c|
  {
    c[k..] + c[..k]
  }

  lemma TurnedAt(c: seq<nat>, k: nat, i: nat)
    requires k < |c| && i < |c|
    ensures Turned(c, k)[i] == c[if k + i < |c| then k + i else k + i - |c|]
  {
  }

  lemma TurnedIsWay(helps: Helps, c: seq<nat>, k: nat)
    requires IsCycle(helps, c) && k < |c| && forall j | 0 <= j < |c| :: c[k] <= c[j]
    ensures IsWay(helps, Turned(c, k)) && Helped(helps, Turned(c, k)[|c| - 1], Turned(c, k)[0])
  {
    var r := Turned(c, k);
    hide Turned;
    assert |r| == |c| by { TurnedLength(c, k); }
    forall i: nat | i < |r| ensures r[0] <= r[i] {
      TurnedAt(c, k, i);
      TurnedAt(c, k, 0);
    }
    forall i: nat, j: nat | i < j < |r| ensures r[i] != r[j] {
      TurnedAt(c, k, i);
      TurnedAt(c, k, j);
    }
    forall i: nat | i < |r| ensures Helped(helps, r[i], r[if i + 1 < |r| then i + 1 else 0]) {
      var at := if k + i < |c| then k + i else k + i - |c|;
      TurnedAt(c, k, i);
      TurnedAt(c, k, if i + 1 < |r| then i + 1 else 0);
      assert Helped(helps, c[at], c[if at + 1 < |c| then at + 1 else 0]);
    }
    assert Helped(helps, r[|r| - 1], r[0]);
    forall i: nat | i < |r| - 1 ensures Helped(helps, r[i], r[i + 1]) {
      assert Helped(helps, r[i], r[if i + 1 < |r| then i + 1 else 0]);
    }
  }

  lemma TurnedLength(c: seq<nat>, k: nat)
    requires k <= |c|
    ensures |Turned(c, k)| == |c|
  {
  }

  // Every cycle of the right length is told as a ring in exactly one of its turns.
  lemma SmallestFirst(helps: Helps, c: seq<nat>) returns (k: nat)
    requires IsCycle(helps, c) && 2 <= |c| <= 6
    ensures k < |c| && IsRing(helps, Turned(c, k))
    ensures forall j: nat | j < |c| && IsRing(helps, Turned(c, j)) :: j == k
  {
    k := 0;
    for i := 1 to |c|
      invariant k < i <= |c| && forall j | 0 <= j < i :: c[k] <= c[j]
    {
      if c[i] < c[k] { k := i; }
    }
    TurnedIsWay(helps, c, k);
    TurnedLength(c, k);
    forall j: nat | j < |c| && IsRing(helps, Turned(c, j)) ensures j == k { OneTurn(helps, c, k, j); }
  }

  lemma OneTurn(helps: Helps, c: seq<nat>, k: nat, j: nat)
    requires Distinct(c) && k < |c| && j < |c| && (forall i | 0 <= i < |c| :: c[k] <= c[i]) &&
             IsRing(helps, Turned(c, j))
    ensures j == k
  {
    var i := if k >= j then k - j else |c| - j + k;
    TurnedLength(c, j);
    TurnedAt(c, j, i);
    TurnedAt(c, j, 0);
    assert Turned(c, j)[0] <= Turned(c, j)[i];
  }

  method RotateToSmallest(path: seq<nat>) returns (ring: seq<nat>)
    requires path != [] && Distinct(path) && forall i | 0 <= i < |path| :: path[0] <= path[i]
    ensures ring == path
  {
    var k := 0;
    for i := 1 to |path|
      invariant 0 <= k < i <= |path| && path[k] == path[0]
    {
      if path[i] < path[k] { k := i; }
    }
    assert path[k] == path[0];
    ring := path[k..] + path[..k];
  }

  // The rings that go on from this way by one of the first n helpers of its last member.
  ghost predicate Through(helps: Helps, path: seq<nat>, edges: seq<nat>, n: nat, r: seq<nat>)
    requires n <= |edges|
  {
    && IsRing(helps, r) && path != [] && path <= r
    && if |r| == |path| then r[0] in edges[..n] else r[|path|] in edges[..n]
  }

  class Search {
    const helps: Helps
    var path: seq<nat>
    var seen: set<seq<nat>>
    var rings: seq<seq<nat>>

    ghost predicate Valid() reads this {
      Distinct(rings) && forall r :: r in seen <==> r in rings
    }

    constructor (helps: Helps)
      ensures Valid() && this.helps == helps && rings == [] && path == []
    {
      this.helps, path, seen, rings := helps, [], {}, [];
    }

    method Record(ring: seq<nat>)
      requires Valid()
      modifies this`seen, this`rings
      ensures Valid() && forall r :: r in rings <==> r in old(rings) || r == ring
    {
      if ring !in seen {
        seen := seen + {ring};
        rings := rings + [ring];
      }
    }

    // Adds exactly the rings that begin with the path, and leaves the path as it was.
    method Walk(start: nat, node: nat)
      requires Valid() && IsWay(helps, path) && |path| <= MAX_RING + 1
      requires path[0] == start && path[|path| - 1] == node
      modifies this
      ensures Valid() && path == old(path)
      ensures forall r :: r in rings <==> r in old(rings) || (IsRing(helps, r) && path <= r)
      decreases MAX_RING + 1 - |path|
    {
      if |path| > MAX_RING { return; }
      if node !in helps {
        NoneFrom(helps, path, []);
        return;
      }
      var edges := helps[node];
      ghost var before := rings;
      for i := 0 to |edges|
        invariant Valid() && path == old(path)
        invariant forall r :: r in rings <==> r in before || Through(helps, path, edges, i, r)
      {
        var next := edges[i];
        NextEdge(helps, path, edges, i);
        if next == start && |path| >= 2 {
          var ring := RotateToSmallest(path);
          Record(ring);
          continue;
        }
        if next < start { continue; }
        if next in path { continue; }
        path := path + [next];
        OneFurther(helps, old(path), edges, i);
        Walk(start, next);
        path := path[..|path| - 1];
      }
      NoneFrom(helps, path, edges);
    }
  }

  // A ring that begins with the path goes on by some helper of its last member.
  lemma NoneFrom(helps: Helps, path: seq<nat>, edges: seq<nat>)
    requires path != [] && if path[|path| - 1] in helps then edges == helps[path[|path| - 1]] else edges == []
    ensures forall r :: IsRing(helps, r) && path <= r <==> Through(helps, path, edges, |edges|, r)
  {
    assert edges[..|edges|] == edges;
    forall r | IsRing(helps, r) && path <= r ensures Through(helps, path, edges, |edges|, r) {
      var n := |path|;
      assert r[n - 1] == path[n - 1];
      if |r| == n { assert Helped(helps, r[n - 1], r[0]); } else { assert Helped(helps, r[n - 1], r[n - 1 + 1]); }
    }
  }

  // What one more helper brings: the path itself when it closes it, what begins with the
  // longer path when it is new and not smaller than the start, else nothing.
  lemma NextEdge(helps: Helps, path: seq<nat>, edges: seq<nat>, i: nat)
    requires IsWay(helps, path) && |path| <= MAX_RING && i < |edges|
    requires path[|path| - 1] in helps && edges == helps[path[|path| - 1]]
    ensures var next := edges[i];
            && (next == path[0] && |path| >= 2 ==>
                  forall r :: Through(helps, path, edges, i + 1, r) <==> Through(helps, path, edges, i, r) || r == path)
            && (next != path[0] && next >= path[0] && next !in path ==>
                  forall r :: Through(helps, path, edges, i + 1, r) <==>
                              Through(helps, path, edges, i, r) || (IsRing(helps, r) && path + [next] <= r))
            && (next < path[0] || (next in path && !(next == path[0] && |path| >= 2)) ==>
                  forall r :: Through(helps, path, edges, i + 1, r) <==> Through(helps, path, edges, i, r))
  {
    var next, n := edges[i], |path|;
    assert edges[..i + 1] == edges[..i] + [next];
    forall r | IsRing(helps, r) && path <= r
      ensures Through(helps, path, edges, i + 1, r) <==>
              Through(helps, path, edges, i, r) || (if |r| == n then r[0] == next else r[n] == next)
      ensures |r| == n ==> r == path
      ensures |r| > n ==> r[n] !in path && r[n] >= path[0] && (r[n] == next <==> path + [next] <= r)
    {
      assert r[..n] == path;
      if |r| > n {
        assert r[0] <= r[n];
        if r[n] == next { assert r[..n + 1] == path + [next]; }
      }
    }
    if next == path[0] && n >= 2 {
      assert Helped(helps, path[n - 1], path[0]);
      assert IsRing(helps, path) && path <= path;
    }
  }

  lemma OneFurther(helps: Helps, path: seq<nat>, edges: seq<nat>, i: nat)
    requires IsWay(helps, path) && i < |edges| && path[|path| - 1] in helps && edges == helps[path[|path| - 1]]
    requires edges[i] >= path[0] && edges[i] !in path
    ensures IsWay(helps, path + [edges[i]])
  {
  }

  ghost predicate TightestFirst(rings: seq<seq<nat>>) {
    forall i, j | 0 <= i < j < |rings| :: |rings[i]| <= |rings[j]|
  }

  lemma InsertedRing(rings: seq<seq<nat>>, r: seq<nat>, at: nat)
    requires Distinct(rings) && r !in rings && at <= |rings|
    ensures var out := rings[..at] + [r] + rings[at..];
            Distinct(out) && forall x :: x in out <==> x in rings || x == r
  {
    assert rings == rings[..at] + rings[at..];
  }

  method SortRings(rings: seq<seq<nat>>) returns (sorted: seq<seq<nat>>)
    requires Distinct(rings)
    ensures Distinct(sorted) && TightestFirst(sorted) && forall r :: r in sorted <==> r in rings
  {
    sorted := [];
    for i := 0 to |rings|
      invariant Distinct(sorted) && TightestFirst(sorted) && forall r :: r in sorted <==> r in rings[..i]
    {
      var at: nat := |sorted|;
      while at > 0 && |sorted[at - 1]| > |rings[i]|
        invariant at <= |sorted| && forall j | at <= j < |sorted| :: |rings[i]| < |sorted[j]|
      {
        at := at - 1;
      }
      assert rings[i] !in rings[..i] && rings[..i + 1] == rings[..i] + [rings[i]];
      InsertedRing(sorted, rings[i], at);
      sorted := sorted[..at] + [rings[i]] + sorted[at..];
    }
    assert rings[..|rings|] == rings;
  }

  // All rings of two to six, each once, the tightest first.
  method FindRings(helps: Helps) returns (rings: seq<seq<nat>>)
    ensures Distinct(rings) && TightestFirst(rings)
    ensures forall r :: r in rings <==> IsRing(helps, r)
  {
    var search := new Search(helps);
    var todo := helps.Keys;
    while todo != {}
      invariant fresh(search) && search.Valid() && search.helps == helps && todo <= helps.Keys
      invariant forall r :: r in search.rings <==> IsRing(helps, r) && r[0] in helps.Keys - todo
      decreases todo
    {
      var node :| node in todo;
      todo := todo - {node};
      search.path := [node];
      search.Walk(node, node);
      StartsAt(helps, node);
    }
    RingsStartSomewhere(helps);
    rings := SortRings(search.rings);
  }

  lemma StartsAt(helps: Helps, node: nat)
    ensures forall r :: IsRing(helps, r) && [node] <= r <==> IsRing(helps, r) && r[0] == node
  {
    forall r | IsRing(helps, r) && r[0] == node ensures [node] <= r {
      assert r[..1] == [node];
    }
  }

  lemma RingsStartSomewhere(helps: Helps)
    ensures forall r | IsRing(helps, r) :: r[0] in helps
  {
    forall r | IsRing(helps, r) ensures r[0] in helps {
      assert Helped(helps, r[0], r[0 + 1]);
    }
  }
}
