// Hours claimed twice: the one-pass sweep over a chain's works (records/goods_thread).
module Overlaps {

  // A work and the hours it claims, from start to finish.
  datatype Work = Work(hash: nat, start: int, finish: int)

  datatype Pair = Pair(first: nat, second: nat)

  predicate Claims(w: Work) { w.finish > w.start }

  predicate Cross(a: Work, b: Work) { a.start < b.finish && b.start < a.finish }

  // Two works that claim hours cross exactly when some second is claimed by both.
  lemma CrossInOneSecond(a: Work, b: Work)
    requires Claims(a) && Claims(b)
    ensures Cross(a, b) <==> exists t :: Within(a, t) && Within(b, t)
  {
    var t := if a.start < b.start then b.start else a.start;
    assert Cross(a, b) ==> Within(a, t) && Within(b, t);
  }

  predicate Within(w: Work, t: int) { w.start <= t < w.finish }

  ghost predicate OneEach(works: seq<Work>) {
    forall i, j | 0 <= i < j < |works| :: works[i].hash != works[j].hash
  }

  predicate Has(works: seq<Work>, h: nat) {
    exists i | 0 <= i < |works| :: works[i].hash == h
  }

  ghost predicate FirstSeen(seen: seq<Work>, w: Work, i: nat) {
    i < |seen| && seen[i] == w && forall j | 0 <= j < i :: seen[j].hash != w.hash
  }

  // The block seen first under a hash is the one that counts.
  method Distinguish(seen: seq<Work>) returns (works: seq<Work>)
    ensures OneEach(works)
    ensures forall w :: w in works <==> exists i :: FirstSeen(seen, w, i)
  {
    works := [];
    for k := 0 to |seen|
      invariant OneEach(works)
      invariant forall w | w in works :: exists i: nat :: i < k && FirstSeen(seen, w, i)
      invariant forall i: nat, w | i < k && FirstSeen(seen, w, i) :: w in works
      invariant forall i | 0 <= i < k :: Has(works, seen[i].hash)
    {
      if !Has(works, seen[k].hash) {
        ghost var before := works;
        works := works + [seen[k]];
        assert FirstSeen(seen, seen[k], k);
        assert works[|before|].hash == seen[k].hash;
        forall i | 0 <= i < k ensures Has(works, seen[i].hash) {
          var j :| 0 <= j < |before| && before[j].hash == seen[i].hash;
          assert works[j].hash == seen[i].hash;
        }
      } else {
        assert forall w :: !FirstSeen(seen, w, k) by {
          var j :| 0 <= j < |works| && works[j].hash == seen[k].hash;
          assert works[j] in works;
          var i: nat :| i < k && FirstSeen(seen, works[j], i);
        }
      }
    }
  }

  predicate Earlier(a: Work, b: Work) {
    a.start < b.start || (a.start == b.start && a.hash <= b.hash)
  }

  ghost predicate ByStart(works: seq<Work>) {
    forall i, j | 0 <= i < j < |works| :: Earlier(works[i], works[j])
  }

  lemma Inserted(works: seq<Work>, w: Work, at: nat)
    requires OneEach(works) && at <= |works| && forall x | x in works :: x.hash != w.hash
    ensures var out := works[..at] + [w] + works[at..];
            OneEach(out) && forall x :: x in out <==> x in works || x == w
  {
    assert works == works[..at] + works[at..];
    assert forall i | 0 <= i < |works| :: works[i] in works;
  }

  // The works that claim hours, by start.
  method SortByStart(works: seq<Work>) returns (sorted: seq<Work>)
    requires OneEach(works)
    ensures OneEach(sorted) && ByStart(sorted)
    ensures forall w :: w in sorted <==> w in works && Claims(w)
  {
    sorted := [];
    for k := 0 to |works|
      invariant OneEach(sorted) && ByStart(sorted)
      invariant forall w :: w in sorted <==> w in works[..k] && Claims(w)
    {
      var w := works[k];
      assert works[..k + 1] == works[..k] + [w];
      if !Claims(w) { continue; }
      var at: nat := |sorted|;
      while at > 0 && !Earlier(sorted[at - 1], w)
        invariant at <= |sorted| && forall j | at <= j < |sorted| :: Earlier(w, sorted[j])
      {
        at := at - 1;
      }
      Inserted(sorted, w, at);
      sorted := sorted[..at] + [w] + sorted[at..];
    }
    assert works[..|works|] == works;
  }

  // The work at i crosses another of the first n.
  ghost predicate CrossesOne(works: seq<Work>, i: nat, n: nat)
    requires i < n <= |works|
  {
    exists j | 0 <= j < n :: j != i && Cross(works[i], works[j])
  }

  ghost predicate RealPair(works: seq<Work>, p: Pair) {
    exists i, j | 0 <= i < j < |works| :: p == Pair(works[i].hash, works[j].hash) && Cross(works[i], works[j])
  }

  // The furthest reaching of the first n.
  ghost predicate Reaches(works: seq<Work>, r: nat, n: nat) {
    r < n <= |works| && forall j | 0 <= j < n :: works[j].finish <= works[r].finish
  }

  // Keeping only the work that reaches furthest loses no crossing: whatever crosses an earlier
  // work crosses that one, and the two of them cross already.
  lemma FurthestTells(works: seq<Work>, r: nat, n: nat)
    requires ByStart(works) && Reaches(works, r, n) && n < |works| && forall j | 0 <= j < |works| :: Claims(works[j])
    ensures CrossesOne(works, n, n + 1) <==> works[n].start < works[r].finish
    ensures forall i | 0 <= i < n ::
              CrossesOne(works, i, n + 1) <==> CrossesOne(works, i, n) || (i == r && works[n].start < works[r].finish)
  {
    assert forall j | 0 <= j < n :: Earlier(works[j], works[n]);
    if works[n].start < works[r].finish { assert Cross(works[n], works[r]) && Cross(works[r], works[n]); }
    forall i | 0 <= i < n
      ensures CrossesOne(works, i, n + 1) <==> CrossesOne(works, i, n) || (i == r && works[n].start < works[r].finish)
    {
      if Cross(works[i], works[n]) && i != r { assert Cross(works[i], works[r]); }
    }
  }

  method Sweep(works: seq<Work>) returns (overlapping: set<nat>, pairs: seq<Pair>)
    requires OneEach(works) && ByStart(works) && forall j | 0 <= j < |works| :: Claims(works[j])
    ensures forall i | 0 <= i < |works| :: works[i].hash in overlapping <==> CrossesOne(works, i, |works|)
    ensures forall h | h in overlapping :: Has(works, h)
    ensures forall p | p in pairs :: RealPair(works, p)
  {
    hide CrossesOne, RealPair, Reaches, Hashes, ByStart;
    overlapping, pairs := {}, [];
    var r: nat := 0;
    ghost var marked: set<nat> := {};
    OneAlone(works);
    for n := 0 to |works|
      invariant if n == 0 then r == 0 else Reaches(works, r, n)
      invariant forall i | i in marked :: i < n
      invariant forall i | 0 <= i < n :: i in marked <==> CrossesOne(works, i, n)
      invariant overlapping == Hashes(works, marked)
      invariant forall p | p in pairs :: RealPair(works, p)
    {
      if n > 0 {
        assert r < n by { ReachesBelow(works, r, n); }
        FurthestTells(works, r, n);
        if works[n].start < works[r].finish {
          RealOne(works, r, n);
          MarkTwo(works, marked, r, n);
          marked := marked + {r, n};
          overlapping := overlapping + {works[r].hash, works[n].hash};
          pairs := pairs + [Pair(works[r].hash, works[n].hash)];
        }
        ReachNext(works, r, n);
        if works[n].finish > works[r].finish { r := n; }
      }
    }
    HashTells(works, marked);
  }

  function Hashes(works: seq<Work>, marked: set<nat>): set<nat> {
    set i | i in marked && i < |works| :: works[i].hash
  }

  lemma MarkTwo(works: seq<Work>, marked: set<nat>, a: nat, b: nat)
    requires a < |works| && b < |works|
    ensures Hashes(works, marked + {a, b}) == Hashes(works, marked) + {works[a].hash, works[b].hash}
  {
    assert forall i | i in marked + {a, b} :: i in marked || i == a || i == b;
    assert a in marked + {a, b} && b in marked + {a, b};
  }

  lemma HashTells(works: seq<Work>, marked: set<nat>)
    requires OneEach(works)
    ensures forall i: nat | i < |works| :: works[i].hash in Hashes(works, marked) <==> i in marked
    ensures forall h | h in Hashes(works, marked) :: Has(works, h)
  {
  }

  lemma RealOne(works: seq<Work>, r: nat, n: nat)
    requires ByStart(works) && r < n < |works| && Claims(works[n]) && works[n].start < works[r].finish
    ensures RealPair(works, Pair(works[r].hash, works[n].hash))
  {
    assert Earlier(works[r], works[n]) && Cross(works[r], works[n]);
  }

  lemma OneAlone(works: seq<Work>)
    ensures Hashes(works, {}) == {}
    ensures |works| > 0 ==> !CrossesOne(works, 0, 1) && Reaches(works, 0, 1)
  {
  }

  lemma ReachesBelow(works: seq<Work>, r: nat, n: nat)
    requires Reaches(works, r, n)
    ensures r < n
  {
  }

  lemma ReachNext(works: seq<Work>, r: nat, n: nat)
    requires Reaches(works, r, n) && n < |works|
    ensures Reaches(works, if works[n].finish > works[r].finish then n else r, n + 1)
  {
  }

  // The works that count.
  ghost predicate Counts(seen: seq<Work>, w: Work) {
    exists i :: FirstSeen(seen, w, i)
  }

  // A work overlaps exactly when it and some other work claim crossing hours.
  method FindOverlaps(seen: seq<Work>) returns (overlapping: set<nat>, pairs: seq<Pair>)
    ensures forall h :: h in overlapping <==>
              exists a, b | Counts(seen, a) && Counts(seen, b) ::
                h == a.hash && a != b && Claims(a) && Claims(b) && Cross(a, b)
    ensures forall p | p in pairs ::
              exists a, b | Counts(seen, a) && Counts(seen, b) :: p == Pair(a.hash, b.hash) && a != b && Cross(a, b)
  {
    hide Cross, FirstSeen;
    var works := Distinguish(seen);
    assert forall w :: w in works <==> Counts(seen, w);
    var sorted := SortByStart(works);
    assert forall j | 0 <= j < |sorted| :: sorted[j] in sorted;
    overlapping, pairs := Sweep(sorted);
    SweepTells(works, sorted, overlapping, pairs);
  }

  lemma SweepTells(works: seq<Work>, sorted: seq<Work>, overlapping: set<nat>, pairs: seq<Pair>)
    requires OneEach(works) && OneEach(sorted) && forall w :: w in sorted <==> w in works && Claims(w)
    requires forall i | 0 <= i < |sorted| :: sorted[i].hash in overlapping <==> CrossesOne(sorted, i, |sorted|)
    requires forall h | h in overlapping :: Has(sorted, h)
    requires forall p | p in pairs :: RealPair(sorted, p)
    ensures forall h :: h in overlapping <==>
              exists a, b | a in works && b in works :: h == a.hash && a != b && Claims(a) && Claims(b) && Cross(a, b)
    ensures forall p | p in pairs ::
              exists a, b | a in works && b in works :: p == Pair(a.hash, b.hash) && a != b && Cross(a, b)
  {
    hide Cross;
    assert forall j | 0 <= j < |sorted| :: sorted[j] in sorted;
    forall h | h in overlapping
      ensures exists a, b | a in works && b in works :: h == a.hash && a != b && Claims(a) && Claims(b) && Cross(a, b)
    {
      var i: nat :| i < |sorted| && sorted[i].hash == h;
      var j :| 0 <= j < |sorted| && j != i && Cross(sorted[i], sorted[j]);
      assert sorted[i] in works && sorted[j] in works;
    }
    forall a, b | a in works && b in works && a != b && Claims(a) && Claims(b) && Cross(a, b)
      ensures a.hash in overlapping {
      var i: nat :| i < |sorted| && sorted[i] == a;
      var j: nat :| j < |sorted| && sorted[j] == b;
      assert CrossesOne(sorted, i, |sorted|);
    }
    forall p | p in pairs
      ensures exists a, b | a in works && b in works :: p == Pair(a.hash, b.hash) && a != b && Cross(a, b) {
      var i, j :| 0 <= i < j < |sorted| && p == Pair(sorted[i].hash, sorted[j].hash) && Cross(sorted[i], sorted[j]);
      assert sorted[i] in works && sorted[j] in works;
    }
  }
}
