// How much of each payment flow returns through a short cycle (aggregator/rates_view):
// an exhaustive backtracking search for a cycle of a given length, and greedy cancelling
// of the cycles found, shortest first.
module Circulation {
  import opened Sums

  type Node = nat
  type Edge = (Node, Node)
  type Flow = map<Edge, real>

  const FLOW_EPS: real := 0.000000001

  // The edges that still carry flow.
  function Live(resid: Flow): set<Edge> {
    set e | e in resid && resid[e] > FLOW_EPS
  }

  // ---------- Cycles ----------

  // A walk from `node` back to `start` along live edges, through nodes not yet visited.
  predicate Closes(live: set<Edge>, start: Node, node: Node, visited: set<Node>, tail: seq<Edge>)
    decreases |tail|
  {
    && tail != [] && tail[0] in live && tail[0].0 == node
    && if |tail| == 1 then tail[0].1 == start
       else && tail[0].1 != start && tail[0].1 !in visited
            && Closes(live, start, tail[0].1, visited + {tail[0].1}, tail[1..])
  }

  // A simple cycle: each edge starts where the one before it ends, no node twice.
  ghost predicate IsCycle(live: set<Edge>, cycle: seq<Edge>) {
    && |cycle| >= 2
    && (forall i | 0 <= i < |cycle| :: cycle[i] in live)
    && (forall i | 0 <= i < |cycle| - 1 :: cycle[i].1 == cycle[i + 1].0)
    && cycle[|cycle| - 1].1 == cycle[0].0
    && (forall i, j | 0 <= i < j < |cycle| :: cycle[i].0 != cycle[j].0)
  }

  lemma {:induction false} ClosesNeedsOnlyLive(live: set<Edge>, live': set<Edge>, start: Node, node: Node,
                                               visited: set<Node>, tail: seq<Edge>)
    requires live <= live' && Closes(live, start, node, visited, tail)
    ensures Closes(live', start, node, visited, tail)
    decreases |tail|
  {
    if |tail| > 1 {
      ClosesNeedsOnlyLive(live, live', start, tail[0].1, visited + {tail[0].1}, tail[1..]);
    }
  }

  // The rest of a simple cycle closes it.
  lemma {:induction false} CycleTailCloses(live: set<Edge>, cycle: seq<Edge>, k: nat, visited: set<Node>)
    requires IsCycle(live, cycle) && 1 <= k < |cycle|
    requires forall x :: x in visited <==> exists i | 0 <= i <= k :: cycle[i].0 == x
    ensures Closes(live, cycle[0].0, cycle[k].0, visited, cycle[k..])
    decreases |cycle| - k
  {
    if k < |cycle| - 1 {
      var next := cycle[k].1;
      assert next == cycle[k + 1].0;
      CycleTailCloses(live, cycle, k + 1, visited + {next});
      assert cycle[k..][1..] == cycle[k + 1..];
    }
  }

  // What closes is a chain of edges whose sources were not visited before, each once.
  lemma {:induction false} ClosedChain(live: set<Edge>, start: Node, node: Node, visited: set<Node>, tail: seq<Edge>)
    requires Closes(live, start, node, visited, tail) && node in visited
    ensures forall i | 0 <= i < |tail| :: tail[i] in live
    ensures forall i | 0 <= i < |tail| - 1 :: tail[i].1 == tail[i + 1].0
    ensures tail[0].0 == node && tail[|tail| - 1].1 == start
    ensures forall i | 1 <= i < |tail| :: tail[i].0 !in visited
    ensures forall i, j | 0 <= i < j < |tail| :: tail[i].0 != tail[j].0
    decreases |tail|
  {
    if |tail| > 1 {
      var rest := tail[1..];
      ClosedChain(live, start, tail[0].1, visited + {tail[0].1}, rest);
      forall i | 1 <= i < |tail| ensures tail[i].0 !in visited && tail[i].0 != tail[0].0 {
        assert tail[i] == rest[i - 1];
      }
      forall i, j | 1 <= i < j < |tail| ensures tail[i].0 != tail[j].0 {
        assert tail[i] == rest[i - 1] && tail[j] == rest[j - 1];
      }
      forall i | 0 <= i < |tail| - 1 ensures tail[i].1 == tail[i + 1].0 {
        assert tail[i + 1] == rest[i];
        if i > 0 { assert tail[i] == rest[i - 1]; }
      }
    }
  }

  // ---------- The search ----------

  ghost predicate Adjacency(resid: Flow, out: map<Node, seq<Node>>) {
    forall e | e in resid :: e.0 in out && e.1 in out[e.0]
  }

  // Exactly `remaining` more edges back to `start`: found, or there is no such way.
  method FindCycle(resid: Flow, out: map<Node, seq<Node>>, start: Node, node: Node, remaining: nat,
                   visited: set<Node>, path: seq<Edge>)
    returns (found: bool, visited': set<Node>, path': seq<Edge>)
    requires remaining >= 1 && Adjacency(resid, out)
    ensures found ==> |path'| == |path| + remaining && path' == path + path'[|path|..] &&
                      Closes(Live(resid), start, node, visited, path'[|path|..])
    ensures !found ==> path' == path && visited' == visited
    ensures !found ==> forall tail: seq<Edge> | |tail| == remaining :: !Closes(Live(resid), start, node, visited, tail)
    decreases remaining
  {
    visited', path' := visited, path;
    if remaining == 1 {
      var last := (node, start);
      if last !in resid || resid[last] <= FLOW_EPS {
        forall tail: seq<Edge> | |tail| == 1 ensures !Closes(Live(resid), start, node, visited, tail) {
          if tail[0].0 == node && tail[0].1 == start { assert tail[0] == last; }
        }
        return false, visited', path';
      }
      path' := path' + [last];
      assert path'[|path|..] == [last];
      return true, visited', path';
    }
    if node !in out {
      return false, visited', path';
    }
    var i := 0;
    while i < |out[node]|
      invariant 0 <= i <= |out[node]|
      invariant visited' == visited && path' == path
      invariant forall tail: seq<Edge> | |tail| == remaining && Closes(Live(resid), start, node, visited, tail) ::
                  tail[0].1 !in out[node][..i]
    {
      var next := out[node][i];
      if next != start && next !in visited' && (node, next) in resid && resid[(node, next)] > FLOW_EPS {
        visited', path' := visited' + {next}, path' + [(node, next)];
        found, visited', path' := FindCycle(resid, out, start, next, remaining - 1, visited', path');
        if found {
          var tail := path'[|path|..];
          assert tail == [(node, next)] + path'[|path| + 1..];
          assert tail[1..] == path'[|path| + 1..];
          return;
        }
        visited', path' := visited' - {next}, path'[..|path'| - 1];
        assert visited' == visited && path' == path;
      }
      forall tail: seq<Edge> | |tail| == remaining && Closes(Live(resid), start, node, visited, tail)
        ensures tail[0].1 !in out[node][..i + 1]
      {
        assert |tail[1..]| == remaining - 1 && (tail[0].0, tail[0].1) == tail[0];
      }
      i := i + 1;
    }
    assert out[node][..|out[node]|] == out[node];
    found := false;
  }

  // ---------- Cancelling one cycle ----------

  // What node x gains over what it gives.
  ghost function Net(order: seq<Edge>, circ: Flow, x: Node): real {
    Sum(order, (e: Edge) =>
          if e in circ then (if e.1 == x then circ[e] else 0.0) - (if e.0 == x then circ[e] else 0.0) else 0.0)
  }

  ghost predicate Balanced(order: seq<Edge>, circ: Flow) {
    forall x: Node :: Net(order, circ, x) == 0.0
  }

  function At(x: Node, y: Node, m: real): real {
    if x == y then m else 0.0
  }

  // More on one edge moves as much from its source to its target.
  lemma NetOfOneMore(order: seq<Edge>, circ: Flow, e: Edge, m: real, x: Node)
    requires Distinct(order) && e in order && e in circ
    ensures Net(order, circ[e := circ[e] + m], x) == Net(order, circ, x) + At(e.1, x, m) - At(e.0, x, m)
  {
    var circ' := circ[e := circ[e] + m];
    var f := (e: Edge) =>
      if e in circ then (if e.1 == x then circ[e] else 0.0) - (if e.0 == x then circ[e] else 0.0) else 0.0;
    var f' := (e: Edge) =>
      if e in circ' then (if e.1 == x then circ'[e] else 0.0) - (if e.0 == x then circ'[e] else 0.0) else 0.0;
    var d := (y: Edge) => if y == e then At(e.1, x, m) - At(e.0, x, m) else 0.0;
    SumAdd(order, f, d, f');
    SumPoint(order, d, e);
  }

  // m for each time the path takes edge e.
  function Pushed(path: seq<Edge>, e: Edge, m: real): real {
    if path == [] then 0.0 else Pushed(path[..|path| - 1], e, m) + if path[|path| - 1] == e then m else 0.0
  }

  ghost predicate ClosedWalk(path: seq<Edge>) {
    && path != [] && path[|path| - 1].1 == path[0].0
    && forall i | 0 <= i < |path| - 1 :: path[i].1 == path[i + 1].0
  }

  method LeastResidual(resid: Flow, path: seq<Edge>) returns (m: real)
    requires path != [] && forall e | e in path :: e in resid
    ensures (forall e | e in path :: m <= resid[e]) && exists e | e in path :: m == resid[e]
  {
    m := resid[path[0]];
    for i := 0 to |path|
      invariant forall j | 0 <= j < i :: m <= resid[path[j]]
      invariant exists e | e in path :: m == resid[e]
    {
      if resid[path[i]] < m { m := resid[path[i]]; }
    }
  }

  // Taking m off every edge of a closed walk, and adding it to what circulates.
  method PushAround(ghost order: seq<Edge>, resid: Flow, circ: Flow, path: seq<Edge>, m: real)
    returns (resid': Flow, circ': Flow)
    requires Distinct(order) && ClosedWalk(path) && resid.Keys == circ.Keys
    requires forall e | e in path :: e in resid && e in order
    ensures resid'.Keys == circ'.Keys == resid.Keys
    ensures forall e | e in resid :: resid'[e] == resid[e] - Pushed(path, e, m)
    ensures forall e | e in resid :: circ'[e] == circ[e] + Pushed(path, e, m)
    ensures forall x: Node :: Net(order, circ', x) == Net(order, circ, x)
  {
    hide Net, Distinct;
    resid', circ' := resid, circ;
    for i := 0 to |path|
      invariant resid'.Keys == circ'.Keys == resid.Keys
      invariant forall e | e in resid :: resid'[e] == resid[e] - Pushed(path[..i], e, m)
      invariant forall e | e in resid :: circ'[e] == circ[e] + Pushed(path[..i], e, m)
      invariant forall x: Node :: Net(order, circ', x) == Net(order, circ, x) + Carried(path, i, m, x)
    {
      var e := path[i];
      assert e in path && path[..i + 1][..i] == path[..i];
      forall x: Node
        ensures Net(order, circ'[e := circ'[e] + m], x) == Net(order, circ, x) + Carried(path, i + 1, m, x)
      {
        NetOfOneMore(order, circ', e, m, x);
        CarriedOn(path, i, m, x);
      }
      resid', circ' := resid'[e := resid'[e] - m], circ'[e := circ'[e] + m];
    }
    assert path[..|path|] == path;
  }

  // What the first i edges of a walk bring to node x.
  function Carried(path: seq<Edge>, i: nat, m: real, x: Node): real
    requires i <= |path|
  {
    if i == 0 then 0.0 else At(path[i - 1].1, x, m) - At(path[0].0, x, m)
  }

  lemma CarriedOn(path: seq<Edge>, i: nat, m: real, x: Node)
    requires i < |path| && ClosedWalk(path)
    ensures Carried(path, i + 1, m, x) == Carried(path, i, m, x) + At(path[i].1, x, m) - At(path[i].0, x, m)
  {
    assert i > 0 ==> path[i - 1].1 == path[i].0;
  }

  // ---------- Greedy cancelling ----------

  // One cancelling: around which walk, how much.
  datatype Push = Push(path: seq<Edge>, m: real)

  // A walk back to where it began, of at most `len` payments, through different people — or one's
  // payment to oneself, taken twice; every payment of it has more than a billionth left, and the
  // least that any of them has left is what is pushed around.
  ghost predicate Fits(flow: Flow, circ: Flow, p: Push, len: nat)
    requires circ.Keys == flow.Keys
  {
    && 2 <= |p.path| <= len
    && (forall i | 0 <= i < |p.path| :: p.path[i] in flow)
    && (forall i | 0 <= i < |p.path| - 1 :: p.path[i].1 == p.path[i + 1].0) && p.path[|p.path| - 1].1 == p.path[0].0
    && ((forall i, j | 0 <= i < j < |p.path| :: p.path[i].0 != p.path[j].0) ||
        (|p.path| == 2 && p.path[0] == p.path[1]))
    && (forall e | e in p.path :: flow[e] - circ[e] > 0.000000001 && p.m <= flow[e] - circ[e])
    && exists e | e in p.path :: p.m == flow[e] - circ[e]
  }

  // What circulates after these cancellings, edge by edge.
  function CircOf(flow: Flow, pushes: seq<Push>): (circ: Flow)
    ensures circ.Keys == flow.Keys
  {
    if pushes == [] then map e | e in flow :: 0.0
    else
      var before, p := CircOf(flow, pushes[..|pushes| - 1]), pushes[|pushes| - 1];
      map e | e in flow :: before[e] + Pushed(p.path, e, p.m)
  }

  // Shorter walks are cancelled first, each when its turn comes.
  ghost predicate Greedy(flow: Flow, pushes: seq<Push>, len: nat) {
    pushes == [] ||
    var before, p := pushes[..|pushes| - 1], pushes[|pushes| - 1];
    Fits(flow, CircOf(flow, before), p, len) && Greedy(flow, before, |p.path|)
  }

  lemma NothingPushed(flow: Flow, len: nat)
    ensures Greedy(flow, [], len) && CircOf(flow, []) == map e | e in flow :: 0.0
  {
  }

  lemma {:induction false} GreedyWithin(flow: Flow, pushes: seq<Push>, len: nat, len': nat)
    requires Greedy(flow, pushes, len) && len <= len'
    ensures Greedy(flow, pushes, len')
  {
  }

  // What every cancelling keeps. A payment to oneself closes a "cycle" of two copies of one
  // edge: it is taken off twice, and stands below zero from then on.
  ghost predicate Keeps(flow: Flow, order: seq<Edge>, resid: Flow, circ: Flow) {
    && resid.Keys == circ.Keys == flow.Keys
    && Balanced(order, circ)
    && forall e | e in flow ::
         && resid[e] + circ[e] == flow[e] && circ[e] >= 0.0
         && (e.0 != e.1 ==> resid[e] >= 0.0)
         && (e.0 == e.1 ==> resid[e] == flow[e] || (flow[e] > FLOW_EPS && resid[e] == -flow[e]))
  }

  ghost predicate Lists(order: seq<Edge>, flow: Flow) {
    Distinct(order) && forall e :: e in order <==> e in flow
  }

  lemma {:induction false} PushedOnce(path: seq<Edge>, e: Edge, m: real)
    requires forall i, j | 0 <= i < j < |path| :: path[i] != path[j]
    ensures Pushed(path, e, m) == if e in path then m else 0.0
  {
    if path != [] {
      var rest := path[..|path| - 1];
      PushedOnce(rest, e, m);
      assert path == rest + [path[|path| - 1]];
    }
  }

  // An edge and what closes it make a closed walk; unless the edge is a payment to oneself,
  // it takes no edge twice and no such payment.
  lemma FoundWalk(live: set<Edge>, e0: Edge, tail: seq<Edge>)
    requires e0 in live && Closes(live, e0.0, e0.1, {e0.0, e0.1}, tail)
    ensures ClosedWalk([e0] + tail) && forall e | e in [e0] + tail :: e in live
    ensures e0.0 != e0.1 ==>
              && (forall i, j | 0 <= i < j < |[e0] + tail| :: ([e0] + tail)[i].0 != ([e0] + tail)[j].0)
              && forall e | e in [e0] + tail :: e.0 != e.1
    ensures e0.0 == e0.1 && |tail| == 1 ==> tail == [e0]
  {
    ClosedChain(live, e0.0, e0.1, {e0.0, e0.1}, tail);
    var path := [e0] + tail;
    forall i | 0 <= i < |path| - 1 ensures path[i].1 == path[i + 1].0 {
      if i > 0 { assert path[i] == tail[i - 1] && path[i + 1] == tail[i]; }
    }
    if e0.0 != e0.1 {
      forall i, j | 0 <= i < j < |path| ensures path[i].0 != path[j].0 {
        if i > 0 { assert path[i] == tail[i - 1] && path[j] == tail[j - 1]; }
      }
      forall i | 0 <= i < |path| ensures path[i].0 != path[i].1 {
        if i < |path| - 1 { assert path[i].1 == path[i + 1].0; }
      }
    }
  }

  // One found cycle cancelled: what is kept stays kept, and some edge runs dry.
  method CancelFound(ghost flow: Flow, ghost order: seq<Edge>, resid: Flow, circ: Flow, ghost pushes: seq<Push>,
      e0: Edge, tail: seq<Edge>)
    returns (resid': Flow, circ': Flow, ghost pushes': seq<Push>)
    requires Lists(order, flow) && Keeps(flow, order, resid, circ)
    requires e0 in Live(resid) && Closes(Live(resid), e0.0, e0.1, {e0.0, e0.1}, tail)
    requires e0.0 == e0.1 ==> |tail| == 1
    requires circ == CircOf(flow, pushes) && Greedy(flow, pushes, |tail| + 1)
    ensures Keeps(flow, order, resid', circ') && Live(resid') < Live(resid)
    ensures circ' == CircOf(flow, pushes') && Greedy(flow, pushes', |tail| + 1)
  {
    hide Net, Closes, ClosedWalk, Distinct, Pushed, Balanced, Greedy, Fits, CircOf;
    FoundWalk(Live(resid), e0, tail);
    var path := [e0] + tail;
    var m := LeastResidual(resid, path);
    resid', circ' := PushAround(order, resid, circ, path, m);
    pushes' := pushes + [Push(path, m)];
    hide Keeps, Live;
    OnePushMore(flow, resid, circ, circ', pushes, Push(path, m)) by { KeepsParts(flow, order, resid, circ); }
    WalkTaken(e0, path, m);
    PushKeeps(flow, order, resid, circ, resid', circ', path, m);
  }

  lemma KeepsParts(flow: Flow, order: seq<Edge>, resid: Flow, circ: Flow)
    requires Keeps(flow, order, resid, circ)
    ensures resid.Keys == circ.Keys == flow.Keys && forall e | e in flow :: resid[e] + circ[e] == flow[e]
  {
  }

  // Each payment of a found walk is lowered once, or by oneself twice.
  lemma WalkTaken(e0: Edge, path: seq<Edge>, m: real)
    requires path != [] && path[0] == e0
    requires e0.0 != e0.1 ==> forall i, j | 0 <= i < j < |path| :: path[i].0 != path[j].0
    requires e0.0 == e0.1 ==> path == [e0, e0]
    ensures forall e :: Pushed(path, e, m) == if e !in path then 0.0 else if e0.0 == e0.1 then m + m else m
  {
    if e0.0 == e0.1 {
      PushedTwice(e0, m);
    } else {
      forall e ensures Pushed(path, e, m) == if e in path then m else 0.0 { PushedOnce(path, e, m); }
    }
  }

  lemma PushKeeps(flow: Flow, order: seq<Edge>, resid: Flow, circ: Flow, resid': Flow, circ': Flow, path: seq<Edge>,
                  m: real)
    requires Keeps(flow, order, resid, circ) && resid'.Keys == circ'.Keys == resid.Keys && path != []
    requires forall e | e in path :: e in Live(resid) && m <= resid[e]
    requires exists e | e in path :: e in resid && m == resid[e]
    requires var twice := path[0].0 == path[0].1;
             && (twice ==> path == [path[0], path[0]]) && (!twice ==> forall e | e in path :: e.0 != e.1)
             && forall e | e in resid ::
                  var taken := if e !in path then 0.0 else if twice then m + m else m;
                  resid'[e] == resid[e] - taken && circ'[e] == circ[e] + taken
    requires forall x: Node :: Net(order, circ', x) == Net(order, circ, x)
    ensures Keeps(flow, order, resid', circ') && Live(resid') < Live(resid)
  {
    hide Net, Balanced;
    StillBalanced(order, circ, circ');
    var least: Edge :| least in path && m == resid[least];
    assert least in Live(resid) && least !in Live(resid');
  }

  lemma OnePushMore(flow: Flow, resid: Flow, circ: Flow, circ': Flow, pushes: seq<Push>, p: Push)
    requires circ == CircOf(flow, pushes) && Greedy(flow, pushes, |p.path|)
    requires resid.Keys == circ'.Keys == flow.Keys && forall e | e in flow :: resid[e] + circ[e] == flow[e]
    requires ClosedWalk(p.path) && |p.path| >= 2 && (forall e | e in p.path :: e in Live(resid) && p.m <= resid[e])
    requires exists e | e in p.path :: e in resid && p.m == resid[e]
    requires (forall i, j | 0 <= i < j < |p.path| :: p.path[i].0 != p.path[j].0) ||
             (|p.path| == 2 && p.path[0] == p.path[1])
    requires forall e | e in flow :: circ'[e] == circ[e] + Pushed(p.path, e, p.m)
    ensures circ' == CircOf(flow, pushes + [p]) && Greedy(flow, pushes + [p], |p.path|)
  {
    hide Pushed, Fits, ClosedWalk, CircOf;
    assert (pushes + [p])[..|pushes|] == pushes;
    CircOneMore(flow, circ', pushes, p);
    FitsNow(flow, resid, circ, p);
  }

  lemma CircOneMore(flow: Flow, circ': Flow, pushes: seq<Push>, p: Push)
    requires circ'.Keys == flow.Keys
    requires forall e | e in flow :: circ'[e] == CircOf(flow, pushes)[e] + Pushed(p.path, e, p.m)
    ensures circ' == CircOf(flow, pushes + [p])
  {
    hide Pushed;
    assert (pushes + [p])[..|pushes|] == pushes;
  }

  lemma FitsNow(flow: Flow, resid: Flow, circ: Flow, p: Push)
    requires resid.Keys == circ.Keys == flow.Keys && forall e | e in flow :: resid[e] + circ[e] == flow[e]
    requires ClosedWalk(p.path) && |p.path| >= 2 && (forall e | e in p.path :: e in Live(resid) && p.m <= resid[e])
    requires exists e | e in p.path :: e in resid && p.m == resid[e]
    requires (forall i, j | 0 <= i < j < |p.path| :: p.path[i].0 != p.path[j].0) ||
             (|p.path| == 2 && p.path[0] == p.path[1])
    ensures Fits(flow, circ, p, |p.path|)
  {
    forall i | 0 <= i < |p.path| ensures p.path[i] in flow { assert p.path[i] in p.path; }
    forall e | e in p.path ensures e in flow && resid[e] == flow[e] - circ[e] {}
  }

  lemma StillBalanced(order: seq<Edge>, circ: Flow, circ': Flow)
    requires Balanced(order, circ) && forall x: Node :: Net(order, circ', x) == Net(order, circ, x)
    ensures Balanced(order, circ')
  {
  }

  // Around a payment to oneself both steps are the same edge.
  lemma PushedTwice(e0: Edge, m: real)
    ensures Pushed([e0, e0], e0, m) == m + m
    ensures forall e | e != e0 :: Pushed([e0, e0], e, m) == 0.0
  {
    assert [e0, e0][..1] == [e0] && [e0][..0] == [];
    forall e ensures Pushed([e0, e0], e, m) == if e == e0 then m + m else 0.0 {
      assert Pushed([e0, e0], e, m) == Pushed([e0], e, m) + if e == e0 then m else 0.0;
    }
  }

  // No way of length n closes edge e.
  ghost predicate Exhausted(resid: Flow, e: Edge, n: nat) {
    e in Live(resid) ==> forall tail: seq<Edge> | |tail| == n :: !Closes(Live(resid), e.0, e.1, {e.0, e.1}, tail)
  }

  lemma ExhaustedStays(resid: Flow, resid': Flow, e: Edge, n: nat)
    requires Exhausted(resid, e, n) && Live(resid') <= Live(resid)
    ensures Exhausted(resid', e, n)
  {
    forall tail: seq<Edge> | |tail| == n && Closes(Live(resid'), e.0, e.1, {e.0, e.1}, tail)
      ensures e in Live(resid') ==> false
    {
      ClosesNeedsOnlyLive(Live(resid'), Live(resid), e.0, e.1, {e.0, e.1}, tail);
    }
  }

  // All cycles through e0 of n + 1 edges cancelled, one after another.
  method CancelAt(ghost flow: Flow, ghost order: seq<Edge>, resid: Flow, circ: Flow, ghost pushes: seq<Push>,
      out: map<Node, seq<Node>>, e0: Edge, n: nat)
    returns (resid': Flow, circ': Flow, ghost pushes': seq<Push>)
    requires Lists(order, flow) && Keeps(flow, order, resid, circ) && e0 in flow && n >= 1
    requires forall e | e in flow :: e.0 in out && e.1 in out[e.0]
    requires n > 1 && e0.0 == e0.1 ==> e0 !in Live(resid)
    ensures Keeps(flow, order, resid', circ') && Live(resid') <= Live(resid)
    requires circ == CircOf(flow, pushes) && Greedy(flow, pushes, n + 1)
    ensures Exhausted(resid', e0, n)
    ensures circ' == CircOf(flow, pushes') && Greedy(flow, pushes', n + 1)
  {
    hide Keeps, Greedy, CircOf;
    assert Keeps(flow, order, resid, circ) ==> resid.Keys == flow.Keys by { KeysKept(flow, order, resid, circ); }
    resid', circ', pushes' := resid, circ, pushes;
    while resid'[e0] > FLOW_EPS
      invariant Keeps(flow, order, resid', circ') && Live(resid') <= Live(resid) && resid'.Keys == flow.Keys
      invariant circ' == CircOf(flow, pushes') && Greedy(flow, pushes', n + 1)
      decreases Live(resid')
    {
      var found, visited, path := FindCycle(resid', out, e0.0, e0.1, n, {e0.0, e0.1}, [e0]);
      if !found { return; }
      assert |path[1..]| == n;
      resid', circ', pushes' := CancelFound(flow, order, resid', circ', pushes', e0, path[1..]);
      KeysKept(flow, order, resid', circ');
    }
  }

  lemma KeysKept(flow: Flow, order: seq<Edge>, resid: Flow, circ: Flow)
    ensures Keeps(flow, order, resid, circ) ==> resid.Keys == circ.Keys == flow.Keys
  {
  }

  // Who pays whom, in the order of the flow.
  method Neighbours(order: seq<Edge>) returns (out: map<Node, seq<Node>>)
    ensures forall e | e in order :: e.0 in out && e.1 in out[e.0]
  {
    out := map[];
    for i := 0 to |order|
      invariant forall j | 0 <= j < i :: order[j].0 in out && order[j].1 in out[order[j].0]
    {
      var e := order[i];
      out := out[e.0 := (if e.0 in out then out[e.0] else []) + [e.1]];
    }
  }

  // Every cycle's edge is closed by the cycle's rest.
  lemma ExhaustedMeansNoCycle(resid: Flow, order: seq<Edge>, cycle: seq<Edge>)
    requires |cycle| >= 2 && forall j | 0 <= j < |order| :: Exhausted(resid, order[j], |cycle| - 1)
    requires forall e | e in resid :: e in order
    ensures !IsCycle(Live(resid), cycle)
  {
    if IsCycle(Live(resid), cycle) {
      var e := cycle[0];
      assert e.1 == cycle[1].0 && e in order && |cycle[1..]| == |cycle| - 1;
      CycleTailCloses(Live(resid), cycle, 1, {e.0, e.1});
      assert false;
    }
  }

  // A payment to oneself is a way of one edge back to oneself.
  lemma SelfPaymentsExhausted(resid: Flow, order: seq<Edge>)
    requires forall j | 0 <= j < |order| :: Exhausted(resid, order[j], 1)
    ensures forall e | e in order && e.0 == e.1 :: e !in Live(resid)
  {
    forall e | e in order && e.0 == e.1 && e in Live(resid) ensures false {
      assert |[e]| == 1 && Closes(Live(resid), e.0, e.1, {e.0, e.1}, [e]);
    }
  }

  ghost predicate NoneShorter(resid: Flow, len: int) {
    forall cycle | IsCycle(Live(resid), cycle) :: |cycle| >= len
  }

  lemma FewerLiveFewerCycles(resid: Flow, resid': Flow, len: int)
    requires Live(resid') <= Live(resid) && NoneShorter(resid, len)
    ensures NoneShorter(resid', len)
  {
    forall cycle | IsCycle(Live(resid'), cycle) ensures IsCycle(Live(resid), cycle) {
      assert forall i | 0 <= i < |cycle| :: cycle[i] in Live(resid');
    }
  }

  // All cycles of `len` edges cancelled.
  method CancelLength(ghost flow: Flow, order: seq<Edge>, resid: Flow, circ: Flow, ghost pushes: seq<Push>,
      out: map<Node, seq<Node>>, len: nat)
    returns (resid': Flow, circ': Flow, ghost pushes': seq<Push>)
    requires Lists(order, flow) && Keeps(flow, order, resid, circ) && len >= 2
    requires forall e | e in flow :: e.0 in out && e.1 in out[e.0]
    requires len > 2 ==> forall e | e in flow && e.0 == e.1 :: e !in Live(resid)
    requires NoneShorter(resid, len)
    requires circ == CircOf(flow, pushes) && Greedy(flow, pushes, len)
    ensures circ' == CircOf(flow, pushes') && Greedy(flow, pushes', len)
    ensures Keeps(flow, order, resid', circ')
    ensures NoneShorter(resid', len + 1)
    ensures forall e | e in flow && e.0 == e.1 :: e !in Live(resid')
  {
    hide Net, Exhausted, Distinct, Balanced, IsCycle, Greedy, CircOf;
    resid', circ', pushes' := resid, circ, pushes;
    for k := 0 to |order|
      invariant circ' == CircOf(flow, pushes') && Greedy(flow, pushes', len)
      invariant Keeps(flow, order, resid', circ') && Live(resid') <= Live(resid)
      invariant forall j | 0 <= j < k :: Exhausted(resid', order[j], len - 1)
    {
      ghost var before := resid';
      resid', circ', pushes' := CancelAt(flow, order, resid', circ', pushes', out, order[k], len - 1);
      forall j | 0 <= j < k ensures Exhausted(resid', order[j], len - 1) {
        ExhaustedStays(before, resid', order[j], len - 1);
      }
    }
    FewerLiveFewerCycles(resid, resid', len);
    forall cycle | IsCycle(Live(resid'), cycle) ensures |cycle| >= len + 1 {
      if |cycle| == len { ExhaustedMeansNoCycle(resid', order, cycle); }
    }
    if len == 2 { SelfPaymentsExhausted(resid', order); }
  }

  // What is left of the flow once its circulating part is taken out.
  function Residual(flow: Flow, circ: Flow): Flow
    requires circ.Keys == flow.Keys
  {
    map e | e in flow :: flow[e] - circ[e]
  }

  predicate PaysItself(flow: Flow) {
    exists e | e in flow :: e.0 == e.1 && flow[e] > FLOW_EPS
  }

  lemma NothingIsKept(flow: Flow, order: seq<Edge>, circ: Flow)
    requires (forall e | e in flow :: flow[e] >= 0.0) && circ == map e | e in flow :: 0.0
    ensures Keeps(flow, order, flow, circ) && NoneShorter(flow, 2)
  {
    forall x: Node ensures Net(order, circ, x) == 0.0 {
      SumZero(order, (e: Edge) =>
                if e in circ then (if e.1 == x then circ[e] else 0.0) - (if e.0 == x then circ[e] else 0.0) else 0.0);
    }
  }

  lemma CirculationEnds(flow: Flow, order: seq<Edge>, resid: Flow, circ: Flow, maxLen: nat, len: nat)
    requires Keeps(flow, order, resid, circ) && NoneShorter(resid, len) && len == if maxLen < 2 then 2 else maxLen + 1
    requires len > 2 ==> forall e | e in flow && e.0 == e.1 :: e !in Live(resid)
    requires len == 2 ==> resid == flow
    requires forall e | e in flow :: flow[e] >= 0.0
    ensures circ.Keys == flow.Keys && (forall e | e in flow :: circ[e] >= 0.0) && Balanced(order, circ)
    ensures Residual(flow, circ) == resid && NoneShorter(resid, maxLen + 1)
    ensures forall e | e in flow && e.0 != e.1 :: circ[e] <= flow[e]
    ensures (forall e | e in flow :: circ[e] <= flow[e]) <==> maxLen < 2 || !PaysItself(flow)
  {
    hide Balanced, IsCycle, Net;
  }

  lemma NoneLeft(flow: Flow, circ: Flow, maxLen: nat)
    requires circ.Keys == flow.Keys && NoneShorter(Residual(flow, circ), maxLen + 1)
    ensures forall cycle | IsCycle(Live(Residual(flow, circ)), cycle) :: |cycle| > maxLen
    ensures forall cycle: seq<Edge> |
              && 2 <= |cycle| <= maxLen && (forall i | 0 <= i < |cycle| :: cycle[i] in flow)
              && (forall i | 0 <= i < |cycle| - 1 :: cycle[i].1 == cycle[i + 1].0)
              && cycle[|cycle| - 1].1 == cycle[0].0
              && (forall i, j | 0 <= i < j < |cycle| :: cycle[i].0 != cycle[j].0) ::
                exists i :: 0 <= i < |cycle| && flow[cycle[i]] - circ[cycle[i]] <= 0.000000001
  {
    var resid := Residual(flow, circ);
    forall cycle: seq<Edge> |
      && 2 <= |cycle| <= maxLen && (forall i | 0 <= i < |cycle| :: cycle[i] in flow)
      && (forall i | 0 <= i < |cycle| - 1 :: cycle[i].1 == cycle[i + 1].0)
      && cycle[|cycle| - 1].1 == cycle[0].0
      && (forall i, j | 0 <= i < j < |cycle| :: cycle[i].0 != cycle[j].0)
      ensures exists i :: 0 <= i < |cycle| && flow[cycle[i]] - circ[cycle[i]] <= 0.000000001
    {
      assert !IsCycle(Live(resid), cycle);
      var i :| 0 <= i < |cycle| && cycle[i] !in Live(resid);
      assert resid[cycle[i]] == flow[cycle[i]] - circ[cycle[i]];
    }
  }

  // The circulating part: what greedy cancelling pushes around walks of at most maxLen payments,
  // shorter ones first, until none is left. It is balanced at every node, and stays within the flow
  // exactly when nobody pays himself.
  method Circulate(flow: Flow, order: seq<Edge>, maxLen: nat) returns (circ: Flow)
    requires Lists(order, flow) && forall e | e in flow :: flow[e] >= 0.0
    ensures circ.Keys == flow.Keys && forall e | e in flow :: circ[e] >= 0.0
    ensures exists pushes :: Greedy(flow, pushes, maxLen) && circ == CircOf(flow, pushes)
    ensures Balanced(order, circ)
    ensures forall cycle | IsCycle(Live(Residual(flow, circ)), cycle) :: |cycle| > maxLen
    ensures forall cycle: seq<Edge> |
              && 2 <= |cycle| <= maxLen && (forall i | 0 <= i < |cycle| :: cycle[i] in flow)
              && (forall i | 0 <= i < |cycle| - 1 :: cycle[i].1 == cycle[i + 1].0)
              && cycle[|cycle| - 1].1 == cycle[0].0
              && (forall i, j | 0 <= i < j < |cycle| :: cycle[i].0 != cycle[j].0) ::
                exists i :: 0 <= i < |cycle| && flow[cycle[i]] - circ[cycle[i]] <= 0.000000001
    ensures forall e | e in flow && e.0 != e.1 :: circ[e] <= flow[e]
    ensures (forall e | e in flow :: circ[e] <= flow[e]) <==> maxLen < 2 || !PaysItself(flow)
  {
    hide Greedy, IsCycle, Net, Balanced, Distinct, Pushed, Keeps, Live, NoneShorter, CircOf, PaysItself;
    NothingPushed(flow, maxLen);
    NothingPushed(flow, 1);
    var resid := flow;
    circ := map e | e in flow :: 0.0;
    ghost var pushes: seq<Push> := [];
    NothingIsKept(flow, order, circ);
    var out := Neighbours(order);
    var len := 2;
    while len <= maxLen
      invariant len >= 2 && (maxLen >= 2 ==> len <= maxLen + 1) && (maxLen < 2 ==> len == 2)
      invariant Keeps(flow, order, resid, circ) && NoneShorter(resid, len)
      invariant circ == CircOf(flow, pushes) && Greedy(flow, pushes, len - 1) && (len == 2 ==> pushes == [])
      invariant len > 2 ==> forall e | e in flow && e.0 == e.1 :: e !in Live(resid)
      invariant len == 2 ==> resid == flow
    {
      GreedyWithin(flow, pushes, len - 1, len);
      resid, circ, pushes := CancelLength(flow, order, resid, circ, pushes, out, len);
      len := len + 1;
    }
    CirculationEnds(flow, order, resid, circ, maxLen, len);
    NoneLeft(flow, circ, maxLen);
    assert Greedy(flow, pushes, maxLen);
  }
}
