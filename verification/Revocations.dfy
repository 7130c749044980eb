// Which revocation of a branch is in force (blockchain/validator, collect_revocations and
// effective_revocation).
module Revocations {
  import opened Options
  import opened Blocks
  import opened KeyTree

  datatype Position = Position(node: nat, index: nat)

  // One chain in storage: its own branches, blocks of it received from others, and where the
  // revocations of each node are said to lie.
  datatype Store = Store(user: nat, nodes: map<nat, Node>, tips: map<nat, nat>, blocks: map<Position, Block>,
                         external: map<Position, Block>, listed: map<nat, seq<Position>>)

  datatype State = State(since: int, replacement: Option<nat>, latest: Position)

  function BlockAt(s: Store, pos: Position): Option<Block> {
    if pos in s.blocks then Some(s.blocks[pos]) else if pos in s.external then Some(s.external[pos]) else None
  }

  // The word of the block at a position on a node, when it is one.
  function WordOn(s: Store, target: nat, pos: Position): Option<RevocationPayload> {
    match BlockAt(s, pos)
    case None => None
    case Some(b) =>
      if b.body.Revocation? && b.body.word.Some? && b.body.word.value.revoked == target then b.body.word else None
  }

  function Listed(s: Store, target: nat): set<Position> {
    if target in s.listed then set i | 0 <= i < |s.listed[target]| :: s.listed[target][i] else {}
  }

  // A word written after its author was itself compromised weighs nothing, unless the
  // author's replacement signed it.
  predicate Weighs(s: Store, pos: Position, author: Option<State>) {
    match BlockAt(s, pos)
    case None => false
    case Some(b) =>
      author.None? || (author.value.replacement.Some? && SignedBy(b, author.value.replacement.value)) ||
        b.time <= author.value.since
  }

  // The words that count on a node, each by an ancestor.
  ghost function Counted(s: Store, target: nat): set<Position>
    decreases Depth(target), 0
  {
    set pos | pos in Listed(s, target) && Above(pos.node, target) && WordOn(s, target, pos).Some? &&
              Weighs(s, pos, Effective(s, pos.node))
  }

  // The highest author's word stands; among its words the earliest compromise and the latest
  // replacement.
  ghost function Effective(s: Store, target: nat): Option<State>
    decreases Depth(target), 1
  {
    Decision(s, target, Counted(s, target))
  }

  // The last word of the highest author.
  predicate IsLast(words: set<Position>, p: Position) {
    p in words && forall q | q in words :: Depth(p.node) < Depth(q.node) || (q.node == p.node && q.index <= p.index)
  }

  predicate IsEarliest(s: Store, target: nat, words: set<Position>, node: nat, e: Position) {
    && e in words && e.node == node && WordOn(s, target, e).Some?
    && forall q | q in words && q.node == node ::
         WordOn(s, target, q).Some? ==> WordOn(s, target, e).value.since <= WordOn(s, target, q).value.since
  }

  ghost predicate Decides(s: Store, target: nat, words: set<Position>, last: Position, earliest: Position) {
    IsLast(words, last) && WordOn(s, target, last).Some? && IsEarliest(s, target, words, last.node, earliest)
  }

  ghost predicate SomeDecide(s: Store, target: nat, words: set<Position>) {
    exists last, earliest :: Decides(s, target, words, last, earliest)
  }

  ghost function Decision(s: Store, target: nat, words: set<Position>): Option<State> {
    if SomeDecide(s, target, words) then
      var last, earliest :| Decides(s, target, words, last, earliest);
      Some(State(WordOn(s, target, earliest).value.since, WordOn(s, target, last).value.replacement, last))
    else None
  }

  // ---------- There is one decision ----------

  ghost predicate AreWords(s: Store, target: nat, words: set<Position>) {
    forall q | q in words :: Above(q.node, target) && WordOn(s, target, q).Some?
  }

  lemma {:induction false} SomeLast(target: nat, words: set<Position>) returns (p: Position)
    requires words != {} && forall q | q in words :: Above(q.node, target)
    ensures IsLast(words, p)
  {
    var x :| x in words;
    var rest := words - {x};
    if rest == {} {
      assert words == {x};
      p := x;
    } else {
      p := SomeLast(target, rest);
      if Depth(x.node) == Depth(p.node) { OneAncestorADepth(x.node, p.node, target); }
      assert forall q | q in words :: q == x || q in rest;
      if Depth(x.node) < Depth(p.node) || (x.node == p.node && p.index < x.index) { p := x; }
    }
  }

  lemma {:induction false} SomeEarliest(s: Store, target: nat, words: set<Position>, p: Position) returns (e: Position)
    requires AreWords(s, target, words) && p in words
    ensures IsEarliest(s, target, words, p.node, e)
  {
    if q :| q in words && q.node == p.node && WordOn(s, target, q).value.since < WordOn(s, target, p).value.since {
      e := SomeEarliest(s, target, words - {p}, q);
    } else {
      e := p;
    }
  }

  // Whoever finds the last word of the highest author and its earliest compromise has found
  // the decision.
  lemma DecisionIs(s: Store, target: nat, words: set<Position>, last: Position, earliest: Position)
    requires Decides(s, target, words, last, earliest)
    ensures Decision(s, target, words) ==
            Some(State(WordOn(s, target, earliest).value.since, WordOn(s, target, last).value.replacement, last))
  {
    hide WordOn;
  }

  lemma DecisionExists(s: Store, target: nat, words: set<Position>)
    requires AreWords(s, target, words)
    ensures Decision(s, target, words).None? <==> words == {}
  {
    if words != {} {
      var last := SomeLast(target, words);
      var earliest := SomeEarliest(s, target, words, last);
      assert Decides(s, target, words, last, earliest);
    }
  }

  // ---------- What a word weighs ----------

  // A block is a word on a node when it lies where it is listed, above the node, and names it.
  ghost predicate IsWordOn(s: Store, target: nat, pos: Position, b: Block) {
    && target in s.listed && pos in s.listed[target] && Above(pos.node, target)
    && (pos in s.blocks ==> b == s.blocks[pos]) && (pos !in s.blocks ==> pos in s.external && b == s.external[pos])
    && b.body.Revocation? && b.body.word.Some? && b.body.word.value.revoked == target
  }

  // Written before its author's compromise a word counts, whoever signed it; later it counts exactly
  // when the key that replaced the author's signed it. Nothing else counts.
  lemma CountsExactly(s: Store, target: nat, pos: Position, b: Block)
    requires IsWordOn(s, target, pos, b)
    ensures var author := Effective(s, pos.node);
            && (author.None? ==> pos in Counted(s, target))
            && (author.Some? && b.time <= author.value.since ==> pos in Counted(s, target))
            && (author.Some? && b.time > author.value.since ==>
                  (pos in Counted(s, target) <==>
                   author.value.replacement.Some? && author.value.replacement.value in b.signers))
  {
    assert WordOn(s, target, pos) == b.body.word;
    hide Effective;
  }

  lemma OnlyWordsCount(s: Store, target: nat, pos: Position)
    requires pos in Counted(s, target)
    ensures exists b :: IsWordOn(s, target, pos, b)
  {
    var b := BlockAt(s, pos).value;
    assert IsWordOn(s, target, pos, b);
  }

  // One word on a node, late and signed by its author's replacement, decides the node; signed
  // otherwise, it leaves the node as it was.
  lemma LateWordDecides(s: Store, target: nat, pos: Position, b: Block, author: State)
    requires IsWordOn(s, target, pos, b) && forall q, c | IsWordOn(s, target, q, c) :: q == pos
    requires Effective(s, pos.node) == Some(author) && b.time > author.since
    ensures var w := b.body.word.value;
            Effective(s, target) ==
            if author.replacement.Some? && author.replacement.value in b.signers
            then Some(State(w.since, w.replacement, pos)) else None
  {
    var words := Counted(s, target);
    CountsExactly(s, target, pos, b);
    assert WordOn(s, target, pos) == b.body.word;
    forall q | q in words ensures q == pos { OnlyWordsCount(s, target, q); }
    CountedAreWords(s, target);
    DecisionExists(s, target, words);
    assert Effective(s, target) == Decision(s, target, words);
    hide Effective, Counted, WordOn;
    if pos in words {
      assert words == {pos};
      assert Decides(s, target, words, pos, pos);
      DecisionIs(s, target, words, pos, pos);
    }
  }

  // ---------- The search ----------

  // A block lies at its own address.
  ghost predicate Kept(s: Store) {
    && (forall pos | pos in s.blocks :: s.blocks[pos].address == Address(s.user, pos.node, pos.index))
    && (forall pos | pos in s.external :: s.external[pos].address == Address(s.user, pos.node, pos.index))
  }

  predicate Before(a: Position, b: Position) {
    if Depth(a.node) != Depth(b.node) then Depth(a.node) < Depth(b.node)
    else if a.node != b.node then a.node < b.node
    else a.index <= b.index
  }

  ghost predicate InOrder(found: seq<Position>) {
    forall i, j | 0 <= i < j < |found| :: Before(found[i], found[j])
  }

  lemma Inserted(found: seq<Position>, x: Position, at: nat)
    requires at <= |found|
    ensures forall y :: y in found[..at] + [x] + found[at..] <==> y in found || y == x
  {
    assert found == found[..at] + found[at..];
  }

  // Root-most author first, then branch order.
  method SortWords(words: seq<Position>) returns (found: seq<Position>)
    ensures InOrder(found) && forall y :: y in found <==> y in words
  {
    found := [];
    for i := 0 to |words|
      invariant InOrder(found) && forall y :: y in found <==> y in words[..i]
    {
      var at: nat := |found|;
      while at > 0 && !Before(found[at - 1], words[i])
        invariant at <= |found| && forall j | at <= j < |found| :: Before(words[i], found[j])
      {
        at := at - 1;
      }
      Inserted(found, words[i], at);
      assert words[..i + 1] == words[..i] + [words[i]];
      found := found[..at] + [words[i]] + found[at..];
    }
  }

  // The two searches call each other; an author is nearer the root than what it revokes.
  method CollectRevocations(s: Store, target: nat) returns (found: seq<Position>)
    requires Kept(s)
    ensures InOrder(found) && forall p :: p in found <==> p in Counted(s, target)
    decreases Depth(target), 0
  {
    var words: seq<Position> := [];
    if target == 0 { return []; }
    var listed := if target in s.listed then s.listed[target] else [];
    for i := 0 to |listed|
      invariant forall p :: p in words <==> p in listed[..i] && p in Counted(s, target)
    {
      var pos := listed[i];
      assert listed[..i + 1] == listed[..i] + [pos];
      assert pos in Listed(s, target);
      var above := IsAncestor(pos.node, target);
      if !above { continue; }
      var b := BlockAt(s, pos);
      if b.None? || !b.value.body.Revocation? || b.value.body.word.None? || b.value.body.word.value.revoked != target {
        continue;
      }
      var author := EffectiveRevocation(s, pos.node);
      if author.Some? {
        var byReplacement := author.value.replacement.Some? && SignedBy(b.value, author.value.replacement.value);
        if !byReplacement && b.value.time > author.value.since { continue; }
      }
      words := words + [pos];
    }
    assert listed[..|listed|] == listed;
    found := SortWords(words);
  }

  method EffectiveRevocation(s: Store, node: nat) returns (st: Option<State>)
    requires Kept(s)
    ensures st == Effective(s, node)
    decreases Depth(node), 1
  {
    hide WordOn;
    var found := CollectRevocations(s, node);
    ghost var words := Counted(s, node);
    CountedAreWords(s, node);
    DecisionExists(s, node, words);
    if found == [] {
      assert words == {};
      return None;
    }
    var state := LastWord(s, node, found, words);
    st := Some(state);
  }

  lemma CountedAreWords(s: Store, node: nat)
    ensures AreWords(s, node, Counted(s, node))
  {
  }

  // One pass over the words in order: those of the first author, the last of them, the
  // earliest compromise.
  method LastWord(s: Store, node: nat, found: seq<Position>, ghost words: set<Position>) returns (st: State)
    requires found != [] && InOrder(found) && AreWords(s, node, words) && forall p :: p in found <==> p in words
    ensures Decision(s, node, words) == Some(st)
  {
    hide WordOn, Above, Depth;
    var winner := found[0].node;
    assert forall j | 0 <= j < |found| :: found[j] in words;
    var w := WordOn(s, node, found[0]).value;
    var since, replacement, latest := w.since, w.replacement, 0;
    ghost var earliest: nat := 0;
    for i := 1 to |found|
      invariant 0 <= latest < i && found[latest].node == winner
      invariant replacement == WordOn(s, node, found[latest]).value.replacement
      invariant earliest < i && found[earliest].node == winner && since == WordOn(s, node, found[earliest]).value.since
      invariant forall j | 0 <= j < i && found[j].node == winner :: j <= latest
      invariant forall j | 0 <= j < i && found[j].node == winner :: since <= WordOn(s, node, found[j]).value.since
    {
      if found[i].node == winner {
        w := WordOn(s, node, found[i]).value;
        if w.since < since { since, earliest := w.since, i; }
        replacement, latest := w.replacement, i;
      }
    }
    FirstWins(s, node, found, words, latest, earliest);
    DecisionIs(s, node, words, found[latest], found[earliest]);
    st := State(since, replacement, found[latest]);
  }

  lemma FirstWins(s: Store, node: nat, found: seq<Position>, words: set<Position>, latest: nat, earliest: nat)
    requires InOrder(found) && AreWords(s, node, words) && forall p :: p in found <==> p in words
    requires latest < |found| && earliest < |found| && found[latest].node == found[0].node == found[earliest].node
    requires forall j | 0 <= j < |found| && found[j].node == found[0].node :: j <= latest
    requires forall j | 0 <= j < |found| && found[j].node == found[0].node ::
               WordOn(s, node, found[earliest]).Some? && WordOn(s, node, found[j]).Some? ==>
                 WordOn(s, node, found[earliest]).value.since <= WordOn(s, node, found[j]).value.since
    ensures Decides(s, node, words, found[latest], found[earliest])
  {
    hide WordOn;
    var last := found[latest];
    assert last in words && found[earliest] in words && found[0] in words;
    forall q | q in words ensures Depth(last.node) < Depth(q.node) || (q.node == last.node && q.index <= last.index) {
      var j: nat :| j < |found| && found[j] == q;
      if j > 0 { assert Before(found[0], found[j]); }
      if Depth(q.node) == Depth(last.node) { OneAncestorADepth(q.node, last.node, node); }
      if j < latest { assert Before(found[j], found[latest]); }
    }
  }
}
