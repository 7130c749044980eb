// The pump that drives one dialogue over a mailbox relay (sync/dialogue_channel).
module DialoguePump {
  import opened MergeSession
  import opened MergeDialogue

  datatype Envelope = Envelope(session: nat, number: nat, from: nat, blob: Message)

  // Who speaks to whom in which session.
  datatype Link = Link(self: nat, peer: nat, session: nat)

  // One side with its pump: what waits out of order, what was handed to the transport, and, as
  // history, what the dialogue was handed and what it made in answer.
  datatype Side = Side(cfg: Config, d: Dialogue, st: Storage, outSeq: nat, nextIn: nat, reorder: map<nat, Message>,
                       sent: seq<Envelope>, got: seq<Message>, made: seq<Message>)

  function Wrapped(l: Link, msgs: seq<Message>, from: nat): seq<Envelope> {
    seq(|msgs|, i requires 0 <= i < |msgs| => Envelope(l.session, from + i, l.self, msgs[i]))
  }

  // The first k of the messages go to the transport; it refused the last of them or there are no more.
  function Shipped(l: Link, s: Side, msgs: seq<Message>, k: nat): Side
    requires k <= |msgs|
  {
    s.(sent := s.sent + Wrapped(l, msgs[..k], s.outSeq), outSeq := s.outSeq + k, made := s.made + msgs)
  }

  ghost predicate Begins(l: Link, s: Side, s': Side, k: nat) {
    var o := Started(s.cfg, s.st, s.d);
    && k <= |o.out| && (k == 0 ==> o.out == [])
    && s' == Shipped(l, s.(d := o.d, st := o.st), o.out, k)
  }

  predicate Foreign(l: Link, env: Envelope) {
    env.session != l.session || env.from != l.peer
  }

  predicate Duplicate(s: Side, env: Envelope) {
    env.number < s.nextIn || env.number in s.reorder
  }

  function Received(l: Link, s: Side, env: Envelope): Side {
    if Foreign(l, env) || Duplicate(s, env) then s else s.(reorder := s.reorder[env.number := env.blob])
  }

  // The message that is due is handed to the dialogue, and its answers are shipped.
  ghost predicate Hands(l: Link, s: Side, s': Side, k: nat) {
    && !s.d.Finished() && s.nextIn in s.reorder
    && var msg := s.reorder[s.nextIn];
       var o := Handled(s.cfg, s.st, s.d, msg);
       && k <= |o.out| && (k == 0 ==> o.out == [])
       && s' == Shipped(l, s.(d := o.d, st := o.st, reorder := s.reorder - {s.nextIn}, nextIn := s.nextIn + 1,
                              got := s.got + [msg]), o.out, k)
  }

  ghost predicate HandsOver(l: Link, s: Side, s': Side) {
    exists k :: Hands(l, s, s', k)
  }

  // A run of hand-overs.
  ghost predicate HandRun(l: Link, run: seq<Side>) {
    && run != []
    && forall i | 0 <= i < |run| - 1 :: HandsOver(l, run[i], run[i + 1])
  }

  // The message under this number has come: it waits, or was handed over.
  predicate Came(s: Side, number: nat) { number in s.reorder || number < s.nextIn }

  // An envelope of the peer in this session comes once, with what it brought; another's, or one that
  // came before, changes nothing.
  lemma ReceivedComes(l: Link, s: Side, env: Envelope)
    ensures var s' := Received(l, s, env);
            && (env.session == l.session && env.from == l.peer && env.number >= s.nextIn && env.number !in s.reorder ==>
                  s' == s.(reorder := s.reorder[env.number := env.blob]))
            && (env.session != l.session || env.from != l.peer || env.number < s.nextIn || env.number in s.reorder ==>
                  s' == s)
            && (env.session == l.session && env.from == l.peer ==> Came(s', env.number))
            && forall n: nat | Came(s, n) :: Came(s', n)
  {
  }

  // Whatever came stays, handed over or waiting; so when all numbers below n came and none is due,
  // all of them were handed over.
  lemma {:induction false} NoneIsLost(l: Link, run: seq<Side>, n: nat)
    requires HandRun(l, run) && forall i: nat | i < n :: Came(run[0], i)
    ensures var last := run[|run| - 1];
            && (forall i: nat | i < n :: Came(last, i))
            && (last.nextIn !in last.reorder ==> n <= last.nextIn)
            && |last.got| - |run[0].got| == last.nextIn - run[0].nextIn == |run| - 1
  {
    hide Handled, Wrapped, HandsOver;
    var last := run[|run| - 1];
    if |run| > 1 {
      var less := run[..|run| - 1];
      forall i | 0 <= i < |less| - 1 ensures HandsOver(l, less[i], less[i + 1]) {
        assert HandsOver(l, run[i], run[i + 1]);
      }
      NoneIsLost(l, less, n);
      var i := |run| - 2;
      assert HandsOver(l, run[i], run[i + 1]);
      HandKeeps(l, run[i], last);
    }
    if last.nextIn < n { assert Came(last, last.nextIn); }
  }

  lemma HandKeeps(l: Link, s: Side, s': Side)
    requires HandsOver(l, s, s')
    ensures s'.nextIn == s.nextIn + 1 && |s'.got| == |s.got| + 1 && forall n: nat | Came(s, n) :: Came(s', n)
  {
    hide Handled, Wrapped;
  }

  // The transport may refuse an envelope, and deliver it all the same.
  class Channel {
    var log: seq<Envelope>

    constructor ()
      ensures log == []
    {
      log := [];
    }

    method Send(env: Envelope) returns (ok: bool)
      modifies this
      ensures log == old(log) + [env]
    {
      log := log + [env];
      ok := *;
    }
  }

  class Pump {
    const dialogue: MergeDialogue
    const channel: Channel
    const link: Link
    var outSeq: nat
    var nextIn: nat
    var reorder: map<nat, Message>
    ghost var got: seq<Message>
    ghost var made: seq<Message>

    ghost function AsSide(): Side reads this, dialogue, dialogue.session, channel {
      Side(dialogue.cfg, dialogue.State(), dialogue.session.store, outSeq, nextIn, reorder, channel.log, got, made)
    }

    ghost predicate Valid() reads this, dialogue { dialogue.Valid() }

    constructor (dialogue: MergeDialogue, channel: Channel, link: Link)
      requires dialogue.Valid()
      ensures Valid() && this.dialogue == dialogue && this.channel == channel && this.link == link
      ensures outSeq == nextIn == 0 && reorder == map[] && got == made == []
    {
      this.dialogue, this.channel, this.link := dialogue, channel, link;
      outSeq, nextIn, reorder, got, made := 0, 0, map[], [], [];
    }

    // Each message takes the next number; a refusal leaves the rest unsent.
    method Ship(msgs: seq<Message>) returns (ok: bool, ghost k: nat)
      requires Valid()
      modifies this, channel
      ensures Valid() && k <= |msgs| && (ok ==> k == |msgs|) && (k == 0 ==> msgs == [])
      ensures AsSide() == Shipped(link, old(AsSide()), msgs, k)
    {
      k := 0;
      ok := true;
      var i := 0;
      while i < |msgs|
        invariant i <= |msgs| && k == i && ok && outSeq == old(outSeq) + i
        invariant channel.log == old(channel.log) + Wrapped(link, msgs[..i], old(outSeq))
        invariant nextIn == old(nextIn) && reorder == old(reorder) && got == old(got) && made == old(made)
      {
        var env := Envelope(link.session, outSeq, link.self, msgs[i]);
        outSeq := outSeq + 1;
        ok := channel.Send(env);
        assert Wrapped(link, msgs[..i + 1], old(outSeq)) == Wrapped(link, msgs[..i], old(outSeq)) + [env];
        i, k := i + 1, i + 1;
        if !ok { break; }
      }
      made := made + msgs;
    }

    method Begin() returns (ok: bool, ghost k: nat)
      requires Valid()
      modifies this, channel, dialogue
      ensures Valid() && Begins(link, old(AsSide()), AsSide(), k)
      ensures ok ==> !dialogue.State().Finished()
    {
      var msgs := dialogue.Start();
      if dialogue.phase == FAILED {
        k := 0;
        assert Wrapped(link, msgs[..0], outSeq) == [];
        return false, k;
      }
      ok, k := Ship(msgs);
    }

    // An envelope of the peer in this session is kept until its turn; then everything due is
    // handed over, in order, until something is missing, the dialogue is over or the
    // transport refuses.
    method Feed(env: Envelope) returns (ok: bool, ghost run: seq<Side>)
      requires Valid()
      modifies this, channel, dialogue, dialogue.session
      ensures Valid() && HandRun(link, run)
      ensures run[0] == Received(link, old(AsSide()), env) && run[|run| - 1] == AsSide()
      ensures ok && !Foreign(link, env) && !Duplicate(old(AsSide()), env) ==>
                dialogue.State().Finished() || nextIn !in reorder
    {
      run := [Received(link, AsSide(), env)];
      if env.session != link.session || env.from != link.peer { return true, run; }
      if env.number < nextIn || env.number in reorder { return true, run; }
      reorder := reorder[env.number := env.blob];
      while dialogue.phase != DONE && dialogue.phase != FAILED && nextIn in reorder
        invariant Valid() && HandRun(link, run)
        invariant run[0] == Received(link, old(AsSide()), env) && run[|run| - 1] == AsSide()
        decreases |reorder|
      {
        ok, run := HandOver(run);
        if !ok { return; }
      }
      ok := true;
    }

    method HandOver(ghost run: seq<Side>) returns (ok: bool, ghost run': seq<Side>)
      requires Valid() && HandRun(link, run) && run[|run| - 1] == AsSide()
      requires !dialogue.State().Finished() && nextIn in reorder
      modifies this, channel, dialogue, dialogue.session
      ensures Valid() && HandRun(link, run') && run'[0] == run[0] && run'[|run'| - 1] == AsSide()
      ensures |reorder| < |old(reorder)|
    {
      hide Handled, Sane, Wrapped;
      var msg := reorder[nextIn];
      var replies := dialogue.OnMessage(msg);
      reorder := reorder - {nextIn};
      nextIn := nextIn + 1;
      got := got + [msg];
      ghost var k;
      ok, k := Ship(replies);
      assert Hands(link, old(AsSide()), AsSide(), k);
      run' := run + [AsSide()];
      assert forall i | 0 <= i < |run'| - 1 :: run'[i] == run[i];
    }
  }
}
