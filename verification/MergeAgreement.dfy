// Two honest sides over a relay that reorders, repeats, delays and loses envelopes, their
// storages changing as they like in between: what holds in every state they can reach.
module MergeAgreement {
  import opened Options
  import opened Blocks
  import opened MergeSnapshot
  import opened MergeSession
  import opened MergeDialogue
  import opened DialoguePump

  // ---------- What one side keeps, whatever it is handed ----------

  predicate IsOpening(m: Message, tip: Tip, snapshot: Snapshot) {
    m == Offer(tip, snapshot) || m == Accept(tip, snapshot)
  }

  // A tip as a side announces it: the block itself unless the branch is empty.
  predicate OwnForm(cfg: Config, tip: Tip) {
    && tip.address == TipAddress(cfg, tip.address.index)
    && tip.path != []
    && (tip.block.Some? ==> tip.hash == OfBlock(tip.block.value))
    && (tip.block.None? ==> tip.address.index == EMPTY_BRANCH_INDEX)
  }

  // A tip a side merges with.
  predicate TakenForm(tip: Tip) {
    && tip.path != [] && tip.address.index != EMPTY_BRANCH_INDEX
    && (tip.block.Some? ==> OfBlock(tip.block.value) == tip.hash && tip.block.value.address == tip.address)
  }

  // The draft takes the partner's tip at the own time.
  predicate TakesTip(cfg: Config, draft: Block, partner: Tip) {
    && draft.body.Merge? && draft.time == cfg.now == draft.body.payload.time
    && draft.address == TipAddress(cfg, draft.address.index) && draft.address.index > 0
    && draft.body.payload.tookAddress == partner.address && draft.body.payload.tookHash == partner.hash
  }

  predicate RightAfter(draft: Block, tip: Tip) {
    draft.address == After(tip.address) && draft.prev == tip.hash
  }

  predicate MadeOpening(s: Side) {
    |s.made| >= 1 && IsOpening(s.made[0], s.d.ownTip, s.d.ownSnapshot) && OwnForm(s.cfg, s.d.ownTip)
  }

  predicate MadeDraft(s: Side) {
    && |s.made| >= 2 && s.d.pending.Some? && s.made[1] == Draft(s.d.pending.value)
    && |s.got| >= 1 && IsOpening(s.got[0], s.d.partnerTip, s.d.partnerSnapshot)
    && TakenForm(s.d.partnerTip) && TakesTip(s.cfg, s.d.pending.value, s.d.partnerTip)
    && (s.made[0].Accept? ==>
          RightAfter(s.d.pending.value, s.d.ownTip) &&
            CommitsUnion(s.d.pending.value, s.d.ownSnapshot, s.d.partnerSnapshot))
  }

  predicate CommitsUnion(draft: Block, a: Snapshot, b: Snapshot) {
    draft.body.Merge? && draft.body.payload.root == Union(a, b).root && draft.body.payload.hll == Union(a, b).hll
  }

  // Co-signed is only what was read and found in order.
  predicate MadeCosig(s: Side) {
    && |s.made| >= 3 && s.d.pending.Some? && |s.got| >= 2 && s.got[1].Draft?
    && DraftChecks(s.got[1].block, s.d.ownTip, s.d.partnerTip, s.cfg.now, s.d.pending.value)
    && s.made[2] == Cosig(Signature(s.cfg.key, OfBlock(s.got[1].block)))
  }

  predicate GotCosig(s: Side) {
    && s.d.pending.Some? && |s.got| == 3 && s.got[2].Cosig? && s.d.partnerTip.path != []
    && CosigChecks(s.d.pending.value, s.got[2].signature, KeyOf(s.d.partnerTip))
    && s.d.merged == Some((s.d.pending.value, s.got[2].signature))
  }

  predicate Counts(s: Side, made: nat, got: nat) {
    |s.made| == made && |s.got| == got
  }

  predicate PhaseInv(s: Side) {
    match s.d.phase
    case IDLE => Counts(s, 0, 0)
    case WAIT_ACCEPT => Counts(s, 1, 0) && s.made[0].Offer?
    case WAIT_DRAFT => Counts(s, 2, 1)
    case WAIT_COSIG => Counts(s, 3, 2)
    case DONE => Counts(s, 3, 3) && GotCosig(s)
    case FAILED => |s.made| <= 3
  }

  predicate SideInv(s: Side) {
    && PhaseInv(s)
    && (|s.made| >= 1 ==> MadeOpening(s))
    && (|s.made| >= 2 ==> MadeDraft(s))
    && (|s.made| >= 3 ==> MadeCosig(s))
  }

  // A side after one event: the dialogue stepped, and its answers were noted.
  function Noted(s: Side, o: Outcome, got: seq<Message>): Side {
    s.(d := o.d, st := o.st, got := s.got + got, made := s.made + o.out)
  }

  lemma StartKeepsSide(s: Side)
    requires SideInv(s)
    ensures SideInv(Noted(s, Started(s.cfg, s.st, s.d), []))
  {
  }

  lemma OfferKeepsSide(s: Side, tip: Tip, snapshot: Snapshot)
    requires SideInv(s) && s.d.phase == IDLE
    ensures SideInv(Noted(s, OnOffer(s.cfg, s.st, s.d, tip, snapshot), [Offer(tip, snapshot)]))
  {
    hide Union, SnapshotFor;
    var o := OnOffer(s.cfg, s.st, s.d, tip, snapshot);
    assert s.made == [] && s.got == [];
    assert o.out != [] ==> o.out == [Accept(o.d.ownTip, o.d.ownSnapshot), Draft(o.d.pending.value)];
  }

  lemma AcceptKeepsSide(s: Side, tip: Tip, snapshot: Snapshot)
    requires SideInv(s) && s.d.phase == WAIT_ACCEPT
    ensures SideInv(Noted(s, OnAccept(s.cfg, s.st, s.d, tip, snapshot), [Accept(tip, snapshot)]))
  {
    hide Union, SnapshotFor;
    var o := OnAccept(s.cfg, s.st, s.d, tip, snapshot);
    assert |s.made| == 1 && s.got == [];
    assert o.out != [] ==> o.out == [Draft(o.d.pending.value)];
  }

  lemma DraftKeepsSide(s: Side, draft: Block)
    requires SideInv(s) && s.d.phase == WAIT_DRAFT
    ensures SideInv(Noted(s, OnDraft(s.cfg, s.st, s.d, draft), [Draft(draft)]))
  {
    hide Union, DraftChecks, TakesTip, TakenForm, OwnForm, CommitsUnion, RightAfter;
  }

  lemma CosigKeepsSide(s: Side, sig: Signature)
    requires SideInv(s) && s.d.phase == WAIT_COSIG
    ensures SideInv(Noted(s, OnCosig(s.cfg, s.st, s.d, sig), [Cosig(sig)]))
  {
    hide Union, DraftChecks, TakesTip, OwnForm, CommitsUnion, RightAfter;
  }

  lemma MessageKeepsSide(s: Side, msg: Message)
    requires SideInv(s) && !s.d.Finished()
    ensures SideInv(Noted(s, Handled(s.cfg, s.st, s.d, msg), [msg]))
  {
    hide OnOffer, OnAccept, OnDraft, OnCosig, MadeOpening, MadeDraft, MadeCosig;
    if s.d.phase == IDLE && msg.Offer? {
      OfferKeepsSide(s, msg.tip, msg.snapshot);
    } else if s.d.phase == WAIT_ACCEPT && msg.Accept? {
      AcceptKeepsSide(s, msg.tip, msg.snapshot);
    } else if s.d.phase == WAIT_DRAFT && msg.Draft? {
      DraftKeepsSide(s, msg.block);
    } else if s.d.phase == WAIT_COSIG && msg.Cosig? {
      CosigKeepsSide(s, msg.signature);
    } else {
      FailureKeepsSide(s, msg);
    }
  }

  lemma FailureKeepsSide(s: Side, msg: Message)
    requires SideInv(s)
    ensures SideInv(Noted(s, Outcome(s.d.Fail(), s.st, []), [msg]))
  {
    hide Union, DraftChecks, TakesTip, TakenForm, OwnForm, CommitsUnion, RightAfter;
  }

  // ---------- What the relay keeps ----------

  function Blobs(sent: seq<Envelope>): seq<Message> {
    seq(|sent|, i requires 0 <= i < |sent| => sent[i].blob)
  }

  // Envelopes are numbered as sent, and hold what the dialogue made unless a refusal cut it short.
  ghost predicate SentInv(l: Link, s: Side) {
    && s.outSeq == |s.sent| <= |s.made|
    && (forall i | 0 <= i < |s.sent| ::
       s.sent[i].number == i && s.sent[i].session == l.session && s.sent[i].from == l.self)
    && (|s.sent| == |s.made| ==> Blobs(s.sent) == s.made)
    && (|s.made| > 0 ==> s.sent != [] && s.sent[0].blob == s.made[0])
  }

  // What was handed over is the beginning of what the peer sent, each message once and in
  // order; what waits is the peer's too, under its own number.
  ghost predicate ReceivedInv(s: Side, peerSent: seq<Envelope>) {
    && s.nextIn == |s.got| <= |peerSent| && s.got == Blobs(peerSent)[..|s.got|]
    && forall i | i in s.reorder :: i < |peerSent| && s.reorder[i] == peerSent[i].blob
  }

  lemma ShipKeepsSent(l: Link, s: Side, msgs: seq<Message>, k: nat)
    requires SentInv(l, s) && k <= |msgs| && (k == 0 ==> msgs == [])
    ensures SentInv(l, Shipped(l, s, msgs, k)) && s.sent <= Shipped(l, s, msgs, k).sent
  {
    var s' := Shipped(l, s, msgs, k);
    if |s'.sent| == |s'.made| {
      assert k == |msgs| && msgs[..k] == msgs;
      assert Blobs(s'.sent) == Blobs(s.sent) + msgs;
    }
  }

  // Later envelopes of the peer change nothing in what was received.
  lemma MoreSentKeepsReceived(s: Side, sent: seq<Envelope>, sent': seq<Envelope>)
    requires ReceivedInv(s, sent) && sent <= sent'
    ensures ReceivedInv(s, sent')
  {
    assert Blobs(sent')[..|s.got|] == Blobs(sent)[..|s.got|];
  }

  lemma HandKeepsReceived(s: Side, msg: Message, peerSent: seq<Envelope>, s': Side)
    requires ReceivedInv(s, peerSent) && s.nextIn in s.reorder && msg == s.reorder[s.nextIn]
    requires s'.nextIn == s.nextIn + 1 && s'.got == s.got + [msg] && s'.reorder == s.reorder - {s.nextIn}
    ensures ReceivedInv(s', peerSent)
  {
    assert Blobs(peerSent)[..|s.got| + 1] == Blobs(peerSent)[..|s.got|] + [msg];
  }

  lemma FeedKeepsReceived(l: Link, s: Side, env: Envelope, peer: Side)
    requires ReceivedInv(s, peer.sent) && SentInv(Link(l.peer, l.self, l.session), peer)
    requires env in peer.sent || Foreign(l, env)
    ensures ReceivedInv(Received(l, s, env), peer.sent)
  {
  }

  // ---------- Two sides ----------

  datatype Pair = Pair(link: Link, a: Side, b: Side)

  function Flipped(l: Link): Link { Link(l.peer, l.self, l.session) }

  ghost predicate Inv(s: Pair) {
    && SideInv(s.a) && SideInv(s.b)
    && SentInv(s.link, s.a) && SentInv(Flipped(s.link), s.b)
    && ReceivedInv(s.a, s.b.sent) && ReceivedInv(s.b, s.a.sent)
  }

  // What can happen to a side: it begins; any envelope of the peer, or a foreign one, arrives,
  // again or for the first time; a message that is due is handed over; its storage changes.
  ghost predicate Arrives(l: Link, s: Side, s': Side, peer: Side, env: Envelope) {
    (env in peer.sent || env.session != l.session || env.from != l.peer) && s' == Received(l, s, env)
  }

  ghost predicate StorageChanges(s: Side, s': Side) {
    s' == s.(st := s'.st)
  }

  ghost predicate SideStep(l: Link, s: Side, s': Side, peer: Side) {
    || (exists k :: Begins(l, s, s', k))
    || (exists env :: Arrives(l, s, s', peer, env))
    || HandsOver(l, s, s')
    || StorageChanges(s, s')
  }

  ghost predicate Step(s: Pair, s': Pair) {
    s'.link == s.link &&
    ((s'.b == s.b && SideStep(s.link, s.a, s'.a, s.b)) || (s'.a == s.a && SideStep(Flipped(s.link), s.b, s'.b, s.a)))
  }

  predicate FreshSide(s: Side) {
    s.d == Fresh() && s.outSeq == 0 && s.nextIn == 0 && s.reorder == map[] && s.sent == [] && s.got == [] &&
      s.made == []
  }

  ghost predicate IsRun(run: seq<Pair>) {
    && run != [] && FreshSide(run[0].a) && FreshSide(run[0].b)
    && forall i | 0 <= i < |run| - 1 :: Step(run[i], run[i + 1])
  }

  ghost predicate OneSideInv(l: Link, s: Side, peer: Side) {
    SideInv(s) && SentInv(l, s) && ReceivedInv(s, peer.sent)
  }

  lemma BeginKeeps(l: Link, s: Side, s': Side, peer: Side, k: nat)
    requires OneSideInv(l, s, peer) && Begins(l, s, s', k)
    ensures OneSideInv(l, s', peer) && s.sent <= s'.sent
  {
    hide PhaseInv, MadeOpening, MadeDraft, MadeCosig, Started;
    var o := Started(s.cfg, s.st, s.d);
    StartKeepsSide(s);
    ShipKeepsSent(l, s.(d := o.d, st := o.st), o.out, k);
    SideInvLooksAt(Noted(s, o, []), s');
  }

  lemma HandKeeps(l: Link, s: Side, s': Side, peer: Side, k: nat)
    requires OneSideInv(l, s, peer) && Hands(l, s, s', k)
    ensures OneSideInv(l, s', peer) && s.sent <= s'.sent
  {
    hide PhaseInv, MadeOpening, MadeDraft, MadeCosig, Handled;
    var msg := s.reorder[s.nextIn];
    var o := Handled(s.cfg, s.st, s.d, msg);
    MessageKeepsSide(s, msg);
    var handed := s.(d := o.d, st := o.st, reorder := s.reorder - {s.nextIn}, nextIn := s.nextIn + 1,
      got := s.got + [msg]);
    ShipKeepsSent(l, handed, o.out, k);
    HandKeepsReceived(s, msg, peer.sent, s');
    SideInvLooksAt(Noted(s, o, [msg]), s');
  }

  lemma SideStepKeeps(l: Link, s: Side, s': Side, peer: Side)
    requires OneSideInv(l, s, peer) && SentInv(Flipped(l), peer) && SideStep(l, s, s', peer)
    ensures OneSideInv(l, s', peer) && s.sent <= s'.sent
  {
    hide PhaseInv, MadeOpening, MadeDraft, MadeCosig, Begins, Hands;
    if k :| Begins(l, s, s', k) {
      BeginKeeps(l, s, s', peer, k);
    } else if env :| Arrives(l, s, s', peer, env) {
      FeedKeepsReceived(l, s, env, peer);
      SideInvLooksAt(s, s');
    } else if HandsOver(l, s, s') {
      var k :| Hands(l, s, s', k);
      HandKeeps(l, s, s', peer, k);
    } else {
      SideInvLooksAt(s, s');
    }
  }

  lemma SideInvLooksAt(s: Side, s': Side)
    requires SideInv(s) && s'.cfg == s.cfg && s'.d == s.d && s'.got == s.got && s'.made == s.made
    ensures SideInv(s')
  {
  }

  lemma StepKeeps(s: Pair, s': Pair)
    requires Inv(s) && Step(s, s')
    ensures Inv(s')
  {
    hide SideStep, SideInv, SentInv, ReceivedInv;
    if s'.b == s.b && SideStep(s.link, s.a, s'.a, s.b) {
      SideStepKeeps(s.link, s.a, s'.a, s.b);
      MoreSentKeepsReceived(s.b, s.a.sent, s'.a.sent);
    } else {
      SideStepKeeps(Flipped(s.link), s.b, s'.b, s.a);
      MoreSentKeepsReceived(s.a, s.b.sent, s'.b.sent);
    }
  }

  lemma FreshIsInv(s: Pair)
    requires FreshSide(s.a) && FreshSide(s.b)
    ensures Inv(s)
  {
  }

  lemma {:induction false} RunsKeepInv(run: seq<Pair>, i: nat)
    requires IsRun(run) && i < |run|
    ensures Inv(run[i])
  {
    hide Inv, Step;
    if i == 0 {
      FreshIsInv(run[0]);
    } else {
      RunsKeepInv(run, i - 1);
      StepKeeps(run[i - 1], run[i - 1 + 1]);
    }
  }

  // ---------- Agreement ----------

  // What the one who co-signs found, whose tip the draft took: right after the tip it was announced
  // with, taking the reader's, dated once and within ten minutes of his clock, and over one union
  // with his own draft.
  predicate FoundInOrder(draft: Block, taken: Tip, after: Tip, readersNow: int, readers: Block) {
    && draft.body.Merge? && readers.body.Merge?
    && draft.address == after.address.(index := after.address.index + 1) && draft.prev == after.hash
    && draft.body.payload.tookAddress == taken.address && draft.body.payload.tookHash == taken.hash
    && draft.body.payload.time == draft.time && readersNow - 600 <= draft.time <= readersNow + 600
    && draft.body.payload.root == readers.body.payload.root && draft.body.payload.hll == readers.body.payload.hll
  }

  lemma ChecksFind(draft: Block, own: Tip, partner: Tip, now: int, ownDraft: Block)
    requires DraftChecks(draft, own, partner, now, ownDraft)
    ensures FoundInOrder(draft, own, partner, now, ownDraft)
  {
  }

  // `a` merged: the partner read this very draft and found it in order, and so did `a` with
  // the partner's; each is right after its own tip and takes the other's; one union.
  ghost predicate Agreed(a: Side, b: Side) {
    && a.d.pending.Some? && b.d.pending.Some?
    && |a.got| >= 2 && a.got[1] == Draft(b.d.pending.value)
    && |b.got| >= 2 && b.got[1] == Draft(a.d.pending.value)
    && a.d.partnerTip == b.d.ownTip && b.d.partnerTip == a.d.ownTip
    && FoundInOrder(a.d.pending.value, b.d.ownTip, b.d.partnerTip, b.cfg.now, b.d.pending.value)
    && FoundInOrder(b.d.pending.value, a.d.ownTip, a.d.partnerTip, a.cfg.now, a.d.pending.value)
  }

  lemma SentAll(l: Link, s: Side, peer: Side)
    requires SideInv(s) && SentInv(l, s) && ReceivedInv(peer, s.sent)
    ensures |peer.got| <= |s.made|
    ensures |peer.got| == |s.made| ==> peer.got == s.made
  {
  }

  lemma MadeAtMostThree(s: Side)
    requires SideInv(s)
    ensures |s.made| <= 3
  {
  }

  lemma DoneAgrees(l: Link, a: Side, b: Side)
    requires SideInv(a) && SentInv(l, a) && ReceivedInv(a, b.sent)
    requires SideInv(b) && SentInv(Flipped(l), b) && ReceivedInv(b, a.sent)
    requires a.d.phase == DONE
    ensures Agreed(a, b) && TakenForm(a.d.ownTip) && TakenForm(b.d.ownTip)
    ensures TakesTip(a.cfg, a.d.pending.value, b.d.ownTip) && TakesTip(b.cfg, b.d.pending.value, a.d.ownTip)
    ensures OwnForm(a.cfg, a.d.ownTip) && OwnForm(b.cfg, b.d.ownTip)
    ensures KeyOf(b.d.ownTip) == b.cfg.key
  {
    hide DraftChecks, FoundInOrder, TakesTip, TakenForm, OwnForm, RightAfter, CommitsUnion, Blobs;
    MadeAtMostThree(b);
    SentAll(Flipped(l), b, a);
    assert a.got == b.made;
    assert MadeOpening(b) && MadeDraft(a) && MadeDraft(b) && MadeCosig(a) && MadeCosig(b) && GotCosig(a);
    assert b.got[1] == Draft(a.d.pending.value);
    ChecksFind(a.got[1].block, a.d.ownTip, a.d.partnerTip, a.cfg.now, a.d.pending.value);
    ChecksFind(b.got[1].block, b.d.ownTip, b.d.partnerTip, b.cfg.now, b.d.pending.value);
    SentAll(l, a, b);
    ReceivedBegins(l, a, b);
  }

  lemma ReceivedBegins(l: Link, a: Side, b: Side)
    requires SideInv(a) && SideInv(b) && SentInv(l, a) && ReceivedInv(b, a.sent)
    requires |a.made| == 3 && |b.made| >= 2 && |b.got| >= 2 && b.got[1].Draft?
    ensures b.got[0] == a.made[0]
  {
    hide DraftChecks, TakesTip, TakenForm, OwnForm, RightAfter, CommitsUnion;
  }

  // ---------- The pair test of the deals table ----------

  // The block of this hash lies at this address.
  predicate LiesAt(h: Hash, a: Address) {
    h.OfBlock? && h.block.address == a
  }

  // By what the table takes two merge blocks for the halves of one merge: the block `mine`
  // took is where it says, and `other`, right after it, took the block right before `mine`.
  predicate Halves(mine: Block, other: Block) {
    && mine.body.Merge? && other.body.Merge? && mine.address.index > 0
    && LiesAt(mine.body.payload.tookHash, mine.body.payload.tookAddress)
    && other.address == After(mine.body.payload.tookAddress)
    && var before := mine.address.(index := mine.address.index - 1);
       other.body.payload.tookAddress == before && LiesAt(other.body.payload.tookHash, before)
  }

  lemma AgreedArePaired(a: Side, b: Side)
    requires Agreed(a, b) && OwnForm(a.cfg, a.d.ownTip) && OwnForm(b.cfg, b.d.ownTip)
    requires TakenForm(a.d.ownTip) && TakenForm(b.d.ownTip)
    ensures Halves(a.d.pending.value, b.d.pending.value) && Halves(b.d.pending.value, a.d.pending.value)
  {
  }

  // What a finished side may rely on.
  ghost predicate Merged(a: Side, b: Side) {
    && Agreed(a, b)
    && Halves(a.d.pending.value, b.d.pending.value) && Halves(b.d.pending.value, a.d.pending.value)
    && a.d.merged == Some((a.d.pending.value, Signature(b.cfg.key, OfBlock(a.d.pending.value))))
    && -600 <= a.d.pending.value.time - b.d.pending.value.time <= 600
  }

  lemma DoneIsMerged(l: Link, a: Side, b: Side)
    requires SideInv(a) && SentInv(l, a) && ReceivedInv(a, b.sent)
    requires SideInv(b) && SentInv(Flipped(l), b) && ReceivedInv(b, a.sent)
    requires a.d.phase == DONE
    ensures Merged(a, b)
  {
    hide Halves, OwnForm, SentInv, ReceivedInv, TakenForm;
    DoneAgrees(l, a, b);
    AgreedArePaired(a, b);
  }

  // In every state of every run: what was handed over is the beginning of what the peer
  // sent, and a side that is done has merged with a partner who read and co-signed its draft.
  lemma EveryRunAgrees(run: seq<Pair>, i: nat)
    requires IsRun(run) && i < |run|
    ensures var s := run[i];
            && s.a.got <= Blobs(s.b.sent) && s.b.got <= Blobs(s.a.sent)
            && (s.a.d.phase == DONE ==> Merged(s.a, s.b))
            && (s.b.d.phase == DONE ==> Merged(s.b, s.a))
  {
    hide Merged, IsRun, SideInv, SentInv;
    RunsKeepInv(run, i);
    var s := run[i];
    if s.a.d.phase == DONE { DoneIsMerged(s.link, s.a, s.b); }
    if s.b.d.phase == DONE {
      assert Flipped(Flipped(s.link)) == s.link;
      DoneIsMerged(Flipped(s.link), s.b, s.a);
    }
  }

  // ---------- A relay that invents messages ----------

  // Anything but a co-signature under the peer's key that the peer never made.
  predicate Unforged(msg: Message, peer: Side) {
    msg.Cosig? && msg.signature.signer == peer.cfg.key ==> msg in peer.made
  }

  ghost predicate Invented(l: Link, s: Side, s': Side, peer: Side, env: Envelope) {
    Unforged(env.blob, peer) && s' == Received(l, s, env)
  }

  ghost predicate ForgingSideStep(l: Link, s: Side, s': Side, peer: Side) {
    || (exists k :: Begins(l, s, s', k))
    || (exists env :: Invented(l, s, s', peer, env))
    || HandsOver(l, s, s')
    || StorageChanges(s, s')
  }

  ghost predicate ForgingStep(s: Pair, s': Pair) {
    s'.link == s.link &&
    ((s'.b == s.b && ForgingSideStep(s.link, s.a, s'.a, s.b)) ||
     (s'.a == s.a && ForgingSideStep(Flipped(s.link), s.b, s'.b, s.a)))
  }

  ghost predicate IsForgingRun(run: seq<Pair>) {
    && run != [] && FreshSide(run[0].a) && FreshSide(run[0].b)
    && forall i | 0 <= i < |run| - 1 :: ForgingStep(run[i], run[i + 1])
  }

  // Whatever a side was handed or keeps waiting is unforged.
  ghost predicate HoldsUnforged(s: Side, peer: Side) {
    && (forall i | 0 <= i < |s.got| :: Unforged(s.got[i], peer))
    && (forall i | i in s.reorder :: Unforged(s.reorder[i], peer))
  }

  ghost predicate ForgingInv(s: Pair) {
    SideInv(s.a) && SideInv(s.b) && HoldsUnforged(s.a, s.b) && HoldsUnforged(s.b, s.a)
  }

  lemma MoreMadeKeepsUnforged(s: Side, peer: Side, peer': Side)
    requires HoldsUnforged(s, peer) && peer'.cfg == peer.cfg && peer.made <= peer'.made
    ensures HoldsUnforged(s, peer')
  {
    forall m: Message | m in peer.made ensures m in peer'.made {
      var i :| 0 <= i < |peer.made| && peer.made[i] == m;
      assert peer'.made[i] == m;
    }
  }

  lemma ForgingSideStepKeeps(l: Link, s: Side, s': Side, peer: Side)
    requires SideInv(s) && HoldsUnforged(s, peer) && ForgingSideStep(l, s, s', peer)
    ensures SideInv(s') && HoldsUnforged(s', peer) && s'.cfg == s.cfg && s.made <= s'.made
  {
    hide PhaseInv, MadeOpening, MadeDraft, MadeCosig, Started, Handled, Unforged;
    if k :| Begins(l, s, s', k) {
      StartKeepsSide(s);
      SideInvLooksAt(Noted(s, Started(s.cfg, s.st, s.d), []), s');
    } else if env :| Invented(l, s, s', peer, env) {
      SideInvLooksAt(s, s');
    } else if HandsOver(l, s, s') {
      var k :| Hands(l, s, s', k);
      var msg := s.reorder[s.nextIn];
      MessageKeepsSide(s, msg);
      SideInvLooksAt(Noted(s, Handled(s.cfg, s.st, s.d, msg), [msg]), s');
    } else {
      SideInvLooksAt(s, s');
    }
  }

  lemma {:induction false} ForgingRunsKeepInv(run: seq<Pair>, i: nat)
    requires IsForgingRun(run) && i < |run|
    ensures ForgingInv(run[i])
  {
    hide SideInv, ForgingSideStep, HoldsUnforged;
    if i == 0 {
      FreshHoldsNothing(run[0]);
    } else {
      ForgingRunsKeepInv(run, i - 1);
      var s, s' := run[i - 1], run[i - 1 + 1];
      if s'.b == s.b && ForgingSideStep(s.link, s.a, s'.a, s.b) {
        ForgingSideStepKeeps(s.link, s.a, s'.a, s.b);
        MoreMadeKeepsUnforged(s.b, s.a, s'.a);
      } else {
        ForgingSideStepKeeps(Flipped(s.link), s.b, s'.b, s.a);
        MoreMadeKeepsUnforged(s.a, s.b, s'.b);
      }
    }
  }

  lemma FreshHoldsNothing(s: Pair)
    requires FreshSide(s.a) && FreshSide(s.b)
    ensures ForgingInv(s)
  {
  }

  // The partner read this draft and found it in order, over the union of its own.
  ghost predicate WasRead(a: Side, b: Side) {
    && a.d.pending.Some? && b.d.pending.Some? && |b.got| > 1 && b.got[1] == Draft(a.d.pending.value)
    && FoundInOrder(a.d.pending.value, b.d.ownTip, b.d.partnerTip, b.cfg.now, b.d.pending.value)
    && |b.made| > 0
    && (b.made[0].Accept? ==> RightAfter(b.d.pending.value, b.d.ownTip))
    && (b.made[0].Accept? && LiesAt(a.d.pending.value.prev, b.d.partnerTip.address) && TakenForm(b.d.ownTip) ==>
          Halves(a.d.pending.value, b.d.pending.value))
  }

  lemma DoneWasRead(a: Side, b: Side)
    requires SideInv(a) && SideInv(b) && HoldsUnforged(a, b) && a.d.phase == DONE && KeyOf(a.d.partnerTip) == b.cfg.key
    ensures WasRead(a, b)
  {
    assert GotCosig(a) && Unforged(a.got[2], b);
    MadeAtMostThree(b);
    assert |b.made| >= 1 ==> MadeOpening(b);
    assert |b.made| >= 2 ==> MadeDraft(b);
    assert |b.made| == 3 && MadeCosig(b);
  }

  // Over a relay that delivers whatever it likes, invented messages included, as long as it
  // cannot sign for the partner: in every state of every run, a side that is done by that
  // partner's key has a draft the partner read and found in order.
  lemma DoneWasReadDespiteForgery(run: seq<Pair>, i: nat)
    requires IsForgingRun(run) && i < |run|
    ensures var s := run[i];
            && (s.a.d.phase == DONE ==>
               s.a.d.partnerTip.path != [] && (KeyOf(s.a.d.partnerTip) == s.b.cfg.key ==> WasRead(s.a, s.b)))
            && (s.b.d.phase == DONE ==>
               s.b.d.partnerTip.path != [] && (KeyOf(s.b.d.partnerTip) == s.a.cfg.key ==> WasRead(s.b, s.a)))
  {
    ForgingRunsKeepInv(run, i);
    var s := run[i];
    hide IsForgingRun, WasRead, HoldsUnforged;
    assert s.a.d.phase == DONE ==> GotCosig(s.a);
    assert s.b.d.phase == DONE ==> GotCosig(s.b);
    if s.a.d.phase == DONE && KeyOf(s.a.d.partnerTip) == s.b.cfg.key { DoneWasRead(s.a, s.b); }
    if s.b.d.phase == DONE && KeyOf(s.b.d.partnerTip) == s.a.cfg.key { DoneWasRead(s.b, s.a); }
  }

  // ---------- A run in order ----------

  function Fed(cfg: Config, o: Outcome, msgs: seq<Message>, i: nat): Outcome {
    if i < |msgs| then Handled(cfg, o.st, o.d, msgs[i]) else Outcome(o.d, o.st, [])
  }

  // Every message arrives once and in order, and nothing else happens.
  function InOrder(ca: Config, sa: Storage, cb: Config, sb: Storage): (Dialogue, Dialogue) {
    var a0 := Started(ca, sa, Fresh());
    var b1 := Fed(cb, Outcome(Fresh(), sb, []), a0.out, 0);
    var a1 := Fed(ca, a0, b1.out, 0);
    var a2 := Fed(ca, a1, b1.out, 1);
    var b2 := Fed(cb, b1, a1.out, 0);
    var b3 := Fed(cb, b2, a2.out, 0);
    var a3 := Fed(ca, a2, b2.out, 0);
    (a3.d, b3.d)
  }

  // A branch that can merge and a storage that keeps what it is given, under the key its leaf node was created with.
  predicate Ready(cfg: Config, st: Storage) {
    && st.path != [] && st.writable && st.takesBlock && st.takesSnapshot
    && st.tip.Some? && st.tip.value.address.index != EMPTY_BRANCH_INDEX
    && st.tip.value.address == TipAddress(cfg, st.tip.value.address.index)
    && st.path[|st.path| - 1].working == cfg.key
  }

  predicate Welcomes(now: int, st: Storage, partner: Config, partnerStore: Storage)
    requires partnerStore.path != [] && partnerStore.tip.Some?
  {
    st.trusts(PreparedTip(partner, partnerStore)) && partnerStore.tip.value.time <= now + 600
  }

  predicate CanMerge(ca: Config, sa: Storage, cb: Config, sb: Storage) {
    && Ready(ca, sa) && Ready(cb, sb)
    && Welcomes(ca.now, sa, cb, sb) && Welcomes(cb.now, sb, ca, sa)
    && -600 <= ca.now - cb.now <= 600
  }

  // The two sides after both announced their drafts.
  lemma InOrderDrafts(ca: Config, sa: Storage, cb: Config, sb: Storage)
    requires CanMerge(ca, sa, cb, sb)
    ensures var (ta, na, tb, nb) :=
            (PreparedTip(ca, sa), SnapshotFor(ca, sa).value, PreparedTip(cb, sb), SnapshotFor(cb, sb).value);
            var (pa, pb) := (DraftFor(ca, sa.tip.value, na, tb, nb), DraftFor(cb, sb.tip.value, nb, ta, na));
            var a0 := Started(ca, sa, Fresh());
            var b1 := Fed(cb, Outcome(Fresh(), sb, []), a0.out, 0);
            var a1 := Fed(ca, a0, b1.out, 0);
            && b1.out == [Accept(tb, nb), Draft(pb)] && a1.out == [Draft(pa)]
            && a1.d == Dialogue(WAIT_DRAFT, ta, na, tb, nb, Some(pa), None)
            && b1.d == Dialogue(WAIT_DRAFT, tb, nb, ta, na, Some(pb), None)
  {
    hide DraftFor, Union, PreparedTip;
    TipsAreAccepted(ca, sa, cb, sb);
    TipsAreAccepted(cb, sb, ca, sa);
    var a0 := Started(ca, sa, Fresh());
    assert a0.out == [Offer(PreparedTip(ca, sa), SnapshotFor(ca, sa).value)];
  }

  lemma TipsAreAccepted(ca: Config, sa: Storage, cb: Config, sb: Storage)
    requires Ready(cb, sb) && Welcomes(ca.now, sa, cb, sb)
    ensures TipAccepted(sa, PreparedTip(cb, sb), ca.now) && PreparedTip(cb, sb).address.index != EMPTY_BRANCH_INDEX
    ensures KeyOf(PreparedTip(cb, sb)) == cb.key
  {
  }

  lemma DraftsAreInOrder(ca: Config, sa: Storage, cb: Config, sb: Storage)
    requires CanMerge(ca, sa, cb, sb)
    ensures var (ta, na, tb, nb) :=
            (PreparedTip(ca, sa), SnapshotFor(ca, sa).value, PreparedTip(cb, sb), SnapshotFor(cb, sb).value);
            DraftChecks(DraftFor(cb, sb.tip.value, nb, ta, na), ta, tb, ca.now, DraftFor(ca, sa.tip.value, na, tb, nb))
  {
    hide Union;
    UnionCommutes(SnapshotFor(ca, sa).value, SnapshotFor(cb, sb).value);
  }

  lemma InOrderFinishes(ca: Config, sa: Storage, cb: Config, sb: Storage)
    requires CanMerge(ca, sa, cb, sb)
    ensures InOrder(ca, sa, cb, sb).0.phase == DONE && InOrder(ca, sa, cb, sb).1.phase == DONE
  {
    hide DraftFor, DraftChecks, PreparedTip, Started, OnOffer, OnAccept;
    InOrderDrafts(ca, sa, cb, sb);
    DraftsAreInOrder(ca, sa, cb, sb);
    DraftsAreInOrder(cb, sb, ca, sa);
    TipsAreAccepted(ca, sa, cb, sb);
    TipsAreAccepted(cb, sb, ca, sa);
  }

  // A fed side that is done, or waits for the co-signature, got there by this message or was
  // there before.
  lemma FedCameFrom(cfg: Config, o: Outcome, msgs: seq<Message>, i: nat)
    ensures var o' := Fed(cfg, o, msgs, i);
            && (o'.d.phase == DONE && o.d.phase != DONE ==>
                  o.d.phase == WAIT_COSIG && i < |msgs| && msgs[i].Cosig? && o.d.pending.Some? &&
                    o.d.partnerTip.path != [] &&
                  CosigChecks(o.d.pending.value, msgs[i].signature, KeyOf(o.d.partnerTip)))
            && (o'.d.phase == WAIT_COSIG && o.d.phase != WAIT_COSIG ==>
                  o.d.phase == WAIT_DRAFT && i < |msgs| && msgs[i].Draft? && o.d.pending.Some? &&
                  DraftChecks(msgs[i].block, o.d.ownTip, o.d.partnerTip, cfg.now, o.d.pending.value) &&
                  o'.out == [Cosig(Signature(cfg.key, OfBlock(msgs[i].block)))] &&
                  o'.d == o.d.(phase := WAIT_COSIG))
  {
    hide DraftChecks, CosigChecks, Prepared, Pending, TipAccepted;
  }

  ghost predicate Opened(cfg: Config, st: Storage, d: Dialogue) {
    && st.path != [] && d.ownTip == PreparedTip(cfg, st)
    && TipAccepted(st, d.partnerTip, cfg.now)
    && st.tip.Some? && st.writable && st.takesBlock && st.takesSnapshot
    && d.partnerTip.address.index != EMPTY_BRANCH_INDEX
    && d.pending.Some? && d.pending.value.time == cfg.now
  }

  // How far the openings bring the two sides, and what must have been the case.
  lemma OpeningsCameFrom(ca: Config, sa: Storage, cb: Config, sb: Storage)
    ensures var a0 := Started(ca, sa, Fresh());
            var b1 := Fed(cb, Outcome(Fresh(), sb, []), a0.out, 0);
            var a1 := Fed(ca, a0, b1.out, 0);
            && b1.d.phase in {IDLE, WAIT_DRAFT, FAILED} && a1.d.phase in {WAIT_ACCEPT, WAIT_DRAFT, FAILED}
            && (a1.d.phase == WAIT_DRAFT ==>
                  && b1.d.phase == WAIT_DRAFT && Opened(ca, sa, a1.d) && Opened(cb, sb, b1.d)
                  && a1.d.partnerTip == b1.d.ownTip && b1.d.partnerTip == a1.d.ownTip
                  && a1.out == [Draft(a1.d.pending.value)]
                  && |b1.out| == 2 && b1.out[1] == Draft(b1.d.pending.value))
  {
    hide PreparedTip, TipAccepted, SnapshotFor, Union;
    var a0 := Started(ca, sa, Fresh());
    var b1 := Fed(cb, Outcome(Fresh(), sb, []), a0.out, 0);
    var a1 := Fed(ca, a0, b1.out, 0);
    assert a0.out == [] ||
           (sa.path != [] && a0.d.phase == WAIT_ACCEPT && a0.out == [Offer(a0.d.ownTip, a0.d.ownSnapshot)]);
    assert b1.out == [] ||
           (b1.d.phase == WAIT_DRAFT && b1.out == [Accept(b1.d.ownTip, b1.d.ownSnapshot), Draft(b1.d.pending.value)]);
  }

  lemma OnlyIfReady(ca: Config, sa: Storage, cb: Config, sb: Storage)
    requires InOrder(ca, sa, cb, sb).0.phase == DONE && InOrder(ca, sa, cb, sb).1.phase == DONE
    ensures CanMerge(ca, sa, cb, sb)
  {
    hide Fed, Started;
    var a0 := Started(ca, sa, Fresh());
    var b1 := Fed(cb, Outcome(Fresh(), sb, []), a0.out, 0);
    var a1 := Fed(ca, a0, b1.out, 0);
    var a2 := Fed(ca, a1, b1.out, 1);
    var b2 := Fed(cb, b1, a1.out, 0);
    OpeningsCameFrom(ca, sa, cb, sb);
    FedCameFrom(ca, a2, b2.out, 0);
    FedCameFrom(ca, a1, b1.out, 1);
    FedCameFrom(cb, b2, a2.out, 0);
    FedCameFrom(cb, b1, a1.out, 0);
    assert a1.d.phase == WAIT_DRAFT && b1.d.phase == WAIT_DRAFT;
    assert KeyOf(a1.d.partnerTip) == cb.key && KeyOf(b1.d.partnerTip) == ca.key;
  }

  // Undisturbed, both sides finish exactly when the branches are ready, each trusts the
  // other's tip and the clocks agree; a rotated key is not ready.
  lemma InOrderFinishesExactly(ca: Config, sa: Storage, cb: Config, sb: Storage)
    ensures var (a, b) := InOrder(ca, sa, cb, sb);
            (a.phase == DONE && b.phase == DONE) <==> CanMerge(ca, sa, cb, sb)
  {
    hide CanMerge, InOrder;
    var (a, b) := InOrder(ca, sa, cb, sb);
    if CanMerge(ca, sa, cb, sb) { InOrderFinishes(ca, sa, cb, sb); }
    if a.phase == DONE && b.phase == DONE { OnlyIfReady(ca, sa, cb, sb); }
  }
}
