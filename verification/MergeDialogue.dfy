// One side of a bilateral merge as a state machine over messages (sync/merge_dialogue).
module MergeDialogue {
  import opened Options
  import opened Merkle
  import opened Blocks
  import opened MergeSnapshot
  import opened MergeSession

  // Anything that does not decode strictly is Garbage.
  datatype Message =
    | Offer(tip: Tip, snapshot: Snapshot)
    | Accept(tip: Tip, snapshot: Snapshot)
    | Draft(block: Block)
    | Cosig(signature: Signature)
    | Garbage

  datatype Phase = IDLE | WAIT_ACCEPT | WAIT_DRAFT | WAIT_COSIG | DONE | FAILED

  datatype Dialogue = Dialogue(phase: Phase, ownTip: Tip, ownSnapshot: Snapshot, partnerTip: Tip,
    partnerSnapshot: Snapshot,
                               pending: Option<Block>, merged: Option<(Block, Signature)>)
  {
    predicate Finished() { phase == DONE || phase == FAILED }

    function Fail(): Dialogue { this.(phase := FAILED) }
  }

  const NO_TIP := Tip([], Address(0, 0, 0), ZeroHash, None)
  function NoSnapshot(): Snapshot { Snapshot(Zero, seq(REGISTERS, _ => 0)) }
  function Fresh(): Dialogue { Dialogue(IDLE, NO_TIP, NoSnapshot(), NO_TIP, NoSnapshot(), None, None) }

  datatype Outcome = Outcome(d: Dialogue, st: Storage, out: seq<Message>)

  // ---------- The steps ----------

  // The own tip and the snapshot before the merge; the flag says whether both could be had.
  function Prepared(cfg: Config, st: Storage, d: Dialogue): (Dialogue, bool) {
    if st.path == [] then (d, false) else
    var withTip := d.(ownTip := PreparedTip(cfg, st));
    match SnapshotFor(cfg, st)
    case None => (withTip, false)
    case Some(s) => (withTip.(ownSnapshot := s), true)
  }

  function Started(cfg: Config, st: Storage, d: Dialogue): Outcome {
    if d.phase != IDLE then Outcome(d.Fail(), st, []) else
    var (p, ok) := Prepared(cfg, st, d);
    if ok then Outcome(p.(phase := WAIT_ACCEPT), st, [Offer(p.ownTip, p.ownSnapshot)])
    else Outcome(p.Fail(), st, [])
  }

  // With both tips known: the pending draft, and what announces it.
  function Drafted(cfg: Config, st: Storage, d: Dialogue, opening: seq<Message>): Outcome {
    match Pending(cfg, st, d.partnerTip, d.partnerSnapshot)
    case (None, st') => Outcome(d.Fail(), st', [])
    case (Some(draft), st') =>
      Outcome(d.(phase := WAIT_DRAFT, pending := Some(draft)), st', opening + [Draft(draft)])
  }

  function OnOffer(cfg: Config, st: Storage, d: Dialogue, tip: Tip, snapshot: Snapshot): Outcome {
    var got := d.(partnerTip := tip, partnerSnapshot := snapshot);
    if !TipAccepted(st, tip, cfg.now) then Outcome(got.Fail(), st, []) else
    var (p, ok) := Prepared(cfg, st, got);
    if ok then Drafted(cfg, st, p, [Accept(p.ownTip, p.ownSnapshot)]) else Outcome(p.Fail(), st, [])
  }

  function OnAccept(cfg: Config, st: Storage, d: Dialogue, tip: Tip, snapshot: Snapshot): Outcome {
    var got := d.(partnerTip := tip, partnerSnapshot := snapshot);
    if TipAccepted(st, tip, cfg.now) then Drafted(cfg, st, got, []) else Outcome(got.Fail(), st, [])
  }

  function OnDraft(cfg: Config, st: Storage, d: Dialogue, draft: Block): Outcome {
    if d.pending.Some? && DraftChecks(draft, d.ownTip, d.partnerTip, cfg.now, d.pending.value)
    then Outcome(d.(phase := WAIT_COSIG), st, [Cosig(Signature(cfg.key, OfBlock(draft)))])
    else Outcome(d.Fail(), st, [])
  }

  function OnCosig(cfg: Config, st: Storage, d: Dialogue, sig: Signature): Outcome {
    if d.pending.Some? && d.partnerTip.path != [] && CosigChecks(d.pending.value, sig, KeyOf(d.partnerTip))
    then Outcome(d.(phase := DONE, merged := Some((d.pending.value, sig))),
                 Finalized(st, d.pending.value, sig, d.partnerTip), [])
    else Outcome(d.Fail(), st, [])
  }

  function Handled(cfg: Config, st: Storage, d: Dialogue, msg: Message): Outcome {
    if d.Finished() then Outcome(d, st, [])
    else if d.phase == IDLE && msg.Offer? then OnOffer(cfg, st, d, msg.tip, msg.snapshot)
    else if d.phase == WAIT_ACCEPT && msg.Accept? then OnAccept(cfg, st, d, msg.tip, msg.snapshot)
    else if d.phase == WAIT_DRAFT && msg.Draft? then OnDraft(cfg, st, d, msg.block)
    else if d.phase == WAIT_COSIG && msg.Cosig? then OnCosig(cfg, st, d, msg.signature)
    else Outcome(d.Fail(), st, [])
  }

  // What a dialogue keeps between two messages.
  predicate Sane(d: Dialogue) {
    (d.phase == WAIT_DRAFT || d.phase == WAIT_COSIG) ==> d.pending.Some? && d.partnerTip.path != []
  }

  lemma StepsKeepSane(cfg: Config, st: Storage, d: Dialogue, msg: Message)
    requires Sane(d)
    ensures Sane(Handled(cfg, st, d, msg).d) && Sane(Started(cfg, st, d).d)
  {
  }

  // ---------- The dialogue ----------

  class MergeDialogue {
    const session: Session
    const cfg: Config
    var phase: Phase
    var ownTip: Tip
    var ownSnapshot: Snapshot
    var partnerTip: Tip
    var partnerSnapshot: Snapshot
    var pending: Option<Block>
    var merged: Option<(Block, Signature)>

    function State(): Dialogue reads this {
      Dialogue(phase, ownTip, ownSnapshot, partnerTip, partnerSnapshot, pending, merged)
    }

    ghost predicate Valid() reads this { Sane(State()) }

    // The side, its storage and its answers are as one step of the state machine says.
    ghost predicate Is(o: Outcome, out: seq<Message>) reads this, session {
      State() == o.d && session.store == o.st && out == o.out
    }

    constructor (session: Session, cfg: Config)
      ensures Valid() && State() == Fresh() && this.session == session && this.cfg == cfg
    {
      this.session, this.cfg := session, cfg;
      phase, pending, merged := IDLE, None, None;
      ownTip, ownSnapshot, partnerTip, partnerSnapshot := NO_TIP, NoSnapshot(), NO_TIP, NoSnapshot();
    }

    method PrepareOwnSide() returns (ok: bool)
      modifies this
      ensures (State(), ok) == Prepared(cfg, session.store, old(State()))
    {
      if session.store.path == [] { return false; }
      ownTip := PreparedTip(cfg, session.store);
      var s := SnapshotFor(cfg, session.store);
      if s.None? { return false; }
      ownSnapshot := s.value;
      ok := true;
    }

    method Start() returns (out: seq<Message>)
      requires Valid()
      modifies this
      ensures Valid() && Is(Started(cfg, old(session.store), old(State())), out)
    {
      out := [];
      if phase != IDLE { phase := FAILED; return; }
      var ok := PrepareOwnSide();
      if !ok { phase := FAILED; return; }
      phase := WAIT_ACCEPT;
      out := [Offer(ownTip, ownSnapshot)];
    }

    method AcceptPartner(tip: Tip, snapshot: Snapshot) returns (ok: bool)
      modifies this
      ensures State() == old(State()).(partnerTip := tip, partnerSnapshot := snapshot)
      ensures ok == TipAccepted(session.store, tip, cfg.now)
    {
      partnerTip, partnerSnapshot := tip, snapshot;
      ok := TipAccepted(session.store, tip, cfg.now);
    }

    method DraftOwn(opening: seq<Message>) returns (out: seq<Message>)
      modifies this, session
      ensures Is(Drafted(cfg, old(session.store), old(State()), opening), out)
    {
      var draft := session.CreatePending(cfg, partnerTip, partnerSnapshot);
      if draft.None? { phase := FAILED; return []; }
      pending := draft;
      phase := WAIT_DRAFT;
      out := opening + [Draft(draft.value)];
    }

    method HandleOffer(tip: Tip, snapshot: Snapshot) returns (out: seq<Message>)
      modifies this, session
      ensures Is(OnOffer(cfg, old(session.store), old(State()), tip, snapshot), out)
    {
      out := [];
      var ok := AcceptPartner(tip, snapshot);
      if !ok { phase := FAILED; return; }
      ok := PrepareOwnSide();
      if !ok { phase := FAILED; return; }
      out := DraftOwn([Accept(ownTip, ownSnapshot)]);
    }

    method HandleAccept(tip: Tip, snapshot: Snapshot) returns (out: seq<Message>)
      modifies this, session
      ensures Is(OnAccept(cfg, old(session.store), old(State()), tip, snapshot), out)
    {
      var ok := AcceptPartner(tip, snapshot);
      if !ok { phase := FAILED; return []; }
      out := DraftOwn([]);
    }

    method HandleDraft(draft: Block) returns (out: seq<Message>)
      requires phase == WAIT_DRAFT && Valid()
      modifies this
      ensures Is(OnDraft(cfg, old(session.store), old(State()), draft), out)
    {
      if !DraftChecks(draft, ownTip, partnerTip, cfg.now, pending.value) { phase := FAILED; return []; }
      phase := WAIT_COSIG;
      out := [Cosig(Signature(cfg.key, OfBlock(draft)))];
    }

    method HandleCosig(sig: Signature) returns (out: seq<Message>)
      requires phase == WAIT_COSIG && Valid()
      modifies this, session
      ensures Is(OnCosig(cfg, old(session.store), old(State()), sig), out)
    {
      var ok := session.Finalize(pending.value, sig, partnerTip);
      if !ok { phase := FAILED; return []; }
      merged := Some((pending.value, sig));
      phase := DONE;
      out := [];
    }

    method OnMessage(msg: Message) returns (out: seq<Message>)
      requires Valid()
      modifies this, session
      ensures Valid() && Is(Handled(cfg, old(session.store), old(State()), msg), out)
    {
      StepsKeepSane(cfg, session.store, State(), msg);
      out := [];
      if phase == DONE || phase == FAILED { return; }
      match phase {
        case IDLE => if msg.Offer? { out := HandleOffer(msg.tip, msg.snapshot); return; }
        case WAIT_ACCEPT => if msg.Accept? { out := HandleAccept(msg.tip, msg.snapshot); return; }
        case WAIT_DRAFT => if msg.Draft? { out := HandleDraft(msg.block); return; }
        case WAIT_COSIG => if msg.Cosig? { out := HandleCosig(msg.signature); return; }
        case _ =>
      }
      phase := FAILED;
    }
  }
}
