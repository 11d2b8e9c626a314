/** What holds of each room between the steps of the bridge: a live session that wants
    playback is driven by exactly one thing, and its worker only starts the stream that its
    last finished Prepare loaded. */
module BridgeRooms {
  import opened BridgeState

  // ---- Tokens ----

  predicate IsStart(c: Command) {
    c.Play? || c.PlayGroup? || c.Join?
  }

  predicate Starts(c: Command, p: Stream) {
    IsStart(c) && c.id == p.id && c.generation == p.generation
  }

  predicate Drives(c: Command, id: SessionId, generation: nat) {
    !c.Stop? && c.id == id && c.generation == generation
  }

  function One(b: bool): nat { if b then 1 else 0 }

  function Last(list: seq<Command>): Command
    requires list != []
  {
    list[|list| - 1]
  }

  predicate DrivenByUnseen(ch: Channel, id: SessionId, generation: nat) {
    ch.unseen != [] && Drives(Last(ch.unseen), id, generation)
  }

  predicate DrivenByRunning(ch: Channel, id: SessionId, generation: nat) {
    ch.running.Some? && Drives(ch.running.value, id, generation)
  }

  function ResultTokens(bag: multiset<Message>, id: SessionId, generation: nat): nat {
    bag[Result(id, generation, Started)] + bag[Result(id, generation, Joined)] +
    bag[Result(id, generation, TimedOut)] + bag[Result(id, generation, Failed)] +
    bag[Result(id, generation, PermanentFailure)]
  }

  function MessageTokens(bag: multiset<Message>, id: SessionId, generation: nat): nat {
    bag[Prepared(id, generation)] + ResultTokens(bag, id, generation) + bag[Retry(id, generation)]
  }

  /** How many things drive the session's current generation: a Prepare or start command
      that is pending or running, a message in flight, a stream waiting in a cohort, an armed
      retry. */
  function Tokens(id: SessionId, x: Session, ch: Channel, entry: bool): nat {
    One(DrivenByUnseen(ch, id, x.generation)) + One(DrivenByRunning(ch, id, x.generation)) +
    MessageTokens(ch.bag, id, x.generation) + One(entry) + One(x.timer == Some(x.generation))
  }

  /** The current generation is being prepared, or is prepared but not released. */
  predicate Unreleased(id: SessionId, x: Session, ch: Channel, entry: bool) {
    || entry
    || (ch.unseen != [] && Last(ch.unseen) == Prepare(id, x.generation))
    || ch.running == Some(Prepare(id, x.generation))
    || ch.bag[Prepared(id, x.generation)] > 0
  }

  predicate Spent(x: Session) {
    x.attempts >= RETRY_BUDGET && x.resetNeeded
  }

  predicate PlanComes(ch: Channel) {
    || (ch.unseen != [] && Last(ch.unseen).PlayGroup? && Last(ch.unseen).delay.Some?)
    || (ch.running.Some? && ch.running.value.PlayGroup? && ch.running.value.delay.Some?)
  }

  // ---- Room invariant ----

  /** At most one thing drives the session, and a newer command never follows it. */
  ghost predicate SingleToken(id: SessionId, x: Session, ch: Channel, entry: bool) {
    && Tokens(id, x, ch, entry) <= 1
    && (forall i :: 0 <= i < |ch.unseen| - 1 ==> !Drives(ch.unseen[i], id, x.generation))
    && (DrivenByRunning(ch, id, x.generation) ==> ch.unseen == [])
    && x.attempts <= RETRY_BUDGET
    && (x.observed == Playing && Tokens(id, x, ch, entry) > 0 ==>
          x.prepared.None? && (x.timer == Some(x.generation) || ch.bag[Retry(id, x.generation)] > 0))
  }

  /** Something drives a session that wants playback, unless it plays or gave up. Nothing
      drives a session that does not. A released WAV stream has its plan, or will get it. */
  predicate Settled(wav: bool, id: SessionId, x: Session, ch: Channel, entry: bool, planned: bool) {
    && (x.wanted ==> Tokens(id, x, ch, entry) == 1 || x.observed == Playing || Spent(x))
    && (!x.wanted ==> Tokens(id, x, ch, entry) == 0 && x.observed != Playing && x.prepared.None? && x.timer.None?)
    && (x.encoder.Some? ==> x.encoder.value.epoch == x.epoch)
    && x.generation > 0
    && (wav && x.prepared.Some? && !entry ==> x.held.Some? || planned || PlanComes(ch))
  }

  /** The kept stream is the one the renderer has loaded, and only its starts can follow. */
  ghost predicate StreamOk(id: SessionId, x: Session, ch: Channel, entry: bool) {
    && (x.held.Some? ==> x.prepared.Some?)
    && (x.prepared.Some? ==>
          var p := x.prepared.value;
          && p == Stream(id, x.zone, x.generation)
          && ch.loaded == Some(p)
          && (ch.unseen != [] ==> |ch.unseen| == 1 && Starts(ch.unseen[0], p))
          && (ch.running.Some? ==> Starts(ch.running.value, p)))
    && (ch.bag[Prepared(id, x.generation)] > 0 ==>
          && x.prepared.None?
          && ch.loaded == Some(Stream(id, x.zone, x.generation))
          && ch.unseen == [] && ch.running.None? && !ch.member)
    && (entry && x.wanted ==> x.prepared.Some? && ch.unseen == [] && ch.running.None? && !ch.member)
  }

  ghost predicate RoomOk(wav: bool, id: SessionId, x: Session, ch: Channel, entry: bool, planned: bool, settled: bool) {
    && SingleToken(id, x, ch, entry)
    && StreamOk(id, x, ch, entry)
    && (settled ==> Settled(wav, id, x, ch, entry, planned))
  }

  /** A worker finds a start command only for the stream it loaded last, and a first start
      only in a room that is in no group. */
  ghost predicate ChannelOk(sonos: bool, wav: bool, ch: Channel, plans: map<nat, Plan>) {
    && (forall k :: 0 <= k < |ch.unseen| && IsStart(ch.unseen[k]) ==>
          && k == 0 && ch.running.None?
          && ch.loaded.Some? && Starts(ch.unseen[k], ch.loaded.value)
          && StartOk(sonos, wav, ch.unseen[k], ch.member, plans))
    && (ch.running.Some? && IsStart(ch.running.value) ==>
          && ch.loaded.Some? && Starts(ch.running.value, ch.loaded.value)
          && StartOk(sonos, wav, ch.running.value, ch.member, plans))
    && (ch.member ==> ch.joined && sonos)
  }

  /** A start in its own right has its plan, and one that expects the room out of any group
      finds it so. */
  predicate StartOk(sonos: bool, wav: bool, c: Command, member: bool, plans: map<nat, Plan>) {
    && (c.Join? ==> sonos)
    && (c.Play? && wav ==> c.generation in plans)
    && (c.PlayGroup? && wav ==> c.delay.Some?)
    && (c.PlayGroup? || c.Join? ==> !member)
  }

  /** Whether generation `generation` was issued to session `id` in this zone. */
  predicate Issued(issued: seq<Owner>, zone: ZoneId, id: SessionId, generation: nat) {
    1 <= generation <= |issued| && issued[generation - 1] == Owner(id, zone)
  }

  /** Every tag in a room is a generation that was issued to a session of that room. */
  ghost predicate Bounded(ch: Channel, zone: ZoneId, issued: seq<Owner>) {
    && (forall k :: 0 <= k < |ch.unseen| ==> Issued(issued, zone, ch.unseen[k].id, ch.unseen[k].generation))
    && (ch.running.Some? ==> Issued(issued, zone, ch.running.value.id, ch.running.value.generation))
    && (forall m :: m in ch.bag ==> Issued(issued, zone, m.id, m.generation))
  }

  predicate HasEntry(q: seq<Cohort>, id: SessionId, generation: nat) {
    exists i :: 0 <= i < |q| && id in q[i].prepared && q[i].prepared[id].generation == generation
  }

  predicate Entry(s: St, id: SessionId)
    requires id in s.sessions
  {
    HasEntry(s.cohorts, id, s.sessions[id].generation)
  }

  /** The room of `id` is right. A session in `exempt` need not be settled. */
  ghost predicate Room(e: Env, s: St, id: SessionId, exempt: set<SessionId>)
    requires id in s.sessions && s.sessions[id].zone in s.channels
  {
    RoomOk(e.wav, id, s.sessions[id], s.channels[s.sessions[id].zone], Entry(s, id),
           s.sessions[id].generation in s.plans, id !in exempt)
  }

  // ---- Local steps ----

  lemma TokensZero(id: SessionId, x: Session, ch: Channel, issued: seq<Owner>)
    requires Bounded(ch, x.zone, issued) && (x.generation > |issued| || x.generation == 0)
    ensures MessageTokens(ch.bag, id, x.generation) == 0
    ensures !DrivenByUnseen(ch, id, x.generation) && !DrivenByRunning(ch, id, x.generation)
    ensures forall i :: 0 <= i < |ch.unseen| ==> !Drives(ch.unseen[i], id, x.generation)
  {
    assert forall m: Message :: m.generation == x.generation ==> m !in ch.bag;
  }

  lemma RoomRelax(wav: bool, id: SessionId, x: Session, ch: Channel, entry: bool, planned: bool, settled: bool,
                  planned': bool, settled': bool)
    requires RoomOk(wav, id, x, ch, entry, planned, settled)
    requires (planned ==> planned') && (settled' ==> settled)
    ensures RoomOk(wav, id, x, ch, entry, planned', settled')
  {
  }

  lemma BoundedMore(ch: Channel, zone: ZoneId, issued: seq<Owner>, more: seq<Owner>)
    requires Bounded(ch, zone, issued) && issued <= more
    ensures Bounded(ch, zone, more)
  {
  }

  lemma RoomCancel(wav: bool, id: SessionId, x: Session, ch: Channel, entry: bool, planned: bool, settled: bool,
                   x': Session)
    requires RoomOk(wav, id, x, ch, entry, planned, settled)
    requires x' == x.(timer := None) || x' == x.(timer := None, observed := Unknown)
    ensures RoomOk(wav, id, x', ch, entry, planned, false)
  {
  }

  /** The session after a rebuild that reached `generation`, and its room. */
  lemma RoomPrepare(wav: bool, id: SessionId, x: Session, ch: Channel, issued: seq<Owner>, planned: bool)
    requires Bounded(ch, x.zone, issued) && x.attempts <= RETRY_BUDGET
    requires x.prepared.None? && x.held.None? && x.timer != Some(x.generation) && x.observed == Unknown
    requires x.generation == |issued| + 1 && x.encoder == Some(Encoder(x.generation, x.epoch, []))
    ensures var ch' := ch.(unseen := ch.unseen + [Stop(id, x.generation), Prepare(id, x.generation)]);
            RoomOk(wav, id, x, ch', false, planned, x.wanted)
  {
    TokensZero(id, x, ch, issued);
  }

  lemma RoomStopped(wav: bool, id: SessionId, x: Session, ch: Channel, issued: seq<Owner>, planned: bool, settled: bool)
    requires Bounded(ch, x.zone, issued) && x.attempts <= RETRY_BUDGET
    requires x.prepared.None? && x.held.None?
    requires x.generation == |issued| + 1
    requires settled ==> x.encoder.Some? ==> x.encoder.value.epoch == x.epoch
    requires settled && x.wanted ==> x.timer == Some(x.generation) || Spent(x)
    requires settled && !x.wanted ==> x.timer.None? && x.observed != Playing
    ensures var ch' := ch.(unseen := ch.unseen + [Stop(id, x.generation)]);
            RoomOk(wav, id, x, ch', false, planned, settled)
  {
    TokensZero(id, x, ch, issued);
  }

  lemma ChannelAppend(sonos: bool, wav: bool, ch: Channel, plans: map<nat, Plan>, zone: ZoneId, issued: seq<Owner>,
                      c: Command, more: seq<Owner>)
    requires ChannelOk(sonos, wav, ch, plans) && !IsStart(c) && Bounded(ch, zone, issued)
    requires issued <= more && Issued(more, zone, c.id, c.generation)
    ensures ChannelOk(sonos, wav, ch.(unseen := ch.unseen + [c]), plans)
    ensures Bounded(ch.(unseen := ch.unseen + [c]), zone, more)
  {
    BoundedMore(ch, zone, issued, more);
  }

  /** The room of a stream that is about to start: idle, loaded, in no group. */
  predicate Idle(id: SessionId, x: Session, ch: Channel) {
    && x.prepared == Some(Stream(id, x.zone, x.generation)) && x.observed != Playing
    && ch.unseen == [] && ch.running.None? && ch.loaded == x.prepared
    && Tokens(id, x, ch, false) == 0 && x.attempts <= RETRY_BUDGET
  }

  /** A stream that waits in a cohort has an idle room. */
  lemma EntryIdle(wav: bool, id: SessionId, x: Session, ch: Channel, planned: bool, settled: bool)
    requires RoomOk(wav, id, x, ch, true, planned, settled) && x.wanted
    ensures Idle(id, x, ch) && !ch.member
    ensures settled ==> (x.encoder.Some? ==> x.encoder.value.epoch == x.epoch) && x.generation > 0
  {
  }

  /** A start goes out to an idle room. */
  lemma RoomStart(sonos: bool, wav: bool, id: SessionId, x: Session, ch: Channel, plans: map<nat, Plan>, c: Command,
                  settled: bool)
    requires Idle(id, x, ch) && ChannelOk(sonos, wav, ch, plans)
    requires Starts(c, x.prepared.value) && StartOk(sonos, wav, c, ch.member, plans)
    requires wav && c.Join? ==> x.held.Some?
    requires settled ==> x.wanted && (x.encoder.Some? ==> x.encoder.value.epoch == x.epoch) && x.generation > 0
    ensures RoomOk(wav, id, x, ch.(unseen := [c]), false, x.generation in plans, settled)
    ensures ChannelOk(sonos, wav, ch.(unseen := [c]), plans)
  {
  }
}
