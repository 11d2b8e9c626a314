/** The bridge with its room workers: every interleaving of events, messages, timers and
    renderer answers, and what holds in every state that a run reaches. */
module BridgeSystem {
  import opened BridgeState
  import opened BridgeHandlers
  import opened BridgeRooms
  import opened BridgeCore
  import opened BridgeWorker
  import opened BridgeSteps

  datatype Step =
    | SessionStarts(id: SessionId, zone: ZoneId, sender: Option<Sender>)
    | SessionStops(id: SessionId)
    | PlaybackChanges(id: SessionId, playing: bool)
    | Flushed(id: SessionId, epoch: nat)
    | FrameArrives(id: SessionId, epoch: nat, write: Write)
    | PreparedArrives(zone: ZoneId, id: SessionId, generation: nat)
    | ResultArrives(zone: ZoneId, id: SessionId, generation: nat, outcome: Outcome)
    | RetryArrives(zone: ZoneId, id: SessionId, generation: nat)
    | RetryTimerFires(id: SessionId)
    | WakeFires(due: nat)
    | WorkerMoves(zone: ZoneId, move: Move)
    | GroupPlayEnds(zone: ZoneId, outcome: Outcome)

  function WithChannel(s: St, zone: ZoneId, ch: Channel): St {
    s.(channels := s.channels[zone := ch])
  }

  /** The release time of a shared wait. The first room that finishes waiting fixes it. */
  function ReleaseJoins(e: Env, s: St, joins: nat): St {
    if joins in s.released then s else Ticked(s).(released := s.released[joins := Now(e, s)])
  }

  /** A start that waited for joins gets its plan, plays and reports. */
  function FinishGroup(e: Env, s: St, zone: ZoneId, outcome: Outcome): St
    requires zone in s.channels && CanFinishGroup(s.channels[zone], outcome)
  {
    var ch := s.channels[zone];
    var c := ch.running.value;
    var s1 := ReleaseJoins(e, s, c.joins);
    var plan := Plan(s1.released[c.joins] + SYNC_START_LEAD, if c.delay.Some? then c.delay.value else 0, Some(c.joins));
    s1.(channels := s1.channels[zone := Report(ch, outcome)],
        plans := if c.delay.Some? then s1.plans[c.generation := plan] else s1.plans)
  }

  predicate Enabled(e: Env, s: St, step: Step) {
    match step
    case SessionStarts(id, _, _) => id !in s.sessions
    case SessionStops(_) => true
    case PlaybackChanges(_, _) => true
    case Flushed(_, _) => true
    case FrameArrives(_, _, _) => true
    case PreparedArrives(zone, id, g) => zone in s.channels && Prepared(id, g) in s.channels[zone].bag
    case ResultArrives(zone, id, g, outcome) => zone in s.channels && Result(id, g, outcome) in s.channels[zone].bag
    case RetryArrives(zone, id, g) => zone in s.channels && Retry(id, g) in s.channels[zone].bag
    case RetryTimerFires(id) =>
      id in s.sessions && s.sessions[id].zone in s.channels && s.sessions[id].timer.Some?
    case WakeFires(due) => due in s.wakes && due <= Now(e, s)
    case WorkerMoves(zone, move) => zone in s.channels && CanMove(s.channels[zone], move)
    case GroupPlayEnds(zone, outcome) => zone in s.channels && CanFinishGroup(s.channels[zone], outcome)
  }

  function Next(e: Env, s: St, step: Step): St
    requires Enabled(e, s, step)
  {
    match step
    case SessionStarts(id, zone, sender) => StartSession(e, s, id, zone, sender)
    case SessionStops(id) => StopSession(e, s, id)
    case PlaybackChanges(id, playing) => SetPlayback(e, s, id, playing)
    case Flushed(id, epoch) => HandleFlush(e, s, id, epoch)
    case FrameArrives(id, epoch, write) => HandleFrame(e, s, id, epoch, write)
    case PreparedArrives(zone, id, g) => HandlePrepared(e, Take(s, zone, Prepared(id, g)), id, g)
    case ResultArrives(zone, id, g, outcome) => HandleResult(e, Take(s, zone, Result(id, g, outcome)), id, g, outcome)
    case RetryArrives(zone, id, g) => HandleRetry(e, Take(s, zone, Retry(id, g)), id, g)
    case RetryTimerFires(id) => FireRetry(s, id)
    case WakeFires(due) => HandleWake(e, s, due)
    case WorkerMoves(zone, move) => WithChannel(s, zone, Moved(s.channels[zone], zone, move))
    case GroupPlayEnds(zone, outcome) => FinishGroup(e, s, zone, outcome)
  }

  function Init(e: Env): St {
    St(map[], [], [], map[],
       map z | z in e.renderers :: Channel([], None, None, false, false, multiset{}),
       map[], 0, map[], {}, 0)
  }

  /** The steps can happen one after the other, from `s`. */
  predicate Possible(e: Env, s: St, steps: seq<Step>)
    decreases |steps|
  {
    steps == [] || (Enabled(e, s, steps[0]) && Possible(e, Next(e, s, steps[0]), steps[1..]))
  }

  function Run(e: Env, s: St, steps: seq<Step>): St
    requires Possible(e, s, steps)
    decreases |steps|
  {
    if steps == [] then s else Run(e, Next(e, s, steps[0]), steps[1..])
  }

  // ---- Worker steps over the whole bridge ----

  /** A room whose worker did something is still right for every session that lives there. */
  lemma WorkerStep(e: Env, s: St, t: St, zone: ZoneId)
    requires Core(e, s, {}) && Queue(e, s) && ValidEnv(e) && zone in s.channels && zone in t.channels
    requires t.sessions == s.sessions && t.issued == s.issued && t.cohorts == s.cohorts && t.wakes == s.wakes
    requires s.plans.Keys <= t.plans.Keys && s.ticks <= t.ticks
    requires t.channels == s.channels[zone := t.channels[zone]]
    requires Kept(IsSonos(e, zone), e.wav, zone, t.issued, t.channels[zone], t.plans)
    requires forall id :: id in s.sessions && s.sessions[id].zone == zone ==> Room(e, t, id, {})
    ensures Core(e, t, {}) && Queue(e, t)
  {
    hide Core, Queue, ValidEnv, Room, ChannelOk, Bounded;
    StepInZone(e, s, t, zone, {});
    QueueLater(e, s, t);
  }

  lemma ZoneKept(e: Env, s: St, zone: ZoneId)
    requires Core(e, s, {}) && zone in s.channels
    ensures Kept(IsSonos(e, zone), e.wav, zone, s.issued, s.channels[zone], s.plans)
    ensures forall id :: id in s.sessions && s.sessions[id].zone == zone ==> Room(e, s, id, {})
  {
    hide RoomOk, ChannelOk, Bounded, HasEntry, Streams;
    forall id | id in s.sessions ensures Room(e, s, id, {}) {
    }
  }

  lemma PlayPlanned(sonos: bool, wav: bool, zone: ZoneId, issued: seq<Owner>, ch: Channel, plans: map<nat, Plan>,
        move: Move)
    requires Kept(sonos, wav, zone, issued, ch, plans) && CanMove(ch, move)
    ensures wav && move.PlayEnds? ==> ch.running.value.generation in plans
  {
  }

  lemma WorkerCore(e: Env, s: St, zone: ZoneId, move: Move)
    requires ValidEnv(e) && Core(e, s, {}) && Queue(e, s) && zone in s.channels && CanMove(s.channels[zone], move)
    ensures Advances(e, s, WithChannel(s, zone, Moved(s.channels[zone], zone, move)))
  {
    hide Core, Queue, ValidEnv, Kept, CanMove, Moved, RoomOk, HasEntry;
    ZoneKept(e, s, zone);
    var ch := s.channels[zone];
    var t := WithChannel(s, zone, Moved(ch, zone, move));
    MoveKept(IsSonos(e, zone), e.wav, zone, s.issued, ch, s.plans, move);
    PlayPlanned(IsSonos(e, zone), e.wav, zone, s.issued, ch, s.plans, move);
    forall id | id in s.sessions && s.sessions[id].zone == zone ensures Room(e, t, id, {}) {
      assert Room(e, s, id, {});
      var x := s.sessions[id];
      MoveRoom(e.wav, id, x, ch, Entry(s, id), x.generation in s.plans, move);
    }
    WorkerStep(e, s, t, zone);
  }

  lemma GroupPlayCore(e: Env, s: St, zone: ZoneId, outcome: Outcome)
    requires ValidEnv(e) && Core(e, s, {}) && Queue(e, s)
    requires zone in s.channels && CanFinishGroup(s.channels[zone], outcome)
    ensures var t := FinishGroup(e, s, zone, outcome);
            Core(e, t, {}) && Queue(e, t) && s.ticks <= t.ticks && s.issued <= t.issued
  {
    hide Core, Queue, ValidEnv, RoomOk, HasEntry, Bounded;
    ZoneKept(e, s, zone);
    var t := FinishGroup(e, s, zone, outcome);
    var ch := s.channels[zone];
    GroupKept(IsSonos(e, zone), e.wav, zone, s.issued, ch, s.plans, t.plans, outcome);
    forall id | id in s.sessions && s.sessions[id].zone == zone ensures Room(e, t, id, {}) {
      assert Room(e, s, id, {});
      var x := s.sessions[id];
      GroupRoom(e.wav, id, x, ch, Entry(s, id), x.generation in s.plans, x.generation in t.plans, outcome);
    }
    WorkerStep(e, s, t, zone);
  }

  // ---- Shared release times ----

  /** Every plan that a shared wait fixed starts at that wait's one release time. */
  ghost predicate SharedCutoffs(s: St) {
    forall g :: g in s.plans && s.plans[g].group.Some? ==>
      s.plans[g].group.value in s.released
      && s.plans[g].cutoff == s.released[s.plans[g].group.value] + SYNC_START_LEAD
  }

  lemma CutoffsStay(s: St, t: St)
    requires SharedCutoffs(s) && PlansStay(s, t)
    ensures SharedCutoffs(t)
  {
  }

  lemma CutoffsShared(e: Env, s: St, zone: ZoneId, outcome: Outcome)
    requires SharedCutoffs(s) && zone in s.channels && CanFinishGroup(s.channels[zone], outcome)
    ensures SharedCutoffs(FinishGroup(e, s, zone, outcome))
  {
  }

  // ---- Runs ----

  /** What every reachable state satisfies. */
  ghost predicate Sound(e: Env, s: St) {
    Core(e, s, {}) && Queue(e, s) && SharedCutoffs(s)
  }

  lemma InitSound(e: Env)
    ensures Sound(e, Init(e))
  {
  }

  /** Every step keeps a sound state sound, and generations are only ever added. */
  lemma StepSound(e: Env, s: St, step: Step)
    requires ValidEnv(e) && Sound(e, s) && Enabled(e, s, step)
    ensures Sound(e, Next(e, s, step)) && s.issued <= Next(e, s, step).issued
  {
    hide Core, Queue, ValidEnv, SharedCutoffs, PlansStay;
    hide StartSession, StopSession, SetPlayback, HandleFlush, HandleFrame, HandlePrepared, HandleResult,
         HandleRetry, HandleWake, FinishGroup;
    var t := Next(e, s, step);
    match step
    case SessionStarts(id, zone, sender) => StartCore(e, s, id, zone, sender); CutoffsStay(s, t);
    case SessionStops(id) => StopCore(e, s, id); CutoffsStay(s, t);
    case PlaybackChanges(id, playing) => PlaybackCore(e, s, id, playing); CutoffsStay(s, t);
    case Flushed(id, epoch) => FlushCore(e, s, id, epoch); CutoffsStay(s, t);
    case FrameArrives(id, epoch, write) => FrameCore(e, s, id, epoch, write); CutoffsStay(s, t);
    case PreparedArrives(zone, id, g) => HandlePreparedCore(e, s, zone, id, g); CutoffsStay(s, t);
    case ResultArrives(zone, id, g, outcome) => HandleResultCore(e, s, zone, id, g, outcome); CutoffsStay(s, t);
    case RetryArrives(zone, id, g) => HandleRetryCore(e, s, zone, id, g); CutoffsStay(s, t);
    case RetryTimerFires(id) => FireCore(e, s, id); FirePlans(s, id); CutoffsStay(s, t);
    case WakeFires(due) => WakeCore(e, s, due); CutoffsStay(s, t);
    case WorkerMoves(zone, move) => WorkerCore(e, s, zone, move); CutoffsStay(s, t);
    case GroupPlayEnds(zone, outcome) => GroupPlayCore(e, s, zone, outcome); CutoffsShared(e, s, zone, outcome);
  }

  lemma FirePlans(s: St, id: SessionId)
    requires id in s.sessions && s.sessions[id].zone in s.channels && s.sessions[id].timer.Some?
    ensures PlansStay(s, FireRetry(s, id)) && FireRetry(s, id).issued == s.issued
  {
  }

  lemma PlaybackCore(e: Env, s: St, id: SessionId, playing: bool)
    requires ValidEnv(e) && Core(e, s, {}) && Queue(e, s)
    ensures Advances(e, s, SetPlayback(e, s, id, playing))
  {
    hide Core, Queue, ValidEnv, SetPlayback;
    if playing {
      PlayCore(e, s, id);
    } else if id in s.sessions {
      CoreAt(e, s, id, {});
      SettledEncoder(e, s, id);
      PauseCore(e, s, id, {});
    } else {
      NoPlayback(e, s, id);
    }
  }

  lemma NoPlayback(e: Env, s: St, id: SessionId)
    requires id !in s.sessions
    ensures SetPlayback(e, s, id, false) == s
  {
  }

  lemma SettledEncoder(e: Env, s: St, id: SessionId)
    requires Core(e, s, {}) && id in s.sessions
    ensures s.sessions[id].encoder.Some? ==> s.sessions[id].encoder.value.epoch == s.sessions[id].epoch
  {
    CoreAt(e, s, id, {});
  }

  /** In every state that a run reaches, whatever the timing, the renderers' answers and the
      order of messages: the core invariant, the queue invariant, and shared cutoffs. */
  lemma {:induction false} RunSound(e: Env, s: St, steps: seq<Step>)
    requires ValidEnv(e) && Sound(e, s) && Possible(e, s, steps)
    ensures Sound(e, Run(e, s, steps)) && s.issued <= Run(e, s, steps).issued
    decreases |steps|
  {
    hide Sound, Next, Enabled;
    if steps != [] {
      StepSound(e, s, steps[0]);
      RunSound(e, Next(e, s, steps[0]), steps[1..]);
    }
  }
}
