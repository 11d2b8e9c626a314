/** One room's worker: `ZoneWorker` in `bridge/mod.rs`. What a renderer answers, and whether a
    request without an answer took effect, is arbitrary, except that a device in a group
    rejects Stop and Play. */
module BridgeWorker {
  import opened BridgeState
  import opened BridgeRooms

  /** How leaving a group ended. A failed request may have taken effect. */
  datatype Leave = Left | LeaveFailed(gone: bool)

  /** How a Prepare ended. */
  datatype PrepareEnd = Superseded | Refused(permanent: bool) | Loaded

  /** The worker takes an unseen command and forgets the earlier ones. */
  function Look(ch: Channel, k: nat): Channel
    requires k < |ch.unseen|
  {
    var c := ch.unseen[k];
    ch.(running := Some(c), unseen := ch.unseen[k + 1..], loaded := if c.Prepare? then None else ch.loaded)
  }

  /** A worker that may be in a group leaves it before it sends Stop or Play. */
  function AfterLeave(ch: Channel, leave: Leave): Channel {
    if !ch.joined then ch
    else
      match leave
      case Left => ch.(joined := false, member := false)
      case LeaveFailed(gone) => ch.(member := ch.member && !gone)
  }

  function Report(ch: Channel, outcome: Outcome): Channel
    requires ch.running.Some?
  {
    ch.(running := None, bag := ch.bag + multiset{Result(ch.running.value.id, ch.running.value.generation, outcome)})
  }

  /** `alone` tells whether a Sonos room that was told to stand alone first did so. */
  function FinishPrepare(ch: Channel, zone: ZoneId, leave: Leave, alone: bool, end: PrepareEnd): Channel
    requires ch.running.Some?
  {
    var ch1 := AfterLeave(ch, leave);
    Concluded(ch1.(member := ch1.member && !alone), zone, end)
  }

  function Concluded(ch: Channel, zone: ZoneId, end: PrepareEnd): Channel
    requires ch.running.Some?
  {
    var c := ch.running.value;
    match end
    case Superseded => ch.(running := None)
    case Refused(permanent) => Report(ch, if permanent then PermanentFailure else Failed)
    case Loaded => ch.(running := None, loaded := Some(Stream(c.id, zone, c.generation)),
                       bag := ch.bag + multiset{Prepared(c.id, c.generation)})
  }

  predicate CanFinishPrepare(ch: Channel, leave: Leave, alone: bool, end: PrepareEnd) {
    && ch.running.Some? && ch.running.value.Prepare?
    && (end == Superseded ==> ch.unseen != [])
    && (end == Loaded ==> !AfterLeave(ch, leave).member || alone)
  }

  predicate PlayOutcome(outcome: Outcome) {
    outcome == Started || outcome == TimedOut || outcome == Failed || outcome == PermanentFailure
  }

  function FinishPlay(ch: Channel, leave: Leave, outcome: Outcome): Channel
    requires ch.running.Some?
  {
    var ch1 := AfterLeave(ch, leave);
    Report(ch1.(joined := ch1.joined && outcome != Started), outcome)
  }

  predicate CanFinishPlay(ch: Channel, leave: Leave, outcome: Outcome) {
    && ch.running.Some? && ch.running.value.Play? && PlayOutcome(outcome)
    && (outcome == Started ==> !AfterLeave(ch, leave).member)
  }

  /** A start that waits for joins ends without a report when a newer command arrives. */
  predicate CanAbandonGroup(ch: Channel) {
    ch.running.Some? && ch.running.value.PlayGroup? && ch.unseen != []
  }

  function AbandonGroup(ch: Channel): Channel {
    ch.(running := None)
  }

  predicate CanFinishGroup(ch: Channel, outcome: Outcome) {
    && ch.running.Some? && ch.running.value.PlayGroup? && PlayOutcome(outcome)
    && (outcome == Started ==> !ch.member)
  }

  /** `took` tells whether a join without an answer took effect. */
  function FinishJoin(ch: Channel, outcome: Outcome, took: bool): Channel
    requires ch.running.Some?
  {
    Report(ch.(joined := outcome != Failed,
               member := outcome == Joined || ch.member || (outcome == TimedOut && took)), outcome)
  }

  predicate CanFinishJoin(ch: Channel, outcome: Outcome) {
    && ch.running.Some? && ch.running.value.Join?
    && (outcome == Joined || outcome == TimedOut || outcome == Failed)
  }

  function FinishStop(ch: Channel, leave: Leave, outcome: Outcome): Channel
    requires ch.running.Some?
  {
    Report(AfterLeave(ch, leave), outcome)
  }

  predicate CanFinishStop(ch: Channel, leave: Leave, outcome: Outcome) {
    && ch.running.Some? && ch.running.value.Stop? && (outcome == Halted || outcome == HaltUnknown)
    && (outcome == Halted ==> !AfterLeave(ch, leave).member)
  }

  // ---- What a worker can do next, except a start that waits for joins ----

  datatype Move =
    | Looks(index: nat)
    | PrepareEnds(leave: Leave, alone: bool, end: PrepareEnd)
    | PlayEnds(leave: Leave, outcome: Outcome)
    | GroupAbandoned
    | JoinEnds(outcome: Outcome, took: bool)
    | StopEnds(leave: Leave, outcome: Outcome)

  predicate CanMove(ch: Channel, move: Move) {
    match move
    case Looks(k) => ch.running.None? && k < |ch.unseen|
    case PrepareEnds(leave, alone, end) => CanFinishPrepare(ch, leave, alone, end)
    case PlayEnds(leave, outcome) => CanFinishPlay(ch, leave, outcome)
    case GroupAbandoned => CanAbandonGroup(ch)
    case JoinEnds(outcome, _) => CanFinishJoin(ch, outcome)
    case StopEnds(leave, outcome) => CanFinishStop(ch, leave, outcome)
  }

  function Moved(ch: Channel, zone: ZoneId, move: Move): Channel
    requires CanMove(ch, move)
  {
    match move
    case Looks(k) => Look(ch, k)
    case PrepareEnds(leave, alone, end) => FinishPrepare(ch, zone, leave, alone, end)
    case PlayEnds(leave, outcome) => FinishPlay(ch, leave, outcome)
    case GroupAbandoned => AbandonGroup(ch)
    case JoinEnds(outcome, took) => FinishJoin(ch, outcome, took)
    case StopEnds(leave, outcome) => FinishStop(ch, leave, outcome)
  }

  /** How a worker that runs a command can end it. A start that waits for joins ends without a
      report once there is a newer command. */
  function Ending(ch: Channel): Move
    requires ch.running.Some?
  {
    match ch.running.value
    case Prepare(_, _) => PrepareEnds(LeaveFailed(false), false, Refused(false))
    case Play(_, _) => PlayEnds(LeaveFailed(false), Failed)
    case PlayGroup(_, _, _, _) => GroupAbandoned
    case Join(_, _, _, _) => JoinEnds(Failed, false)
    case Stop(_, _) => StopEnds(LeaveFailed(false), HaltUnknown)
  }

  lemma RunningEnds(ch: Channel, zone: ZoneId)
    requires ch.running.Some? && (ch.running.value.PlayGroup? ==> ch.unseen != [])
    ensures CanMove(ch, Ending(ch))
    ensures Moved(ch, zone, Ending(ch)).running.None? && Moved(ch, zone, Ending(ch)).unseen == ch.unseen
  {
  }

  // ---- The room invariant survives every move ----

  /** What a worker must give back. */
  ghost predicate Kept(sonos: bool, wav: bool, zone: ZoneId, issued: seq<Owner>, ch: Channel, plans: map<nat, Plan>) {
    ChannelOk(sonos, wav, ch, plans) && Bounded(ch, zone, issued)
  }

  lemma LookKept(sonos: bool, wav: bool, zone: ZoneId, issued: seq<Owner>, ch: Channel, plans: map<nat, Plan>,
      k: nat)
    requires Kept(sonos, wav, zone, issued, ch, plans) && ch.running.None? && k < |ch.unseen|
    ensures Kept(sonos, wav, zone, issued, Look(ch, k), plans)
  {
  }

  lemma LookRoom(wav: bool, id: SessionId, x: Session, ch: Channel, entry: bool, planned: bool,
      k: nat)
    requires RoomOk(wav, id, x, ch, entry, planned, true) && ch.running.None? && k < |ch.unseen|
    ensures RoomOk(wav, id, x, Look(ch, k), entry, planned, true)
  {
  }

  lemma PrepareKept(sonos: bool, wav: bool, zone: ZoneId, issued: seq<Owner>, ch: Channel, plans: map<nat, Plan>,
      leave: Leave, alone: bool, end: PrepareEnd)
    requires Kept(sonos, wav, zone, issued, ch, plans) && CanFinishPrepare(ch, leave, alone, end)
    ensures Kept(sonos, wav, zone, issued, FinishPrepare(ch, zone, leave, alone, end), plans)
  {
    hide Kept;
    LeaveKept(sonos, wav, zone, issued, ch, plans, leave, alone);
    var ch1 := AfterLeave(ch, leave);
    ConcludeKept(sonos, wav, zone, issued, ch1.(member := ch1.member && !alone), plans, end);
  }

  lemma LeaveKept(sonos: bool, wav: bool, zone: ZoneId, issued: seq<Owner>, ch: Channel, plans: map<nat, Plan>,
      leave: Leave, alone: bool)
    requires Kept(sonos, wav, zone, issued, ch, plans)
    ensures var ch1 := AfterLeave(ch, leave);
            Kept(sonos, wav, zone, issued, ch1.(member := ch1.member && !alone), plans)
  {
  }

  lemma ConcludeKept(sonos: bool, wav: bool, zone: ZoneId, issued: seq<Owner>, ch: Channel, plans: map<nat, Plan>,
      end: PrepareEnd)
    requires Kept(sonos, wav, zone, issued, ch, plans) && ch.running.Some? && ch.running.value.Prepare?
    ensures Kept(sonos, wav, zone, issued, Concluded(ch, zone, end), plans)
  {
  }

  /** A room stays right when its device is seen out of a group, or stays in one it may be in. */
  lemma LeaveRoom(wav: bool, id: SessionId, x: Session, ch: Channel, entry: bool, planned: bool, leave: Leave,
        alone: bool)
    requires RoomOk(wav, id, x, ch, entry, planned, true)
    ensures var ch1 := AfterLeave(ch, leave);
            RoomOk(wav, id, x, ch1.(member := ch1.member && !alone), entry, planned, true)
  {
  }

  lemma SupersededRoom(wav: bool, id: SessionId, x: Session, ch: Channel, entry: bool, planned: bool)
    requires RoomOk(wav, id, x, ch, entry, planned, true) && ch.running.Some? && ch.running.value.Prepare?
             && ch.unseen != []
    ensures RoomOk(wav, id, x, ch.(running := None), entry, planned, true)
  {
  }

  lemma RefusedRoom(wav: bool, id: SessionId, x: Session, ch: Channel, entry: bool, planned: bool, outcome: Outcome)
    requires RoomOk(wav, id, x, ch, entry, planned, true) && ch.running.Some? && ch.running.value.Prepare?
    requires outcome == Failed || outcome == PermanentFailure
    ensures RoomOk(wav, id, x, Report(ch, outcome), entry, planned, true)
  {
  }

  lemma LoadedRoom(wav: bool, id: SessionId, x: Session, ch: Channel, entry: bool, planned: bool)
    requires RoomOk(wav, id, x, ch, entry, planned, true) && ch.running.Some? && ch.running.value.Prepare? && !ch.member
    ensures var c := ch.running.value;
            RoomOk(wav, id, x, ch.(running := None, loaded := Some(Stream(c.id, x.zone, c.generation)),
                                   bag := ch.bag + multiset{Prepared(c.id, c.generation)}), entry, planned, true)
  {
  }

  lemma PrepareRoom(wav: bool, id: SessionId, x: Session, ch: Channel, entry: bool, planned: bool,
      leave: Leave, alone: bool, end: PrepareEnd)
    requires RoomOk(wav, id, x, ch, entry, planned, true) && CanFinishPrepare(ch, leave, alone, end)
    ensures RoomOk(wav, id, x, FinishPrepare(ch, x.zone, leave, alone, end), entry, planned, true)
  {
    hide RoomOk;
    LeaveRoom(wav, id, x, ch, entry, planned, leave, alone);
    var ch1 := AfterLeave(ch, leave);
    var ch2 := ch1.(member := ch1.member && !alone);
    match end
    case Superseded => SupersededRoom(wav, id, x, ch2, entry, planned);
    case Refused(permanent) =>
      RefusedRoom(wav, id, x, ch2, entry, planned, if permanent then PermanentFailure else Failed);
    case Loaded => LoadedRoom(wav, id, x, ch2, entry, planned);
  }

  lemma PlayKept(sonos: bool, wav: bool, zone: ZoneId, issued: seq<Owner>, ch: Channel, plans: map<nat, Plan>,
      leave: Leave, outcome: Outcome)
    requires Kept(sonos, wav, zone, issued, ch, plans) && CanFinishPlay(ch, leave, outcome)
    ensures Kept(sonos, wav, zone, issued, FinishPlay(ch, leave, outcome), plans)
  {
  }

  lemma PlayRoom(wav: bool, id: SessionId, x: Session, ch: Channel, entry: bool, planned: bool,
      leave: Leave, outcome: Outcome)
    requires RoomOk(wav, id, x, ch, entry, planned, true) && CanFinishPlay(ch, leave, outcome)
    requires wav && Drives(ch.running.value, id, x.generation) ==> planned
    ensures RoomOk(wav, id, x, FinishPlay(ch, leave, outcome), entry, planned, true)
  {
    hide RoomOk;
    LeaveRoom(wav, id, x, ch, entry, planned, leave, false);
    var ch1 := AfterLeave(ch, leave);
    PlayedRoom(wav, id, x, ch1, entry, planned, ch1.joined && outcome != Started, outcome);
  }

  lemma PlayedRoom(wav: bool, id: SessionId, x: Session, ch: Channel, entry: bool, planned: bool, joined: bool,
      outcome: Outcome)
    requires RoomOk(wav, id, x, ch, entry, planned, true) && PlayOutcome(outcome)
    requires ch.running.Some? && ch.running.value.Play?
    requires wav && Drives(ch.running.value, id, x.generation) ==> planned
    ensures RoomOk(wav, id, x, Report(ch.(joined := joined), outcome), entry, planned, true)
  {
  }

  lemma JoinKept(sonos: bool, wav: bool, zone: ZoneId, issued: seq<Owner>, ch: Channel, plans: map<nat, Plan>,
      outcome: Outcome, took: bool)
    requires Kept(sonos, wav, zone, issued, ch, plans) && CanFinishJoin(ch, outcome)
    ensures Kept(sonos, wav, zone, issued, FinishJoin(ch, outcome, took), plans)
  {
  }

  lemma JoinRoom(wav: bool, id: SessionId, x: Session, ch: Channel, entry: bool, planned: bool,
      outcome: Outcome, took: bool)
    requires RoomOk(wav, id, x, ch, entry, planned, true) && CanFinishJoin(ch, outcome)
    ensures RoomOk(wav, id, x, FinishJoin(ch, outcome, took), entry, planned, true)
  {
  }

  lemma StopKept(sonos: bool, wav: bool, zone: ZoneId, issued: seq<Owner>, ch: Channel, plans: map<nat, Plan>,
      leave: Leave, outcome: Outcome)
    requires Kept(sonos, wav, zone, issued, ch, plans) && CanFinishStop(ch, leave, outcome)
    ensures Kept(sonos, wav, zone, issued, FinishStop(ch, leave, outcome), plans)
  {
  }

  lemma StopRoom(wav: bool, id: SessionId, x: Session, ch: Channel, entry: bool, planned: bool,
      leave: Leave, outcome: Outcome)
    requires RoomOk(wav, id, x, ch, entry, planned, true) && CanFinishStop(ch, leave, outcome)
    ensures RoomOk(wav, id, x, FinishStop(ch, leave, outcome), entry, planned, true)
  {
  }

  lemma MoveKept(sonos: bool, wav: bool, zone: ZoneId, issued: seq<Owner>, ch: Channel, plans: map<nat, Plan>,
        move: Move)
    requires Kept(sonos, wav, zone, issued, ch, plans) && CanMove(ch, move)
    ensures Kept(sonos, wav, zone, issued, Moved(ch, zone, move), plans)
  {
    if move != GroupAbandoned {
      hide Kept;
      match move
      case Looks(k) => LookKept(sonos, wav, zone, issued, ch, plans, k);
      case PrepareEnds(leave, alone, end) => PrepareKept(sonos, wav, zone, issued, ch, plans, leave, alone, end);
      case PlayEnds(leave, outcome) => PlayKept(sonos, wav, zone, issued, ch, plans, leave, outcome);
      case JoinEnds(outcome, took) => JoinKept(sonos, wav, zone, issued, ch, plans, outcome, took);
      case StopEnds(leave, outcome) => StopKept(sonos, wav, zone, issued, ch, plans, leave, outcome);
      case _ =>
    }
  }

  /** The session of the room stays right, whoever the command was for. A Play that ends has
      its plan. */
  lemma MoveRoom(wav: bool, id: SessionId, x: Session, ch: Channel, entry: bool, planned: bool, move: Move)
    requires RoomOk(wav, id, x, ch, entry, planned, true) && CanMove(ch, move)
    requires wav && move.PlayEnds? && Drives(ch.running.value, id, x.generation) ==> planned
    ensures RoomOk(wav, id, x, Moved(ch, x.zone, move), entry, planned, true)
  {
    if move != GroupAbandoned {
      hide RoomOk;
      match move
      case Looks(k) => LookRoom(wav, id, x, ch, entry, planned, k);
      case PrepareEnds(leave, alone, end) => PrepareRoom(wav, id, x, ch, entry, planned, leave, alone, end);
      case PlayEnds(leave, outcome) => PlayRoom(wav, id, x, ch, entry, planned, leave, outcome);
      case JoinEnds(outcome, took) => JoinRoom(wav, id, x, ch, entry, planned, outcome, took);
      case StopEnds(leave, outcome) => StopRoom(wav, id, x, ch, entry, planned, leave, outcome);
      case _ =>
    }
  }

  lemma GroupKept(sonos: bool, wav: bool, zone: ZoneId, issued: seq<Owner>, ch: Channel, plans: map<nat, Plan>,
                  plans': map<nat, Plan>, outcome: Outcome)
    requires Kept(sonos, wav, zone, issued, ch, plans) && CanFinishGroup(ch, outcome) && plans.Keys <= plans'.Keys
    ensures Kept(sonos, wav, zone, issued, Report(ch, outcome), plans')
  {
  }

  lemma GroupRoom(wav: bool, id: SessionId, x: Session, ch: Channel, entry: bool, planned: bool, planned': bool,
                  outcome: Outcome)
    requires RoomOk(wav, id, x, ch, entry, planned, true) && CanFinishGroup(ch, outcome)
    requires planned ==> planned'
    requires wav && Drives(ch.running.value, id, x.generation) ==> planned'
    ensures RoomOk(wav, id, x, Report(ch, outcome), entry, planned', true)
  {
  }
}
