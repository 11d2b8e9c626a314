/** A room's worker and the joins of a release, updated in place as `bridge/mod.rs` has them, with
    every request that the worker sends to its renderer. The worker makes the moves of
    bridge_worker.dfy; what those say about a device in a group follows here from what the device
    rejects. */
module ZoneWorkerClass {
  import opened BridgeState
  import opened BridgeWorker

  /** How a renderer answered one request. */
  datatype Answer = Done | NoAnswer | Retryable | Permanent

  function StartOutcome(answer: Answer): Outcome {
    match answer
    case Done => Started
    case NoAnswer => TimedOut
    case Retryable => Failed
    case Permanent => PermanentFailure
  }

  /** A failed join is never permanent: the retry plays the room's own stream. */
  function JoinOutcome(answer: Answer): Outcome {
    match answer
    case Done => Joined
    case NoAnswer => TimedOut
    case _ => Failed
  }

  /** Sonos rooms load a stream before they play it, Home Assistant players get it with the
      request to play. */
  datatype Request =
    | StandAlone
    | Halt
    | Load(stream: Stream)
    | PlayLoaded
    | PlayMedia(stream: Stream)
    | JoinTo(coordinator: ZoneId)

  datatype Exchange = Exchange(request: Request, answer: Answer)

  function Requests(trace: seq<Exchange>): (r: seq<Request>)
    ensures |r| == |trace|
    ensures forall i :: 0 <= i < |trace| ==> r[i] == trace[i].request
  {
    seq(|trace|, i requires 0 <= i < |trace| => trace[i].request)
  }

  /** A stream is loaded only straight after a Stop that the room carried out. */
  ghost predicate Barrier(log: seq<Exchange>) {
    forall i :: 0 <= i < |log| && log[i].request.Load? ==> i > 0 && log[i - 1] == Exchange(Halt, Done)
  }

  /** A room's device. It answers as it likes, but in a group it rejects Stop, Load and Play. A
      request without an answer, or with an error, may have taken effect. */
  class Device {
    const sonos: bool
    var member: bool             // in a group that a join of this room's worker made
    var uri: Option<Stream>      // what a Sonos room would play
    var playing: Option<Stream>
    ghost var log: seq<Exchange>

    constructor (sonos: bool)
      ensures this.sonos == sonos && !member && uri.None? && log == []
    {
      this.sonos := sonos;
      member, uri, playing, log := false, None, None, [];
    }

    method Ask(request: Request) returns (answer: Answer)
      requires sonos || request.Halt? || request.PlayMedia?
      requires request.Load? ==> log != [] && log[|log| - 1] == Exchange(Halt, Done)
      modifies this
      ensures log == old(log) + [Exchange(request, answer)]
      ensures old(Barrier(log)) ==> Barrier(log)
      ensures answer == Done && !request.StandAlone? && !request.JoinTo? ==> !old(member)
      ensures match request
              case StandAlone => (answer == Done ==> !member) && (member ==> old(member)) && uri == old(uri)
              case JoinTo(_) => (if answer == Done then member else if answer == NoAnswer then old(member) ==> member
                                 else member == old(member)) && uri == old(uri)
              case Load(stream) => member == old(member) && (answer == Done ==> uri == Some(stream))
              case _ => member == old(member) && uri == old(uri)
      ensures answer == Done && request.PlayLoaded? ==> playing == uri
      ensures answer == Done && request.PlayMedia? ==> playing == Some(request.stream)
    {
      answer := *;
      var took: bool := *;
      if member && !request.StandAlone? && !request.JoinTo? && answer == Done {
        answer := Retryable;
      }
      var effective := answer == Done || took;
      match request {
        case StandAlone => member := member && !effective;
        case Halt => playing := if effective then None else playing;
        case Load(stream) => uri := if effective then Some(stream) else uri;
        case PlayLoaded => playing := if effective then uri else playing;
        case PlayMedia(stream) => playing := if effective then Some(stream) else playing;
        case JoinTo(_) => member := member || answer == Done || (answer == NoAnswer && took);
      }
      log := log + [Exchange(request, answer)];
    }
  }

  lemma RequestsSplit(x: seq<Exchange>, y: seq<Exchange>, z: seq<Exchange>)
    requires x <= y <= z
    ensures Requests(z[|x|..]) == Requests(y[|x|..]) + Requests(z[|y|..])
  {
  }

  /** A worker that may be in a group leaves it, or tries to, before Stop and Play. */
  function LeaveScript(sonos: bool, joined: bool): seq<Request> {
    if sonos && joined then [StandAlone] else []
  }

  function RoomScript(alone: bool, p: Stream): seq<Request> {
    (if alone then [StandAlone] else []) + [Halt, Load(p)]
  }

  /** What a Prepare asks of its room, when nothing cuts it short. */
  function PrepareScript(sonos: bool, joined: bool, alone: bool, p: Stream): seq<Request> {
    LeaveScript(sonos, joined) + if sonos then RoomScript(alone, p) else []
  }

  class ZoneWorker {
    const zone: ZoneId
    const device: Device
    var unseen: seq<Command>
    var running: Option<Command>
    var loaded: Option<Stream>
    var joined: bool
    var sent: multiset<Message>

    ghost function State(): Channel
      reads this, device
    {
      BridgeState.Channel(unseen, running, loaded, joined, device.member, sent)
    }

    /** The flag covers what the device is, and the device would play what was prepared. */
    ghost predicate Valid()
      reads this, device
    {
      && (device.member ==> joined && device.sonos)
      && (device.sonos && loaded.Some? ==> device.uri == loaded)
      && (loaded.Some? ==> loaded.value.zone == zone)
      && (running.Some? && running.value.Prepare? ==> loaded.None?)
      && Barrier(device.log)
    }

    /** The answer to the last request. */
    ghost function LastAnswer(): Answer
      requires device.log != []
      reads device
    {
      device.log[|device.log| - 1].answer
    }

    /** What the running command sent to the bridge since `was`: how its last request was answered
        decides what its start comes to. */
    ghost predicate Answered(c: Command, was: multiset<Message>, joins: bool)
      requires device.log != [] && (c.Play? || c.PlayGroup? || c.Join?)
      reads this, device
    {
      sent == was + multiset{Result(c.id, c.generation,
        match LastAnswer()
        case Done => if joins then Joined else Started
        case NoAnswer => TimedOut
        case Retryable => Failed
        case Permanent => if joins then Failed else PermanentFailure)}
    }

    /** The requests since `log`. */
    ghost function Asked(log: seq<Exchange>): seq<Request>
      reads device
    {
      if log <= device.log then Requests(device.log[|log|..]) else []
    }

    constructor (zone: ZoneId, device: Device)
      requires !device.member && device.log == []
      ensures Valid() && this.zone == zone && this.device == device
      ensures State() == BridgeState.Channel([], None, None, false, false, multiset{})
    {
      this.zone, this.device := zone, device;
      unseen, running, loaded, joined, sent := [], None, None, false, multiset{};
    }

    method Look(k: nat)
      requires Valid() && running.None? && k < |unseen|
      modifies this
      ensures Valid() && State() == Moved(old(State()), zone, Looks(k))
    {
      running := Some(unseen[k]);
      if unseen[k].Prepare? {
        loaded := None;
      }
      unseen := unseen[k + 1..];
    }

    /** The bridge may send commands while the worker is busy. */
    method Arrivals()
      modifies this`unseen
      ensures old(unseen) <= unseen
    {
      var more: seq<Command> := *;
      unseen := unseen + more;
    }

    /** The room was flagged as a member, and was not carried out when it was asked to leave. */
    ghost predicate StillFlagged(was: bool, at: nat)
      reads device
    {
      was && device.sonos && at < |device.log| && device.log[at].answer != Done
    }

    /** A worker that may be in a group leaves it first. Home Assistant players never join one. */
    method LeaveGroup() returns (ghost leave: Leave)
      requires Valid()
      modifies this`joined, device
      ensures joined == StillFlagged(old(joined), |old(device.log)|)
      ensures Valid() && State() == AfterLeave(old(State()), leave) && device.uri == old(device.uri)
      ensures old(device.log) <= device.log && Asked(old(device.log)) == LeaveScript(device.sonos, old(joined))
    {
      leave := Left;
      if joined {
        if device.sonos {
          ghost var member := device.member;
          var answer := device.Ask(StandAlone);
          joined := answer != Done;
          leave := if answer == Done then Left else LeaveFailed(member && !device.member);
        } else {
          joined := false;
        }
      }
    }

    method ReportOutcome(outcome: Outcome)
      requires running.Some?
      modifies this`running, this`sent
      ensures State() == Report(old(State()), outcome)
      ensures sent == old(sent) + multiset{Result(old(running).value.id, old(running).value.generation, outcome)}
    {
      sent := sent + multiset{Result(running.value.id, running.value.generation, outcome)};
      running := None;
    }

    /** The device carried out every request from the index `from` of its log on, up to the last
        one if that failed. */
    ghost predicate AllDone(from: nat, failure: Option<Answer>)
      reads device
    {
      && from <= |device.log|
      && (failure.Some? ==> from < |device.log| && failure.value == LastAnswer() != Done)
      && forall i :: from <= i < |device.log| - (if failure.Some? then 1 else 0) ==> device.log[i].answer == Done
    }

    /** What a Sonos room does before it waits: stands alone if it was told to, stops and loads the
        stream. A failed request or a newer command ends it early. */
    method StopAndLoad(alone: bool, p: Stream) returns (failure: Option<Answer>, superseded: bool)
      requires Valid() && device.sonos && loaded.None?
      modifies this`unseen, device
      ensures Valid() && old(unseen) <= unseen && (device.member ==> old(device.member))
      ensures State() == old(State()).(unseen := unseen, member := device.member)
      ensures (superseded ==> failure.None? && unseen != []) && (failure.Some? ==> failure.value != Done)
      ensures old(device.log) <= device.log && Asked(old(device.log)) <= RoomScript(alone, p)
      ensures failure.None? && !superseded ==>
                !device.member && device.uri == Some(p) && Asked(old(device.log)) == RoomScript(alone, p)
      ensures AllDone(|old(device.log)|, failure)
    {
      hide Barrier;
      failure, superseded := None, false;
      if alone {
        var answer := device.Ask(StandAlone);
        if answer != Done {
          return Some(answer), false;
        }
      }
      var answer := device.Ask(Halt);
      if answer != Done {
        return Some(answer), false;
      }
      Arrivals();
      if unseen != [] {
        return None, true;
      }
      answer := device.Ask(Load(p));
      if answer != Done {
        return Some(answer), false;
      }
      Arrivals();
      superseded := unseen != [];
    }

    /** Leaves a group that the room may be in, and makes the room ready. */
    method MakeReady(alone: bool, p: Stream) returns (ghost leave: Leave, failure: Option<Answer>, superseded: bool)
      requires Valid() && loaded.None?
      modifies this`unseen, this`joined, device
      ensures Valid() && old(unseen) <= unseen
      ensures var ch := AfterLeave(old(State()).(unseen := unseen), leave);
              State() == ch.(member := device.member) && (device.member ==> ch.member)
      ensures (superseded ==> failure.None? && unseen != []) && (failure.Some? ==> failure.value != Done)
      ensures old(device.log) <= device.log
      ensures Asked(old(device.log)) <= PrepareScript(device.sonos, old(joined), alone, p)
      ensures failure.None? && !superseded ==>
                && !device.member && (device.sonos ==> device.uri == Some(p))
                && Asked(old(device.log)) == PrepareScript(device.sonos, old(joined), alone, p)
      ensures joined == StillFlagged(old(joined), |old(device.log)|)
      ensures AllDone(|old(device.log)| + |LeaveScript(device.sonos, old(joined))|, failure)
    {
      leave := LeaveGroup();
      failure, superseded := None, false;
      if device.sonos {
        ghost var left := device.log;
        failure, superseded := StopAndLoad(alone, p);
        RequestsSplit(old(device.log), left, device.log);
      }
    }

    /** What a Prepare sends to the bridge: how a request failed, that the stream is ready, or
        nothing when a newer command came. */
    ghost predicate Concludes(c: Command, was: multiset<Message>, failure: Option<Answer>, end: PrepareEnd)
      requires c.Prepare?
      reads this`sent
    {
      sent == was +
              if failure == Some(Permanent) then multiset{Result(c.id, c.generation, PermanentFailure)}
              else if failure.Some? then multiset{Result(c.id, c.generation, Failed)}
              else if end == Loaded then multiset{Prepared(c.id, c.generation)}
              else multiset{}
    }

    /** Reports a failure, gives way to a newer command, or waits for the room's subscriber, when a
        newer command may still end it. */
    method Conclude(failure: Option<Answer>, superseded: bool) returns (ghost end: PrepareEnd)
      requires Valid() && running.Some? && running.value.Prepare? && (superseded ==> failure.None? && unseen != [])
      requires var c := running.value;
               failure.None? && !superseded && device.sonos ==> device.uri == Some(Stream(c.id, zone, c.generation))
      modifies this`unseen, this`running, this`loaded, this`sent
      ensures Valid() && old(unseen) <= unseen
      ensures State() == Concluded(old(State()).(unseen := unseen), zone, end)
      ensures (end == Superseded ==> unseen != []) && (end == Loaded ==> failure.None? && !superseded)
      ensures end.Refused? <==> failure.Some?
      ensures Concludes(old(running).value, old(sent), failure, end)
    {
      var c := running.value;
      if failure.Some? {
        end := Refused(failure.value == Permanent);
        ReportOutcome(if failure.value == Permanent then PermanentFailure else Failed);
        return;
      }
      Arrivals();
      var noticed: bool := *;
      if superseded || (unseen != [] && noticed) {
        running, end := None, Superseded;
        return;
      }
      loaded := Some(Stream(c.id, zone, c.generation));
      sent := sent + multiset{Prepared(c.id, c.generation)};
      running, end := None, Loaded;
    }

    /** Runs a Prepare. `stood` tells whether the room is in no group once it is ready. */
    method Prepare(alone: bool) returns (ghost leave: Leave, ghost stood: bool, ghost end: PrepareEnd)
      requires Valid() && running.Some? && running.value.Prepare?
      modifies this, device
      ensures Valid() && old(unseen) <= unseen
      ensures var ch := old(State()).(unseen := unseen);
              CanMove(ch, PrepareEnds(leave, stood, end)) && State() == Moved(ch, zone, PrepareEnds(leave, stood, end))
      ensures old(device.log) <= device.log
      ensures var p := Stream(old(running).value.id, zone, old(running).value.generation);
              var script := PrepareScript(device.sonos, old(joined), alone, p);
              && Asked(old(device.log)) <= script
              && (end == Loaded ==> Asked(old(device.log)) == script && (device.sonos ==> device.uri == Some(p)))
      ensures joined == StillFlagged(old(joined), |old(device.log)|)
      ensures exists failure: Option<Answer> ::
                && AllDone(|old(device.log)| + |LeaveScript(device.sonos, old(joined))|, failure)
                && Concludes(old(running).value, old(sent), failure, end) && (end.Refused? <==> failure.Some?)
    {
      hide Requests, PrepareScript, LeaveScript, Barrier, AllDone, Concludes, Asked, StillFlagged, LastAnswer,
           Concluded;
      var failure, superseded;
      leave, failure, superseded := MakeReady(alone, Stream(running.value.id, zone, running.value.generation));
      stood := !device.member;
      end := Conclude(failure, superseded);
    }

    /** Asks the renderer to play the loaded stream. */
    method Start() returns (answer: Answer)
      requires Valid() && loaded.Some?
      modifies device
      ensures Valid() && State() == old(State()) && (answer == Done ==> !device.member && device.playing == loaded)
      ensures old(device.log) <= device.log
      ensures Asked(old(device.log)) == [if device.sonos then PlayLoaded else PlayMedia(loaded.value)]
      ensures device.log != [] && answer == LastAnswer()
    {
      if device.sonos {
        answer := device.Ask(PlayLoaded);
      } else {
        answer := device.Ask(PlayMedia(loaded.value));
      }
    }

    method Play() returns (ghost leave: Leave, outcome: Outcome)
      requires Valid() && running.Some? && running.value.Play? && loaded.Some?
      modifies this, device
      ensures Valid() && CanMove(old(State()), PlayEnds(leave, outcome))
      ensures State() == Moved(old(State()), zone, PlayEnds(leave, outcome))
      ensures outcome == Started ==> device.playing == loaded && !device.member
      ensures old(device.log) <= device.log
      ensures Asked(old(device.log)) == LeaveScript(device.sonos, old(joined))
                                        + [if device.sonos then PlayLoaded else PlayMedia(loaded.value)]
      ensures device.log != [] && Answered(old(running).value, old(sent), false)
      ensures joined == (StillFlagged(old(joined), |old(device.log)|) && LastAnswer() != Done)
    {
      leave := LeaveGroup();
      var answer := Start();
      joined := joined && answer != Done;
      outcome := StartOutcome(answer);
      ReportOutcome(outcome);
    }

    /** A start that waits for joins ends when a newer command arrives. */
    method AbandonGroup()
      requires Valid() && CanMove(State(), GroupAbandoned)
      modifies this
      ensures Valid() && State() == Moved(old(State()), zone, GroupAbandoned)
    {
      running := None;
    }

    /** A start that waited for joins: a WAV stream gets its plan, then plays. `now` is when this
        room stopped waiting. */
    method PlayGroup(joins: GroupJoins, now: nat) returns (plan: Option<Plan>, outcome: Outcome)
      requires Valid() && running.Some? && running.value.PlayGroup? && loaded.Some?
      modifies this, device, joins`released
      ensures Valid() && CanFinishGroup(old(State()), outcome) && State() == Report(old(State()), outcome)
      ensures outcome == Started ==> device.playing == loaded && !device.member
      ensures joins.released == Some(if old(joins.released).Some? then old(joins.released).value else now)
      ensures var c := old(running).value;
              plan == if c.delay.Some? then
                        Some(Plan(joins.released.value + SYNC_START_LEAD, c.delay.value, Some(c.joins)))
                      else None
      ensures old(device.log) <= device.log
      ensures Asked(old(device.log)) == [if device.sonos then PlayLoaded else PlayMedia(loaded.value)]
      ensures device.log != [] && Answered(old(running).value, old(sent), false)
    {
      var c := running.value;
      var instant := joins.Release(now);
      plan := None;
      if c.delay.Some? {
        plan := Some(Plan(instant + SYNC_START_LEAD, c.delay.value, Some(c.joins)));
      }
      var answer := Start();
      outcome := StartOutcome(answer);
      ReportOutcome(outcome);
    }

    /** A join without an answer may have taken effect. The bridge sends joins only to Sonos rooms
        in no group. */
    method Join(joins: GroupJoins) returns (outcome: Outcome, ghost took: bool)
      requires Valid() && running.Some? && running.value.Join? && device.sonos && !device.member
      modifies this, device, joins`pending
      ensures Valid() && CanMove(old(State()), JoinEnds(outcome, took))
      ensures State() == Moved(old(State()), zone, JoinEnds(outcome, took))
      ensures joins.pending == if old(joins.pending) == 0 then 0 else old(joins.pending) - 1
      ensures old(device.log) <= device.log && Asked(old(device.log)) == [JoinTo(old(running).value.coordinator)]
      ensures device.log != [] && Answered(old(running).value, old(sent), true)
      ensures joined == (LastAnswer() == Done || LastAnswer() == NoAnswer)
    {
      var answer := device.Ask(JoinTo(running.value.coordinator));
      took := device.member;
      joined := answer == Done || answer == NoAnswer;
      joins.Joined();
      outcome := JoinOutcome(answer);
      ReportOutcome(outcome);
    }

    method Stop() returns (ghost leave: Leave, outcome: Outcome)
      requires Valid() && running.Some? && running.value.Stop?
      modifies this, device
      ensures Valid() && CanMove(old(State()), StopEnds(leave, outcome))
      ensures State() == Moved(old(State()), zone, StopEnds(leave, outcome))
      ensures old(device.log) <= device.log
      ensures Asked(old(device.log)) == LeaveScript(device.sonos, old(joined)) + [Halt]
      ensures device.log != [] && outcome == if LastAnswer() == Done then Halted else HaltUnknown
      ensures joined == StillFlagged(old(joined), |old(device.log)|)
      ensures sent == old(sent) + multiset{Result(old(running).value.id, old(running).value.generation, outcome)}
    {
      leave := LeaveGroup();
      var answer := device.Ask(Halt);
      outcome := if answer == Done then Halted else HaltUnknown;
      ReportOutcome(outcome);
    }
  }

  /** The members of a release that still have to join, and the release time that the first
      room to finish waiting fixes. */
  class GroupJoins {
    var pending: nat
    var released: Option<nat>

    constructor (members: nat)
      ensures pending == members && released.None?
    {
      pending, released := members, None;
    }

    method Joined()
      modifies this`pending
      ensures pending == if old(pending) == 0 then 0 else old(pending) - 1
    {
      if pending > 0 {
        pending := pending - 1;
      }
    }

    /** The wait is over, because the joins are or by timeout. */
    method Release(now: nat) returns (instant: nat)
      modifies this`released
      ensures released == Some(instant)
      ensures instant == if old(released).Some? then old(released).value else now
    {
      if released.None? {
        released := Some(now);
      }
      instant := released.value;
    }
  }

  /** However many rooms wait for the same joins, and whenever each stops waiting, all start at one
      time: the first room's, unless the wait was released before. */
  method AllWaiters(joins: GroupJoins, times: seq<nat>) returns (starts: seq<nat>)
    modifies joins`released
    ensures |starts| == |times|
    ensures times != [] ==>
              joins.released == Some(if old(joins.released).Some? then old(joins.released).value else times[0])
    ensures forall i :: 0 <= i < |starts| ==> joins.released == Some(starts[i])
  {
    starts := [];
    while |starts| < |times|
      invariant |starts| <= |times|
      invariant starts == [] ==> joins.released == old(joins.released)
      invariant starts != [] ==>
                  joins.released == Some(if old(joins.released).Some? then old(joins.released).value else times[0])
      invariant forall i :: 0 <= i < |starts| ==> joins.released == Some(starts[i])
    {
      var instant := joins.Release(times[|starts|]);
      starts := starts + [instant];
    }
  }
}
