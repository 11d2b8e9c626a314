/** Every handler of the bridge keeps the core invariant and the cohort queue. */
module BridgeSteps {
  import opened BridgeState
  import opened BridgeHandlers
  import opened BridgeRooms
  import opened BridgeCore

  /** The state with one message of a room taken out of its channel. */
  function Take(s: St, zone: ZoneId, m: Message): St
    requires zone in s.channels
  {
    var ch := s.channels[zone];
    s.(channels := s.channels[zone := ch.(bag := ch.bag - multiset{m})])
  }

  /** The message drives the current generation of a session. */
  predicate Current(x: Session, id: SessionId, m: Message) {
    && m.id == id && m.generation == x.generation
    && (m.Result? ==> m.outcome != Halted && m.outcome != HaltUnknown)
  }

  /** A change in one zone keeps the core invariant if the sessions there end up right. */
  lemma StepInZone(e: Env, s: St, t: St, zone: ZoneId, exempt: set<SessionId>)
    requires Core(e, s, exempt) && zone in s.channels
    requires t.sessions == s.sessions && t.issued == s.issued && t.cohorts == s.cohorts
    requires s.plans.Keys <= t.plans.Keys && zone in t.channels
    requires t.channels == s.channels[zone := t.channels[zone]]
    requires ChannelOk(IsSonos(e, zone), e.wav, t.channels[zone], t.plans) && Bounded(t.channels[zone], zone, t.issued)
    requires forall id :: id in s.sessions && s.sessions[id].zone == zone ==> Room(e, t, id, exempt)
    ensures Core(e, t, exempt)
  {
    hide RoomOk, ChannelOk, Bounded, HasEntry, StreamFits, Issued;
    assert Streams(t) by {
      hide Rooms, Channels, Sessions;
      StreamsKept(s, t);
    }
    forall z | z in t.channels
      ensures ChannelOk(IsSonos(e, z), e.wav, t.channels[z], t.plans) && Bounded(t.channels[z], z, t.issued)
    {
      if z != zone {
        ChannelMorePlans(IsSonos(e, z), e.wav, s.channels[z], s.plans, t.plans);
      }
    }
    forall j | j in t.sessions ensures Room(e, t, j, exempt) {
      if s.sessions[j].zone != zone {
        assert Room(e, s, j, exempt);
        var x := s.sessions[j];
        RoomRelax(e.wav, j, x, s.channels[x.zone], Entry(s, j), x.generation in s.plans, j !in exempt,
                  x.generation in t.plans, j !in exempt);
      }
    }
  }

  lemma TakeChannel(sonos: bool, wav: bool, zone: ZoneId, issued: seq<Owner>, ch: Channel, plans: map<nat, Plan>,
        m: Message)
    requires ChannelOk(sonos, wav, ch, plans) && Bounded(ch, zone, issued)
    ensures ChannelOk(sonos, wav, ch.(bag := ch.bag - multiset{m}), plans)
    ensures Bounded(ch.(bag := ch.bag - multiset{m}), zone, issued)
  {
  }

  lemma TakeStaleRoom(wav: bool, id: SessionId, x: Session, ch: Channel, entry: bool, planned: bool, settled: bool,
        m: Message)
    requires RoomOk(wav, id, x, ch, entry, planned, settled) && !Current(x, id, m)
    ensures RoomOk(wav, id, x, ch.(bag := ch.bag - multiset{m}), entry, planned, settled)
  {
  }

  /** A message of another generation, or of a Stop, drives nothing. */
  lemma TakeStale(e: Env, s: St, zone: ZoneId, m: Message)
    requires Core(e, s, {}) && zone in s.channels
    requires m.id in s.sessions && s.sessions[m.id].zone == zone ==> !Current(s.sessions[m.id], m.id, m)
    ensures Core(e, Take(s, zone, m), {})
  {
    hide Core, Channels, Rooms, RoomOk, ChannelOk, Bounded, HasEntry, Streams, Sessions, Current;
    var ch := s.channels[zone];
    ZoneChannel(e, s, zone, {});
    TakeChannel(IsSonos(e, zone), e.wav, zone, s.issued, ch, s.plans, m);
    forall id | id in s.sessions && s.sessions[id].zone == zone ensures Room(e, Take(s, zone, m), id, {}) {
      CoreAt(e, s, id, {});
      assert !Current(s.sessions[id], id, m) by {
        NotCurrent(s.sessions[id], id, m);
      }
      var x := s.sessions[id];
      TakeStaleRoom(e.wav, id, x, ch, Entry(s, id), x.generation in s.plans, true, m);
    }
    StepInZone(e, s, Take(s, zone, m), zone, {});
  }

  lemma ZoneChannel(e: Env, s: St, zone: ZoneId, exempt: set<SessionId>)
    requires Core(e, s, exempt) && zone in s.channels
    ensures ChannelOk(IsSonos(e, zone), e.wav, s.channels[zone], s.plans) && Bounded(s.channels[zone], zone, s.issued)
  {
  }

  lemma NotCurrent(x: Session, id: SessionId, m: Message)
    requires m.id == id ==> !Current(x, id, m)
    ensures !Current(x, id, m)
  {
  }

  // ---- Prepared ----

  /** What a Prepared message makes of its room: idle, with the stream kept. */
  lemma TakePreparedRoom(wav: bool, id: SessionId, x: Session, ch: Channel, entry: bool, planned: bool)
    requires RoomOk(wav, id, x, ch, entry, planned, true) && x.wanted && ch.bag[Prepared(id, x.generation)] > 0
    ensures !entry && !ch.member
    ensures var x' := x.(prepared := Some(Stream(id, x.zone, x.generation)), held := None);
            var ch' := ch.(bag := ch.bag - multiset{Prepared(id, x.generation)});
            && Idle(id, x', ch')
            && RoomOk(wav, id, x', ch', true, planned, true)
            && RoomOk(wav, id, x', ch', false, planned, false)
  {
  }

  /** The session keeps the stream of a Prepared message, which has left the channel. */
  function KeepStream(s: St, id: SessionId): St
    requires id in s.sessions && s.sessions[id].zone in s.channels
  {
    var x := s.sessions[id];
    var t := Take(s, x.zone, Prepared(id, x.generation));
    t.(sessions := t.sessions[id := x.(prepared := Some(Stream(id, x.zone, x.generation)), held := None)])
  }

  lemma KeepStreamCore(e: Env, s: St, id: SessionId)
    requires Core(e, s, {}) && id in s.sessions && s.sessions[id].wanted && s.sessions[id].zone in s.channels
    requires Prepared(id, s.sessions[id].generation) in s.channels[s.sessions[id].zone].bag
    ensures var t := KeepStream(s, id);
            var x := t.sessions[id];
            && Core(e, t, {id}) && Ready(t, x.prepared.value) && Startable(t, x.prepared.value, {})
            && RoomOk(e.wav, id, x, t.channels[x.zone], true, x.generation in t.plans, true)
            && SameIntent(s, t)
  {
    hide Core, Channels, Sessions, Streams, Rooms;
    hide RoomOk, ChannelOk, Bounded, HasEntry, StreamFits, Idle;
    var t := KeepStream(s, id);
    var x := s.sessions[id];
    var ch := s.channels[x.zone];
    var m := Prepared(id, x.generation);
    CoreAt(e, s, id, {});
    TakePreparedRoom(e.wav, id, x, ch, Entry(s, id), x.generation in s.plans);
    TakeChannel(IsSonos(e, x.zone), e.wav, x.zone, s.issued, ch, s.plans, m);
    PreparedSettled(e.wav, id, x, ch, Entry(s, id), x.generation in s.plans);
    StreamsKept(s, t);
    StepInRoom(e, s, t, id, {}, {id});
  }

  lemma PreparedSettled(wav: bool, id: SessionId, x: Session, ch: Channel, entry: bool, planned: bool)
    requires RoomOk(wav, id, x, ch, entry, planned, true)
    ensures (x.encoder.Some? ==> x.encoder.value.epoch == x.epoch) && x.generation > 0
  {
  }

  /** The stream of `id` waits in cohort `i`. */
  function Await(s: St, id: SessionId, i: nat): St
    requires id in s.sessions && s.sessions[id].prepared.Some? && i < |s.cohorts|
  {
    var c := s.cohorts[i];
    s.(cohorts := s.cohorts[i := c.(prepared := c.prepared[id := s.sessions[id].prepared.value])])
  }

  lemma AwaitEntries(q: seq<Cohort>, i: nat, p: Stream, j: SessionId, g: nat)
    requires i < |q|
    ensures var t := q[i := q[i].(prepared := q[i].prepared[p.id := p])];
            && (j != p.id ==> HasEntry(t, j, g) == HasEntry(q, j, g))
            && HasEntry(t, p.id, p.generation)
  {
    var t := q[i := q[i].(prepared := q[i].prepared[p.id := p])];
    assert p.id in t[i].prepared;
    if j != p.id {
      if HasEntry(q, j, g) {
        var k :| 0 <= k < |q| && j in q[k].prepared && q[k].prepared[j].generation == g;
        assert j in t[k].prepared;
      }
      if HasEntry(t, j, g) {
        var k :| 0 <= k < |t| && j in t[k].prepared && t[k].prepared[j].generation == g;
        assert j in q[k].prepared;
      }
    }
  }

  lemma AwaitCore(e: Env, s: St, id: SessionId, i: nat)
    requires Core(e, s, {id}) && id in s.sessions && s.sessions[id].prepared.Some? && i < |s.cohorts|
    requires s.sessions[id].zone in s.channels
    requires var x := s.sessions[id];
             x.prepared.value == Stream(id, x.zone, x.generation) && x.generation > 0
             && RoomOk(e.wav, id, x, s.channels[x.zone], true, x.generation in s.plans, true)
    ensures Core(e, Await(s, id, i), {})
  {
    hide Core, Channels, Sessions, Rooms;
    hide RoomOk, ChannelOk, Bounded, HasEntry;
    var t := Await(s, id, i);
    CoreAt(e, s, id, {id});
    var p := s.sessions[id].prepared.value;
    forall j | j in s.sessions && j != id ensures Entry(t, j) == Entry(s, j) {
      AwaitEntries(s.cohorts, i, p, j, s.sessions[j].generation);
    }
    AwaitEntries(s.cohorts, i, p, id, p.generation);
    forall k, j | 0 <= k < |t.cohorts| && j in t.cohorts[k].prepared
        ensures StreamFits(t, j, t.cohorts[k].prepared[j]) {
      if j in s.cohorts[k].prepared {
        StreamAt(s, k, j);
      }
    }
    StepInRoom(e, s, t, id, {id}, {});
  }

  lemma AwaitQueue(e: Env, s: St, id: SessionId, i: nat)
    requires Queue(e, s) && id in s.sessions && s.sessions[id].prepared.Some?
    requires i < |s.cohorts| && id in s.cohorts[i].sessions
    ensures Queue(e, Await(s, id, i))
  {
  }

  lemma PlayAtOnce(e: Env, s: St, id: SessionId)
    requires ValidEnv(e) && Core(e, s, {id}) && Queue(e, s) && id in s.sessions && s.sessions[id].prepared.Some?
    requires var p := s.sessions[id].prepared.value; p.id == id && Ready(s, p) && Startable(s, p, {})
    ensures Follows(e, s, PlayPrepared(e, s, [s.sessions[id].prepared.value]), {})
  {
    hide ValidEnv, Core, Queue, PlayPrepared, Ready, Startable, SameIntent;
    var p := s.sessions[id].prepared.value;
    assert {} + Ids([p]) == {id};
    PlayPreparedCore(e, s, [p], {});
    PlayPreparedTicks(e, s, [p]);
    ReadySession(s, p);
    PlayPreparedIntent(e, s, [p]);
    PlayPreparedKeeps(e, s, [p]);
    QueueLater(e, s, PlayPrepared(e, s, [p]));
  }

  /** What a Prepared message of the current generation does. */
  lemma PreparedActs(e: Env, s: St, id: SessionId)
    requires id in s.sessions && s.sessions[id].wanted && s.sessions[id].zone in s.channels
    ensures var g := s.sessions[id].generation;
            var t := KeepStream(s, id);
            HandlePrepared(e, Take(s, s.sessions[id].zone, Prepared(id, g)), id, g) ==
            match CohortOf(s.cohorts, id)
            case None => PlayPrepared(e, t, [t.sessions[id].prepared.value])
            case Some(i) => MaybeStart(e, Await(t, id, i), false)
  {
    hide PlayPrepared, MaybeStart, CohortOf;
  }

  lemma CurrentPreparedCore(e: Env, s: St, id: SessionId)
    requires ValidEnv(e) && Core(e, s, {}) && Queue(e, s) && id in s.sessions && s.sessions[id].wanted
    requires s.sessions[id].zone in s.channels
    requires Prepared(id, s.sessions[id].generation) in s.channels[s.sessions[id].zone].bag
    ensures var g := s.sessions[id].generation;
            Advances(e, s, HandlePrepared(e, Take(s, s.sessions[id].zone, Prepared(id, g)), id, g))
  {
    hide ValidEnv, Core, Queue, PlayPrepared, MaybeStart, RoomOk, Ready, Startable, HandlePrepared, SameIntent,
         PlansStay;
    KeepStreamCore(e, s, id);
    PreparedActs(e, s, id);
    var t := KeepStream(s, id);
    QueueSame(e, s, t);
    SamePlans(s, t);
    PreparedGeneration(e, t, id);
    match CohortOf(s.cohorts, id)
    case None =>
      PlayAtOnce(e, t, id);
      AdvancesBy(e, s, t, PlayPrepared(e, t, [t.sessions[id].prepared.value]));
    case Some(i) =>
      var u := Await(t, id, i);
      AwaitCore(e, t, id, i);
      AwaitQueue(e, t, id, i);
      SamePlans(s, u);
      MaybeStartFollows(e, u, {});
      AdvancesBy(e, s, u, MaybeStart(e, u, false));
  }

  lemma HandlePreparedCore(e: Env, s: St, zone: ZoneId, id: SessionId, generation: nat)
    requires ValidEnv(e) && Core(e, s, {}) && Queue(e, s) && zone in s.channels
    requires Prepared(id, generation) in s.channels[zone].bag
    ensures var t := HandlePrepared(e, Take(s, zone, Prepared(id, generation)), id, generation);
            Advances(e, s, t)
  {
    hide ValidEnv, Core, Queue, PlayPrepared, MaybeStart, Current, PlansStay;
    var m := Prepared(id, generation);
    QueueSame(e, s, Take(s, zone, m));
    SamePlans(s, Take(s, zone, m));
    TagZone(e, s, zone, m);
    UnwantedTokens(e, s, zone, m);
    if id in s.sessions && s.sessions[id].generation == generation && s.sessions[id].wanted {
      CurrentPreparedCore(e, s, id);
    } else {
      OtherGeneration(s, id, m);
      TakeStale(e, s, zone, m);
    }
  }

  lemma PreparedGeneration(e: Env, s: St, id: SessionId)
    requires Core(e, s, {id}) && id in s.sessions && s.sessions[id].prepared.Some?
    requires Ready(s, s.sessions[id].prepared.value)
    ensures var x := s.sessions[id]; x.prepared.value == Stream(id, x.zone, x.generation) && x.generation > 0
    ensures s.sessions[id].zone in s.channels
  {
    CoreAt(e, s, id, {id});
  }

  lemma QueueLater(e: Env, s: St, t: St)
    requires ValidEnv(e) && Queue(e, s) && t.cohorts == s.cohorts && t.wakes == s.wakes && s.ticks <= t.ticks
    ensures Queue(e, t)
  {
    TimelyLater(e, s.cohorts, s.wakes, Now(e, s), Now(e, t));
  }

  lemma MaybeStartFollows(e: Env, s: St, exempt: set<SessionId>)
    requires ValidEnv(e) && Core(e, s, exempt) && Queue(e, s)
    ensures Follows(e, s, MaybeStart(e, s, false), exempt)
  {
    hide Core, Queue, ValidEnv, MaybeStart, Load, SameIntent;
    QueueDistinct(e, s);
    CoreStreams(e, s, exempt);
    StreamsKeyed(s);
    MaybeStartCore(e, s, false, exempt);
    MaybeStartQueue(e, s);
    MaybeStartIntent(e, s, false);
    MaybeStartKeeps(e, s, false);
  }

  /** A message with a live session's generation is in that session's room. */
  lemma TagZone(e: Env, s: St, zone: ZoneId, m: Message)
    requires Core(e, s, {}) && zone in s.channels && m in s.channels[zone].bag
    ensures m.id in s.sessions && s.sessions[m.id].generation == m.generation ==> s.sessions[m.id].zone == zone
  {
    hide Rooms, Streams, ChannelOk;
    assert Issued(s.issued, zone, m.id, m.generation);
  }

  /** Nothing drives a session that does not want playback. */
  lemma UnwantedTokens(e: Env, s: St, zone: ZoneId, m: Message)
    requires Core(e, s, {}) && zone in s.channels && m in s.channels[zone].bag
    ensures m.id in s.sessions && !s.sessions[m.id].wanted && s.sessions[m.id].zone == zone ==>
              !Current(s.sessions[m.id], m.id, m)
  {
    hide ChannelOk, Bounded, Streams, SingleToken, StreamOk;
    if m.id in s.sessions {
      CoreAt(e, s, m.id, {});
    }
  }

  // ---- Start results ----

  /** The session after a start result, with the message gone. */
  lemma TakeResultRoom(wav: bool, id: SessionId, x: Session, ch: Channel, entry: bool, planned: bool, m: Message,
        x': Session)
    requires RoomOk(wav, id, x, ch, entry, planned, true) && x.wanted && m.Result? && Current(x, id, m) && ch.bag[m] > 0
    requires x' == x.(observed := x'.observed, resetNeeded := x'.resetNeeded, attempts := x'.attempts,
             timer := x'.timer)
    requires x'.attempts <= RETRY_BUDGET
    requires if x'.observed == Playing then x'.timer.None?
             else x'.timer == Some(x.generation) || (x'.timer.None? && Spent(x'))
    ensures RoomOk(wav, id, x', ch.(bag := ch.bag - multiset{m}), entry, planned, true)
  {
  }

  /** A message and a session change in one room. */
  function TakeWith(s: St, id: SessionId, m: Message, x: Session): St
    requires id in s.sessions && s.sessions[id].zone in s.channels
  {
    var t := Take(s, s.sessions[id].zone, m);
    t.(sessions := t.sessions[id := x])
  }

  lemma TakeWithCore(e: Env, s: St, id: SessionId, m: Message, x': Session, after: set<SessionId>)
    requires Core(e, s, {}) && id in s.sessions && s.sessions[id].zone in s.channels
    requires var x := s.sessions[id];
             var ch := s.channels[x.zone];
             && x'.zone == x.zone && x'.generation == x.generation
             && (x'.timer.Some? ==> x'.timer == x.timer || (x'.timer.value == x.generation && x.generation > 0))
             && RoomOk(e.wav, id, x', ch.(bag := ch.bag - multiset{m}), Entry(s, id), x.generation in s.plans,
                id !in after)
    ensures Core(e, TakeWith(s, id, m, x'), after)
  {
    hide Core, Channels, Sessions, Streams, Rooms;
    hide RoomOk, ChannelOk, Bounded, HasEntry, StreamFits;
    var t := TakeWith(s, id, m, x');
    var x := s.sessions[id];
    CoreAt(e, s, id, {});
    TakeChannel(IsSonos(e, x.zone), e.wav, x.zone, s.issued, s.channels[x.zone], s.plans, m);
    StreamsKept(s, t);
    StepInRoom(e, s, t, id, {}, after);
  }

  lemma TakeResultCore(e: Env, s: St, id: SessionId, outcome: Outcome)
    requires Core(e, s, {}) && id in s.sessions && s.sessions[id].wanted
    requires s.sessions[id].zone in s.channels && outcome != Halted && outcome != HaltUnknown
    requires Result(id, s.sessions[id].generation, outcome) in s.channels[s.sessions[id].zone].bag
    ensures var x := s.sessions[id];
            Core(e, TakeWith(s, id, Result(id, x.generation, outcome), ResultSession(x, outcome)), {})
  {
    hide Core, Channels, Sessions, Streams, Rooms;
    hide RoomOk, ChannelOk, Bounded, HasEntry, ResultSession, Spent;
    var x := s.sessions[id];
    var m := Result(id, x.generation, outcome);
    var y := ResultSession(x, outcome);
    CoreAt(e, s, id, {});
    ResultSettles(e.wav, id, x, s.channels[x.zone], Entry(s, id), x.generation in s.plans);
    ResultShape(x, outcome);
    TakeResultRoom(e.wav, id, x, s.channels[x.zone], Entry(s, id), x.generation in s.plans, m, y);
    TakeWithCore(e, s, id, m, y, {});
  }

  lemma CurrentResultCore(e: Env, s: St, id: SessionId, outcome: Outcome)
    requires ValidEnv(e) && Core(e, s, {}) && Queue(e, s) && id in s.sessions && s.sessions[id].wanted
    requires s.sessions[id].zone in s.channels && outcome != Halted && outcome != HaltUnknown
    requires Result(id, s.sessions[id].generation, outcome) in s.channels[s.sessions[id].zone].bag
    ensures var m := Result(id, s.sessions[id].generation, outcome);
            var t := HandleResult(e, Take(s, s.sessions[id].zone, m), id, m.generation, outcome);
            Advances(e, s, t)
  {
    hide Core, Queue, ValidEnv, SameIntent, LeaveGroup, ForgetMember, ResultSession;
    var x := s.sessions[id];
    TakeResultCore(e, s, id, outcome);
    var t := TakeWith(s, id, Result(id, x.generation, outcome), ResultSession(x, outcome));
    var u := if outcome == Started || outcome == Failed then t.(groups := ForgetMember(t.groups, id)) else t;
    CoreSame(e, t, u, {});
    QueueSame(e, s, u);
    LeaveGroupCore(e, u, id, {});
    AdvancesBy(e, s, u, LeaveGroup(e, u, id));
  }

  lemma HandleResultCore(e: Env, s: St, zone: ZoneId, id: SessionId, generation: nat, outcome: Outcome)
    requires ValidEnv(e) && Core(e, s, {}) && Queue(e, s) && zone in s.channels
    requires Result(id, generation, outcome) in s.channels[zone].bag
    ensures var t := HandleResult(e, Take(s, zone, Result(id, generation, outcome)), id, generation, outcome);
            Advances(e, s, t)
  {
    hide Core, Queue, RoomOk, HandleResult, Bounded;
    var m := Result(id, generation, outcome);
    var s1 := Take(s, zone, m);
    QueueSame(e, s, s1);
    TagZone(e, s, zone, m);
    UnwantedTokens(e, s, zone, m);
    if id in s.sessions && s.sessions[id].generation == generation && s.sessions[id].wanted
       && outcome != Halted && outcome != HaltUnknown {
      CurrentResultCore(e, s, id, outcome);
    } else {
      TakeStale(e, s, zone, m);
      StaleResult(e, s1, id, generation, outcome);
    }
  }

  lemma ResultShape(x: Session, outcome: Outcome)
    requires outcome != Halted && outcome != HaltUnknown && x.attempts <= RETRY_BUDGET
    ensures var y := ResultSession(x, outcome);
            && y == x.(observed := y.observed, resetNeeded := y.resetNeeded, attempts := y.attempts, timer := y.timer)
            && y.attempts <= RETRY_BUDGET
            && if y.observed == Playing then y.timer.None?
               else y.timer == Some(x.generation) || (y.timer.None? && Spent(y))
  {
  }

  lemma ResultSettles(wav: bool, id: SessionId, x: Session, ch: Channel, entry: bool, planned: bool)
    requires RoomOk(wav, id, x, ch, entry, planned, true)
    ensures x.attempts <= RETRY_BUDGET && x.generation > 0
  {
  }

  lemma ObservedRoom(wav: bool, id: SessionId, x: Session, ch: Channel, entry: bool, planned: bool,
        observed: ObservedPlayback)
    requires RoomOk(wav, id, x, ch, entry, planned, true) && !x.wanted && observed != Playing
    ensures RoomOk(wav, id, x.(observed := observed), ch, entry, planned, true)
  {
  }

  /** A result that drives nothing changes at most what a paused room is observed to do. */
  lemma StaleResult(e: Env, s: St, id: SessionId, generation: nat, outcome: Outcome)
    requires Core(e, s, {}) && Queue(e, s)
    requires id in s.sessions && s.sessions[id].generation == generation && s.sessions[id].wanted ==>
               outcome == Halted || outcome == HaltUnknown
    ensures var t := HandleResult(e, s, id, generation, outcome);
            Core(e, t, {}) && Queue(e, t) && t.ticks == s.ticks && t.plans == s.plans && t.released == s.released
                && t.issued == s.issued
  {
    hide Core, Queue, RoomOk, ChannelOk, Bounded, HasEntry, LeaveGroup, Streams, Channels, Sessions, Rooms;
    if id in s.sessions && s.sessions[id].generation == generation && !s.sessions[id].wanted {
      var x := s.sessions[id];
      var observed := if outcome == Halted then Stopped else Unknown;
      var t := s.(sessions := s.sessions[id := x.(observed := observed)]);
      CoreAt(e, s, id, {});
      ObservedRoom(e.wav, id, x, s.channels[x.zone], Entry(s, id), x.generation in s.plans, observed);
      StreamsKept(s, t);
      StepInRoom(e, s, t, id, {}, {});
      QueueSame(e, s, t);
    }
  }

  // ---- Retries ----

  lemma TakeRetryRoom(wav: bool, id: SessionId, x: Session, ch: Channel, entry: bool, planned: bool)
    requires RoomOk(wav, id, x, ch, entry, planned, true) && x.wanted && ch.bag[Retry(id, x.generation)] > 0
    ensures var m := Retry(id, x.generation);
            var ch' := ch.(bag := ch.bag - multiset{m});
            && RoomOk(wav, id, x.(timer := None), ch', entry, planned, false) && !entry
            && (x.encoder.Some? ==> x.encoder.value.epoch == x.epoch) && x.generation > 0
            && (x.prepared.Some? ==> Idle(id, x.(timer := None), ch') && (wav ==> x.held.Some? || planned))
  {
  }

  /** What a retry that plays its stream makes of the bridge. */
  lemma RetryPlays(e: Env, s: St, id: SessionId)
    requires id in s.sessions && s.sessions[id].zone in s.channels
    requires var x := s.sessions[id]; x.wanted && x.prepared.Some? && s.channels[x.zone].unseen == []
    ensures var x := s.sessions[id];
            var m := Retry(id, x.generation);
            var ch := s.channels[x.zone];
            var t := HandleRetry(e, Take(s, x.zone, m), id, x.generation);
            t == s.(sessions := s.sessions[id := x.(timer := None, held := None)],
                    channels := s.channels[x.zone := ch.(bag := ch.bag - multiset{m},
                        unseen := [Play(id, x.generation)])],
                    plans := if x.held.Some? then
                               s.plans[x.generation := Plan(Now(e, s) + SYNC_START_LEAD, x.held.value, None)]
                             else s.plans,
                    ticks := if x.held.Some? then s.ticks + 1 else s.ticks)
  {
    hide Restart;
    var x := s.sessions[id];
    var m := Retry(id, x.generation);
    var ch := s.channels[x.zone];
    var t := HandleRetry(e, Take(s, x.zone, m), id, x.generation);
    assert [] + [Play(id, x.generation)] == [Play(id, x.generation)];
    assert t.channels == s.channels[x.zone := ch.(bag := ch.bag - multiset{m}, unseen := [Play(id, x.generation)])];
  }

  lemma RetryPlayShape(e: Env, s: St, id: SessionId)
    requires id in s.sessions && s.sessions[id].zone in s.channels
    requires var x := s.sessions[id]; x.wanted && x.prepared.Some? && s.channels[x.zone].unseen == []
    ensures var x := s.sessions[id];
            var m := Retry(id, x.generation);
            var ch := s.channels[x.zone];
            var t := HandleRetry(e, Take(s, x.zone, m), id, x.generation);
            && SameElsewhere(s, t, id) && t.cohorts == s.cohorts && t.issued == s.issued && t.wakes == s.wakes
            && s.ticks <= t.ticks && t.groups == s.groups
            && t.sessions[id] == x.(timer := None, held := None)
            && t.channels[x.zone] == ch.(bag := ch.bag - multiset{m}, unseen := [Play(id, x.generation)])
            && s.plans.Keys <= t.plans.Keys
            && (x.held.Some? ==> x.generation in t.plans) && PlansStay(s, t)
  {
    hide HandleRetry, Take;
    RetryPlays(e, s, id);
  }

  /** A retry that still has its stream plays it. */
  lemma RetryPlayCore(e: Env, s: St, zone: ZoneId, id: SessionId)
    requires Core(e, s, {}) && Queue(e, s) && ValidEnv(e) && id in s.sessions && s.sessions[id].zone == zone
             && zone in s.channels
    requires s.sessions[id].wanted && s.sessions[id].prepared.Some?
    requires Retry(id, s.sessions[id].generation) in s.channels[zone].bag
    ensures var g := s.sessions[id].generation;
            var t := HandleRetry(e, Take(s, zone, Retry(id, g)), id, g);
            Advances(e, s, t)
  {
    hide Core, Queue, ValidEnv, Channels, Sessions, Streams, Rooms, StreamFits, SameElsewhere;
    hide RoomOk, ChannelOk, Bounded, HasEntry, Idle, HandleRetry;
    var x := s.sessions[id];
    var g := x.generation;
    var ch := s.channels[zone];
    var m := Retry(id, g);
    var t := HandleRetry(e, Take(s, zone, m), id, g);
    var ch' := ch.(bag := ch.bag - multiset{m});
    CoreAt(e, s, id, {});
    TakeRetryRoom(e.wav, id, x, ch, Entry(s, id), g in s.plans);
    TakeChannel(IsSonos(e, zone), e.wav, zone, s.issued, ch, s.plans, m);
    IdleStream(id, x.(timer := None), ch');
    IdleUnseen(id, x.(timer := None), ch');
    RetryPlayShape(e, s, id);
    SameSessions(s, t, id);
    var c := Play(id, g);
    ChannelMorePlans(IsSonos(e, zone), e.wav, ch', s.plans, t.plans);
    StartBounded(ch', zone, s.issued, c);
    IdleAnyHeld(id, x.(timer := None), ch');
    RoomStart(IsSonos(e, zone), e.wav, id, t.sessions[id], ch', t.plans, c, true);
    StreamsKept(s, t);
    StepInRoom(e, s, t, id, {}, {});
    QueueLater(e, s, t);
  }

  lemma IdleUnseen(id: SessionId, x: Session, ch: Channel)
    requires Idle(id, x, ch)
    ensures ch.unseen == []
  {
  }

  lemma IdleAnyHeld(id: SessionId, x: Session, ch: Channel)
    requires Idle(id, x, ch)
    ensures Idle(id, x.(held := None), ch)
  {
  }

  lemma RetryRestarts(e: Env, s: St, id: SessionId)
    requires id in s.sessions && s.sessions[id].zone in s.channels
    requires s.sessions[id].wanted && s.sessions[id].prepared.None?
    ensures var x := s.sessions[id];
            var m := Retry(id, x.generation);
            HandleRetry(e, Take(s, x.zone, m), id, x.generation) == Restart(e, TakeWith(s, id, m, x.(timer := None)),
                id)
  {
    hide Restart;
  }

  lemma SamePlans(s: St, t: St)
    requires t.plans == s.plans && t.released == s.released
    ensures PlansStay(s, t)
  {
  }

  /** A retry without a stream restarts. */
  lemma RetryRestartCore(e: Env, s: St, id: SessionId)
    requires ValidEnv(e) && Core(e, s, {}) && Queue(e, s) && id in s.sessions && s.sessions[id].zone in s.channels
    requires s.sessions[id].wanted && s.sessions[id].prepared.None?
    requires Retry(id, s.sessions[id].generation) in s.channels[s.sessions[id].zone].bag
    ensures var g := s.sessions[id].generation;
            Advances(e, s, HandleRetry(e, Take(s, s.sessions[id].zone, Retry(id, g)), id, g))
  {
    hide ValidEnv, Core, Queue, RoomOk, Restart, Bounded, ChannelOk, Idle, HandleRetry, PlansStay, SameIntent, HasEntry;
    var x := s.sessions[id];
    var m := Retry(id, x.generation);
    CoreAt(e, s, id, {});
    TakeRetryRoom(e.wav, id, x, s.channels[x.zone], Entry(s, id), x.generation in s.plans);
    TakeWithCore(e, s, id, m, x.(timer := None), {id});
    var t := TakeWith(s, id, m, x.(timer := None));
    QueueSame(e, s, t);
    SamePlans(s, t);
    RestartCore(e, t, id, {id});
    assert {id} - {id} == {};
    RetryRestarts(e, s, id);
    AdvancesBy(e, s, t, Restart(e, t, id));
  }

  lemma HandleRetryCore(e: Env, s: St, zone: ZoneId, id: SessionId, generation: nat)
    requires ValidEnv(e) && Core(e, s, {}) && Queue(e, s) && zone in s.channels
    requires Retry(id, generation) in s.channels[zone].bag
    ensures var t := HandleRetry(e, Take(s, zone, Retry(id, generation)), id, generation);
            Advances(e, s, t)
  {
    hide ValidEnv, Core, Queue, Restart, Current, PlansStay;
    var m := Retry(id, generation);
    var s1 := Take(s, zone, m);
    QueueSame(e, s, s1);
    SamePlans(s, s1);
    TagZone(e, s, zone, m);
    UnwantedTokens(e, s, zone, m);
    if id in s.sessions && s.sessions[id].generation == generation && s.sessions[id].wanted {
      if s.sessions[id].prepared.Some? {
        RetryPlayCore(e, s, zone, id);
      } else {
        RetryRestartCore(e, s, id);
      }
    } else {
      assert id in s.sessions && s.sessions[id].generation != generation ==> !Current(s.sessions[id], id, m) by {
        OtherGeneration(s, id, m);
      }
      TakeStale(e, s, zone, m);
    }
  }

  lemma OtherGeneration(s: St, id: SessionId, m: Message)
    requires m.id == id
    ensures id in s.sessions && s.sessions[id].generation != m.generation ==> !Current(s.sessions[id], id, m)
  {
  }

  // ---- Events of the AirPlay side ----

  /** A session changes while nothing else does. */
  function WithSession(s: St, id: SessionId, x: Session): St {
    s.(sessions := s.sessions[id := x])
  }

  lemma WithSessionCore(e: Env, s: St, id: SessionId, x': Session, exempt: set<SessionId>, after: set<SessionId>)
    requires Core(e, s, exempt) && exempt <= after + {id} && id in s.sessions && s.sessions[id].zone in s.channels
    requires var x := s.sessions[id];
             && x'.zone == x.zone && x'.generation == x.generation && (x'.timer.Some? ==> x'.timer == x.timer)
             && RoomOk(e.wav, id, x', s.channels[x.zone], Entry(s, id), x.generation in s.plans, id !in after)
    ensures Core(e, WithSession(s, id, x'), after)
  {
    hide Core, Channels, Sessions, Streams, Rooms;
    hide RoomOk, ChannelOk, Bounded, HasEntry, StreamFits;
    CoreAt(e, s, id, exempt);
    StreamsKept(s, WithSession(s, id, x'));
    StepInRoom(e, s, WithSession(s, id, x'), id, exempt, after);
  }

  lemma PlayAgainRoom(wav: bool, id: SessionId, x: Session, ch: Channel, entry: bool, planned: bool)
    requires RoomOk(wav, id, x, ch, entry, planned, true)
    ensures RoomOk(wav, id, x.(wanted := true, attempts := 0), ch, entry, planned, false)
    ensures x.wanted && !x.resetNeeded ==> RoomOk(wav, id, x.(wanted := true, attempts := 0), ch, entry, planned, true)
  {
  }

  function PausedSession(x: Session): Session {
    x.(wanted := false, resetNeeded := true, observed := Unknown, prepared := None, held := None, timer := None)
  }

  lemma PausedRoom(wav: bool, id: SessionId, x: Session, ch: Channel, entry: bool, planned: bool, settled: bool)
    requires RoomOk(wav, id, x, ch, entry, planned, settled)
    ensures RoomOk(wav, id, PausedSession(x), ch, entry, planned, false)
    ensures settled ==> x.encoder.Some? ==> x.encoder.value.epoch == x.epoch
  {
  }

  lemma PlayCore(e: Env, s: St, id: SessionId)
    requires ValidEnv(e) && Core(e, s, {}) && Queue(e, s)
    ensures var t := SetPlayback(e, s, id, true); Advances(e, s, t)
  {
    hide Core, Queue, ValidEnv, RoomOk, Restart, HasEntry, ChannelOk, Bounded, SameIntent;
    if id in s.sessions {
      var x := s.sessions[id];
      var y := x.(wanted := true, attempts := 0);
      var t := WithSession(s, id, y);
      CoreAt(e, s, id, {});
      PlayAgainRoom(e.wav, id, x, s.channels[x.zone], Entry(s, id), x.generation in s.plans);
      QueueSame(e, s, t);
      if !x.wanted || x.resetNeeded {
        WithSessionCore(e, s, id, y, {}, {id});
        RestartCore(e, t, id, {id});
        assert {id} - {id} == {};
        AdvancesBy(e, s, t, Restart(e, t, id));
      } else {
        WithSessionCore(e, s, id, y, {}, {});
      }
    }
  }

  /** `id` in a new generation without a stream, and its Stop in the room's channel. */
  ghost predicate Halting(s: St, t: St, id: SessionId)
    requires id in s.sessions
  {
    && SameElsewhere(s, t, id) && t.cohorts == s.cohorts && t.wakes == s.wakes && t.ticks == s.ticks
    && t.plans == s.plans && t.released == s.released
    && var x := s.sessions[id];
       var y := t.sessions[id];
       && t.issued == s.issued + [Owner(id, x.zone)]
       && x.zone in s.channels
       && t.channels[x.zone] ==
            s.channels[x.zone].(unseen := s.channels[x.zone].unseen + [Stop(id, |t.issued|)])
       && y.generation == |t.issued| && y.attempts <= RETRY_BUDGET && y.prepared.None? && y.held.None?
       && (y.encoder.Some? ==> y.encoder.value.epoch == y.epoch)
       && (y.timer.Some? ==> y.timer.value == y.generation || y.timer == x.timer)
       && (y.wanted ==> y.timer == Some(y.generation) || Spent(y))
       && (!y.wanted ==> y.timer.None? && y.observed != Playing)
  }

  lemma HaltingCore(e: Env, s: St, t: St, id: SessionId, exempt: set<SessionId>)
    requires Core(e, s, exempt) && id in s.sessions && Halting(s, t, id)
    ensures Core(e, t, exempt - {id})
  {
    hide Core, Channels, Sessions, Streams, Rooms;
    hide RoomOk, ChannelOk, Bounded, HasEntry, StreamFits;
    CoreAt(e, s, id, exempt);
    var x := s.sessions[id];
    var ch := s.channels[x.zone];
    var g := |t.issued|;
    ChannelAppend(IsSonos(e, x.zone), e.wav, ch, s.plans, x.zone, s.issued, Stop(id, g), t.issued);
    RoomStopped(e.wav, id, t.sessions[id], ch, s.issued, g in t.plans, true);
    StreamsKept(s, t);
    NoFreshEntry(s, id, g);
    StepInRoom(e, s, t, id, exempt, exempt - {id});
  }

  /** The session whose encoder closed, in generation `g`. */
  function ClosedSession(x: Session, g: nat): Session {
    var y := x.(prepared := None, held := None, resetNeeded := true, encoder := None, generation := g);
    if !x.wanted then y
    else if x.attempts >= RETRY_BUDGET then y.(timer := None)
    else y.(timer := Some(g), attempts := x.attempts + 1)
  }

  lemma EncoderClosedState(e: Env, s: St, id: SessionId)
    requires id in s.sessions && s.sessions[id].encoder.Some? && s.sessions[id].zone in s.channels
    ensures var x := s.sessions[id];
            var ch := s.channels[x.zone];
            var g := |s.issued| + 1;
            HandleEncoderClosed(e, s, id) ==
            s.(sessions := s.sessions[id := ClosedSession(x, g)], issued := s.issued + [Owner(id, x.zone)],
               channels := s.channels[x.zone := ch.(unseen := ch.unseen + [Stop(id, g)])])
  {
    var x := s.sessions[id];
    var g := |s.issued| + 1;
    assert HandleEncoderClosed(e, s, id).sessions == s.sessions[id := ClosedSession(x, g)];
  }

  lemma EncoderClosedShape(e: Env, s: St, id: SessionId)
    requires id in s.sessions && s.sessions[id].encoder.Some? && s.sessions[id].zone in s.channels
    requires s.sessions[id].attempts <= RETRY_BUDGET
    requires !s.sessions[id].wanted ==> s.sessions[id].observed != Playing && s.sessions[id].timer.None?
    ensures Halting(s, HandleEncoderClosed(e, s, id), id) && HandleEncoderClosed(e, s, id).groups == s.groups
  {
    hide HandleEncoderClosed;
    EncoderClosedState(e, s, id);
  }

  lemma EncoderClosedCore(e: Env, s: St, id: SessionId)
    requires Core(e, s, {}) && Queue(e, s)
    ensures var t := HandleEncoderClosed(e, s, id); Advances(e, s, t)
  {
    hide Core, Queue, RoomOk, HasEntry, Halting, ChannelOk, Bounded;
    if id in s.sessions && s.sessions[id].encoder.Some? {
      var t := HandleEncoderClosed(e, s, id);
      CoreAt(e, s, id, {});
      UnwantedRoom(e.wav, id, s.sessions[id], s.channels[s.sessions[id].zone], Entry(s, id),
                   s.sessions[id].generation in s.plans);
      EncoderClosedShape(e, s, id);
      HaltingCore(e, s, t, id, {});
      assert {} - {id} == {};
      HaltingQueue(e, s, t, id);
    }
  }

  lemma FedRoom(wav: bool, id: SessionId, x: Session, ch: Channel, entry: bool, planned: bool, epoch: nat)
    requires RoomOk(wav, id, x, ch, entry, planned, true) && x.encoder.Some?
    ensures RoomOk(wav, id, Feed(x, epoch), ch, entry, planned, true)
  {
  }

  lemma FrameCore(e: Env, s: St, id: SessionId, epoch: nat, write: Write)
    requires Core(e, s, {}) && Queue(e, s)
    ensures var t := HandleFrame(e, s, id, epoch, write); Advances(e, s, t)
  {
    hide Core, Queue, RoomOk, HasEntry, HandleEncoderClosed;
    if id in s.sessions && s.sessions[id].epoch == epoch && s.sessions[id].encoder.Some? {
      match write
      case Taken =>
        var x := s.sessions[id];
        CoreAt(e, s, id, {});
        FedRoom(e.wav, id, x, s.channels[x.zone], Entry(s, id), x.generation in s.plans, epoch);
        WithSessionCore(e, s, id, Feed(x, epoch), {}, {});
        QueueSame(e, s, WithSession(s, id, Feed(x, epoch)));
      case Full =>
      case InputClosed => EncoderClosedCore(e, s, id);
    }
  }

  lemma HaltingQueue(e: Env, s: St, t: St, id: SessionId)
    requires id in s.sessions && Halting(s, t, id) && Queue(e, s)
    ensures Queue(e, t) && t.ticks == s.ticks && t.sessions.Keys == s.sessions.Keys && s.issued <= t.issued
    ensures t.plans == s.plans && t.released == s.released
  {
  }

  lemma UnwantedRoom(wav: bool, id: SessionId, x: Session, ch: Channel, entry: bool, planned: bool)
    requires RoomOk(wav, id, x, ch, entry, planned, true)
    ensures !x.wanted ==> x.observed != Playing && x.timer.None?
  {
  }

  lemma PauseShape(s: St, id: SessionId)
    requires id in s.sessions && s.sessions[id].zone in s.channels
    requires var x := s.sessions[id];
             && x.attempts <= RETRY_BUDGET && x.prepared.None? && x.held.None? && x.timer.None?
             && (x.encoder.Some? ==> x.encoder.value.epoch == x.epoch) && !x.wanted && x.observed == Unknown
    ensures var t := NextGeneration(s, id);
            Halting(s, Send(t, s.sessions[id].zone, Stop(id, |t.issued|)), id)
  {
  }

  /** A pause, of a session that may already be in the middle of a flush. */
  lemma PauseCore(e: Env, s: St, id: SessionId, exempt: set<SessionId>)
    requires ValidEnv(e) && Core(e, s, exempt) && exempt <= {id} && Queue(e, s)
    requires id in s.sessions
    requires s.sessions[id].encoder.Some? ==> s.sessions[id].encoder.value.epoch == s.sessions[id].epoch
    ensures var t := SetPlayback(e, s, id, false); Advances(e, s, t)
  {
    hide Core, Queue, ValidEnv, RoomOk, HasEntry, Halting, ChannelOk, Bounded, LeaveGroup, MaybeStart, Send,
         NextGeneration;
    hide PlansStay;
    var x := s.sessions[id];
    var y := PausedSession(x);
    CoreAt(e, s, id, exempt);
    PausedRoom(e.wav, id, x, s.channels[x.zone], Entry(s, id), x.generation in s.plans, id !in exempt);
    WithSessionCore(e, s, id, y, exempt, {id});
    var s1 := WithSession(s, id, y);
    QueueSame(e, s, s1);
    LeaveGroupCore(e, s1, id, {id});
    var s2 := LeaveGroup(e, s1, id);
    assert SameWish(s1.sessions[id], s2.sessions[id]);
    assert s2.sessions[id] == y;
    CoreAt(e, s2, id, {id});
    PauseShape(s2, id);
    var t := NextGeneration(s2, id);
    var u := Send(t, x.zone, Stop(id, |t.issued|));
    HaltingCore(e, s2, u, id, {id});
    assert {id} - {id} == {};
    HaltingQueue(e, s2, u, id);
    MaybeStartFollows(e, u, {});
    PausePlans(s, s1, s2, u);
    AdvancesBy(e, s, u, MaybeStart(e, u, false));
  }

  lemma PausePlans(s: St, s1: St, t: St, u: St)
    requires s1.plans == s.plans && s1.released == s.released && s1.issued == s.issued
    requires SameIntent(s1, t) && s1.issued <= t.issued
    requires u.plans == t.plans && u.released == t.released && t.issued <= u.issued
    ensures PlansStay(s, u) && s.issued <= u.issued
  {
  }

  lemma FlushedRoom(wav: bool, id: SessionId, x: Session, ch: Channel, entry: bool, planned: bool, x': Session)
    requires RoomOk(wav, id, x, ch, entry, planned, true)
    requires x' == x.(epoch := x'.epoch, encoder := x'.encoder)
    ensures RoomOk(wav, id, x', ch, entry, planned, false)
  {
  }

  function FlushedSession(x: Session, epoch: nat): Session {
    if x.wanted then x.(epoch := epoch) else x.(epoch := epoch, encoder := None)
  }

  lemma FlushedCore(e: Env, s: St, id: SessionId, epoch: nat)
    requires Core(e, s, {}) && Queue(e, s) && id in s.sessions
    ensures var t := WithSession(s, id, FlushedSession(s.sessions[id], epoch)); Core(e, t, {id}) && Queue(e, t)
  {
    hide Core, Queue, RoomOk, HasEntry;
    var x := s.sessions[id];
    CoreAt(e, s, id, {});
    FlushedRoom(e.wav, id, x, s.channels[x.zone], Entry(s, id), x.generation in s.plans, FlushedSession(x, epoch));
    WithSessionCore(e, s, id, FlushedSession(x, epoch), {}, {id});
    QueueSame(e, s, WithSession(s, id, FlushedSession(x, epoch)));
  }

  lemma FlushCore(e: Env, s: St, id: SessionId, epoch: nat)
    requires ValidEnv(e) && Core(e, s, {}) && Queue(e, s)
    ensures var t := HandleFlush(e, s, id, epoch); Advances(e, s, t)
  {
    hide Core, Queue, ValidEnv, Restart, SetPlayback, PlansStay, SameIntent;
    SamePlans(s, s);
    if id in s.sessions && epoch > s.sessions[id].epoch {
      FlushedCore(e, s, id, epoch);
      var t := WithSession(s, id, FlushedSession(s.sessions[id], epoch));
      SamePlans(s, t);
      if s.sessions[id].wanted {
        RestartCore(e, t, id, {id});
        assert {id} - {id} == {};
        AdvancesBy(e, s, t, Restart(e, t, id));
      } else {
        PauseCore(e, t, id, {id});
        PlansFrom(s, t, SetPlayback(e, t, id, false));
      }
    }
  }

  lemma PlansFrom(s: St, t: St, u: St)
    requires PlansStay(t, u) && t.plans == s.plans && t.released == s.released
    ensures PlansStay(s, u)
  {
  }

  lemma RemoveCore(e: Env, s: St, id: SessionId)
    requires Core(e, s, {})
    ensures Core(e, s.(sessions := s.sessions - {id}), {})
  {
    hide RoomOk, ChannelOk, Bounded, HasEntry, StreamFits;
    var t := s.(sessions := s.sessions - {id});
    StreamsKept(s, t);
    forall j | j in t.sessions ensures Room(e, t, j, {}) {
      assert Room(e, s, j, {});
    }
  }

  /** A Stop goes to a zone where no session lives. */
  lemma StopEmptyZoneCore(e: Env, s: St, zone: ZoneId, id: SessionId, generation: nat)
    requires Core(e, s, {}) && Issued(s.issued, zone, id, generation)
    requires forall j :: j in s.sessions ==> s.sessions[j].zone != zone
    ensures Core(e, Send(s, zone, Stop(id, generation)), {})
  {
    hide Sessions, Streams, Rooms, RoomOk, ChannelOk, Bounded, HasEntry;
    if zone in s.channels {
      var t := Send(s, zone, Stop(id, generation));
      ChannelAppend(IsSonos(e, zone), e.wav, s.channels[zone], s.plans, zone, s.issued, Stop(id, generation), s.issued);
      StepInZone(e, s, t, zone, {});
    }
  }

  lemma ZoneLeft(e: Env, s: St, id: SessionId)
    requires Core(e, s, {}) && id in s.sessions
    ensures forall j :: j in s.sessions && j != id ==> s.sessions[j].zone != s.sessions[id].zone
  {
    hide Rooms, Channels, Streams;
  }

  lemma StopCore(e: Env, s: St, id: SessionId)
    requires ValidEnv(e) && Core(e, s, {}) && Queue(e, s)
    ensures var t := StopSession(e, s, id);
            Advances(e, s, t)
            && (forall j :: j in t.sessions ==> j in s.sessions && t.sessions[j].zone == s.sessions[j].zone)
  {
    hide Core, Queue, ValidEnv, RoomOk, HasEntry, LeaveGroup, MaybeStart, Bounded, ChannelOk;
    if id in s.sessions {
      var x := s.sessions[id];
      CoreAt(e, s, id, {});
      ZoneLeft(e, s, id);
      SettledGeneration(e, s, id);
      var s1 := s.(sessions := s.sessions - {id});
      RemoveCore(e, s, id);
      QueueSame(e, s, s1);
      LeaveGroupCore(e, s1, id, {});
      var s2 := LeaveGroup(e, s1, id);
      forall j | j in s2.sessions ensures s2.sessions[j].zone == s1.sessions[j].zone && s2.sessions[j].zone != x.zone {
        assert SameWish(s1.sessions[j], s2.sessions[j]);
      }
      IssuedPrefix(s1.issued, s2.issued, x.zone, id, x.generation);
      StopEmptyZoneCore(e, s2, x.zone, id, x.generation);
      var s3 := Send(s2, x.zone, Stop(id, x.generation));
      QueueSame(e, s2, s3);
      MaybeStartFollows(e, s3, {});
      var t := MaybeStart(e, s3, false);
      forall j | j in t.sessions ensures t.sessions[j].zone == s3.sessions[j].zone {
        assert SameWish(s3.sessions[j], t.sessions[j]);
      }
    }
  }

  lemma IssuedPrefix(issued: seq<Owner>, more: seq<Owner>, zone: ZoneId, id: SessionId, generation: nat)
    requires issued <= more && Issued(issued, zone, id, generation)
    ensures Issued(more, zone, id, generation)
  {
  }

  lemma SettledGeneration(e: Env, s: St, id: SessionId)
    requires Core(e, s, {}) && id in s.sessions
    ensures s.sessions[id].generation > 0
  {
    CoreAt(e, s, id, {});
  }

  lemma {:induction false} StopEachCore(e: Env, s: St, ids: set<SessionId>)
    requires ValidEnv(e) && Core(e, s, {}) && Queue(e, s)
    ensures var t := StopEach(e, s, ids);
            Advances(e, s, t)
            && (forall j :: j in t.sessions ==>
                  j in s.sessions && j !in ids && t.sessions[j].zone == s.sessions[j].zone)
    decreases ids
  {
    hide Core, Queue, StopSession;
    var id := e.choose(s.ticks, ids);
    if id in ids {
      CoreSame(e, s, Ticked(s), {});
      QueueLater(e, s, Ticked(s));
      StopCore(e, Ticked(s), id);
      StopEachCore(e, StopSession(e, Ticked(s), id), ids - {id});
    } else {
      assert ids == {};
    }
  }

  lemma NewSessionRoom(wav: bool, id: SessionId, zone: ZoneId, sender: Option<Sender>, ch: Channel, issued: seq<Owner>,
                       planned: bool)
    requires Bounded(ch, zone, issued)
    ensures RoomOk(wav, id, NewSession(zone, sender), ch, false, planned, false)
  {
    TokensZero(id, NewSession(zone, sender), ch, issued);
  }

  lemma InsertCore(e: Env, s: St, id: SessionId, zone: ZoneId, sender: Option<Sender>)
    requires Core(e, s, {}) && id !in s.sessions && zone in e.renderers
    requires forall j :: j in s.sessions ==> s.sessions[j].zone != zone
    ensures Core(e, s.(sessions := s.sessions[id := NewSession(zone, sender)]), {id})
  {
    hide RoomOk, ChannelOk, Bounded, HasEntry, StreamFits;
    var t := s.(sessions := s.sessions[id := NewSession(zone, sender)]);
    StreamsKept(s, t);
    NoFreshEntry(s, id, 0);
    NewSessionRoom(e.wav, id, zone, sender, s.channels[zone], s.issued, 0 in s.plans);
    forall j | j in t.sessions ensures Room(e, t, j, {id}) {
      if j != id {
        assert Room(e, s, j, {});
      }
    }
  }

  /** A session id is new whenever a session starts. */
  lemma StartCore(e: Env, s: St, id: SessionId, zone: ZoneId, sender: Option<Sender>)
    requires ValidEnv(e) && Core(e, s, {}) && Queue(e, s) && id !in s.sessions
    ensures var t := StartSession(e, s, id, zone, sender); Advances(e, s, t)
  {
    hide Core, Queue, ValidEnv, StopEach, Restart;
    var s1 := StopEach(e, s, SessionsIn(s, zone));
    StopEachCore(e, s, SessionsIn(s, zone));
    if zone in e.renderers {
      InsertCore(e, s1, id, zone, sender);
      var s2 := s1.(sessions := s1.sessions[id := NewSession(zone, sender)]);
      QueueSame(e, s1, s2);
      RestartCore(e, s2, id, {id});
      assert {id} - {id} == {};
    }
  }

  // ---- Timers ----

  /** An armed retry timer fires: its message is on the way. */
  function FireRetry(s: St, id: SessionId): St
    requires id in s.sessions && s.sessions[id].zone in s.channels && s.sessions[id].timer.Some?
  {
    var x := s.sessions[id];
    var ch := s.channels[x.zone];
    s.(sessions := s.sessions[id := x.(timer := None)],
       channels := s.channels[x.zone := ch.(bag := ch.bag + multiset{Retry(id, x.timer.value)})])
  }

  lemma FireRoom(wav: bool, id: SessionId, x: Session, ch: Channel, entry: bool, planned: bool)
    requires RoomOk(wav, id, x, ch, entry, planned, true) && x.timer.Some?
    ensures RoomOk(wav, id, x.(timer := None), ch.(bag := ch.bag + multiset{Retry(id, x.timer.value)}), entry, planned,
            true)
  {
  }

  lemma FireChannel(sonos: bool, wav: bool, zone: ZoneId, issued: seq<Owner>, ch: Channel, plans: map<nat, Plan>,
                    id: SessionId, g: nat)
    requires ChannelOk(sonos, wav, ch, plans) && Bounded(ch, zone, issued) && Issued(issued, zone, id, g)
    ensures ChannelOk(sonos, wav, ch.(bag := ch.bag + multiset{Retry(id, g)}), plans)
    ensures Bounded(ch.(bag := ch.bag + multiset{Retry(id, g)}), zone, issued)
  {
  }

  lemma FireCore(e: Env, s: St, id: SessionId)
    requires Core(e, s, {}) && Queue(e, s) && id in s.sessions && s.sessions[id].zone in s.channels
    requires s.sessions[id].timer.Some?
    ensures Core(e, FireRetry(s, id), {}) && Queue(e, FireRetry(s, id))
  {
    hide Core, Queue, Channels, Sessions, Streams, Rooms, RoomOk, ChannelOk, Bounded, HasEntry, StreamFits;
    var x := s.sessions[id];
    var ch := s.channels[x.zone];
    CoreAt(e, s, id, {});
    FireRoom(e.wav, id, x, ch, Entry(s, id), x.generation in s.plans);
    FireChannel(IsSonos(e, x.zone), e.wav, x.zone, s.issued, ch, s.plans, id, x.timer.value);
    StreamsKept(s, FireRetry(s, id));
    StepInRoom(e, s, FireRetry(s, id), id, {}, {});
    QueueSame(e, s, FireRetry(s, id));
  }

  /** A due wake runs the queue. */
  function HandleWake(e: Env, s: St, due: nat): St {
    var t := MaybeStart(e, s, false);
    t.(wakes := t.wakes - {due})
  }

  lemma WakeCore(e: Env, s: St, due: nat)
    requires ValidEnv(e) && Core(e, s, {}) && Queue(e, s) && due <= Now(e, s)
    ensures var t := HandleWake(e, s, due); Advances(e, s, t)
  {
    hide Core, MaybeStart;
    MaybeStartFollows(e, s, {});
    MaybeStartQueue(e, s);
    CoreSame(e, MaybeStart(e, s, false), HandleWake(e, s, due), {});
  }
}
