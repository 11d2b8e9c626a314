/** Every step of the bridge keeps the native groups a forest, unless it breaks up a group while a
    stream of the group's sender waits. In the order that clears first, every step does. */
module BridgeGroups {
  import opened BridgeState
  import opened BridgeHandlers
  import opened BridgeRooms
  import opened BridgeCore
  import opened BridgeForest
  import opened BridgeOut
  import opened BridgeRegroup
  import opened BridgeSteps
  import opened BridgeWorker
  import opened BridgeSystem

  /** One session and its zone change, and the session does not become unready. */
  lemma StepForest(e: Env, s: St, t: St, id: SessionId, exempt: set<SessionId>)
    requires Core(e, s, exempt) && Forest(e, s) && id in s.sessions && SameElsewhere(s, t, id) && t.groups == s.groups
    requires Ungrouped(s, id) || Stays(s, t, id)
    requires s.sessions[id].zone in s.channels ==>
               JoinsKept(s.channels[s.sessions[id].zone], t.channels[s.sessions[id].zone])
    requires forall j :: j in s.sessions && j != id ==> Entry(t, j) == Entry(s, j)
    ensures Forest(e, t)
  {
    hide Core, Forest, HasEntry, Unready, IsMember;
    SameSessions(s, t, id);
    forall j | j in s.sessions && j != id ensures Stays(s, t, j) {
      UnreadyElsewhere(e, s, t, id, j, exempt);
    }
    ForestFrame(e, s, t);
  }

  /** What `id` leaves behind stays quiet when sessions go, stop to want playback, or change in
      what is no part of a wait. */
  lemma SafeFrame(e: Env, s: St, t: St, id: SessionId)
    requires t.cohorts == s.cohorts && t.sessions.Keys <= s.sessions.Keys
    requires forall j :: j in t.sessions ==>
               && t.sessions[j].sender == s.sessions[j].sender && t.sessions[j].zone == s.sessions[j].zone
               && t.sessions[j].generation == s.sessions[j].generation
               && (t.sessions[j].wanted ==> s.sessions[j].wanted)
    requires forall j :: j in t.sessions && j != id && t.sessions[j].observed == Playing ==>
               s.sessions[j].observed == Playing
    requires Detached(t, id) == Detached(s, id) && id !in Detached(s, id)
    ensures Safe(e, s, id) ==> Safe(e, t, id)
    ensures RestartSafe(e, s, id)
            && (id in t.sessions && t.sessions[id].observed == Playing ==> s.sessions[id].observed == Playing) ==>
              RestartSafe(e, t, id)
  {
    hide HasEntry, Detached;
    if AllQuiet(e, s, Detached(s, id)) {
      forall m | m in Detached(s, id) ensures Quiet(e, t, m) {
        assert Quiet(e, s, m);
        forall j | m in t.sessions && Waits(e, t, t.sessions[m].sender, j)
          ensures Waits(e, s, t.sessions[m].sender, j)
        {
        }
      }
    }
  }

  /** Of a session that does not play, only its members matter. */
  lemma SafeIfSilent(e: Env, s: St, id: SessionId)
    requires Safe(e, s, id) && (id in s.sessions ==> s.sessions[id].observed != Playing)
    ensures RestartSafe(e, s, id)
  {
  }

  lemma RestartIsSafe(e: Env, s: St, id: SessionId)
    requires RestartSafe(e, s, id)
    ensures Safe(e, s, id)
  {
  }

  lemma SameDetached(s: St, t: St, id: SessionId)
    requires t.groups == s.groups || t.groups == ForgetMember(s.groups, id)
    ensures Detached(t, id) == Detached(s, id) && id !in Detached(s, id)
  {
  }

  lemma TakeForest(e: Env, s: St, zone: ZoneId, m: Message)
    requires Forest(e, s) && zone in s.channels
    ensures Forest(e, Take(s, zone, m))
  {
    hide Forest, HasEntry, IsMember;
    var t := Take(s, zone, m);
    forall id | id in s.sessions ensures Stays(s, t, id) {
    }
    ForestFrame(e, s, t);
  }

  // ---- Messages ----

  lemma KeepStreamForest(e: Env, s: St, id: SessionId)
    requires Core(e, s, {}) && Forest(e, s) && id in s.sessions && s.sessions[id].zone in s.channels
    requires Prepared(id, s.sessions[id].generation) in s.channels[s.sessions[id].zone].bag
    ensures Forest(e, KeepStream(s, id)) && Ungrouped(KeepStream(s, id), id)
  {
    hide Core, Forest, HasEntry, Unready;
    PreparedUnready(e, s, id);
    UnreadyUngrouped(e, s, id);
    StepForest(e, s, KeepStream(s, id), id, {});
  }

  lemma AwaitForest(e: Env, s: St, id: SessionId, i: nat)
    requires Core(e, s, {id}) && Forest(e, s) && id in s.sessions && Ungrouped(s, id)
    requires s.sessions[id].prepared.Some? && i < |s.cohorts| && s.sessions[id].prepared.value.id == id
    ensures Forest(e, Await(s, id, i))
  {
    hide Core, Forest, HasEntry, Unready;
    var t := Await(s, id, i);
    forall j | j in s.sessions && j != id ensures Entry(t, j) == Entry(s, j) {
      AwaitEntries(s.cohorts, i, s.sessions[id].prepared.value, j, s.sessions[j].generation);
    }
    StepForest(e, s, t, id, {id});
  }

  lemma HandlePreparedForest(e: Env, s: St, zone: ZoneId, id: SessionId, generation: nat)
    requires ValidEnv(e) && Core(e, s, {}) && Queue(e, s) && Forest(e, s) && zone in s.channels
    requires Prepared(id, generation) in s.channels[zone].bag
    ensures Forest(e, HandlePrepared(e, Take(s, zone, Prepared(id, generation)), id, generation))
  {
    hide ValidEnv, Core, Queue, Forest, PlayPrepared, MaybeStart, RoomOk, Ready, Startable, Bounded;
    var m := Prepared(id, generation);
    TakeForest(e, s, zone, m);
    TagZone(e, s, zone, m);
    if id in s.sessions && s.sessions[id].generation == generation && s.sessions[id].wanted {
      KeepStreamCore(e, s, id);
      KeepStreamForest(e, s, id);
      var t := KeepStream(s, id);
      var p := t.sessions[id].prepared.value;
      QueueSame(e, s, t);
      PreparedGeneration(e, t, id);
      match CohortOf(t.cohorts, id)
      case None =>
        assert {} + Ids([p]) == {id};
        PlayPreparedForest(e, t, [p], {});
      case Some(i) =>
        var u := Await(t, id, i);
        AwaitCore(e, t, id, i);
        AwaitQueue(e, t, id, i);
        AwaitForest(e, t, id, i);
        QueueDistinct(e, u);
        MaybeStartForest(e, u, false, {});
    }
  }

  lemma ActingResultForest(e: Env, s: St, id: SessionId, outcome: Outcome)
    requires ValidEnv(e) && Core(e, s, {}) && Queue(e, s) && Forest(e, s) && id in s.sessions && s.sessions[id].wanted
    requires s.sessions[id].zone in s.channels && outcome != Halted && outcome != HaltUnknown
    requires Result(id, s.sessions[id].generation, outcome) in s.channels[s.sessions[id].zone].bag
    requires GivesUp(s.sessions[id], outcome) ==> Safe(e, s, id)
    ensures var m := Result(id, s.sessions[id].generation, outcome);
            Forest(e, HandleResult(e, Take(s, s.sessions[id].zone, m), id, m.generation, outcome))
  {
    hide ValidEnv, Core, Queue, Forest, LeaveGroup, ForgetMember, ResultSession, HasEntry, IsMember,
         Safe, RestartSafe, Detached;
    var x := s.sessions[id];
    var m := Result(id, x.generation, outcome);
    var y := ResultSession(x, outcome);
    TakeForest(e, s, x.zone, m);
    TakeResultCore(e, s, id, outcome);
    CoreAt(e, s, id, {});
    ResultShape(x, outcome);
    var t := TakeWith(s, id, m, y);
    ResultFrame(e, Take(s, x.zone, m), id, y);
    var u := if outcome == Started || outcome == Failed then t.(groups := ForgetMember(t.groups, id)) else t;
    ForgetForest(e, t, id);
    CoreSame(e, t, u, {});
    QueueSame(e, s, u);
    if GivesUp(x, outcome) {
      GivingUpForest(e, s, u, id, outcome);
    }
  }

  lemma GivingUpForest(e: Env, s: St, u: St, id: SessionId, outcome: Outcome)
    requires ValidEnv(e) && Core(e, u, {}) && Queue(e, u) && Forest(e, u) && id in s.sessions && Safe(e, s, id)
    requires GivesUp(s.sessions[id], outcome) && u.sessions == s.sessions[id := ResultSession(s.sessions[id], outcome)]
    requires u.cohorts == s.cohorts && (u.groups == s.groups || u.groups == ForgetMember(s.groups, id))
    requires outcome != Halted && outcome != HaltUnknown && s.sessions[id].attempts <= RETRY_BUDGET
    ensures Forest(e, LeaveGroup(e, u, id))
  {
    hide ValidEnv, Core, Queue, Forest, LeaveGroup, ForgetMember, ResultSession, HasEntry, IsMember,
         Safe, RestartSafe, Detached;
    CoreKeys(e, u, {});
    ResultShape(s.sessions[id], outcome);
    GivesUpQuiet(s.sessions[id], outcome);
    SameDetached(s, u, id);
    SafeFrame(e, s, u, id);
    SafeIfSilent(e, u, id);
    DetachCanLeave(e, u, id);
    LeaveGroupForest(e, u, id, {});
  }

  lemma HandleResultForest(e: Env, s: St, zone: ZoneId, id: SessionId, generation: nat, outcome: Outcome)
    requires ValidEnv(e) && Core(e, s, {}) && Queue(e, s) && Forest(e, s) && zone in s.channels
    requires Result(id, generation, outcome) in s.channels[zone].bag
    requires id in s.sessions && GivesUp(s.sessions[id], outcome) ==> Safe(e, s, id)
    ensures Forest(e, HandleResult(e, Take(s, zone, Result(id, generation, outcome)), id, generation, outcome))
  {
    hide ValidEnv, Core, Queue, Forest, LeaveGroup, ForgetMember, ResultSession, HasEntry, IsMember,
         Safe, RestartSafe, Detached;
    var m := Result(id, generation, outcome);
    var s1 := Take(s, zone, m);
    TakeForest(e, s, zone, m);
    TagZone(e, s, zone, m);
    if id in s.sessions && s.sessions[id].generation == generation {
      var x := s.sessions[id];
      if !x.wanted {
        var y := x.(observed := if outcome == Halted then Stopped else Unknown);
        ResultFrame(e, s1, id, y);
      } else if outcome != Halted && outcome != HaltUnknown {
        ActingResultForest(e, s, id, outcome);
      }
    }
  }

  lemma GivesUpQuiet(x: Session, outcome: Outcome)
    requires GivesUp(x, outcome)
    ensures ResultSession(x, outcome).observed != Playing
  {
  }

  /** What a session is observed to do, and its retries, are not part of the groups. */
  lemma ResultFrame(e: Env, s: St, id: SessionId, y: Session)
    requires Forest(e, s) && id in s.sessions
    requires var x := s.sessions[id];
             && y.wanted == x.wanted && y.zone == x.zone
             && y.sender == x.sender && y.generation == x.generation && y.syncDelay == x.syncDelay
    ensures Forest(e, s.(sessions := s.sessions[id := y]))
  {
    hide Forest, HasEntry, IsMember;
    var t := s.(sessions := s.sessions[id := y]);
    forall j | j in s.sessions ensures Stays(s, t, j) {
    }
    ForestFrame(e, s, t);
  }

  lemma HandleRetryForest(e: Env, s: St, zone: ZoneId, id: SessionId, generation: nat)
    requires ValidEnv(e) && Core(e, s, {}) && Queue(e, s) && Forest(e, s) && zone in s.channels
    requires Retry(id, generation) in s.channels[zone].bag
    requires id in s.sessions && s.sessions[id].prepared.None? ==> RestartSafe(e, s, id)
    ensures Forest(e, HandleRetry(e, Take(s, zone, Retry(id, generation)), id, generation))
  {
    hide ValidEnv, Core, Queue, Forest, Restart, RoomOk, Bounded, HasEntry, IsMember, Idle, Safe, RestartSafe, Detached;
    var m := Retry(id, generation);
    TakeForest(e, s, zone, m);
    TagZone(e, s, zone, m);
    if id in s.sessions && s.sessions[id].generation == generation && s.sessions[id].wanted {
      var x := s.sessions[id];
      CoreAt(e, s, id, {});
      TakeRetryRoom(e.wav, id, x, s.channels[zone], Entry(s, id), x.generation in s.plans);
      if x.prepared.Some? {
        IdleUnseen(id, x.(timer := None), s.channels[zone].(bag := s.channels[zone].bag - multiset{m}));
        RetryPlayForest(e, s, id);
      } else {
        var y := x.(timer := None);
        TakeWithCore(e, s, id, m, y, {id});
        var t := TakeWith(s, id, m, y);
        QueueSame(e, s, t);
        ResultFrame(e, Take(s, zone, m), id, y);
        SameDetached(s, t, id);
        SafeFrame(e, s, t, id);
        RestartForest(e, t, id, {id});
      }
    }
  }

  lemma RetryPlayForest(e: Env, s: St, id: SessionId)
    requires Core(e, s, {}) && Forest(e, s) && id in s.sessions && s.sessions[id].zone in s.channels
    requires var x := s.sessions[id]; x.wanted && x.prepared.Some? && s.channels[x.zone].unseen == []
    ensures var g := s.sessions[id].generation;
            Forest(e, HandleRetry(e, Take(s, s.sessions[id].zone, Retry(id, g)), id, g))
  {
    hide Core, Forest, HasEntry, IsMember, SameElsewhere, Restart;
    var x := s.sessions[id];
    var t := HandleRetry(e, Take(s, x.zone, Retry(id, x.generation)), id, x.generation);
    RetryPlayShape(e, s, id);
    SameSessions(s, t, id);
    assert Stays(s, t, id);
    StepForest(e, s, t, id, {});
  }

  // ---- Events of the AirPlay side ----

  /** A new generation that only a Stop announces is not being prepared. */
  lemma HaltingReady(e: Env, s: St, t: St, id: SessionId, exempt: set<SessionId>)
    requires Core(e, s, exempt) && id in s.sessions && Halting(s, t, id)
    ensures id in t.sessions && t.sessions[id].zone == s.sessions[id].zone && !Unready(t, id)
    ensures forall j :: j in s.sessions && j != id ==>
              j in t.sessions && t.sessions[j] == s.sessions[j] && Entry(t, j) == Entry(s, j)
  {
    hide Core, HasEntry, Streams;
    CoreAt(e, s, id, exempt);
    NoFreshEntry(s, id, |t.issued|);
    TokensZero(id, t.sessions[id], s.channels[s.sessions[id].zone], s.issued);
  }

  lemma HaltingForest(e: Env, s: St, t: St, id: SessionId, exempt: set<SessionId>)
    requires Core(e, s, exempt) && Forest(e, s) && id in s.sessions && Halting(s, t, id) && t.groups == s.groups
    requires Ungrouped(s, id) || (t.sessions.Keys == s.sessions.Keys && t.sessions[id].wanted == s.sessions[id].wanted
                                  && t.sessions[id].sender == s.sessions[id].sender
                                  && t.sessions[id].syncDelay == s.sessions[id].syncDelay)
    ensures Forest(e, t)
  {
    hide Core, Forest, HasEntry, IsMember, Unready;
    HaltingReady(e, s, t, id, exempt);
    assert SameElsewhere(s, t, id);
    StepForest(e, s, t, id, exempt);
  }

  lemma EncoderClosedForest(e: Env, s: St, id: SessionId)
    requires Core(e, s, {}) && Forest(e, s)
    ensures Forest(e, HandleEncoderClosed(e, s, id))
  {
    hide Core, Forest, RoomOk, HasEntry, Halting, ChannelOk, Bounded, IsMember;
    if id in s.sessions && s.sessions[id].encoder.Some? {
      var t := HandleEncoderClosed(e, s, id);
      CoreAt(e, s, id, {});
      UnwantedRoom(e.wav, id, s.sessions[id], s.channels[s.sessions[id].zone], Entry(s, id),
                   s.sessions[id].generation in s.plans);
      EncoderClosedShape(e, s, id);
      HaltingForest(e, s, t, id, {});
    }
  }

  lemma FrameForest(e: Env, s: St, id: SessionId, epoch: nat, write: Write)
    requires Core(e, s, {}) && Forest(e, s)
    ensures Forest(e, HandleFrame(e, s, id, epoch, write))
  {
    hide Core, Forest, HandleEncoderClosed;
    if id in s.sessions && s.sessions[id].epoch == epoch && s.sessions[id].encoder.Some? {
      match write
      case Taken => ResultFrame(e, s, id, Feed(s.sessions[id], epoch));
      case Full =>
      case InputClosed => EncoderClosedForest(e, s, id);
    }
  }

  lemma PlayForest(e: Env, s: St, id: SessionId)
    requires ValidEnv(e) && Core(e, s, {}) && Queue(e, s) && Forest(e, s)
    requires id in s.sessions && s.sessions[id].resetNeeded ==> RestartSafe(e, s, id)
    ensures Forest(e, SetPlayback(e, s, id, true))
  {
    hide ValidEnv, Core, Queue, Forest, RoomOk, Restart, HasEntry, ChannelOk, Bounded, IsMember, Safe, RestartSafe,
         Detached;
    if id in s.sessions {
      var x := s.sessions[id];
      var y := x.(wanted := true, attempts := 0);
      var t := WithSession(s, id, y);
      CoreAt(e, s, id, {});
      PlayAgainRoom(e.wav, id, x, s.channels[x.zone], Entry(s, id), x.generation in s.plans);
      QueueSame(e, s, t);
      WantedForest(e, s, id, y);
      if !x.wanted || x.resetNeeded {
        WithSessionCore(e, s, id, y, {}, {id});
        if x.wanted {
          SameDetached(s, t, id);
          SafeFrame(e, s, t, id);
        } else {
          UnwantedUngrouped(e, s, id);
          AloneIsSafe(e, t, id);
        }
        RestartForest(e, t, id, {id});
      }
    }
  }

  lemma UnwantedUngrouped(e: Env, s: St, id: SessionId)
    requires Forest(e, s) && (id in s.sessions ==> !s.sessions[id].wanted)
    ensures Ungrouped(s, id)
  {
    hide Unready;
    assert id in s.groups ==> Participant(e, s, id);
    forall c | c in s.groups ensures id !in s.groups[c] {
      assert id in s.groups[c] ==> MemberOk(e, s, c, id);
    }
  }

  lemma WantedForest(e: Env, s: St, id: SessionId, y: Session)
    requires Forest(e, s) && id in s.sessions
    requires y == s.sessions[id].(wanted := true, attempts := 0)
    ensures Forest(e, WithSession(s, id, y))
  {
    hide Forest, HasEntry, IsMember;
    var t := WithSession(s, id, y);
    if !s.sessions[id].wanted {
      UnwantedUngrouped(e, s, id);
    }
    forall j | j in s.sessions && !Ungrouped(s, j) ensures Stays(s, t, j) {
    }
    ForestFrame(e, s, t);
  }

  /** `id` leaves while it changes or goes. */
  lemma LeavingForest(e: Env, s: St, s1: St, id: SessionId)
    requires Forest(e, s) && s.channels.Keys == e.renderers.Keys && Safe(e, s, id)
    requires s1 == s.(sessions := s1.sessions)
    requires forall j :: j in s1.sessions ==> j in s.sessions
    requires forall j :: j in s.sessions && j != id ==> j in s1.sessions && s1.sessions[j] == s.sessions[j]
    requires id in s1.sessions ==> s1.sessions[id] == PausedSession(s.sessions[id])
    ensures CanLeave(e, s1, id)
  {
    hide Forest, HasEntry, SomeoneWaits, IsMember, Detach, Safe, RestartSafe, Detached;
    SameDetached(s, s1, id);
    SafeFrame(e, s, s1, id);
    LeftForest(e, s, s1, id);
    DetachForest(e, s, id);
    LeftMembers(e, s, s1, id);
    MembersLoose(e, s, id);
    LeftLoose(s, s1, id);
  }

  lemma LeftLoose(s: St, s1: St, id: SessionId)
    requires Loose(Detach(s, id), Detached(s, id)) && s1 == s.(sessions := s1.sessions)
    requires forall j :: j in s1.sessions && j != id ==> j in s.sessions && s1.sessions[j] == s.sessions[j]
    ensures Loose(Detach(s1, id), Detached(s1, id))
  {
    hide HasEntry, IsMember;
  }

  lemma LeftForest(e: Env, s: St, s1: St, id: SessionId)
    requires Forest(e, s) && s1 == s.(sessions := s1.sessions)
    requires forall j :: j in s.sessions && j != id ==> j in s1.sessions && s1.sessions[j] == s.sessions[j]
    ensures Forest(e, Detach(s1, id)) && Ungrouped(Detach(s1, id), id)
  {
    hide Forest, HasEntry;
    var d := Detach(s, id);
    var t := Detach(s1, id);
    DetachForest(e, s, id);
    hide IsMember, Detach;
    forall j | j in d.sessions && !Ungrouped(d, j) ensures Stays(d, t, j) {
      assert j != id;
      SameUnready(d, t, j);
    }
    ForestFrame(e, d, t);
  }

  lemma LeftMembers(e: Env, s: St, s1: St, id: SessionId)
    requires Forest(e, s) && s.channels.Keys == e.renderers.Keys && s1.groups == s.groups && s1.cohorts == s.cohorts
    requires id in s1.sessions ==>
               id in s.sessions && s1.sessions[id].observed != Playing
                   && s1.sessions[id].generation == s.sessions[id].generation
    requires Ungrouped(Detach(s1, id), id)
    ensures id !in Detached(s1, id) && (Detached(s1, id) != [] ==> Out(e, Detach(s1, id), id))
  {
    hide Forest, HasEntry, SomeoneWaits, IsMember;
    if Detached(s1, id) != [] {
      CoordinatorReady(e, s, id);
    }
  }

  lemma SameUnready(s: St, t: St, j: SessionId)
    requires j in s.sessions && j in t.sessions && t.sessions[j] == s.sessions[j]
    requires t.channels == s.channels && t.cohorts == s.cohorts
    ensures Unready(t, j) == Unready(s, j)
  {
  }

  lemma PauseForest(e: Env, s: St, id: SessionId, exempt: set<SessionId>)
    requires ValidEnv(e) && Core(e, s, exempt) && exempt <= {id} && Queue(e, s) && Forest(e, s) && Safe(e, s, id)
    requires id in s.sessions
    requires s.sessions[id].encoder.Some? ==> s.sessions[id].encoder.value.epoch == s.sessions[id].epoch
    ensures Forest(e, SetPlayback(e, s, id, false))
  {
    hide ValidEnv, Core, Queue, Forest, RoomOk, HasEntry, Halting, ChannelOk, Bounded, LeaveGroup, MaybeStart, Send,
         NextGeneration, IsMember, CanLeave, Safe, RestartSafe;
    var x := s.sessions[id];
    var y := PausedSession(x);
    CoreAt(e, s, id, exempt);
    PausedRoom(e.wav, id, x, s.channels[x.zone], Entry(s, id), x.generation in s.plans, id !in exempt);
    WithSessionCore(e, s, id, y, exempt, {id});
    var s1 := WithSession(s, id, y);
    QueueSame(e, s, s1);
    CoreKeys(e, s, exempt);
    LeavingForest(e, s, s1, id);
    LeaveGroupCore(e, s1, id, {id});
    LeaveGroupForest(e, s1, id, {id});
    var s2 := LeaveGroup(e, s1, id);
    assert SameWish(s1.sessions[id], s2.sessions[id]);
    assert s2.sessions[id] == y;
    CoreAt(e, s2, id, {id});
    PauseShape(s2, id);
    var t := NextGeneration(s2, id);
    var u := Send(t, x.zone, Stop(id, |t.issued|));
    GenerationGroups(s2, id);
    HaltingCore(e, s2, u, id, {id});
    assert {id} - {id} == {};
    HaltingForest(e, s2, u, id, {id});
    HaltingQueue(e, s2, u, id);
    QueueDistinct(e, u);
    MaybeStartForest(e, u, false, {});
  }

  lemma GenerationGroups(s: St, id: SessionId)
    requires id in s.sessions
    ensures NextGeneration(s, id).groups == s.groups
  {
  }

  lemma FlushForest(e: Env, s: St, id: SessionId, epoch: nat)
    requires ValidEnv(e) && Core(e, s, {}) && Queue(e, s) && Forest(e, s) && RestartSafe(e, s, id)
    ensures Forest(e, HandleFlush(e, s, id, epoch))
  {
    hide ValidEnv, Core, Queue, Forest, HasEntry, Restart, SetPlayback, Safe, RestartSafe, Detached;
    if id in s.sessions && epoch > s.sessions[id].epoch {
      FlushedCore(e, s, id, epoch);
      var t := WithSession(s, id, FlushedSession(s.sessions[id], epoch));
      FlushedForest(e, s, id, epoch);
      if s.sessions[id].wanted {
        RestartForest(e, t, id, {id});
      } else {
        RestartIsSafe(e, t, id);
        PauseForest(e, t, id, {id});
      }
    }
  }

  lemma FlushedForest(e: Env, s: St, id: SessionId, epoch: nat)
    requires Forest(e, s) && RestartSafe(e, s, id) && id in s.sessions
    ensures var t := WithSession(s, id, FlushedSession(s.sessions[id], epoch)); Forest(e, t) && RestartSafe(e, t, id)
  {
    hide Forest, HasEntry, Safe, RestartSafe, Detached;
    var t := WithSession(s, id, FlushedSession(s.sessions[id], epoch));
    ResultFrame(e, s, id, FlushedSession(s.sessions[id], epoch));
    SameDetached(s, t, id);
    SafeFrame(e, s, t, id);
  }

  lemma StopForest(e: Env, s: St, id: SessionId)
    requires ValidEnv(e) && Core(e, s, {}) && Queue(e, s) && Forest(e, s) && Safe(e, s, id)
    ensures Forest(e, StopSession(e, s, id))
  {
    hide ValidEnv, Core, Queue, Forest, RoomOk, HasEntry, LeaveGroup, MaybeStart, Bounded, ChannelOk, CanLeave,
         IsMember, Safe, RestartSafe;
    if id in s.sessions {
      var x := s.sessions[id];
      CoreAt(e, s, id, {});
      ZoneLeft(e, s, id);
      SettledGeneration(e, s, id);
      var s1 := s.(sessions := s.sessions - {id});
      RemoveCore(e, s, id);
      QueueSame(e, s, s1);
      CoreKeys(e, s, {});
      LeavingForest(e, s, s1, id);
      LeaveGroupCore(e, s1, id, {});
      LeaveGroupForest(e, s1, id, {});
      var s2 := LeaveGroup(e, s1, id);
      forall j | j in s2.sessions ensures s2.sessions[j].zone != x.zone {
        assert SameWish(s1.sessions[j], s2.sessions[j]);
      }
      IssuedPrefix(s1.issued, s2.issued, x.zone, id, x.generation);
      StopEmptyZoneCore(e, s2, x.zone, id, x.generation);
      var s3 := Send(s2, x.zone, Stop(id, x.generation));
      EmptyZoneForest(e, s2, x.zone, Stop(id, x.generation));
      QueueSame(e, s2, s3);
      QueueDistinct(e, s3);
      MaybeStartForest(e, s3, false, {});
    }
  }

  lemma EmptyZoneForest(e: Env, s: St, zone: ZoneId, c: Command)
    requires Forest(e, s) && !c.Join? && forall j :: j in s.sessions ==> s.sessions[j].zone != zone
    ensures Forest(e, Send(s, zone, c))
  {
    hide Forest, HasEntry, IsMember;
    var t := Send(s, zone, c);
    forall j | j in s.sessions ensures Stays(s, t, j) {
    }
    ForestFrame(e, s, t);
  }

  lemma {:induction false} StopEachForest(e: Env, s: St, ids: set<SessionId>)
    requires ValidEnv(e) && Core(e, s, {}) && Queue(e, s) && Forest(e, s)
    requires forall id :: id in ids ==> Safe(e, s, id)
    requires forall i, j :: i in ids && j in ids ==> i == j
    ensures Forest(e, StopEach(e, s, ids))
    decreases ids
  {
    hide ValidEnv, Core, Queue, Forest, StopSession, Safe, RestartSafe, Detached;
    var id := e.choose(s.ticks, ids);
    if id in ids {
      CoreSame(e, s, Ticked(s), {});
      QueueLater(e, s, Ticked(s));
      TickForest(e, s);
      SameDetached(s, Ticked(s), id);
      SafeFrame(e, s, Ticked(s), id);
      StopCore(e, Ticked(s), id);
      StopForest(e, Ticked(s), id);
      StopEachForest(e, StopSession(e, Ticked(s), id), ids - {id});
    }
  }

  lemma StartForest(e: Env, s: St, id: SessionId, zone: ZoneId, sender: Option<Sender>)
    requires ValidEnv(e) && Core(e, s, {}) && Queue(e, s) && Forest(e, s) && id !in s.sessions
    requires forall j :: j in SessionsIn(s, zone) ==> Safe(e, s, j)
    ensures Forest(e, StartSession(e, s, id, zone, sender))
  {
    hide ValidEnv, Core, Queue, Forest, StopEach, Restart, Safe, RestartSafe;
    var s1 := StopEach(e, s, SessionsIn(s, zone));
    StopEachCore(e, s, SessionsIn(s, zone));
    OneZoneEach(e, s, {});
    StopEachForest(e, s, SessionsIn(s, zone));
    if zone in e.renderers {
      InsertCore(e, s1, id, zone, sender);
      var s2 := s1.(sessions := s1.sessions[id := NewSession(zone, sender)]);
      QueueSame(e, s1, s2);
      InsertForest(e, s1, id, NewSession(zone, sender));
      UnwantedUngrouped(e, s1, id);
      AloneIsSafe(e, s2, id);
      RestartForest(e, s2, id, {id});
    }
  }

  lemma InsertForest(e: Env, s: St, id: SessionId, x: Session)
    requires Forest(e, s) && id !in s.sessions
    ensures Forest(e, s.(sessions := s.sessions[id := x]))
  {
    hide Forest, HasEntry, IsMember;
    var t := s.(sessions := s.sessions[id := x]);
    forall j | j in s.sessions ensures Stays(s, t, j) {
      SameUnready(s, t, j);
    }
    ForestFrame(e, s, t);
  }

  // ---- Timers and workers ----

  lemma FireForest(e: Env, s: St, id: SessionId)
    requires Forest(e, s) && id in s.sessions && s.sessions[id].zone in s.channels && s.sessions[id].timer.Some?
    ensures Forest(e, FireRetry(s, id))
  {
    hide Forest, HasEntry, IsMember;
    var t := FireRetry(s, id);
    forall j | j in s.sessions ensures Stays(s, t, j) {
    }
    ForestFrame(e, s, t);
  }

  lemma WakeForest(e: Env, s: St, due: nat)
    requires ValidEnv(e) && Core(e, s, {}) && Queue(e, s) && Forest(e, s)
    ensures Forest(e, HandleWake(e, s, due))
  {
    hide ValidEnv, Core, Queue, Forest, MaybeStart;
    QueueDistinct(e, s);
    MaybeStartForest(e, s, false, {});
    var t := MaybeStart(e, s, false);
    SteadySame(t, HandleWake(e, s, due));
    ForestFrame(e, t, HandleWake(e, s, due));
  }

  lemma LookUnreleased(id: SessionId, x: Session, ch: Channel, entry: bool, k: nat)
    requires SingleToken(id, x, ch, entry) && ch.running.None? && k < |ch.unseen|
    ensures Unreleased(id, x, Look(ch, k), entry) ==> Unreleased(id, x, ch, entry)
  {
    hide Tokens, MessageTokens;
    assert k == |ch.unseen| - 1 || !Drives(ch.unseen[k], id, x.generation);
  }

  lemma PrepareUnreleased(id: SessionId, x: Session, ch: Channel, entry: bool, leave: Leave, alone: bool,
        end: PrepareEnd)
    requires CanFinishPrepare(ch, leave, alone, end)
    ensures Unreleased(id, x, FinishPrepare(ch, x.zone, leave, alone, end), entry) ==> Unreleased(id, x, ch, entry)
  {
  }

  lemma ReportUnreleased(id: SessionId, x: Session, ch: Channel, entry: bool, outcome: Outcome)
    requires ch.running.Some?
    ensures Unreleased(id, x, Report(ch, outcome), entry) ==> Unreleased(id, x, ch, entry)
  {
  }

  lemma MoveUnreleased(wav: bool, id: SessionId, x: Session, ch: Channel, entry: bool, planned: bool, move: Move)
    requires RoomOk(wav, id, x, ch, entry, planned, true) && CanMove(ch, move)
    ensures Unreleased(id, x, Moved(ch, x.zone, move), entry) ==> Unreleased(id, x, ch, entry)
  {
    hide Settled, StreamOk, SingleToken, Tokens, MessageTokens;
    match move
    case Looks(k) => LookUnreleased(id, x, ch, entry, k);
    case PrepareEnds(leave, alone, end) => PrepareUnreleased(id, x, ch, entry, leave, alone, end);
    case PlayEnds(_, outcome) => ReportUnreleased(id, x, ch, entry, outcome);
    case JoinEnds(outcome, _) => ReportUnreleased(id, x, ch, entry, outcome);
    case StopEnds(_, outcome) => ReportUnreleased(id, x, ch, entry, outcome);
    case GroupAbandoned =>
  }

  lemma MoveJoins(ch: Channel, zone: ZoneId, move: Move)
    requires CanMove(ch, move)
    ensures JoinsKept(ch, Moved(ch, zone, move))
  {
  }

  lemma MoveForest(e: Env, s: St, zone: ZoneId, move: Move)
    requires Core(e, s, {}) && Forest(e, s) && zone in s.channels && CanMove(s.channels[zone], move)
    ensures Forest(e, WithChannel(s, zone, Moved(s.channels[zone], zone, move)))
  {
    hide Core, Forest, HasEntry, IsMember, RoomOk, CanMove, Moved, Unreleased;
    var t := WithChannel(s, zone, Moved(s.channels[zone], zone, move));
    MoveJoins(s.channels[zone], zone, move);
    forall j | j in s.sessions ensures Stays(s, t, j) {
      if s.sessions[j].zone == zone {
        CoreAt(e, s, j, {});
        MoveUnreleased(e.wav, j, s.sessions[j], s.channels[zone], Entry(s, j), s.sessions[j].generation in s.plans,
            move);
      }
    }
    ForestFrame(e, s, t);
  }

  lemma GroupPlayForest(e: Env, s: St, zone: ZoneId, outcome: Outcome)
    requires Forest(e, s) && zone in s.channels && CanFinishGroup(s.channels[zone], outcome)
    ensures Forest(e, FinishGroup(e, s, zone, outcome))
  {
    hide Forest, HasEntry, IsMember;
    var t := FinishGroup(e, s, zone, outcome);
    forall j | j in s.sessions ensures Stays(s, t, j) {
    }
    ForestFrame(e, s, t);
  }

  // ---- Runs ----

  /** The sessions that a step may take out of the group that they coordinate. */
  function Leaving(s: St, step: Step): set<SessionId> {
    match step
    case SessionStarts(_, zone, _) => SessionsIn(s, zone)
    case SessionStops(id) => {id}
    case PlaybackChanges(id, playing) =>
      if playing && id in s.sessions && !s.sessions[id].resetNeeded then {} else {id}
    case Flushed(id, _) => {id}
    case ResultArrives(_, id, _, outcome) =>
      if id in s.sessions && GivesUp(s.sessions[id], outcome) then {id} else {}
    case RetryArrives(_, id, _) => if id in s.sessions && s.sessions[id].prepared.None? then {id} else {}
    case _ => {}
  }

  /** The step restarts the session itself. */
  predicate Restarts(step: Step) {
    step.Flushed? || step.RetryArrives? || (step.PlaybackChanges? && step.playing)
  }

  /** The step breaks up no group while a stream of the group's sender waits for its release, unless
      only the first member plays, or restarts clear first what they observed. */
  ghost predicate Calm(e: Env, s: St, step: Step) {
    forall id :: id in Leaving(s, step) ==> if Restarts(step) then RestartSafe(e, s, id) else Safe(e, s, id)
  }

  ghost predicate CalmRun(e: Env, s: St, steps: seq<Step>)
    requires Possible(e, s, steps)
    decreases |steps|
  {
    steps == [] || (Calm(e, s, steps[0]) && CalmRun(e, Next(e, s, steps[0]), steps[1..]))
  }

  /** In the order that clears first every run is calm. */
  lemma {:induction false} ClearFirstIsCalm(e: Env, s: St, steps: seq<Step>)
    requires Possible(e, s, steps) && e.clearFirst
    ensures CalmRun(e, s, steps)
    decreases |steps|
  {
    hide Next, Enabled, Leaving;
    if steps != [] {
      ClearFirstIsCalm(e, Next(e, s, steps[0]), steps[1..]);
    }
  }

  lemma StepKeepsForest(e: Env, s: St, step: Step)
    requires ValidEnv(e) && Sound(e, s) && Forest(e, s) && Enabled(e, s, step) && Calm(e, s, step)
    ensures Forest(e, Next(e, s, step))
  {
    hide Core, Queue, ValidEnv, SharedCutoffs, Forest, Safe, RestartSafe;
    hide StartSession, StopSession, SetPlayback, HandleFlush, HandleFrame, HandlePrepared, HandleResult,
         HandleRetry, HandleWake, FinishGroup;
    match step
    case SessionStarts(id, zone, sender) => StartForest(e, s, id, zone, sender);
    case SessionStops(id) => StopForest(e, s, id);
    case PlaybackChanges(id, playing) => PlaybackForest(e, s, id, playing);
    case Flushed(id, epoch) => FlushForest(e, s, id, epoch);
    case FrameArrives(id, epoch, write) => FrameForest(e, s, id, epoch, write);
    case PreparedArrives(zone, id, g) => HandlePreparedForest(e, s, zone, id, g);
    case ResultArrives(zone, id, g, outcome) => HandleResultForest(e, s, zone, id, g, outcome);
    case RetryArrives(zone, id, g) => HandleRetryForest(e, s, zone, id, g);
    case RetryTimerFires(id) => FireForest(e, s, id);
    case WakeFires(due) => WakeForest(e, s, due);
    case WorkerMoves(zone, move) => MoveForest(e, s, zone, move);
    case GroupPlayEnds(zone, outcome) => GroupPlayForest(e, s, zone, outcome);
  }

  lemma PlaybackForest(e: Env, s: St, id: SessionId, playing: bool)
    requires ValidEnv(e) && Core(e, s, {}) && Queue(e, s) && Forest(e, s)
    requires !playing ==> Safe(e, s, id)
    requires playing && (id in s.sessions ==> s.sessions[id].resetNeeded) ==> RestartSafe(e, s, id)
    ensures Forest(e, SetPlayback(e, s, id, playing))
  {
    hide Core, Queue, ValidEnv, SetPlayback, Forest, Safe, RestartSafe;
    if playing {
      PlayForest(e, s, id);
    } else if id in s.sessions {
      SettledEncoder(e, s, id);
      PauseForest(e, s, id, {});
    } else {
      NoPlayback(e, s, id);
    }
  }

  lemma InitForest(e: Env)
    ensures Forest(e, Init(e))
  {
  }

  /** In every state that a calm run reaches the native groups are a forest of depth one. */
  lemma {:induction false} RunForest(e: Env, s: St, steps: seq<Step>)
    requires ValidEnv(e) && Sound(e, s) && Forest(e, s) && Possible(e, s, steps) && CalmRun(e, s, steps)
    ensures Forest(e, Run(e, s, steps))
    decreases |steps|
  {
    hide Sound, Next, Enabled, Forest, Calm;
    if steps != [] {
      StepSound(e, s, steps[0]);
      StepKeepsForest(e, s, steps[0]);
      RunForest(e, Next(e, s, steps[0]), steps[1..]);
    }
  }
}
