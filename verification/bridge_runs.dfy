/** Every step of the bridge: what it appends to the command channels, and how it changes
    generations, epochs and encoders. */
module BridgeRuns {
  import opened BridgeState
  import opened BridgeHandlers
  import opened BridgeRooms
  import opened BridgeCore
  import opened BridgeForest
  import opened BridgeOut
  import opened BridgeRegroup
  import opened BridgeHistory
  import opened BridgeSteps
  import opened BridgeWorker
  import opened BridgeSystem

  /** The start is for the current stream of a session that wants playback, and its room loaded
      that stream, has nothing else to do, and is in no group unless it plays by itself again. */
  predicate FreshStart(s: St, zone: ZoneId, c: Command) {
    && c.id in s.sessions && s.sessions[c.id].generation == c.generation && s.sessions[c.id].wanted
    && s.sessions[c.id].zone == zone && zone in s.channels
    && var ch := s.channels[zone];
       && ch.unseen == [] && ch.running.None? && ch.loaded == Some(Stream(c.id, zone, c.generation))
       && (c.Play? || !ch.member)
  }

  /** What may be sent to a room: a start of a stream that was not released, a Play that is fresh, a
      Prepare in a new generation, or a Stop. */
  predicate Sendable(s: St, zone: ZoneId, c: Command) {
    && (IsStart(c) ==> FreshStart(s, zone, c) && (c.Play? || Unready(s, c.id)))
    && (c.Prepare? ==> c.generation > |s.issued|)
  }

  ghost predicate SentIn(s: St, zone: ZoneId, a: Channel, b: Channel) {
    && a.unseen <= b.unseen && b.running == a.running
    && (forall id, g :: Prepared(id, g) in b.bag ==> Prepared(id, g) in a.bag)
    && forall c :: c in b.unseen[|a.unseen|..] ==> Sendable(s, zone, c)
  }

  /** Rooms only get more commands, and every start among them is fresh. */
  ghost predicate Sends(s: St, t: St) {
    && t.channels.Keys == s.channels.Keys
    && forall z :: z in s.channels ==> SentIn(s, z, s.channels[z], t.channels[z])
  }

  /** An encoder stays, goes, is new, or gets a frame of the session's epoch. */
  predicate EncoderTurns(from: nat, to: nat, epoch: nat, a: Option<Encoder>, b: Option<Encoder>) {
    || b == a || b.None? || NewEncoder(from, to, b.value)
    || (a.Some? && b.value == a.value.(fed := a.value.fed + [epoch]))
  }

  predicate Turns(s: St, t: St, j: SessionId)
    requires j in t.sessions
  {
    if j in s.sessions then
      var x, y := s.sessions[j], t.sessions[j];
      && (y.generation == x.generation || y.generation > |s.issued|) && x.epoch <= y.epoch
      && EncoderTurns(|s.issued|, |t.issued|, x.epoch, x.encoder, y.encoder)
    else Begins(|s.issued|, |t.issued|, t.sessions[j])
  }

  ghost predicate AllTurn(s: St, t: St) {
    |s.issued| <= |t.issued| && forall j :: j in t.sessions ==> Turns(s, t, j)
  }

  /** Only a stream that was not released, or whose delay is held, gets a plan, with its Play. */
  ghost predicate PlanTold(s: St, t: St, g: nat) {
    exists z, id :: SentNew(s, t, z, Play(id, g)) && id in s.sessions && s.sessions[id].generation == g
                    && (Unready(s, id) || s.sessions[id].held.Some?)
  }

  /** What waits was not released before. */
  predicate WaitTold(s: St, t: St, j: SessionId)
    requires j in t.sessions
  {
    t.sessions[j].wanted && Entry(t, j) ==>
      j in s.sessions && s.sessions[j].generation == t.sessions[j].generation && Unready(s, j)
  }

  /** Plans, held delays and waiting streams come about in no other way. */
  ghost predicate Tells(s: St, t: St) {
    && (forall g :: g in t.plans && !SamePlan(s, t, g) ==> PlanTold(s, t, g))
    && (forall j :: j in t.sessions && t.sessions[j].held.Some? && !StillHeld(s, t, j) ==>
          JoinSent(s, t, t.sessions[j].generation))
    && (forall j :: j in t.sessions ==> WaitTold(s, t, j))
  }

  lemma GrowsTurn(s: St, t: St)
    requires Grows(s, t)
    ensures AllTurn(s, t)
  {
    hide HasEntry;
    forall j | j in t.sessions ensures Turns(s, t, j) {
      assert Ages(s, t, j);
    }
  }

  /** A stream that waits has an idle room. */
  lemma DueFresh(e: Env, s: St, zone: ZoneId, c: Command)
    requires Core(e, s, {}) && Due(s, zone, c)
    ensures FreshStart(s, zone, c)
  {
    hide Core, ChannelOk, Bounded, HasEntry, Streams;
    CoreAt(e, s, c.id, {});
  }

  lemma DueUnready(e: Env, s: St, zone: ZoneId, c: Command)
    requires Core(e, s, {}) && Due(s, zone, c)
    ensures c.id in s.sessions && s.sessions[c.id].generation == c.generation && Unready(s, c.id)
  {
    hide Core, HasEntry;
    EntryUnready(e, s, c.id, {});
  }

  lemma AppendsSends(e: Env, s: St, t: St)
    requires Core(e, s, {}) && Appends(s, t)
    ensures Sends(s, t)
  {
    hide Core, Due, FreshStart, Unready, Commits;
    forall z | z in s.channels ensures SentIn(s, z, s.channels[z], t.channels[z]) {
      assert Appended(s, z, s.channels[z], t.channels[z]);
      forall c | c in t.channels[z].unseen[|s.channels[z].unseen|..] ensures Sendable(s, z, c) {
        if IsStart(c) {
          DueFresh(e, s, z, c);
          DueUnready(e, s, z, c);
        }
      }
    }
  }

  lemma EvolvesTells(e: Env, s: St, t: St)
    requires Core(e, s, {}) && Evolves(s, t)
    ensures Tells(s, t)
  {
    hide Core, Due, Unready, HasEntry, JoinSent;
    forall g | g in t.plans && !SamePlan(s, t, g) ensures PlanTold(s, t, g) {
      var z, id :| SentNew(s, t, z, Play(id, g));
      assert Appended(s, z, s.channels[z], t.channels[z]);
      DueUnready(e, s, z, Play(id, g));
    }
    forall j | j in t.sessions ensures WaitTold(s, t, j) {
      assert StillWaits(s, t, j);
      if t.sessions[j].wanted && Entry(t, j) {
        EntryUnready(e, s, j, {});
      }
    }
  }

  /** Nothing is planned, held or awaited anew. */
  lemma StayTells(e: Env, s: St, t: St)
    requires Core(e, s, {}) && Uncommitted(s, t) && t.cohorts == s.cohorts
    requires forall j :: j in t.sessions ==> j in s.sessions && t.sessions[j].generation == s.sessions[j].generation
    ensures Tells(s, t)
  {
    hide Core, Unready, HasEntry, JoinSent;
    forall j | j in t.sessions ensures WaitTold(s, t, j) {
      if Entry(t, j) {
        EntryUnready(e, s, j, {});
      }
    }
  }

  lemma EvolvesDone(e: Env, s: St, t: St)
    requires Core(e, s, {}) && Evolves(s, t)
    ensures Sends(s, t) && AllTurn(s, t) && Tells(s, t)
  {
    hide Core, Appends, Grows, Sends, AllTurn, Tells;
    AppendsSends(e, s, t);
    GrowsTurn(s, t);
    EvolvesTells(e, s, t);
  }

  // ---- Sessions come and go ----

  /** Sessions go, or change in what is neither waiting nor an encoder. */
  lemma FewerGrow(s: St, t: St)
    requires t.issued == s.issued && t.cohorts == s.cohorts && t.sessions.Keys <= s.sessions.Keys
    requires forall j :: j in t.sessions ==>
               var x, y := s.sessions[j], t.sessions[j];
               y.generation == x.generation && y.zone == x.zone && x.epoch <= y.epoch
               && (y.encoder == x.encoder || y.encoder.None?) && (y.wanted && Entry(s, j) ==> x.wanted)
    ensures Grows(s, t)
  {
    hide HasEntry;
  }

  lemma StopEvolves(e: Env, s: St, id: SessionId)
    requires ValidEnv(e) && Core(e, s, {}) && Queue(e, s)
    ensures Evolves(s, StopSession(e, s, id))
  {
    hide Core, Queue, ValidEnv, RoomOk, HasEntry, LeaveGroup, MaybeStart, Bounded, ChannelOk, Appends, Grows, Send;
    if id in s.sessions {
      var x := s.sessions[id];
      CoreAt(e, s, id, {});
      ZoneLeft(e, s, id);
      SettledGeneration(e, s, id);
      var s1 := s.(sessions := s.sessions - {id});
      FewerGrow(s, s1);
      SameAppends(s, s1);
      RemoveCore(e, s, id);
      QueueSame(e, s, s1);
      LeaveGroupCore(e, s1, id, {});
      LeaveGroupEvolves(e, s1, id, {});
      var s2 := LeaveGroup(e, s1, id);
      EvolvesBy(s, s1, s2);
      forall j | j in s2.sessions ensures s2.sessions[j].zone != x.zone {
        assert SameWish(s1.sessions[j], s2.sessions[j]);
      }
      IssuedPrefix(s1.issued, s2.issued, x.zone, id, x.generation);
      StopEmptyZoneCore(e, s2, x.zone, id, x.generation);
      var s3 := Send(s2, x.zone, Stop(id, x.generation));
      SendEvolves(s2, x.zone, Stop(id, x.generation));
      EvolvesBy(s, s2, s3);
      QueueSame(e, s2, s3);
      QueueDistinct(e, s3);
      MaybeStartEvolves(e, s3, false, {});
      MaybeStartKeeps(e, s3, false);
      EvolvesBy(s, s3, MaybeStart(e, s3, false));
    } else {
      FewerGrow(s, s);
      SameAppends(s, s);
    }
  }

  lemma {:induction false} StopEachEvolves(e: Env, s: St, ids: set<SessionId>)
    requires ValidEnv(e) && Core(e, s, {}) && Queue(e, s)
    ensures Evolves(s, StopEach(e, s, ids)) && StopEach(e, s, ids).sessions.Keys <= s.sessions.Keys
    decreases ids
  {
    hide ValidEnv, Core, Queue, StopSession, Appends, Grows;
    var id := e.choose(s.ticks, ids);
    FewerGrow(s, Ticked(s));
    SameAppends(s, Ticked(s));
    if id in ids {
      CoreSame(e, s, Ticked(s), {});
      QueueLater(e, s, Ticked(s));
      StopCore(e, Ticked(s), id);
      StopEvolves(e, Ticked(s), id);
      var t := StopSession(e, Ticked(s), id);
      EvolvesBy(s, Ticked(s), t);
      StopEachEvolves(e, t, ids - {id});
      EvolvesBy(s, t, StopEach(e, t, ids - {id}));
    } else {
      FewerGrow(s, s);
      SameAppends(s, s);
    }
  }

  lemma InsertEvolves(e: Env, s: St, t: St, id: SessionId, x: Session)
    requires Core(e, t, {}) && Evolves(s, t) && id !in s.sessions
    requires x.generation == 0 && x.encoder.None? && x.held.None?
    ensures Evolves(s, t.(sessions := t.sessions[id := x]))
  {
    hide Core, HasEntry, Appended, Commits;
    var u := t.(sessions := t.sessions[id := x]);
    NoEntryYet(e, t, id);
    CommitsFrame(s, t, u);
    forall j | j in u.sessions ensures Ages(s, u, j) && StillWaits(s, u, j) {
      if j != id {
        assert Ages(s, t, j) && StillWaits(s, t, j);
      }
    }
  }

  lemma NoEntryYet(e: Env, s: St, id: SessionId)
    requires Core(e, s, {})
    ensures !HasEntry(s.cohorts, id, 0)
  {
    hide Rooms, Channels, Sessions;
    NoFreshEntry(s, id, 0);
  }

  lemma StartEvolves(e: Env, s: St, id: SessionId, zone: ZoneId, sender: Option<Sender>)
    requires ValidEnv(e) && Core(e, s, {}) && Queue(e, s) && id !in s.sessions
    ensures Evolves(s, StartSession(e, s, id, zone, sender))
  {
    hide ValidEnv, Core, Queue, StopEach, Restart, Evolves;
    var s1 := StopEach(e, s, SessionsIn(s, zone));
    StopEachCore(e, s, SessionsIn(s, zone));
    StopEachEvolves(e, s, SessionsIn(s, zone));
    if zone in e.renderers {
      InsertCore(e, s1, id, zone, sender);
      var s2 := s1.(sessions := s1.sessions[id := NewSession(zone, sender)]);
      QueueSame(e, s1, s2);
      InsertEvolves(e, s, s1, id, NewSession(zone, sender));
      RestartEvolves(e, s2, id, {id});
      EvolvesBy(s, s2, Restart(e, s2, id));
    }
  }

  // ---- Playback ----

  lemma UnwantedNoEntry(e: Env, s: St, id: SessionId)
    requires Core(e, s, {}) && id in s.sessions && !s.sessions[id].wanted
    ensures !Entry(s, id)
  {
    CoreAt(e, s, id, {});
  }

  lemma PlayEvolves(e: Env, s: St, id: SessionId)
    requires ValidEnv(e) && Core(e, s, {}) && Queue(e, s)
    ensures Evolves(s, SetPlayback(e, s, id, true))
  {
    hide ValidEnv, Core, Queue, RoomOk, Restart, HasEntry, ChannelOk, Bounded, Appends, Grows;
    if id in s.sessions {
      var x := s.sessions[id];
      var y := x.(wanted := true, attempts := 0);
      var t := WithSession(s, id, y);
      CoreAt(e, s, id, {});
      PlayAgainRoom(e.wav, id, x, s.channels[x.zone], Entry(s, id), x.generation in s.plans);
      QueueSame(e, s, t);
      if !x.wanted {
        UnwantedNoEntry(e, s, id);
      }
      FewerGrow(s, t);
      SameAppends(s, t);
      if !x.wanted || x.resetNeeded {
        WithSessionCore(e, s, id, y, {}, {id});
        RestartEvolves(e, t, id, {id});
        EvolvesBy(s, t, Restart(e, t, id));
      }
    } else {
      FewerGrow(s, s);
      SameAppends(s, s);
    }
  }

  lemma GenerationGrows(s: St, id: SessionId)
    requires id in s.sessions && !s.sessions[id].wanted && s.sessions[id].held.None?
    ensures Evolves(s, NextGeneration(s, id))
  {
    hide HasEntry;
  }

  lemma PauseEvolves(e: Env, s: St, id: SessionId, exempt: set<SessionId>)
    requires ValidEnv(e) && Core(e, s, exempt) && exempt <= {id} && Queue(e, s)
    requires id in s.sessions
             && (s.sessions[id].encoder.Some? ==> s.sessions[id].encoder.value.epoch == s.sessions[id].epoch)
    ensures Evolves(s, SetPlayback(e, s, id, false))
  {
    hide ValidEnv, Core, Queue, RoomOk, HasEntry, Halting, ChannelOk, Bounded, LeaveGroup, MaybeStart, Send,
         NextGeneration, Appends, Grows;
    var x := s.sessions[id];
    var y := PausedSession(x);
    CoreAt(e, s, id, exempt);
    PausedRoom(e.wav, id, x, s.channels[x.zone], Entry(s, id), x.generation in s.plans, id !in exempt);
    WithSessionCore(e, s, id, y, exempt, {id});
    var s1 := WithSession(s, id, y);
    QueueSame(e, s, s1);
    FewerGrow(s, s1);
    SameAppends(s, s1);
    LeaveGroupCore(e, s1, id, {id});
    LeaveGroupEvolves(e, s1, id, {id});
    var s2 := LeaveGroup(e, s1, id);
    EvolvesBy(s, s1, s2);
    assert SameWish(s1.sessions[id], s2.sessions[id]);
    assert s2.sessions[id] == y;
    HaltEvolves(e, s2, id);
    EvolvesBy(s, s2, AfterPause(e, s2, id));
  }

  /** What a pause does once its session has left its group. */
  function AfterPause(e: Env, s: St, id: SessionId): St
    requires id in s.sessions
  {
    var t := NextGeneration(s, id);
    MaybeStart(e, Send(t, s.sessions[id].zone, Stop(id, |t.issued|)), false)
  }

  lemma HaltEvolves(e: Env, s: St, id: SessionId)
    requires ValidEnv(e) && Core(e, s, {id}) && Queue(e, s) && id in s.sessions
    requires var x := s.sessions[id];
             && !x.wanted && x.observed == Unknown && x.prepared.None? && x.held.None? && x.timer.None?
             && (x.encoder.Some? ==> x.encoder.value.epoch == x.epoch)
    ensures Evolves(s, AfterPause(e, s, id)) && AfterPause(e, s, id).sessions.Keys == s.sessions.Keys
  {
    hide ValidEnv, Core, Queue, RoomOk, HasEntry, Halting, ChannelOk, Bounded, MaybeStart, Send, NextGeneration,
         Appends, Grows;
    var zone := s.sessions[id].zone;
    CoreAt(e, s, id, {id});
    PauseShape(s, id);
    var t := NextGeneration(s, id);
    var u := Send(t, zone, Stop(id, |t.issued|));
    GenerationGrows(s, id);
    GenerationKeys(s, id);
    SendEvolves(t, zone, Stop(id, |t.issued|));
    EvolvesBy(s, t, u);
    HaltingCore(e, s, u, id, {id});
    assert {id} - {id} == {};
    HaltingQueue(e, s, u, id);
    QueueDistinct(e, u);
    MaybeStartEvolves(e, u, false, {});
    MaybeStartKeeps(e, u, false);
    EvolvesBy(s, u, MaybeStart(e, u, false));
  }

  lemma GenerationKeys(s: St, id: SessionId)
    requires id in s.sessions
    ensures NextGeneration(s, id).sessions.Keys == s.sessions.Keys
  {
  }

  lemma FlushEvolves(e: Env, s: St, id: SessionId, epoch: nat)
    requires ValidEnv(e) && Core(e, s, {}) && Queue(e, s)
    ensures Evolves(s, HandleFlush(e, s, id, epoch))
  {
    hide ValidEnv, Core, Queue, Restart, SetPlayback, Appends, Grows, HasEntry;
    FewerGrow(s, s);
    SameAppends(s, s);
    if id in s.sessions && epoch > s.sessions[id].epoch {
      FlushedCore(e, s, id, epoch);
      var t := WithSession(s, id, FlushedSession(s.sessions[id], epoch));
      FewerGrow(s, t);
      SameAppends(s, t);
      if s.sessions[id].wanted {
        RestartEvolves(e, t, id, {id});
        EvolvesBy(s, t, Restart(e, t, id));
      } else {
        PauseEvolves(e, t, id, {id});
        PlaybackKeys(e, t, id);
        EvolvesBy(s, t, SetPlayback(e, t, id, false));
      }
    }
  }

  lemma PlaybackKeys(e: Env, s: St, id: SessionId)
    ensures SetPlayback(e, s, id, false).sessions.Keys == s.sessions.Keys
  {
    hide LeaveGroup, MaybeStart, Send;
    if id in s.sessions {
      var s1 := s.(sessions := s.sessions[id := PausedSession(s.sessions[id])]);
      var s2 := NextGeneration(LeaveGroup(e, s1, id), id);
      MaybeStartKeeps(e, Send(s2, s.sessions[id].zone, Stop(id, |s2.issued|)), false);
    }
  }

  lemma ClosedEvolves(e: Env, s: St, id: SessionId)
    requires Core(e, s, {})
    ensures Evolves(s, HandleEncoderClosed(e, s, id))
  {
    hide Core, HandleEncoderClosed, HasEntry, Appends, Grows;
    var t := HandleEncoderClosed(e, s, id);
    if id in s.sessions && s.sessions[id].encoder.Some? {
      var x := s.sessions[id];
      CoreAt(e, s, id, {});
      EncoderClosedState(e, s, id);
      CloseAppends(s, t, id, x.zone, |s.issued| + 1);
      CloseGrows(e, s, t, id);
    } else {
      ClosedNothing(e, s, id);
      SameAppends(s, t);
      FewerGrow(s, t);
    }
  }

  lemma CloseAppends(s: St, t: St, id: SessionId, zone: ZoneId, g: nat)
    requires zone in s.channels
    requires t.channels == s.channels[zone := s.channels[zone].(unseen := s.channels[zone].unseen + [Stop(id, g)])]
    requires Uncommitted(s, t)
    ensures Appends(s, t)
  {
    var a := s.channels[zone].unseen;
    assert (a + [Stop(id, g)])[|a|..] == [Stop(id, g)];
    OneAppends(s, t, zone);
  }

  lemma CloseGrows(e: Env, s: St, t: St, id: SessionId)
    requires Core(e, s, {}) && id in s.sessions && t.cohorts == s.cohorts
    requires t.sessions == s.sessions[id := ClosedSession(s.sessions[id], |s.issued| + 1)]
             && |t.issued| == |s.issued| + 1
    ensures Grows(s, t)
  {
    hide Core, HasEntry, ClosedSession;
    CoreAt(e, s, id, {});
    NoFreshEntry(s, id, |s.issued| + 1);
    ClosedEncoder(s.sessions[id], |s.issued| + 1);
  }

  lemma ClosedEncoder(x: Session, g: nat)
    ensures var y := ClosedSession(x, g); y.generation == g && y.encoder.None? && y.epoch == x.epoch && y.zone == x.zone
  {
  }

  lemma ClosedNothing(e: Env, s: St, id: SessionId)
    requires id !in s.sessions || s.sessions[id].encoder.None?
    ensures HandleEncoderClosed(e, s, id) == s
  {
  }

  lemma FrameTurns(e: Env, s: St, id: SessionId, epoch: nat, write: Write)
    requires Core(e, s, {})
    ensures var t := HandleFrame(e, s, id, epoch, write); Sends(s, t) && AllTurn(s, t) && Tells(s, t)
  {
    hide Core, HandleEncoderClosed, Appends, Grows, HasEntry, Sends, AllTurn, Tells;
    if id in s.sessions && s.sessions[id].epoch == epoch && s.sessions[id].encoder.Some? {
      match write
      case Taken => FeedTurns(e, s, id, epoch);
      case Full => StayTurns(e, s);
      case InputClosed =>
        ClosedEvolves(e, s, id);
        EvolvesDone(e, s, HandleEncoderClosed(e, s, id));
    } else {
      StayTurns(e, s);
    }
  }

  lemma FeedTurns(e: Env, s: St, id: SessionId, epoch: nat)
    requires Core(e, s, {}) && id in s.sessions && s.sessions[id].epoch == epoch && s.sessions[id].encoder.Some?
    ensures var t := s.(sessions := s.sessions[id := Feed(s.sessions[id], epoch)]);
            Sends(s, t) && AllTurn(s, t) && Tells(s, t)
  {
    hide Core, Appends, Sends, Tells;
    var t := s.(sessions := s.sessions[id := Feed(s.sessions[id], epoch)]);
    SameAppends(s, t);
    AppendsSends(e, s, t);
    StayTells(e, s, t);
  }

  lemma StayTurns(e: Env, s: St)
    requires Core(e, s, {})
    ensures Sends(s, s) && AllTurn(s, s) && Tells(s, s)
  {
    hide Core, Appends, Grows, Sends, AllTurn, Tells;
    SameAppends(s, s);
    FewerGrow(s, s);
    EvolvesDone(e, s, s);
  }

  // ---- Messages ----

  lemma TakeEvolves(s: St, zone: ZoneId, m: Message)
    requires zone in s.channels
    ensures Evolves(s, Take(s, zone, m))
  {
    hide HasEntry;
    var t := Take(s, zone, m);
    OneAppends(s, t, zone);
  }

  /** A stream whose Prepared message arrives has an idle room. */
  lemma PreparedFresh(e: Env, s: St, c: Command)
    requires Core(e, s, {}) && c.id in s.sessions && s.sessions[c.id].wanted && s.sessions[c.id].zone in s.channels
    requires c.generation == s.sessions[c.id].generation
    requires Prepared(c.id, c.generation) in s.channels[s.sessions[c.id].zone].bag
    ensures FreshStart(s, s.sessions[c.id].zone, c)
  {
    hide Core, ChannelOk, Bounded, HasEntry, Streams;
    CoreAt(e, s, c.id, {});
  }

  lemma TurnsFrom(s: St, t: St, u: St)
    requires AllTurn(t, u) && t.issued == s.issued && t.sessions.Keys == s.sessions.Keys
    requires forall j :: j in s.sessions ==>
               && t.sessions[j].generation == s.sessions[j].generation && t.sessions[j].epoch == s.sessions[j].epoch
               && t.sessions[j].encoder == s.sessions[j].encoder
    ensures AllTurn(s, u)
  {
    forall j | j in u.sessions ensures Turns(s, u, j) {
      assert Turns(t, u, j);
    }
  }

  lemma SendsFrom(e: Env, s: St, t: St, u: St, id: SessionId)
    requires Core(e, s, {}) && Appends(t, u) && t.sessions.Keys == s.sessions.Keys && t.channels.Keys == s.channels.Keys
    requires id in s.sessions && s.sessions[id].wanted && s.sessions[id].zone in s.channels
    requires Prepared(id, s.sessions[id].generation) in s.channels[s.sessions[id].zone].bag
    requires t.sessions[id].generation == s.sessions[id].generation && t.sessions[id].zone == s.sessions[id].zone
    requires forall j :: j in s.sessions && j != id ==> t.sessions[j] == s.sessions[j] && Entry(t, j) == Entry(s, j)
    requires forall z :: z in s.channels ==>
               t.channels[z].unseen == s.channels[z].unseen && t.channels[z].running == s.channels[z].running
    requires t.issued == s.issued && forall z :: z in s.channels ==> t.channels[z].bag <= s.channels[z].bag
    ensures Sends(s, u)
  {
    hide Core, HasEntry, FreshStart, Unready, Commits;
    PreparedUnready(e, s, id);
    forall z | z in s.channels ensures SentIn(s, z, s.channels[z], u.channels[z]) {
      assert Appended(t, z, t.channels[z], u.channels[z]);
      forall c | c in u.channels[z].unseen[|s.channels[z].unseen|..] ensures Sendable(s, z, c) {
        if IsStart(c) {
          assert Due(t, z, c);
          if c.id == id {
            PreparedFresh(e, s, c);
          } else {
            DueFresh(e, s, z, c);
            DueUnready(e, s, z, c);
          }
        }
      }
    }
  }

  /** What is told from `t` on, in which the Prepared message of `id` was taken. */
  lemma TellsFrom(e: Env, s: St, t: St, u: St, id: SessionId)
    requires Core(e, s, {}) && Appends(t, u) && Grows(t, u)
    requires t.sessions.Keys == s.sessions.Keys && t.channels.Keys == s.channels.Keys && t.plans == s.plans
    requires id in s.sessions && s.sessions[id].zone in s.channels
    requires Prepared(id, s.sessions[id].generation) in s.channels[s.sessions[id].zone].bag
    requires t.sessions[id].generation == s.sessions[id].generation && t.sessions[id].held.None?
    requires forall j :: j in s.sessions && j != id ==> t.sessions[j] == s.sessions[j] && Entry(t, j) == Entry(s, j)
    requires forall z :: z in s.channels ==> t.channels[z].unseen == s.channels[z].unseen
    ensures Tells(s, u)
  {
    hide Core, HasEntry, Unready, SentNew;
    PreparedUnready(e, s, id);
    forall g | g in u.plans && !SamePlan(s, u, g) ensures PlanTold(s, u, g) {
      assert !SamePlan(t, u, g);
      var z, i :| SentNew(t, u, z, Play(i, g));
      TakenSent(s, t, u, z, Play(i, g));
      assert Appended(t, z, t.channels[z], u.channels[z]) && Due(t, z, Play(i, g));
      if i != id {
        EntryUnready(e, s, i, {});
      }
    }
    forall j | j in u.sessions && u.sessions[j].held.Some? && !StillHeld(s, u, j)
      ensures JoinSent(s, u, u.sessions[j].generation)
    {
      assert !StillHeld(t, u, j);
      var z, c :| SentNew(t, u, z, c) && c.Join? && c.generation == u.sessions[j].generation;
      TakenSent(s, t, u, z, c);
    }
    forall j | j in u.sessions ensures WaitTold(s, u, j) {
      assert StillWaits(t, u, j);
      if u.sessions[j].wanted && Entry(u, j) && j != id {
        EntryUnready(e, s, j, {});
      }
    }
  }

  lemma TakenSent(s: St, t: St, u: St, zone: ZoneId, c: Command)
    requires SentNew(t, u, zone, c) && t.channels.Keys == s.channels.Keys
    requires forall z :: z in s.channels ==> t.channels[z].unseen == s.channels[z].unseen
    ensures SentNew(s, u, zone, c) && zone in t.channels && zone in u.channels
    ensures c in u.channels[zone].unseen[|t.channels[zone].unseen|..]
  {
  }

  /** A stream without a cohort plays at once. */
  lemma OnceSends(e: Env, s: St, id: SessionId)
    requires Core(e, s, {}) && id in s.sessions && s.sessions[id].wanted && s.sessions[id].zone in s.channels
    requires Prepared(id, s.sessions[id].generation) in s.channels[s.sessions[id].zone].bag
    ensures var t := KeepStream(s, id); Sends(s, PlayPrepared(e, t, [t.sessions[id].prepared.value]))
  {
    hide Core, PrepareLaunch, StartAll, HasEntry, FreshStart, StartCommand, Unready, SentIn, Sendable;
    var t := KeepStream(s, id);
    var p := t.sessions[id].prepared.value;
    var (u, launch) := PrepareLaunch(e, t, [p]);
    PrepareLaunchKeeps(e, t, [p]);
    PreparedFresh(e, s, Play(id, s.sessions[id].generation));
    FreshRoom(s, s.sessions[id].zone, Play(id, s.sessions[id].generation));
    StartAllSends(e, u, u, launch, [p]);
    StartCommandOk(e, u, launch, p);
    var v := StartAll(e, u, u, launch, [p]);
    assert p in [p];
    var c := StartCommand(e, u, launch, p);
    PreparedFresh(e, s, c);
    PreparedUnready(e, s, id);
    OneSent(s, p.zone, s.channels[p.zone], v.channels[p.zone], c);
    forall z | z in s.channels ensures SentIn(s, z, s.channels[z], v.channels[z]) {
      if z != p.zone {
        NoneSent(s, z, s.channels[z]);
      }
    }
  }

  lemma OneSent(s: St, zone: ZoneId, a: Channel, b: Channel, c: Command)
    requires a.unseen == [] && b.unseen == [c] && b.running == a.running && b.bag <= a.bag
    requires IsStart(c) && FreshStart(s, zone, c) && Unready(s, c.id)
    ensures SentIn(s, zone, a, b)
  {
    hide FreshStart, Unready;
  }

  lemma NoneSent(s: St, zone: ZoneId, ch: Channel)
    ensures SentIn(s, zone, ch, ch)
  {
  }

  lemma FreshRoom(s: St, zone: ZoneId, c: Command)
    requires FreshStart(s, zone, c)
    ensures zone in s.channels && s.channels[zone].unseen == [] && s.channels[zone].running.None?
  {
  }

  lemma PreparedTurns(e: Env, s: St, zone: ZoneId, id: SessionId, generation: nat)
    requires ValidEnv(e) && Core(e, s, {}) && Queue(e, s) && zone in s.channels
    requires Prepared(id, generation) in s.channels[zone].bag
    ensures var t := HandlePrepared(e, Take(s, zone, Prepared(id, generation)), id, generation);
            Sends(s, t) && AllTurn(s, t) && Tells(s, t)
  {
    hide ValidEnv, Core, Queue, PlayPrepared, MaybeStart, RoomOk, Ready, Startable, Appends, Grows, AllTurn, Sends,
         HasEntry, HandlePrepared, Tells;
    var m := Prepared(id, generation);
    TagZone(e, s, zone, m);
    if id in s.sessions && s.sessions[id].generation == generation && s.sessions[id].wanted {
      KeepStreamCore(e, s, id);
      PreparedActs(e, s, id);
      var t := KeepStream(s, id);
      QueueSame(e, s, t);
      PreparedGeneration(e, t, id);
      match CohortOf(s.cohorts, id)
      case None =>
        OnceSends(e, s, id);
        OnceTurns(e, s, id);
        OnceTells(e, s, id);
      case Some(i) =>
        var u := Await(t, id, i);
        AwaitCore(e, t, id, i);
        AwaitQueue(e, t, id, i);
        QueueDistinct(e, u);
        MaybeStartEvolves(e, u, false, {});
        GrowsTurn(u, MaybeStart(e, u, false));
        TurnsFrom(s, u, MaybeStart(e, u, false));
        AwaitSends(e, s, id, i, MaybeStart(e, u, false));
    } else {
      StalePrepared(e, Take(s, zone, m), id, generation);
      TakeEvolves(s, zone, m);
      EvolvesDone(e, s, Take(s, zone, m));
    }
  }

  lemma StalePrepared(e: Env, s: St, id: SessionId, generation: nat)
    requires !(id in s.sessions && s.sessions[id].generation == generation && s.sessions[id].wanted)
    ensures HandlePrepared(e, s, id, generation) == s
  {
  }

  lemma OnceTurns(e: Env, s: St, id: SessionId)
    requires id in s.sessions && s.sessions[id].wanted && s.sessions[id].zone in s.channels
    ensures var t := KeepStream(s, id); AllTurn(s, PlayPrepared(e, t, [t.sessions[id].prepared.value]))
  {
    hide PlayPrepared, HasEntry, Grows, AllTurn, Thinner;
    var t := KeepStream(s, id);
    var p := t.sessions[id].prepared.value;
    PlayPreparedThinner(e, t, [p]);
    ThinnerGrows(t, PlayPrepared(e, t, [p]));
    GrowsTurn(t, PlayPrepared(e, t, [p]));
    TurnsFrom(s, t, PlayPrepared(e, t, [p]));
  }

  /** A stream that plays at once gets a plan only with its Play. */
  lemma OnceTells(e: Env, s: St, id: SessionId)
    requires Core(e, s, {}) && id in s.sessions && s.sessions[id].wanted && s.sessions[id].zone in s.channels
    requires Prepared(id, s.sessions[id].generation) in s.channels[s.sessions[id].zone].bag
    ensures var t := KeepStream(s, id); Tells(s, PlayPrepared(e, t, [t.sessions[id].prepared.value]))
  {
    hide Core, PrepareLaunch, StartAll, HasEntry, Unready, StartCommand, FreshStart, Commits, SentNew, Tells, WaitTold;
    var t := KeepStream(s, id);
    var p := t.sessions[id].prepared.value;
    var (u, launch) := PrepareLaunch(e, t, [p]);
    PrepareLaunchKeeps(e, t, [p]);
    PreparedFresh(e, s, Play(id, s.sessions[id].generation));
    FreshRoom(s, s.sessions[id].zone, Play(id, s.sessions[id].generation));
    StartAllSends(e, u, u, launch, [p]);
    StartAllGenerations(e, u, u, launch, [p]);
    StartCommandOk(e, u, launch, p);
    OnceCommits(e, t, u, launch, p);
    var v := StartAll(e, u, u, launch, [p]);
    assert p in [p];
    OnceWaits(e, s, v, id);
    PreparedUnready(e, s, id);
    OnceTold(s, t, v, id, p.zone, StartCommand(e, u, launch, p));
  }

  lemma OnceCommits(e: Env, s: St, t: St, launch: Launch, p: Stream)
    requires t.channels == s.channels && t.plans == s.plans && t.sessions == s.sessions && LaunchOk(launch)
    requires p.zone in s.channels && s.channels[p.zone].unseen == []
    requires p.id in s.sessions && s.sessions[p.id].generation == p.generation
    ensures Commits(s, StartAll(e, t, t, launch, [p]))
  {
    hide StartAll, StartCommand, Committed, Commits;
    var u := StartAll(e, t, t, launch, [p]);
    assert p in [p];
    StartAllSends(e, t, t, launch, [p]);
    StartAllCommits(e, t, t, launch, [p], [p]);
    StartAllGenerations(e, t, t, launch, [p]);
    StartCommandOk(e, t, launch, p);
    SentCommits(e, s, t, u, launch, [p]);
  }

  /** The only command that was sent is a start of the stream of `id`. */
  lemma OnlySent(s: St, t: St, u: St, id: SessionId, zone: ZoneId, c: Command)
    requires id in s.sessions && s.sessions[id].zone in s.channels
    requires t == KeepStream(s, id) && zone in s.channels && u.channels.Keys == s.channels.Keys
    requires s.channels[zone].unseen == [] && u.channels[zone].unseen == [c]
    requires forall z :: z in s.channels && z != zone ==> u.channels[z].unseen == s.channels[z].unseen
    ensures forall z, x :: SentNew(t, u, z, x) ==> x == c && SentNew(s, u, z, x)
  {
    forall z, x | SentNew(t, u, z, x) ensures x == c && SentNew(s, u, z, x) {
      TakenSent(s, t, u, z, x);
    }
  }

  lemma OnceTold(s: St, t: St, u: St, id: SessionId, zone: ZoneId, c: Command)
    requires id in s.sessions && s.sessions[id].zone in s.channels && Unready(s, id)
    requires c.id == id && c.generation == s.sessions[id].generation
    requires t == KeepStream(s, id) && Commits(t, u) && zone in s.channels && u.channels.Keys == s.channels.Keys
    requires s.channels[zone].unseen == [] && u.channels[zone].unseen == [c]
    requires forall z :: z in s.channels && z != zone ==> u.channels[z].unseen == s.channels[z].unseen
    requires forall j :: j in u.sessions ==> WaitTold(s, u, j)
    ensures Tells(s, u)
  {
    hide Unready, HasEntry, WaitTold, SentNew;
    OnlySent(s, t, u, id, zone, c);
    forall g | g in u.plans && !SamePlan(s, u, g) ensures PlanTold(s, u, g) {
      assert !SamePlan(t, u, g);
      var z, i :| SentNew(t, u, z, Play(i, g));
    }
    forall j | j in u.sessions && u.sessions[j].held.Some? && !StillHeld(s, u, j)
      ensures JoinSent(s, u, u.sessions[j].generation)
    {
      assert !StillHeld(t, u, j);
      var z, x :| SentNew(t, u, z, x) && x.Join? && x.generation == u.sessions[j].generation;
    }
  }

  lemma OnceWaits(e: Env, s: St, t: St, id: SessionId)
    requires Core(e, s, {}) && t.cohorts == s.cohorts && t.sessions.Keys == s.sessions.Keys
    requires forall j :: j in s.sessions ==> t.sessions[j].generation == s.sessions[j].generation
    ensures forall j :: j in t.sessions ==> WaitTold(s, t, j)
  {
    hide Core, HasEntry, Unready;
    forall j | j in t.sessions ensures WaitTold(s, t, j) {
      if Entry(t, j) {
        EntryUnready(e, s, j, {});
      }
    }
  }

  lemma AwaitSends(e: Env, s: St, id: SessionId, i: nat, u: St)
    requires Core(e, s, {}) && id in s.sessions && s.sessions[id].wanted && s.sessions[id].zone in s.channels
    requires Prepared(id, s.sessions[id].generation) in s.channels[s.sessions[id].zone].bag && i < |s.cohorts|
    requires Appends(Await(KeepStream(s, id), id, i), u) && Grows(Await(KeepStream(s, id), id, i), u)
    ensures Sends(s, u) && Tells(s, u)
  {
    hide Core, HasEntry, Appends, Grows, Tells;
    var t := KeepStream(s, id);
    var p := t.sessions[id].prepared.value;
    var v := Await(t, id, i);
    forall j | j in s.sessions && j != id ensures v.sessions[j] == s.sessions[j] && Entry(v, j) == Entry(s, j) {
      AwaitEntries(t.cohorts, i, p, j, s.sessions[j].generation);
    }
    SendsFrom(e, s, v, u, id);
    TellsFrom(e, s, v, u, id);
  }

  /** A result that drives the session: it is recorded, and may break up the session's group. */
  lemma ActingResult(e: Env, s: St, id: SessionId, outcome: Outcome)
    requires ValidEnv(e) && Core(e, s, {}) && Queue(e, s) && id in s.sessions && s.sessions[id].wanted
    requires s.sessions[id].zone in s.channels && outcome != Halted && outcome != HaltUnknown
    requires Result(id, s.sessions[id].generation, outcome) in s.channels[s.sessions[id].zone].bag
    ensures var m := Result(id, s.sessions[id].generation, outcome);
            Evolves(s, HandleResult(e, Take(s, s.sessions[id].zone, m), id, m.generation, outcome))
  {
    hide ValidEnv, Core, Queue, LeaveGroup, ResultSession, ForgetMember, Appends, Grows, HasEntry, Restart;
    var x := s.sessions[id];
    var m := Result(id, x.generation, outcome);
    TakeResultCore(e, s, id, outcome);
    CoreAt(e, s, id, {});
    ResultShape(x, outcome);
    var t := TakeWith(s, id, m, ResultSession(x, outcome));
    var u := if outcome == Started || outcome == Failed then t.(groups := ForgetMember(t.groups, id)) else t;
    CoreSame(e, t, u, {});
    QueueSame(e, s, u);
    TakeWithEvolves(s, id, m, ResultSession(x, outcome));
    RegroupEvolves(s, t, u);
    LeaveGroupEvolves(e, u, id, {});
    EvolvesBy(s, u, LeaveGroup(e, u, id));
  }

  lemma RegroupEvolves(s: St, t: St, u: St)
    requires Evolves(s, t) && u == t.(groups := u.groups)
    ensures Evolves(s, u)
  {
    hide Appended, HasEntry, Commits;
    CommitsFrame(s, t, u);
    forall j | j in u.sessions ensures Ages(s, u, j) && StillWaits(s, u, j) {
      assert Ages(s, t, j) && StillWaits(s, t, j);
    }
  }

  lemma IdleResult(e: Env, s: St, id: SessionId, generation: nat, outcome: Outcome)
    requires id in s.sessions && s.sessions[id].wanted && s.sessions[id].generation == generation ==>
               outcome == Halted || outcome == HaltUnknown
    ensures Evolves(s, HandleResult(e, s, id, generation, outcome))
  {
    hide LeaveGroup, HasEntry, Appends, Grows;
    var t := HandleResult(e, s, id, generation, outcome);
    FewerGrow(s, t);
    SameAppends(s, t);
  }

  lemma ResultTurns(e: Env, s: St, zone: ZoneId, id: SessionId, generation: nat, outcome: Outcome)
    requires ValidEnv(e) && Core(e, s, {}) && Queue(e, s) && zone in s.channels
    requires Result(id, generation, outcome) in s.channels[zone].bag
    ensures var t := HandleResult(e, Take(s, zone, Result(id, generation, outcome)), id, generation, outcome);
            Sends(s, t) && AllTurn(s, t) && Tells(s, t)
  {
    hide ValidEnv, Core, Queue, HandleResult, Appends, Grows, AllTurn, Sends, Tells;
    var m := Result(id, generation, outcome);
    var s1 := Take(s, zone, m);
    var t := HandleResult(e, s1, id, generation, outcome);
    TagZone(e, s, zone, m);
    if id in s.sessions && s.sessions[id].generation == generation && s.sessions[id].wanted
       && outcome != Halted && outcome != HaltUnknown {
      ActingResult(e, s, id, outcome);
    } else {
      TakeEvolves(s, zone, m);
      IdleResult(e, s1, id, generation, outcome);
      ResultKeys(e, s1, id, generation, outcome);
      EvolvesBy(s, s1, t);
    }
    EvolvesDone(e, s, t);
  }

  lemma ResultKeys(e: Env, s: St, id: SessionId, generation: nat, outcome: Outcome)
    ensures HandleResult(e, s, id, generation, outcome).sessions.Keys == s.sessions.Keys
  {
    hide LeaveGroup, ResultSession;
  }

  lemma RetryRestartEvolves(e: Env, s: St, id: SessionId)
    requires ValidEnv(e) && Core(e, s, {}) && Queue(e, s) && id in s.sessions && s.sessions[id].wanted
    requires s.sessions[id].zone in s.channels && s.sessions[id].prepared.None?
    requires Retry(id, s.sessions[id].generation) in s.channels[s.sessions[id].zone].bag
    ensures var x := s.sessions[id];
            Evolves(s, Restart(e, TakeWith(s, id, Retry(id, x.generation), x.(timer := None)), id))
  {
    hide ValidEnv, Core, Queue, Restart, RoomOk, Bounded, HasEntry, Idle, Appends, Grows;
    var x := s.sessions[id];
    var m := Retry(id, x.generation);
    CoreAt(e, s, id, {});
    TakeRetryRoom(e.wav, id, x, s.channels[x.zone], Entry(s, id), x.generation in s.plans);
    TakeWithCore(e, s, id, m, x.(timer := None), {id});
    var t := TakeWith(s, id, m, x.(timer := None));
    QueueSame(e, s, t);
    TakeWithEvolves(s, id, m, x.(timer := None));
    RestartEvolves(e, t, id, {id});
    EvolvesBy(s, t, Restart(e, t, id));
  }

  /** A message goes, and its session changes in what is neither waiting nor an encoder. */
  lemma TakeWithEvolves(s: St, id: SessionId, m: Message, y: Session)
    requires id in s.sessions && s.sessions[id].zone in s.channels
    requires var x := s.sessions[id];
             y.generation == x.generation && y.zone == x.zone && y.epoch == x.epoch && y.encoder == x.encoder
             && y.wanted == x.wanted && y.held == x.held
    ensures Evolves(s, TakeWith(s, id, m, y))
  {
    hide HasEntry, Appends, Grows;
    var s1 := Take(s, s.sessions[id].zone, m);
    TakeEvolves(s, s.sessions[id].zone, m);
    FewerGrow(s1, TakeWith(s, id, m, y));
    SameAppends(s1, TakeWith(s, id, m, y));
    EvolvesBy(s, s1, TakeWith(s, id, m, y));
  }

  lemma RetryTurns(e: Env, s: St, zone: ZoneId, id: SessionId, generation: nat)
    requires ValidEnv(e) && Core(e, s, {}) && Queue(e, s) && zone in s.channels
    requires Retry(id, generation) in s.channels[zone].bag
    ensures var t := HandleRetry(e, Take(s, zone, Retry(id, generation)), id, generation);
            Sends(s, t) && AllTurn(s, t) && Tells(s, t)
  {
    hide ValidEnv, Core, Queue, Restart, RoomOk, Bounded, HasEntry, Idle, Appends, Grows, AllTurn, Sends, HandleRetry,
         Tells;
    var m := Retry(id, generation);
    TakeEvolves(s, zone, m);
    TagZone(e, s, zone, m);
    if id in s.sessions && s.sessions[id].generation == generation && s.sessions[id].wanted {
      var x := s.sessions[id];
      CoreAt(e, s, id, {});
      TakeRetryRoom(e.wav, id, x, s.channels[zone], Entry(s, id), x.generation in s.plans);
      if x.prepared.Some? {
        IdleUnseen(id, x.(timer := None), s.channels[zone].(bag := s.channels[zone].bag - multiset{m}));
        RetryPlayTurns(e, s, id);
        RetryPlayTells(e, s, id);
      } else {
        RetryRestartEvolves(e, s, id);
        RetryRestarts(e, s, id);
        EvolvesDone(e, s, Restart(e, TakeWith(s, id, m, x.(timer := None)), id));
      }
    } else {
      StaleRetry(e, Take(s, zone, m), id, generation);
      EvolvesDone(e, s, Take(s, zone, m));
    }
  }

  lemma StaleRetry(e: Env, s: St, id: SessionId, generation: nat)
    requires !(id in s.sessions && s.sessions[id].generation == generation && s.sessions[id].wanted)
    ensures HandleRetry(e, s, id, generation) == s
  {
  }

  lemma RetryFresh(e: Env, s: St, id: SessionId)
    requires Core(e, s, {}) && id in s.sessions && s.sessions[id].wanted && s.sessions[id].prepared.Some?
    requires s.sessions[id].zone in s.channels
             && Retry(id, s.sessions[id].generation) in s.channels[s.sessions[id].zone].bag
    ensures FreshStart(s, s.sessions[id].zone, Play(id, s.sessions[id].generation))
  {
    hide Core, ChannelOk, Bounded, HasEntry, Streams;
    var x := s.sessions[id];
    var ch := s.channels[x.zone];
    CoreAt(e, s, id, {});
    TakeRetryRoom(e.wav, id, x, ch, Entry(s, id), x.generation in s.plans);
  }

  lemma RetryPlayTurns(e: Env, s: St, id: SessionId)
    requires Core(e, s, {}) && id in s.sessions && s.sessions[id].wanted && s.sessions[id].prepared.Some?
    requires s.sessions[id].zone in s.channels
             && Retry(id, s.sessions[id].generation) in s.channels[s.sessions[id].zone].bag
    ensures var g := s.sessions[id].generation;
            var t := HandleRetry(e, Take(s, s.sessions[id].zone, Retry(id, g)), id, g);
            Sends(s, t) && AllTurn(s, t)
  {
    hide Core, HasEntry, HandleRetry, FreshStart;
    var x := s.sessions[id];
    var t := HandleRetry(e, Take(s, x.zone, Retry(id, x.generation)), id, x.generation);
    RetryFresh(e, s, id);
    FreshRoom(s, x.zone, Play(id, x.generation));
    RetryPlayShape(e, s, id);
    SameSessions(s, t, id);
  }

  lemma RetryPlayTells(e: Env, s: St, id: SessionId)
    requires Core(e, s, {}) && id in s.sessions && s.sessions[id].wanted && s.sessions[id].prepared.Some?
    requires s.sessions[id].zone in s.channels && s.channels[s.sessions[id].zone].unseen == []
    requires Retry(id, s.sessions[id].generation) in s.channels[s.sessions[id].zone].bag
    ensures var g := s.sessions[id].generation;
            Tells(s, HandleRetry(e, Take(s, s.sessions[id].zone, Retry(id, g)), id, g))
  {
    hide Core, HasEntry, HandleRetry, Unready;
    var x := s.sessions[id];
    var t := HandleRetry(e, Take(s, x.zone, Retry(id, x.generation)), id, x.generation);
    RetryPlays(e, s, id);
    OnceWaits(e, s, t, id);
    assert SentNew(s, t, x.zone, Play(id, x.generation));
  }

  lemma FireTurns(e: Env, s: St, id: SessionId)
    requires Core(e, s, {}) && id in s.sessions && s.sessions[id].zone in s.channels && s.sessions[id].timer.Some?
    ensures Sends(s, FireRetry(s, id)) && AllTurn(s, FireRetry(s, id)) && Tells(s, FireRetry(s, id))
  {
    hide Core, FreshStart, Tells;
    StayTells(e, s, FireRetry(s, id));
  }

  lemma WakeTurns(e: Env, s: St, due: nat)
    requires ValidEnv(e) && Core(e, s, {}) && Queue(e, s)
    ensures var t := HandleWake(e, s, due); Sends(s, t) && AllTurn(s, t) && Tells(s, t)
  {
    hide ValidEnv, Core, Queue, MaybeStart, Appends, Grows;
    QueueDistinct(e, s);
    MaybeStartEvolves(e, s, false, {});
    EvolvesDone(e, s, MaybeStart(e, s, false));
    SameTurns(s, MaybeStart(e, s, false), HandleWake(e, s, due));
  }

  lemma SameTurns(s: St, t: St, u: St)
    requires Sends(s, t) && AllTurn(s, t) && Tells(s, t) && u == t.(wakes := u.wakes)
    ensures Sends(s, u) && AllTurn(s, u) && Tells(s, u)
  {
    hide FreshStart, Unready, SentNew, HasEntry, SentIn;
    forall g | g in u.plans && !SamePlan(s, u, g) ensures PlanTold(s, u, g) {
      var z, id :| SentNew(s, t, z, Play(id, g)) && id in s.sessions && s.sessions[id].generation == g
                   && (Unready(s, id) || s.sessions[id].held.Some?);
      SameSent(s, t, u, z, Play(id, g));
    }
    forall j | j in u.sessions && u.sessions[j].held.Some? && !StillHeld(s, u, j)
      ensures JoinSent(s, u, u.sessions[j].generation)
    {
      var z, c :| SentNew(s, t, z, c) && c.Join? && c.generation == u.sessions[j].generation;
      SameSent(s, t, u, z, c);
    }
    forall j | j in u.sessions ensures WaitTold(s, u, j) {
      assert WaitTold(s, t, j);
    }
    forall j | j in u.sessions ensures Turns(s, u, j) {
      assert Turns(s, t, j);
    }
  }

  // ---- Steps ----

  /** The steps of a room's worker. The others are handlers of the bridge. */
  predicate OfWorker(step: Step) {
    step.WorkerMoves? || step.GroupPlayEnds?
  }

  /** A handler appends commands, every start among them fresh, and renews what it changes. */
  lemma HandlerTurns(e: Env, s: St, step: Step)
    requires ValidEnv(e) && Sound(e, s) && Enabled(e, s, step) && !OfWorker(step)
    ensures Sends(s, Next(e, s, step)) && AllTurn(s, Next(e, s, step)) && Tells(s, Next(e, s, step))
  {
    hide Core, Queue, ValidEnv, SharedCutoffs, Evolves, Sends, AllTurn, Tells;
    hide StartSession, StopSession, SetPlayback, HandleFlush, HandleFrame, HandlePrepared, HandleResult,
         HandleRetry, HandleWake;
    var t := Next(e, s, step);
    match step
    case SessionStarts(id, zone, sender) => StartEvolves(e, s, id, zone, sender); EvolvesDone(e, s, t);
    case SessionStops(id) => StopEvolves(e, s, id); EvolvesDone(e, s, t);
    case PlaybackChanges(id, playing) => PlaybackEvolves(e, s, id, playing); EvolvesDone(e, s, t);
    case Flushed(id, epoch) => FlushEvolves(e, s, id, epoch); EvolvesDone(e, s, t);
    case FrameArrives(id, epoch, write) => FrameTurns(e, s, id, epoch, write);
    case PreparedArrives(zone, id, g) => PreparedTurns(e, s, zone, id, g);
    case ResultArrives(zone, id, g, outcome) => ResultTurns(e, s, zone, id, g, outcome);
    case RetryArrives(zone, id, g) => RetryTurns(e, s, zone, id, g);
    case RetryTimerFires(id) => FireTurns(e, s, id);
    case WakeFires(due) => WakeTurns(e, s, due);
  }

  lemma PlaybackEvolves(e: Env, s: St, id: SessionId, playing: bool)
    requires ValidEnv(e) && Core(e, s, {}) && Queue(e, s)
    ensures Evolves(s, SetPlayback(e, s, id, playing))
  {
    hide Core, Queue, ValidEnv, SetPlayback, Appends, Grows, HasEntry;
    if playing {
      PlayEvolves(e, s, id);
    } else if id in s.sessions {
      SettledEncoder(e, s, id);
      PauseEvolves(e, s, id, {});
    } else {
      NoPlayback(e, s, id);
      FewerGrow(s, s);
      SameAppends(s, s);
    }
  }

  lemma MoveUnseen(ch: Channel, zone: ZoneId, move: Move)
    requires CanMove(ch, move)
    ensures Moved(ch, zone, move).unseen == if move.Looks? then ch.unseen[move.index + 1..] else ch.unseen
  {
  }

  /** A worker step leaves the sessions alone, and at most takes commands from one channel. */
  lemma WorkerTurns(e: Env, s: St, step: Step)
    requires Enabled(e, s, step) && OfWorker(step)
    ensures var t := Next(e, s, step);
            && t.sessions == s.sessions && t.issued == s.issued && t.channels.Keys == s.channels.Keys
            && forall z :: z in s.channels ==>
                 t.channels[z].unseen ==
                 if step.WorkerMoves? && step.move.Looks? && step.zone == z then
                   s.channels[z].unseen[step.move.index + 1..]
                 else s.channels[z].unseen
  {
    hide StartSession, StopSession, SetPlayback, HandleFlush, HandleFrame, HandlePrepared, HandleResult,
         HandleRetry, HandleWake, CanMove, Moved, FinishGroup, CanFinishGroup;
    match step
    case WorkerMoves(zone, move) => MoveUnseen(s.channels[zone], zone, move);
    case GroupPlayEnds(zone, outcome) => GroupUnseen(e, s, zone, outcome);
  }

  lemma GroupUnseen(e: Env, s: St, zone: ZoneId, outcome: Outcome)
    requires zone in s.channels && CanFinishGroup(s.channels[zone], outcome)
    ensures var t := FinishGroup(e, s, zone, outcome);
            && t.sessions == s.sessions && t.issued == s.issued && t.channels.Keys == s.channels.Keys
            && forall z :: z in s.channels ==> t.channels[z].unseen == s.channels[z].unseen
  {
  }
}
