/** What a start result, a retry, a pause and a frame come to, and how often a session is retried. */
module BridgeOutcomes {
  import opened BridgeState
  import opened BridgeHandlers
  import opened BridgeRooms
  import opened BridgeCore
  import opened BridgeForest
  import opened BridgeOut
  import opened BridgeHistory
  import opened BridgeWorker
  import opened BridgeSteps
  import opened BridgeSystem
  import opened BridgeRuns
  import opened BridgeMembers
  import opened BridgeDissolved

  // ---- Results ----

  /** A result that drives a session and neither ends its retries nor is an answer to a Stop: what
      it records. A success resets the count of failures, a failure adds to it and arms a retry.
      Only a room that plays its own stream, or failed to join, leaves its group. */
  lemma ResultRecorded(e: Env, s: St, id: SessionId, outcome: Outcome)
    requires id in s.sessions && s.sessions[id].wanted && outcome in {Started, Joined, TimedOut, Failed}
    requires outcome in {TimedOut, Failed} ==> s.sessions[id].attempts < 6
    ensures var x := s.sessions[id];
            var t := HandleResult(e, s, id, x.generation, outcome);
            && t == s.(sessions := t.sessions, groups := t.groups)
            && t.sessions == s.sessions[id :=
                 if outcome == Started || outcome == Joined then
                   x.(observed := Playing, resetNeeded := false, attempts := 0, timer := None)
                 else
                   x.(observed := Unknown, resetNeeded := x.prepared.None?, attempts := x.attempts + 1,
                      timer := Some(x.generation))]
            && (outcome == Joined || outcome == TimedOut ==> t.groups == s.groups)
            && (outcome == Started || outcome == Failed ==>
                  && t.groups.Keys == s.groups.Keys
                  && forall c, m :: c in s.groups ==> (m in t.groups[c] <==> m in s.groups[c] && m != id))
  {
    hide LeaveGroup;
  }

  /** A result of another generation changes nothing, and one of a session that no longer wants
      playback only what its room is seen to do. */
  lemma ResultIgnored(e: Env, s: St, id: SessionId, generation: nat, outcome: Outcome)
    requires id in s.sessions && s.sessions[id].generation == generation && s.sessions[id].wanted ==>
               outcome == Halted || outcome == HaltUnknown
    ensures var t := HandleResult(e, s, id, generation, outcome);
            if id in s.sessions && s.sessions[id].generation == generation && !s.sessions[id].wanted then
              t == s.(sessions := s.sessions[id :=
                 s.sessions[id].(observed := if outcome == Halted then Stopped else Unknown)])
            else t == s
  {
    hide LeaveGroup;
  }

  /** A failure without a further retry: the session is not retried any more, whatever restarts
      around it. */
  lemma ResultGivesUp(e: Env, s: St, id: SessionId, outcome: Outcome)
    requires ValidEnv(e) && Core(e, s, {}) && Queue(e, s) && id in s.sessions && s.sessions[id].wanted
    requires s.sessions[id].zone in s.channels
    requires outcome == PermanentFailure || (outcome in {TimedOut, Failed} && s.sessions[id].attempts >= 6)
    requires Result(id, s.sessions[id].generation, outcome) in s.channels[s.sessions[id].zone].bag
    ensures var m := Result(id, s.sessions[id].generation, outcome);
            var t := HandleResult(e, Take(s, s.sessions[id].zone, m), id, m.generation, outcome);
            && id in t.sessions && t.sessions[id].wanted && t.sessions[id].attempts == 6
            && t.sessions[id].timer.None? && t.sessions[id].observed != Playing
  {
    hide ValidEnv, Core, Queue, LeaveGroup, ResultSession, ForgetMember, HasEntry, Restart, Thinner;
    var x := s.sessions[id];
    var m := Result(id, x.generation, outcome);
    TakeResultCore(e, s, id, outcome);
    CoreAt(e, s, id, {});
    var t := TakeWith(s, id, m, ResultSession(x, outcome));
    var u := if outcome == Started || outcome == Failed then t.(groups := ForgetMember(t.groups, id)) else t;
    CoreSame(e, t, u, {});
    QueueSame(e, s, u);
    GaveUp(x, outcome);
    LeaveGroupThinner(e, u, id, {});
    LeaveGroupCore(e, u, id, {});
    var v := LeaveGroup(e, u, id);
    ThinAt(u, v, id);
    CoreAt(e, v, id, {});
    AttemptsBounded(e, v, id);
  }

  lemma GaveUp(x: Session, outcome: Outcome)
    requires GivesUp(x, outcome) && x.attempts <= RETRY_BUDGET
    ensures var y := ResultSession(x, outcome);
            y.attempts == 6 && y.timer.None? && y.observed != Playing && y.wanted == x.wanted
  {
  }

  lemma ThinAt(s: St, t: St, id: SessionId)
    requires Thinner(s, t) && id in s.sessions
    ensures id in t.sessions && Pays(s.sessions[id], t.sessions[id]) && t.sessions[id].wanted == s.sessions[id].wanted
    ensures t.sessions[id].observed == Playing ==> s.sessions[id].observed == Playing
  {
    hide HasEntry, Renews, Pays;
    assert Thins(s, t, id);
  }

  lemma AttemptsBounded(e: Env, s: St, id: SessionId)
    requires Core(e, s, {}) && id in s.sessions
    ensures s.sessions[id].attempts <= 6
  {
    CoreAt(e, s, id, {});
  }

  // ---- Frames ----

  /** A frame of the session's epoch that the encoder's queue takes is fed to the encoder, and
      nothing else happens. Any other frame that does not end the encoder changes nothing. */
  lemma FrameFeeds(e: Env, s: St, id: SessionId, epoch: nat, write: Write)
    requires write != InputClosed
    ensures var t := HandleFrame(e, s, id, epoch, write);
            if write == Taken && id in s.sessions && s.sessions[id].epoch == epoch && s.sessions[id].encoder.Some? then
              var a := s.sessions[id].encoder.value;
              t == s.(sessions := s.sessions[id :=
                s.sessions[id].(encoder := Some(Encoder(a.stream, a.epoch, a.fed + [epoch])))])
            else t == s
  {
  }

  /** A shared wait that ends: the room's plan starts 120 ms after the wait's one release, with the
      delay that the room was told. */
  lemma GroupPlan(e: Env, s: St, zone: ZoneId, outcome: Outcome)
    requires zone in s.channels && CanFinishGroup(s.channels[zone], outcome)
    ensures var c := s.channels[zone].running.value;
            var t := FinishGroup(e, s, zone, outcome);
            && c.joins in t.released
            && t.released[c.joins] == (if c.joins in s.released then s.released[c.joins] else Now(e, s))
            && (c.delay.Some? ==>
                  t.plans == s.plans[c.generation := Plan(t.released[c.joins] + 120, c.delay.value, Some(c.joins))])
            && (c.delay.None? ==> t.plans == s.plans)
  {
  }

  // ---- What a room is told when its session pauses or stops ----

  /** No stream of the room waits. */
  ghost predicate Vacant(s: St, zone: ZoneId) {
    forall j :: j in s.sessions && s.sessions[j].zone == zone ==> !s.sessions[j].wanted
  }

  lemma ReleaseVacant(e: Env, s: St, exempt: set<SessionId>, zone: ZoneId)
    requires ValidEnv(e) && Core(e, s, exempt) && Distinct(s.cohorts) && s.cohorts != [] && Vacant(s, zone)
    requires zone in s.channels
    ensures var head := Pruned(s, s.cohorts[0]);
            var rest := Ticked(s).(cohorts := s.cohorts[1..]);
            var t := PlayPrepared(e, rest, StreamsOf(head.sessions, head.prepared));
            zone in t.channels && t.channels[zone] == s.channels[zone] && Vacant(t, zone)
  {
    hide Core, Distinct, HasEntry, Pruned, StartAll, PrepareLaunch, Idle, Thinner, ValidEnv;
    var head := Pruned(s, s.cohorts[0]);
    var rest := Ticked(s).(cohorts := s.cohorts[1..]);
    var list := StreamsOf(head.sessions, head.prepared);
    var (t, launch) := PrepareLaunch(e, rest, list);
    PrepareLaunchKeeps(e, rest, list);
    OneZoneEach(e, s, exempt);
    CoreStreams(e, s, exempt);
    HeadDistinct(s);
    forall p | p in list ensures Ready(rest, p) && p.zone != zone {
      HeadReady(e, s, exempt, p);
      HeadWaits(e, s, exempt, p);
    }
    ReleaseZones(rest, list);
    StartAllSends(e, t, t, launch, list);
    ReleaseThinner(e, s, exempt);
    ThinVacant(rest, PlayPrepared(e, rest, list), zone);
  }

  lemma ThinVacant(s: St, t: St, zone: ZoneId)
    requires Thinner(s, t) && Vacant(s, zone)
    ensures Vacant(t, zone)
  {
    hide HasEntry, Renews, Pays;
    forall j | j in t.sessions && t.sessions[j].zone == zone ensures !t.sessions[j].wanted {
      assert Thins(s, t, j);
    }
  }

  lemma {:induction false} MaybeStartVacant(e: Env, s: St, force: bool, exempt: set<SessionId>, zone: ZoneId)
    requires ValidEnv(e) && Core(e, s, exempt) && Distinct(s.cohorts) && Vacant(s, zone) && zone in s.channels
    ensures var t := MaybeStart(e, s, force);
            zone in t.channels && t.channels[zone] == s.channels[zone]
    decreases |s.cohorts|
  {
    hide ValidEnv, Core, PlayPrepared, Pruned, ShouldStart, HasEntry, Vacant;
    if s.cohorts != [] {
      var head := Pruned(s, s.cohorts[0]);
      var list := StreamsOf(head.sessions, head.prepared);
      if head.sessions == [] {
        var rest := s.(cohorts := s.cohorts[1..]);
        DropHead(e, s, rest, exempt);
        assert exempt + Ids(list) == exempt;
        SameVacant(s, rest, zone);
        MaybeStartVacant(e, rest, force, exempt, zone);
      } else if ShouldStart(head, Now(e, s), force) {
        var rest := Ticked(s).(cohorts := s.cohorts[1..]);
        PlayPreparedKeeps(e, rest, list);
        ReleaseHead(e, s, exempt);
        ReleaseVacant(e, s, exempt, zone);
        MaybeStartVacant(e, PlayPrepared(e, rest, list), force, exempt, zone);
      }
    }
  }

  lemma SameVacant(s: St, t: St, zone: ZoneId)
    requires Vacant(s, zone) && t.sessions == s.sessions
    ensures Vacant(t, zone)
  {
  }

  /** The room's last word is a Stop with the session's generation. */
  predicate ToldToStop(t: St, zone: ZoneId, id: SessionId, generation: nat) {
    zone in t.channels && t.channels[zone].unseen != [] && Last(t.channels[zone].unseen) == Stop(id, generation)
  }

  /** A pause: the session is in a new generation without a stream, nothing is to retry it, and the
      last command to its room is the Stop of that generation. */
  lemma PauseStops(e: Env, s: St, id: SessionId, exempt: set<SessionId>)
    requires ValidEnv(e) && Core(e, s, exempt) && exempt <= {id} && Queue(e, s)
    requires id in s.sessions
             && (s.sessions[id].encoder.Some? ==> s.sessions[id].encoder.value.epoch == s.sessions[id].epoch)
    ensures var t := SetPlayback(e, s, id, false);
            && id in t.sessions
            && var y := t.sessions[id];
               && y.zone == s.sessions[id].zone && y.generation > |s.issued| && !y.wanted && y.prepared.None?
               && y.timer.None? && y.observed != Playing && ToldToStop(t, y.zone, id, y.generation)
  {
    hide ValidEnv, Core, Queue, RoomOk, HasEntry, Halting, ChannelOk, Bounded, LeaveGroup, MaybeStart, Send,
         NextGeneration;
    var x := s.sessions[id];
    var y := PausedSession(x);
    CoreAt(e, s, id, exempt);
    PausedRoom(e.wav, id, x, s.channels[x.zone], Entry(s, id), x.generation in s.plans, id !in exempt);
    WithSessionCore(e, s, id, y, exempt, {id});
    var s1 := WithSession(s, id, y);
    QueueSame(e, s, s1);
    LeaveGroupCore(e, s1, id, {id});
    var s2 := LeaveGroup(e, s1, id);
    assert SameWish(s1.sessions[id], s2.sessions[id]);
    assert s2.sessions[id] == y;
    HaltStops(e, s2, id);
  }

  lemma HaltStops(e: Env, s: St, id: SessionId)
    requires ValidEnv(e) && Core(e, s, {id}) && Queue(e, s) && id in s.sessions
    requires var x := s.sessions[id];
             && !x.wanted && x.observed == Unknown && x.prepared.None? && x.held.None? && x.timer.None?
             && (x.encoder.Some? ==> x.encoder.value.epoch == x.epoch)
    ensures var t := AfterPause(e, s, id);
            && id in t.sessions
            && var y := t.sessions[id];
               && y.zone == s.sessions[id].zone && y.generation > |s.issued| && !y.wanted && y.prepared.None?
               && y.timer.None? && y.observed != Playing && ToldToStop(t, y.zone, id, y.generation)
  {
    hide ValidEnv, Core, Queue, RoomOk, HasEntry, Halting, ChannelOk, Bounded, MaybeStart, Send, NextGeneration;
    var zone := s.sessions[id].zone;
    CoreAt(e, s, id, {id});
    PauseShape(s, id);
    var t := NextGeneration(s, id);
    var u := Send(t, zone, Stop(id, |t.issued|));
    HaltedState(s, id);
    HaltingCore(e, s, u, id, {id});
    assert {id} - {id} == {};
    HaltingQueue(e, s, u, id);
    QueueDistinct(e, u);
    OneZoneEach(e, u, {});
    OnlyOne(u, id);
    MaybeStartVacant(e, u, false, {}, zone);
    CoreStreams(e, u, {});
    StreamsKeyed(u);
    MaybeStartIntent(e, u, false);
    var v := MaybeStart(e, u, false);
    IntentUnwanted(u, v, id);
  }

  lemma HaltedState(s: St, id: SessionId)
    requires id in s.sessions && s.sessions[id].zone in s.channels
    ensures var g := |s.issued| + 1;
            var x := s.sessions[id];
            var t := NextGeneration(s, id);
            var u := Send(t, x.zone, Stop(id, |t.issued|));
            && u.sessions == s.sessions[id := x.(generation := g)] && ToldToStop(u, x.zone, id, g)
  {
  }

  lemma OnlyOne(s: St, id: SessionId)
    requires id in s.sessions && !s.sessions[id].wanted
    requires forall i, j :: i in s.sessions && j in s.sessions && s.sessions[i].zone == s.sessions[j].zone ==> i == j
    ensures Vacant(s, s.sessions[id].zone)
  {
  }

  lemma IntentUnwanted(s: St, t: St, id: SessionId)
    requires SameIntent(s, t) && id in s.sessions && !s.sessions[id].wanted
    ensures id in t.sessions && t.sessions[id] == s.sessions[id]
  {
    assert SameWish(s.sessions[id], t.sessions[id]);
  }

  /** A session that ends: it is gone, and the last command to its room is its Stop. */
  lemma StopStops(e: Env, s: St, id: SessionId)
    requires ValidEnv(e) && Core(e, s, {}) && Queue(e, s) && id in s.sessions
    ensures var t := StopSession(e, s, id);
            id !in t.sessions && ToldToStop(t, s.sessions[id].zone, id, s.sessions[id].generation)
  {
    hide Core, Queue, ValidEnv, RoomOk, HasEntry, LeaveGroup, MaybeStart, Bounded, ChannelOk;
    var x := s.sessions[id];
    CoreAt(e, s, id, {});
    ZoneLeft(e, s, id);
    SettledGeneration(e, s, id);
    var s1 := s.(sessions := s.sessions - {id});
    RemoveCore(e, s, id);
    QueueSame(e, s, s1);
    LeaveGroupCore(e, s1, id, {});
    var s2 := LeaveGroup(e, s1, id);
    forall j | j in s2.sessions ensures s2.sessions[j].zone != x.zone {
      assert SameWish(s1.sessions[j], s2.sessions[j]);
    }
    IssuedPrefix(s1.issued, s2.issued, x.zone, id, x.generation);
    StopEmptyZoneCore(e, s2, x.zone, id, x.generation);
    var s3 := Send(s2, x.zone, Stop(id, x.generation));
    QueueSame(e, s2, s3);
    QueueDistinct(e, s3);
    MaybeStartVacant(e, s3, false, {}, x.zone);
  }

  /** An encoder that ended: the stream is lost, the last command to its room is the Stop of the new
      generation, and a session that wants playback is retried while its budget lasts. */
  lemma EncoderClosedStops(e: Env, s: St, id: SessionId)
    requires id in s.sessions && s.sessions[id].encoder.Some? && s.sessions[id].zone in s.channels
    ensures var x := s.sessions[id];
            var t := HandleEncoderClosed(e, s, id);
            var y := t.sessions[id];
            && t == s.(sessions := s.sessions[id := y], channels := t.channels, issued := t.issued)
            && y.generation == |s.issued| + 1 == |t.issued| && y.encoder.None? && y.prepared.None? && y.held.None?
            && y.resetNeeded && ToldToStop(t, x.zone, id, y.generation)
            && (x.wanted && x.attempts < 6 ==> y.timer == Some(y.generation) && y.attempts == x.attempts + 1)
            && (x.wanted && x.attempts >= 6 ==> y.timer.None? && y.attempts == x.attempts)
            && (!x.wanted ==> y.timer == x.timer && y.attempts == x.attempts)
  {
    hide HandleEncoderClosed;
    EncoderClosedState(e, s, id);
  }

  // ---- How often a session is retried ----

  /** The session whose count of failures a step may reset: it plays again, or its start succeeded. */
  function Freed(step: Step): set<SessionId> {
    match step
    case PlaybackChanges(id, playing) => if playing then {id} else {}
    case ResultArrives(_, id, _, outcome) => if outcome == Started || outcome == Joined then {id} else {}
    case _ => {}
  }

  lemma {:induction false} MaybeStartTimers(e: Env, s: St, force: bool)
    ensures var t := MaybeStart(e, s, force);
            && t.sessions.Keys == s.sessions.Keys
            && forall j :: j in s.sessions ==>
                 t.sessions[j].attempts == s.sessions[j].attempts && t.sessions[j].timer == s.sessions[j].timer
    decreases |s.cohorts|
  {
    hide PlayPrepared, Pruned, ShouldStart;
    if s.cohorts != [] {
      var head := Pruned(s, s.cohorts[0]);
      if head.sessions == [] {
        MaybeStartTimers(e, s.(cohorts := s.cohorts[1..]), force);
      } else if ShouldStart(head, Now(e, s), force) {
        var rest := Ticked(s).(cohorts := s.cohorts[1..]);
        var list := StreamsOf(head.sessions, head.prepared);
        PlayPreparedKeeps(e, rest, list);
        ReleaseTimers(e, rest, list);
        MaybeStartTimers(e, PlayPrepared(e, rest, list), force);
      }
    }
  }

  lemma ReleaseTimers(e: Env, s: St, list: seq<Stream>)
    ensures var t := PlayPrepared(e, s, list);
            && t.sessions.Keys == s.sessions.Keys
            && forall j :: j in s.sessions ==>
                 t.sessions[j].attempts == s.sessions[j].attempts && t.sessions[j].timer == s.sessions[j].timer
  {
    hide PrepareLaunch, StartAll;
    var (t, launch) := PrepareLaunch(e, s, list);
    PrepareLaunchKeeps(e, s, list);
    StartAllGenerations(e, t, t, launch, list);
  }

  lemma PreparedPays(e: Env, s: St, zone: ZoneId, id: SessionId, generation: nat)
    requires zone in s.channels
    ensures AllPay(s, HandlePrepared(e, Take(s, zone, Prepared(id, generation)), id, generation), {})
  {
    hide PlayPrepared, MaybeStart, CohortOf;
    var s1 := Take(s, zone, Prepared(id, generation));
    if id in s.sessions && s.sessions[id].generation == generation && s.sessions[id].wanted {
      var stream := Stream(id, s.sessions[id].zone, generation);
      var s2 := s1.(sessions := s1.sessions[id := s1.sessions[id].(prepared := Some(stream), held := None)]);
      match CohortOf(s2.cohorts, id)
      case None => ReleaseTimers(e, s2, [stream]);
      case Some(i) =>
        var c := s2.cohorts[i];
        MaybeStartTimers(e, s2.(cohorts := s2.cohorts[i := c.(prepared := c.prepared[id := stream])]), false);
    }
  }

  lemma PlaybackPays(e: Env, s: St, id: SessionId, playing: bool)
    requires ValidEnv(e) && Core(e, s, {}) && Queue(e, s)
    ensures AllPay(s, SetPlayback(e, s, id, playing), if playing then {id} else {})
  {
    hide Core, Queue, ValidEnv, SetPlayback, AllPay, Dissolves;
    if BreaksUp(s, PlaybackChanges(id, playing), id) {
      if playing {
        PlayDissolves(e, s, id);
      } else {
        SettledEncoder(e, s, id);
        PauseDissolves(e, s, id, {});
      }
    } else {
      QuietPays(e, s, id, playing);
    }
  }

  lemma QuietPays(e: Env, s: St, id: SessionId, playing: bool)
    requires !BreaksUp(s, PlaybackChanges(id, playing), id)
    ensures AllPay(s, SetPlayback(e, s, id, playing), if playing then {id} else {})
  {
    hide Restart, LeaveGroup;
  }

  lemma FlushPaid(e: Env, s: St, id: SessionId, epoch: nat)
    requires ValidEnv(e) && Core(e, s, {}) && Queue(e, s)
    ensures AllPay(s, HandleFlush(e, s, id, epoch), {})
  {
    hide Core, Queue, ValidEnv, Restart, SetPlayback, Dissolves;
    if id in s.sessions && epoch > s.sessions[id].epoch {
      FlushDissolves(e, s, id, epoch);
    }
  }

  lemma FramePays(e: Env, s: St, id: SessionId, epoch: nat, write: Write)
    requires Core(e, s, {})
    ensures AllPay(s, HandleFrame(e, s, id, epoch, write), {})
  {
    hide Core, HandleEncoderClosed, RoomOk, Bounded, ChannelOk, HasEntry;
    if write == InputClosed && id in s.sessions && s.sessions[id].encoder.Some? {
      CoreAt(e, s, id, {});
      EncoderClosedState(e, s, id);
      UnwantedRoom(e.wav, id, s.sessions[id], s.channels[s.sessions[id].zone], Entry(s, id),
                   s.sessions[id].generation in s.plans);
    }
  }

  lemma ResultPays(e: Env, s: St, zone: ZoneId, id: SessionId, generation: nat, outcome: Outcome)
    requires ValidEnv(e) && Core(e, s, {}) && Queue(e, s) && zone in s.channels
    requires Result(id, generation, outcome) in s.channels[zone].bag
    ensures var t := HandleResult(e, Take(s, zone, Result(id, generation, outcome)), id, generation, outcome);
            AllPay(s, t, Freed(ResultArrives(zone, id, generation, outcome)))
  {
    hide ValidEnv, Core, Queue, HandleResult, Dissolves;
    TagZone(e, s, zone, Result(id, generation, outcome));
    if BreaksUp(s, ResultArrives(zone, id, generation, outcome), id) {
      ResultDissolves(e, s, id, outcome);
    } else {
      QuietResultPays(e, s, zone, id, generation, outcome);
    }
  }

  lemma QuietResultPays(e: Env, s: St, zone: ZoneId, id: SessionId, generation: nat, outcome: Outcome)
    requires zone in s.channels && !BreaksUp(s, ResultArrives(zone, id, generation, outcome), id)
    ensures var t := HandleResult(e, Take(s, zone, Result(id, generation, outcome)), id, generation, outcome);
            AllPay(s, t, Freed(ResultArrives(zone, id, generation, outcome)))
  {
    hide LeaveGroup;
  }

  lemma RetryPays(e: Env, s: St, zone: ZoneId, id: SessionId, generation: nat)
    requires ValidEnv(e) && Core(e, s, {}) && Queue(e, s) && zone in s.channels
    requires Retry(id, generation) in s.channels[zone].bag
    ensures AllPay(s, HandleRetry(e, Take(s, zone, Retry(id, generation)), id, generation), {})
  {
    hide ValidEnv, Core, Queue, HandleRetry, Dissolves;
    TagZone(e, s, zone, Retry(id, generation));
    if BreaksUp(s, RetryArrives(zone, id, generation), id) {
      RetryDissolves(e, s, id);
    } else {
      QuietRetryPays(e, s, zone, id, generation);
    }
  }

  lemma QuietRetryPays(e: Env, s: St, zone: ZoneId, id: SessionId, generation: nat)
    requires zone in s.channels && !BreaksUp(s, RetryArrives(zone, id, generation), id)
    ensures AllPay(s, HandleRetry(e, Take(s, zone, Retry(id, generation)), id, generation), {})
  {
    hide Restart;
  }

  lemma QuietSteps(e: Env, s: St, step: Step)
    requires Enabled(e, s, step) && (OfWorker(step) || step.RetryTimerFires? || step.WakeFires?)
    ensures AllPay(s, Next(e, s, step), {})
  {
    hide CanMove, Moved, MaybeStart;
    if step.WakeFires? {
      MaybeStartTimers(e, s, false);
    }
  }

  lemma StopPays(e: Env, s: St, id: SessionId)
    requires ValidEnv(e) && Core(e, s, {}) && Queue(e, s)
    ensures AllPay(s, StopSession(e, s, id), {})
  {
    hide ValidEnv, Core, Queue, LeaveGroup, MaybeStart, Dissolves;
    if id in s.sessions {
      StopDissolves(e, s, id);
    }
  }

  /** Every retry that a step arms costs the session an attempt, and only its own success or a new
      wish to play gives attempts back. */
  lemma StepPays(e: Env, s: St, step: Step)
    requires ValidEnv(e) && Sound(e, s) && Enabled(e, s, step)
    ensures AllPay(s, Next(e, s, step), Freed(step))
  {
    hide Core, Queue, ValidEnv, SharedCutoffs, AllPay, GroupsRestart, Dissolves, KeepsMembers;
    hide StartSession, StopSession, SetPlayback, HandleFlush, HandleFrame, HandlePrepared, HandleResult, HandleRetry,
         FireRetry, HandleWake, FinishGroup;
    match step
    case SessionStarts(id, zone, sender) => StartDissolves(e, s, id, zone, sender);
    case SessionStops(id) => StopPays(e, s, id);
    case PlaybackChanges(id, playing) => PlaybackPays(e, s, id, playing);
    case Flushed(id, epoch) => FlushPaid(e, s, id, epoch);
    case FrameArrives(id, epoch, write) => FramePays(e, s, id, epoch, write);
    case PreparedArrives(zone, id, g) => PreparedPays(e, s, zone, id, g);
    case ResultArrives(zone, id, g, outcome) => ResultPays(e, s, zone, id, g, outcome);
    case RetryArrives(zone, id, g) => RetryPays(e, s, zone, id, g);
    case _ => QuietSteps(e, s, step);
  }

  /** The step armed a retry of the session. */
  predicate Arms(s: St, t: St, id: SessionId) {
    id in s.sessions && id in t.sessions && t.sessions[id].timer.Some? && t.sessions[id].timer != s.sessions[id].timer
  }

  /** How many steps of the run arm a retry of the session. */
  function Armings(e: Env, s: St, steps: seq<Step>, id: SessionId): nat
    requires Possible(e, s, steps)
    decreases |steps|
  {
    if steps == [] then 0
    else
      (if Arms(s, Next(e, s, steps[0]), id) then 1 else 0) + Armings(e, Next(e, s, steps[0]), steps[1..], id)
  }

  /** The step is no success of the session, and neither plays it nor starts it again. */
  predicate HelpsNot(step: Step, id: SessionId) {
    match step
    case SessionStarts(j, _, _) => j != id
    case PlaybackChanges(j, playing) => j == id ==> !playing
    case ResultArrives(_, j, _, outcome) => j == id ==> outcome != Started && outcome != Joined
    case _ => true
  }

  /** A session that keeps failing is retried at most six times, counting from its last success,
      whatever happens to it and around it. */
  lemma {:induction false} RetryBudget(e: Env, s: St, steps: seq<Step>, id: SessionId)
    requires ValidEnv(e) && Sound(e, s) && Possible(e, s, steps)
    requires forall step :: step in steps ==> HelpsNot(step, id)
    ensures Armings(e, s, steps, id) + (if id in s.sessions then s.sessions[id].attempts else 6) <= 6
    decreases |steps|
  {
    hide Sound, Next, Enabled, ValidEnv, AllPay, HelpsNot, Core, Queue;
    if id in s.sessions {
      SoundAttempts(e, s, id);
    }
    if steps != [] {
      var t := Next(e, s, steps[0]);
      StepSound(e, s, steps[0]);
      StepPays(e, s, steps[0]);
      OneStepPays(s, t, steps[0], id);
      SoundParts(e, s);
      StepKeys(e, s, steps[0]);
      NotStarted(steps[0], id);
      RetryBudget(e, t, steps[1..], id);
    }
  }

  lemma NotStarted(step: Step, id: SessionId)
    requires HelpsNot(step, id)
    ensures step.SessionStarts? ==> step.id != id
  {
  }

  lemma SoundParts(e: Env, s: St)
    requires Sound(e, s)
    ensures Core(e, s, {}) && Queue(e, s)
  {
    hide Core, Queue;
  }

  lemma SoundAttempts(e: Env, s: St, id: SessionId)
    requires Sound(e, s) && id in s.sessions
    ensures s.sessions[id].attempts <= 6
  {
    hide Core;
    AttemptsBounded(e, s, id);
  }

  lemma OneStepPays(s: St, t: St, step: Step, id: SessionId)
    requires AllPay(s, t, Freed(step)) && HelpsNot(step, id)
    ensures id in s.sessions && id in t.sessions ==>
              t.sessions[id].attempts >= s.sessions[id].attempts + if Arms(s, t, id) then 1 else 0
  {
    assert id !in Freed(step);
  }

  /** Only a session that starts joins the others. */
  lemma StepKeys(e: Env, s: St, step: Step)
    requires ValidEnv(e) && Core(e, s, {}) && Queue(e, s) && Enabled(e, s, step)
    ensures Next(e, s, step).sessions.Keys <= s.sessions.Keys + if step.SessionStarts? then {step.id} else {}
  {
    hide Core, Queue, ValidEnv, Restart, LeaveGroup, MaybeStart, HandlePrepared, HandleResult, HandleRetry, HandleFrame,
         SetPlayback, StopEach, StopSession, Appends, Grows, CanMove, Moved, CanFinishGroup, FinishGroup;
    match step
    case SessionStarts(id, zone, sender) => StopEachEvolves(e, s, SessionsIn(s, zone));
    case PlaybackChanges(id, playing) => PlayedKeys(e, s, id, playing);
    case Flushed(id, epoch) =>
      if id in s.sessions {
        PlayedKeys(e, WithSession(s, id, FlushedSession(s.sessions[id], epoch)), id, false);
      }
    case PreparedArrives(zone, id, g) => PreparedKeys(e, Take(s, zone, Prepared(id, g)), id, g);
    case ResultArrives(zone, id, g, outcome) =>
      ResultKeys(e, Take(s, zone, Result(id, g, outcome)), id, g, outcome);
    case FrameArrives(id, epoch, write) => FrameKeys(e, s, id, epoch, write);
    case RetryArrives(zone, id, g) => RetriedKeys(e, Take(s, zone, Retry(id, g)), id, g);
    case WakeFires(due) => MaybeStartTimers(e, s, false);
    case GroupPlayEnds(zone, outcome) => FinishKeys(e, s, zone, outcome);
    case _ =>
  }

  lemma FinishKeys(e: Env, s: St, zone: ZoneId, outcome: Outcome)
    requires zone in s.channels && CanFinishGroup(s.channels[zone], outcome)
    ensures FinishGroup(e, s, zone, outcome).sessions == s.sessions
  {
  }

  lemma FrameKeys(e: Env, s: St, id: SessionId, epoch: nat, write: Write)
    ensures HandleFrame(e, s, id, epoch, write).sessions.Keys == s.sessions.Keys
  {
  }

  lemma RetriedKeys(e: Env, s: St, id: SessionId, generation: nat)
    ensures HandleRetry(e, s, id, generation).sessions.Keys == s.sessions.Keys
  {
    hide Restart, Send;
    if id in s.sessions && s.sessions[id].prepared.None? {
      assert CancelRetry(s, id).sessions.Keys == s.sessions.Keys;
    }
  }

  lemma PlayedKeys(e: Env, s: St, id: SessionId, playing: bool)
    ensures SetPlayback(e, s, id, playing).sessions.Keys == s.sessions.Keys
  {
    hide Restart, LeaveGroup, MaybeStart;
    if !playing {
      PlaybackKeys(e, s, id);
    }
  }

  lemma PreparedKeys(e: Env, s: St, id: SessionId, generation: nat)
    ensures HandlePrepared(e, s, id, generation).sessions.Keys == s.sessions.Keys
  {
    hide PlayPrepared, MaybeStart, CohortOf;
    if id in s.sessions && s.sessions[id].generation == generation && s.sessions[id].wanted {
      var stream := Stream(id, s.sessions[id].zone, generation);
      var t := s.(sessions := s.sessions[id := s.sessions[id].(prepared := Some(stream), held := None)]);
      match CohortOf(t.cohorts, id)
      case None => ReleaseTimers(e, t, [stream]);
      case Some(i) =>
        var c := t.cohorts[i];
        MaybeStartTimers(e, t.(cohorts := t.cohorts[i := c.(prepared := c.prepared[id := stream])]), false);
    }
  }
}
