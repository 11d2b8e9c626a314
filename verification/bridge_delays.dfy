/** Every delay that any run assigns, inherits or holds back fits the input queue. */
module BridgeDelays {
  import opened BridgeState
  import opened BridgeHandlers
  import opened BridgeSteps
  import opened BridgeWorker
  import opened BridgeSystem
  import Delays

  predicate SessionWithin(x: Session, d: nat) {
    x.syncDelay <= d && (x.held.Some? ==> x.held.value <= d)
  }

  predicate CommandWithin(c: Command, d: nat) {
    c.PlayGroup? && c.delay.Some? ==> c.delay.value <= d
  }

  predicate ChannelWithin(ch: Channel, d: nat) {
    && (forall k :: 0 <= k < |ch.unseen| ==> CommandWithin(ch.unseen[k], d))
    && (ch.running.Some? ==> CommandWithin(ch.running.value, d))
  }

  /** No session, plan or pending command has a longer delay than `d`. */
  ghost predicate Within(s: St, d: nat) {
    && (forall id :: id in s.sessions ==> SessionWithin(s.sessions[id], d))
    && (forall g :: g in s.plans ==> s.plans[g].delay <= d)
    && (forall z :: z in s.channels ==> ChannelWithin(s.channels[z], d))
  }

  /** The offsets of all rooms lie in a range of length `d`. */
  ghost predicate Ranged(e: Env, lo: int, d: nat) {
    && Delays.I64_MIN <= lo && lo + d <= Delays.I64_MAX && d <= Delays.I64_MAX
    && forall z :: lo <= e.offset(z) <= lo + d
  }

  lemma SessionStep(s: St, t: St, id: SessionId, d: nat)
    requires Within(s, d) && t.plans == s.plans && t.channels == s.channels
    requires id in t.sessions && t.sessions == s.sessions[id := t.sessions[id]] && SessionWithin(t.sessions[id], d)
    ensures Within(t, d)
  {
  }

  lemma SendWithin(s: St, zone: ZoneId, c: Command, d: nat)
    requires Within(s, d) && CommandWithin(c, d)
    ensures Within(Send(s, zone, c), d)
  {
  }

  lemma ScheduleWithin(s: St, id: SessionId, d: nat)
    requires Within(s, d)
    ensures Within(ScheduleRetry(s, id), d) && Within(CancelRetry(s, id), d)
  {
  }

  lemma GenerationWithin(s: St, id: SessionId, d: nat)
    requires Within(s, d) && id in s.sessions
    ensures Within(NextGeneration(s, id), d)
  {
    var t := NextGeneration(s, id);
    assert t.sessions == s.sessions[id := t.sessions[id]];
  }

  lemma SameWithin(s: St, t: St, d: nat)
    requires Within(s, d) && t.sessions == s.sessions && t.plans == s.plans && t.channels == s.channels
    ensures Within(t, d)
  {
  }

  // ---- Release ----

  lemma CohortWithin(e: Env, list: seq<Stream>, roles: map<SessionId, SessionId>, lo: int, d: nat)
    requires Ranged(e, lo, d)
    ensures forall z :: z in CohortDelays(e, list, roles) ==> CohortDelays(e, list, roles)[z] <= d
  {
    var zones := OwnZones(list, roles);
    if zones != [] {
      Delays.DelaysAlign(zones, map z | z in zones :: e.offset(z), lo, lo + d);
    }
  }

  lemma DelayWithin(e: Env, s: St, delays: map<ZoneId, nat>, roles: map<SessionId, SessionId>, p: Stream, d: nat)
    requires Within(s, d) && forall z :: z in delays ==> delays[z] <= d
    ensures var delay := DelayOf(e, s, delays, roles, p); delay.Some? ==> delay.value <= d
  {
    if p.id in roles && roles[p.id] in s.sessions {
      assert SessionWithin(s.sessions[roles[p.id]], d);
    }
  }

  lemma StartOneWithin(e: Env, before: St, s: St, launch: Launch, p: Stream, d: nat)
    requires Within(before, d) && Within(s, d) && forall z :: z in launch.delays ==> launch.delays[z] <= d
    ensures Within(StartOne(e, before, s, launch, p), d)
  {
    hide DelayOf, Send, Within;
    var delay := DelayOf(e, before, launch.delays, launch.roles, p);
    var c := StartCommand(e, before, launch, p);
    DelayWithin(e, before, launch.delays, launch.roles, p, d);
    var s1 := if p.id in s.sessions then
                s.(sessions := s.sessions[p.id := StartedSession(s.sessions[p.id], delay, c)])
              else s;
    if p.id in s.sessions {
      SessionAt(s, p.id, d);
      SessionStep(s, s1, p.id, d);
    }
    var plan := Plan(launch.cutoff, if delay.Some? then delay.value else 0, None);
    PlanStep(s1, p.generation, plan, d);
    var s2 := if c.Play? && delay.Some? then s1.(plans := s1.plans[p.generation := plan]) else s1;
    SendWithin(s2, p.zone, c, d);
  }

  lemma SessionAt(s: St, id: SessionId, d: nat)
    requires Within(s, d) && id in s.sessions
    ensures SessionWithin(s.sessions[id], d)
  {
  }

  lemma PlanStep(s: St, g: nat, plan: Plan, d: nat)
    requires Within(s, d) && plan.delay <= d
    ensures Within(s.(plans := s.plans[g := plan]), d)
  {
  }

  lemma {:induction false} StartAllWithin(e: Env, before: St, s: St, launch: Launch, list: seq<Stream>, d: nat)
    requires Within(before, d) && Within(s, d) && forall z :: z in launch.delays ==> launch.delays[z] <= d
    ensures Within(StartAll(e, before, s, launch, list), d)
    decreases |list|
  {
    hide StartOne, Within;
    if list != [] {
      StartOneWithin(e, before, s, launch, list[0], d);
      StartAllWithin(e, before, StartOne(e, before, s, launch, list[0]), launch, list[1..], d);
    }
  }

  lemma PlayPreparedWithin(e: Env, s: St, list: seq<Stream>, lo: int, d: nat)
    requires Within(s, d) && Ranged(e, lo, d)
    ensures Within(PlayPrepared(e, s, list), d)
  {
    hide Within, StartAll, CohortDelays, GroupAll;
    var (t, launch) := PrepareLaunch(e, s, list);
    if e.nativeGroups {
      GroupAllKeeps(e, Grouping(s, map[]), list);
    }
    CohortWithin(e, list, launch.roles, lo, d);
    SameWithin(s, t, d);
    StartAllWithin(e, t, t, launch, list, d);
  }

  lemma {:induction false} MaybeStartWithin(e: Env, s: St, force: bool, lo: int, d: nat)
    requires Within(s, d) && Ranged(e, lo, d)
    ensures Within(MaybeStart(e, s, force), d)
    decreases |s.cohorts|
  {
    hide Within, PlayPrepared, Pruned, ShouldStart;
    if s.cohorts != [] {
      var head := Pruned(s, s.cohorts[0]);
      var rest := s.(cohorts := s.cohorts[1..]);
      if head.sessions == [] {
        SameWithin(s, rest, d);
        MaybeStartWithin(e, rest, force, lo, d);
      } else if ShouldStart(head, Now(e, s), force) {
        var list := StreamsOf(head.sessions, head.prepared);
        SameWithin(s, Ticked(rest), d);
        PlayPreparedWithin(e, Ticked(rest), list, lo, d);
        PlayPreparedKeeps(e, Ticked(rest), list);
        MaybeStartWithin(e, PlayPrepared(e, Ticked(rest), list), force, lo, d);
      } else {
        SameWithin(s, Ticked(s).(cohorts := [head] + s.cohorts[1..]), d);
      }
    }
  }

  // ---- Restart ----

  lemma RebuildWithin(e: Env, s: St, id: SessionId, d: nat)
    requires Within(s, d) && id in s.sessions
    ensures Within(Rebuild(e, s, id), d)
  {
    hide Within, Send, ScheduleRetry, AddToCohort, NextGeneration;
    SessionAt(s, id, d);
    var x := s.sessions[id];
    var y := x.(resetNeeded := true, observed := Unknown, prepared := None, held := None, encoder := None);
    var s0 := s.(sessions := s.sessions[id := y]);
    SessionStep(s, s0, id, d);
    GenerationWithin(s0, id, d);
    var s1 := Invalidate(s, id);
    SendWithin(s1, x.zone, Stop(id, |s1.issued|), d);
    var s2 := Send(s1, x.zone, Stop(id, |s1.issued|));
    ScheduleWithin(s2, id, d);
    SessionAt(s2, id, d);
    var z := s2.sessions[id];
    var s3 := s2.(sessions := s2.sessions[id := z.(encoder := Some(Encoder(z.generation, z.epoch, [])))]);
    SessionStep(s2, s3, id, d);
    SameWithin(s3, AddToCohort(e, s3, id), d);
    SendWithin(AddToCohort(e, s3, id), z.zone, Prepare(id, z.generation), d);
  }

  lemma ResumeWithin(e: Env, s: St, id: SessionId, lo: int, d: nat)
    requires Within(s, d) && Ranged(e, lo, d) && id in s.sessions
    ensures Within(Resume(e, s, id), d)
  {
    hide Within, Rebuild, MaybeStart;
    RebuildWithin(e, s, id, d);
    MaybeStartWithin(e, Rebuild(e, s, id), false, lo, d);
  }

  lemma BeforeLeaveWithin(e: Env, s: St, id: SessionId, d: nat)
    requires Within(s, d)
    ensures Within(BeforeLeave(e, s, id), d)
  {
  }

  lemma {:induction false} RestartWithin(e: Env, s: St, id: SessionId, lo: int, d: nat)
    requires Within(s, d) && Ranged(e, lo, d)
    ensures Within(Restart(e, s, id), d)
    decreases Load(s), 2
  {
    hide Within, LeaveGroup, Resume, BeforeLeave;
    hide Members, Waiting;
    BeforeLeaveWithin(e, s, id, d);
    LeaveGroupWithin(e, BeforeLeave(e, s, id), id, lo, d);
    var t := LeaveGroup(e, BeforeLeave(e, s, id), id);
    if id in t.sessions {
      ResumeWithin(e, t, id, lo, d);
    }
  }

  lemma {:induction false} LeaveGroupWithin(e: Env, s: St, id: SessionId, lo: int, d: nat)
    requires Within(s, d) && Ranged(e, lo, d)
    ensures Within(LeaveGroup(e, s, id), d)
    decreases Load(s), 1
  {
    hide Within, RestartMembers, Load;
    DetachLoad(s, id);
    SameWithin(s, Detach(s, id), d);
    RestartMembersWithin(e, Detach(s, id), Detached(s, id), lo, d);
  }

  lemma {:induction false} RestartMembersWithin(e: Env, s: St, list: seq<SessionId>, lo: int, d: nat)
    requires Within(s, d) && Ranged(e, lo, d)
    ensures Within(RestartMembers(e, s, list), d)
    decreases Load(s) + |list|, 0
  {
    hide Within, Restart, Load;
    if list != [] {
      var t := if list[0] in s.sessions && s.sessions[list[0]].wanted then Restart(e, s, list[0]) else s;
      if list[0] in s.sessions && s.sessions[list[0]].wanted {
        RestartWithin(e, s, list[0], lo, d);
      }
      RestartMembersWithin(e, t, list[1..], lo, d);
    }
  }

  // ---- Handlers ----

  lemma TakeWithin(s: St, zone: ZoneId, m: Message, d: nat)
    requires Within(s, d) && zone in s.channels
    ensures Within(Take(s, zone, m), d)
  {
  }

  lemma PreparedWithin(e: Env, s: St, id: SessionId, generation: nat, lo: int, d: nat)
    requires Within(s, d) && Ranged(e, lo, d)
    ensures Within(HandlePrepared(e, s, id, generation), d)
  {
    hide Within, PlayPrepared, MaybeStart;
    if id in s.sessions && s.sessions[id].generation == generation && s.sessions[id].wanted {
      SessionAt(s, id, d);
      var stream := Stream(id, s.sessions[id].zone, generation);
      var s1 := s.(sessions := s.sessions[id := s.sessions[id].(prepared := Some(stream), held := None)]);
      SessionStep(s, s1, id, d);
      match CohortOf(s1.cohorts, id)
      case None => PlayPreparedWithin(e, s1, [stream], lo, d);
      case Some(i) =>
        var c := s1.cohorts[i];
        var s2 := s1.(cohorts := s1.cohorts[i := c.(prepared := c.prepared[id := stream])]);
        SameWithin(s1, s2, d);
        MaybeStartWithin(e, s2, false, lo, d);
    }
  }

  lemma ResultWithin(e: Env, s: St, id: SessionId, generation: nat, outcome: Outcome, lo: int, d: nat)
    requires Within(s, d) && Ranged(e, lo, d)
    ensures Within(HandleResult(e, s, id, generation, outcome), d)
  {
    hide Within, LeaveGroup, ForgetMember;
    if id in s.sessions && s.sessions[id].generation == generation {
      var x := s.sessions[id];
      SessionAt(s, id, d);
      if !x.wanted {
        SessionStep(s, s.(sessions := s.sessions[id := x.(observed := if outcome == Halted then Stopped
            else Unknown)]), id, d);
      } else if outcome != Halted && outcome != HaltUnknown {
        var s1 := s.(sessions := s.sessions[id := ResultSession(x, outcome)]);
        SessionStep(s, s1, id, d);
        var s2 := if outcome == Started || outcome == Failed then s1.(groups := ForgetMember(s1.groups, id)) else s1;
        SameWithin(s1, s2, d);
        LeaveGroupWithin(e, s2, id, lo, d);
      }
    }
  }

  lemma RetryWithin(e: Env, s: St, id: SessionId, generation: nat, lo: int, d: nat)
    requires Within(s, d) && Ranged(e, lo, d)
    ensures Within(HandleRetry(e, s, id, generation), d)
  {
    hide Within, Restart, Send, CancelRetry;
    if id in s.sessions && s.sessions[id].generation == generation && s.sessions[id].wanted {
      var x := s.sessions[id];
      SessionAt(s, id, d);
      if x.prepared.Some? {
        var s1 := s.(sessions := s.sessions[id := x.(timer := None, held := None)]);
        SessionStep(s, s1, id, d);
        SameWithin(s1, Ticked(s1), d);
        if x.held.Some? {
          var plan := Plan(Now(e, s1) + SYNC_START_LEAD, x.held.value, None);
          PlanStep(Ticked(s1), generation, plan, d);
          SendWithin(Ticked(s1).(plans := s1.plans[generation := plan]), x.zone, Play(id, generation), d);
        } else {
          SendWithin(s1, x.zone, Play(id, generation), d);
        }
      } else {
        ScheduleWithin(s, id, d);
        RestartWithin(e, CancelRetry(s, id), id, lo, d);
      }
    }
  }

  lemma EncoderWithin(e: Env, s: St, id: SessionId, d: nat)
    requires Within(s, d)
    ensures Within(HandleEncoderClosed(e, s, id), d)
  {
    hide Within, NextGeneration, Send, ScheduleRetry;
    if id in s.sessions && s.sessions[id].encoder.Some? {
      var x := s.sessions[id];
      SessionAt(s, id, d);
      var s1 := s.(sessions := s.sessions[id := x.(prepared := None, held := None, resetNeeded := true,
          encoder := None)]);
      SessionStep(s, s1, id, d);
      GenerationWithin(s1, id, d);
      var s2 := NextGeneration(s1, id);
      SendWithin(s2, x.zone, Stop(id, |s2.issued|), d);
      ScheduleWithin(Send(s2, x.zone, Stop(id, |s2.issued|)), id, d);
    }
  }

  lemma FrameWithin(e: Env, s: St, id: SessionId, epoch: nat, write: Write, d: nat)
    requires Within(s, d)
    ensures Within(HandleFrame(e, s, id, epoch, write), d)
  {
    hide Within, HandleEncoderClosed;
    EncoderWithin(e, s, id, d);
    if id in s.sessions && s.sessions[id].encoder.Some? {
      SessionAt(s, id, d);
      SessionStep(s, s.(sessions := s.sessions[id := Feed(s.sessions[id], epoch)]), id, d);
    }
  }

  lemma PlaybackWithin(e: Env, s: St, id: SessionId, playing: bool, lo: int, d: nat)
    requires Within(s, d) && Ranged(e, lo, d)
    ensures Within(SetPlayback(e, s, id, playing), d)
  {
    hide Within, Restart, LeaveGroup, MaybeStart, Send, NextGeneration;
    if id in s.sessions {
      var x := s.sessions[id];
      SessionAt(s, id, d);
      if playing {
        var s1 := s.(sessions := s.sessions[id := x.(wanted := true, attempts := 0)]);
        SessionStep(s, s1, id, d);
        RestartWithin(e, s1, id, lo, d);
      } else {
        var s1 := s.(sessions := s.sessions[id := x.(wanted := false, resetNeeded := true, observed := Unknown,
                                                     prepared := None, held := None, timer := None)]);
        SessionStep(s, s1, id, d);
        LeaveGroupWithin(e, s1, id, lo, d);
        GenerationWithin(LeaveGroup(e, s1, id), id, d);
        var s2 := NextGeneration(LeaveGroup(e, s1, id), id);
        SendWithin(s2, x.zone, Stop(id, |s2.issued|), d);
        MaybeStartWithin(e, Send(s2, x.zone, Stop(id, |s2.issued|)), false, lo, d);
      }
    }
  }

  lemma FlushWithin(e: Env, s: St, id: SessionId, epoch: nat, lo: int, d: nat)
    requires Within(s, d) && Ranged(e, lo, d)
    ensures Within(HandleFlush(e, s, id, epoch), d)
  {
    hide Within, Restart, SetPlayback;
    if id in s.sessions && epoch > s.sessions[id].epoch {
      var x := s.sessions[id];
      SessionAt(s, id, d);
      var y := if x.wanted then x.(epoch := epoch) else x.(epoch := epoch, encoder := None);
      var s1 := s.(sessions := s.sessions[id := y]);
      SessionStep(s, s1, id, d);
      RestartWithin(e, s1, id, lo, d);
      PlaybackWithin(e, s1, id, false, lo, d);
    }
  }

  lemma StopWithin(e: Env, s: St, id: SessionId, lo: int, d: nat)
    requires Within(s, d) && Ranged(e, lo, d)
    ensures Within(StopSession(e, s, id), d)
  {
    hide LeaveGroup, MaybeStart, Send;
    if id in s.sessions {
      var x := s.sessions[id];
      var s1 := s.(sessions := s.sessions - {id});
      assert Within(s1, d);
      LeaveGroupWithin(e, s1, id, lo, d);
      SendWithin(LeaveGroup(e, s1, id), x.zone, Stop(id, x.generation), d);
      MaybeStartWithin(e, Send(LeaveGroup(e, s1, id), x.zone, Stop(id, x.generation)), false, lo, d);
    }
  }

  lemma {:induction false} StopEachWithin(e: Env, s: St, ids: set<SessionId>, lo: int, d: nat)
    requires Within(s, d) && Ranged(e, lo, d)
    ensures Within(StopEach(e, s, ids), d)
    decreases ids
  {
    hide Within, StopSession;
    var id := e.choose(s.ticks, ids);
    if id in ids {
      SameWithin(s, Ticked(s), d);
      StopWithin(e, Ticked(s), id, lo, d);
      StopEachWithin(e, StopSession(e, Ticked(s), id), ids - {id}, lo, d);
    }
  }

  lemma StartWithin(e: Env, s: St, id: SessionId, zone: ZoneId, sender: Option<Sender>, lo: int, d: nat)
    requires Within(s, d) && Ranged(e, lo, d)
    ensures Within(StartSession(e, s, id, zone, sender), d)
  {
    hide Within, StopEach, Restart;
    var s1 := StopEach(e, s, SessionsIn(s, zone));
    StopEachWithin(e, s, SessionsIn(s, zone), lo, d);
    var s2 := s1.(sessions := s1.sessions[id := NewSession(zone, sender)]);
    SessionStep(s1, s2, id, d);
    RestartWithin(e, s2, id, lo, d);
  }

  lemma ChannelMoveWithin(ch: Channel, zone: ZoneId, move: Move, d: nat)
    requires ChannelWithin(ch, d) && CanMove(ch, move)
    ensures ChannelWithin(Moved(ch, zone, move), d)
  {
    hide CanMove, Moved, CommandWithin;
    MoveCommands(ch, zone, move);
  }

  /** A move takes commands away, and runs at most one of them. */
  lemma MoveCommands(ch: Channel, zone: ZoneId, move: Move)
    requires CanMove(ch, move)
    ensures var t := Moved(ch, zone, move);
            && (forall k :: 0 <= k < |t.unseen| ==> t.unseen[k] in ch.unseen)
            && (t.running.Some? ==> t.running == ch.running || t.running.value in ch.unseen)
  {
    if move.Looks? {
      var rest := ch.unseen[move.index + 1..];
      assert forall k :: 0 <= k < |rest| ==> rest[k] == ch.unseen[move.index + 1 + k];
    }
  }

  lemma MoveWithin(s: St, zone: ZoneId, move: Move, d: nat)
    requires Within(s, d) && zone in s.channels && CanMove(s.channels[zone], move)
    ensures Within(WithChannel(s, zone, Moved(s.channels[zone], zone, move)), d)
  {
    hide Moved, CanMove, ChannelWithin, SessionWithin;
    ChannelMoveWithin(s.channels[zone], zone, move, d);
  }

  lemma GroupPlayWithin(e: Env, s: St, zone: ZoneId, outcome: Outcome, d: nat)
    requires Within(s, d) && zone in s.channels && CanFinishGroup(s.channels[zone], outcome)
    ensures Within(FinishGroup(e, s, zone, outcome), d)
  {
    assert ChannelWithin(s.channels[zone], d);
  }

  lemma FireWithin(s: St, id: SessionId, d: nat)
    requires Within(s, d) && id in s.sessions && s.sessions[id].zone in s.channels && s.sessions[id].timer.Some?
    ensures Within(FireRetry(s, id), d)
  {
  }

  lemma StepWithin(e: Env, s: St, step: Step, lo: int, d: nat)
    requires Within(s, d) && Ranged(e, lo, d) && Enabled(e, s, step)
    ensures Within(Next(e, s, step), d)
  {
    hide Within, Ranged;
    hide StartSession, StopSession, SetPlayback, HandleFlush, HandleFrame, HandlePrepared, HandleResult,
         HandleRetry, FinishGroup, Take, MaybeStart;
    match step
    case SessionStarts(id, zone, sender) => StartWithin(e, s, id, zone, sender, lo, d);
    case SessionStops(id) => StopWithin(e, s, id, lo, d);
    case PlaybackChanges(id, playing) => PlaybackWithin(e, s, id, playing, lo, d);
    case Flushed(id, epoch) => FlushWithin(e, s, id, epoch, lo, d);
    case FrameArrives(id, epoch, write) => FrameWithin(e, s, id, epoch, write, d);
    case PreparedArrives(zone, id, g) =>
      TakeWithin(s, zone, Prepared(id, g), d);
      PreparedWithin(e, Take(s, zone, Prepared(id, g)), id, g, lo, d);
    case ResultArrives(zone, id, g, outcome) =>
      TakeWithin(s, zone, Result(id, g, outcome), d);
      ResultWithin(e, Take(s, zone, Result(id, g, outcome)), id, g, outcome, lo, d);
    case RetryArrives(zone, id, g) =>
      TakeWithin(s, zone, Retry(id, g), d);
      RetryWithin(e, Take(s, zone, Retry(id, g)), id, g, lo, d);
    case RetryTimerFires(id) => FireWithin(s, id, d);
    case WakeFires(due) =>
      MaybeStartWithin(e, s, false, lo, d);
      SameWithin(MaybeStart(e, s, false), HandleWake(e, s, due), d);
    case WorkerMoves(zone, move) => MoveWithin(s, zone, move, d);
    case GroupPlayEnds(zone, outcome) => GroupPlayWithin(e, s, zone, outcome, d);
  }

  lemma {:induction false} RunWithin(e: Env, s: St, steps: seq<Step>, lo: int, d: nat)
    requires Within(s, d) && Ranged(e, lo, d) && Possible(e, s, steps)
    ensures Within(Run(e, s, steps), d)
    decreases |steps|
  {
    hide Within, Ranged, Next, Enabled;
    if steps != [] {
      StepWithin(e, s, steps[0], lo, d);
      RunWithin(e, Next(e, s, steps[0]), steps[1..], lo, d);
    }
  }

  /** With a validated configuration, in every state that a run reaches, the input queue of
      every stream outlasts the start deadline, any delay, and 250 ms more. */
  lemma RunFitsQueue(e: Env, c: Delays.SyncConfig, rooms: map<ZoneId, Delays.Room>, steps: seq<Step>)
    requires Delays.Validated(c) && Possible(e, Init(e), steps)
    requires forall z :: e.offset(z) == if z in rooms then Delays.ConfiguredOffset(c, rooms[z]) else c.fallback
    ensures Within(Run(e, Init(e), steps), Delays.PcmQueueDuration(c) - c.deadline - 250)
  {
    hide Within, Run, Possible, Delays.ConfiguredOffset, Delays.Range;
    var lo := Delays.Range(c.offsets, c.fallback, c.fallback).0;
    forall z ensures lo <= e.offset(z) <= lo + Delays.Spread(c) {
      Delays.OffsetInRange(c, if z in rooms then rooms[z] else Delays.Room("", ""));
      Delays.FallbackInRange(c);
    }
    Delays.FallbackInRange(c);
    InitWithin(e, Delays.Spread(c));
    RunWithin(e, Init(e), steps, lo, Delays.Spread(c));
  }

  lemma InitWithin(e: Env, d: nat)
    ensures Within(Init(e), d)
  {
  }
}
