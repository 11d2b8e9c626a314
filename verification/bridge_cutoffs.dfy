/** The streams of one release that wait for its joins, and play by themselves, begin at one source
    sample: from the release on, and in every later state. */
module BridgeCutoffs {
  import opened BridgeState
  import opened BridgeHandlers
  import opened BridgeRooms
  import opened BridgeCore
  import opened BridgeForest
  import opened BridgeHistory
  import opened BridgeGroups
  import opened BridgeSteps
  import opened BridgeWorker
  import opened BridgeSystem
  import opened BridgeRuns
  import opened BridgeCommands

  /** The room has still to run the command, or runs it. */
  predicate Told(ch: Channel, c: Command) {
    c in ch.unseen || ch.running == Some(c)
  }

  predicate ToldIn(s: St, zone: ZoneId, c: Command) {
    zone in s.channels && Told(s.channels[zone], c)
  }

  /** The sessions that have the generation hold no delay back. */
  predicate NoneHeld(s: St, g: nat) {
    forall id :: id in s.sessions && s.sessions[id].generation == g ==> s.sessions[id].held.None?
  }

  /** No stream has a plan or a held delay before its release, and none that waits for joins has a
      plan before it starts. */
  ghost predicate Unplanned(s: St) {
    && (forall g :: g in s.plans ==> g <= |s.issued|)
    && (forall id :: id in s.sessions && Unready(s, id) ==>
          s.sessions[id].generation !in s.plans && s.sessions[id].held.None?)
    && (forall z, c: Command :: c.PlayGroup? && ToldIn(s, z, c) ==>
          c.generation !in s.plans && NoneHeld(s, c.generation))
  }

  /** Stream `g` was released to wait for `joins`, and has no other plan than theirs. */
  ghost predicate Launched(s: St, g: nat, joins: nat) {
    && g <= |s.issued|
    && (forall z, c: Command :: c.PlayGroup? && c.generation == g && ToldIn(s, z, c) ==> c.joins == joins)
    && (g in s.plans ==> s.plans[g].group == Some(joins))
    && NoneHeld(s, g)
    && (forall id :: id in s.sessions && s.sessions[id].generation == g ==> !Unready(s, id))
  }

  // ---- One start for each stream ----

  lemma ToldIssued(e: Env, s: St, zone: ZoneId, c: Command)
    requires Core(e, s, {}) && ToldIn(s, zone, c)
    ensures Issued(s.issued, zone, c.id, c.generation)
    ensures ChannelOk(IsSonos(e, zone), e.wav, s.channels[zone], s.plans)
  {
    hide Rooms, Sessions, Streams, ChannelOk, Issued;
  }

  lemma OneStart(e: Env, s: St, y: ZoneId, c: Command, z: ZoneId, d: Command)
    requires Core(e, s, {}) && ToldIn(s, y, c) && ToldIn(s, z, d) && IsStart(c) && IsStart(d)
    requires c.generation == d.generation
    ensures y == z && c == d
  {
    hide Core;
    ToldIssued(e, s, y, c);
    ToldIssued(e, s, z, d);
  }

  lemma OwnerIssued(e: Env, s: St, id: SessionId)
    requires Core(e, s, {}) && id in s.sessions
    ensures Issued(s.issued, s.sessions[id].zone, id, s.sessions[id].generation) && s.sessions[id].zone in s.channels
  {
    hide Core, Issued;
    CoreAt(e, s, id, {});
    SettledGeneration(e, s, id);
  }

  /** A stream whose start is under way has been released. */
  lemma StartedReady(e: Env, s: St, zone: ZoneId, c: Command, id: SessionId)
    requires Core(e, s, {}) && ToldIn(s, zone, c) && IsStart(c)
    requires id in s.sessions && s.sessions[id].generation == c.generation
    ensures !Unready(s, id)
  {
    hide Core, Entry, ChannelOk, Bounded;
    ToldIssued(e, s, zone, c);
    OwnerIssued(e, s, id);
    CoreAt(e, s, id, {});
    ToldReleased(e.wav, id, s.sessions[id], s.channels[zone], Entry(s, id), s.sessions[id].generation in s.plans, c);
  }

  lemma ToldReleased(wav: bool, id: SessionId, x: Session, ch: Channel, entry: bool, planned: bool, c: Command)
    requires RoomOk(wav, id, x, ch, entry, planned, true) && Told(ch, c) && IsStart(c)
    requires c.id == id && c.generation == x.generation
    ensures !Unreleased(id, x, ch, entry)
  {
  }

  lemma FreshIssued(e: Env, s: St, zone: ZoneId, c: Command)
    requires Core(e, s, {}) && FreshStart(s, zone, c)
    ensures 1 <= c.generation <= |s.issued| && Issued(s.issued, zone, c.id, c.generation)
  {
    hide Core;
    OwnerIssued(e, s, c.id);
  }

  lemma SameOwner(e: Env, s: St, i: SessionId, j: SessionId)
    requires Core(e, s, {}) && i in s.sessions && j in s.sessions
    requires s.sessions[i].generation == s.sessions[j].generation
    ensures i == j
  {
    hide Core;
    OwnerIssued(e, s, i);
    OwnerIssued(e, s, j);
  }

  // ---- A handler ----

  /** A handler took the bridge from `s` to `t`. */
  ghost predicate Handled(e: Env, s: St, t: St) {
    && Core(e, s, {}) && Core(e, t, {}) && s.issued <= t.issued
    && Sends(s, t) && AllTurn(s, t) && Tells(s, t)
  }

  lemma SentFits(s: St, t: St, zone: ZoneId, c: Command)
    requires Sends(s, t) && SentNew(s, t, zone, c)
    ensures ToldIn(t, zone, c) && Sendable(s, zone, c)
  {
    hide Sendable;
    assert SentIn(s, zone, s.channels[zone], t.channels[zone]);
    assert t.channels[zone].unseen[|s.channels[zone].unseen|..] <= t.channels[zone].unseen[|s.channels[zone].unseen|..];
  }

  /** A command is new, or the room was told before. */
  lemma ToldBefore(s: St, t: St, zone: ZoneId, c: Command)
    requires Sends(s, t) && ToldIn(t, zone, c)
    ensures ToldIn(s, zone, c) || SentNew(s, t, zone, c)
  {
    hide Sendable;
    assert SentIn(s, zone, s.channels[zone], t.channels[zone]);
    var a, b := s.channels[zone].unseen, t.channels[zone].unseen;
    assert b == a + b[|a|..];
  }

  /** A generation that was issued before and is not released now was not released before. */
  lemma UnreadyBack(e: Env, s: St, t: St, id: SessionId)
    requires Handled(e, s, t) && id in t.sessions && Unready(t, id) && t.sessions[id].generation <= |s.issued|
    ensures id in s.sessions && s.sessions[id].generation == t.sessions[id].generation && Unready(s, id)
  {
    hide Core, Sendable, HasEntry, SentNew, PlanTold, JoinSent;
    OwnerIssued(e, t, id);
    assert Turns(s, t, id) && WaitTold(s, t, id);
    OwnerIssued(e, s, id);
    if !t.sessions[id].wanted {
      UnwantedNoEntry(e, t, id);
    }
    var zone, g := t.sessions[id].zone, t.sessions[id].generation;
    assert SentIn(s, zone, s.channels[zone], t.channels[zone]);
    if !Entry(t, id) {
      NotSentAnew(s, zone, s.channels[zone], t.channels[zone], id, g);
    }
  }

  lemma NotSentAnew(s: St, zone: ZoneId, a: Channel, b: Channel, id: SessionId, g: nat)
    requires SentIn(s, zone, a, b) && g <= |s.issued|
    ensures b.unseen != [] && Last(b.unseen) == Prepare(id, g) ==> a.unseen != [] && Last(a.unseen) == Prepare(id, g)
    ensures b.running == a.running && (Prepared(id, g) in b.bag ==> Prepared(id, g) in a.bag)
  {
    hide FreshStart, Unready;
    if |b.unseen| > |a.unseen| {
      assert Sendable(s, zone, b.unseen[|a.unseen|..][|b.unseen| - |a.unseen| - 1]);
    }
  }

  /** Where a new plan or a newly held delay comes from. */
  lemma PlanComes(e: Env, s: St, t: St, g: nat) returns (zone: ZoneId, id: SessionId)
    requires Handled(e, s, t) && g in t.plans && !SamePlan(s, t, g)
    ensures SentNew(s, t, zone, Play(id, g)) && FreshStart(s, zone, Play(id, g)) && ToldIn(t, zone, Play(id, g))
    ensures id in s.sessions && s.sessions[id].generation == g && (Unready(s, id) || s.sessions[id].held.Some?)
  {
    hide Core, Unready, AllTurn, FreshStart, SentNew;
    assert PlanTold(s, t, g);
    zone, id :| SentNew(s, t, zone, Play(id, g)) && id in s.sessions && s.sessions[id].generation == g
                && (Unready(s, id) || s.sessions[id].held.Some?);
    SentFits(s, t, zone, Play(id, g));
  }

  lemma HeldComes(e: Env, s: St, t: St, id: SessionId) returns (zone: ZoneId, c: Command)
    requires Handled(e, s, t) && id in t.sessions && t.sessions[id].held.Some? && !StillHeld(s, t, id)
    ensures c.Join? && c.generation == t.sessions[id].generation && FreshStart(s, zone, c) && ToldIn(t, zone, c)
    ensures c.id in s.sessions && s.sessions[c.id].generation == c.generation && Unready(s, c.id)
  {
    hide Core, Unready, AllTurn, SentNew;
    assert JoinSent(s, t, t.sessions[id].generation);
    zone, c :| SentNew(s, t, zone, c) && c.Join? && c.generation == t.sessions[id].generation;
    SentFits(s, t, zone, c);
  }

  lemma HandlerPlans(e: Env, s: St, t: St, g: nat)
    requires Handled(e, s, t) && Unplanned(s) && g in t.plans
    ensures g <= |s.issued|
  {
    hide Core, Sends, AllTurn, Tells, FreshStart;
    if !SamePlan(s, t, g) {
      var zone, id := PlanComes(e, s, t, g);
      FreshIssued(e, s, zone, Play(id, g));
    }
  }

  lemma HandlerUnready(e: Env, s: St, t: St, id: SessionId)
    requires Handled(e, s, t) && Unplanned(s) && id in t.sessions && Unready(t, id)
    ensures t.sessions[id].generation !in t.plans && t.sessions[id].held.None?
  {
    hide Core, Sends, AllTurn, Tells, FreshStart, Unready;
    var g := t.sessions[id].generation;
    if g in t.plans {
      HandlerPlans(e, s, t, g);
      UnreadyBack(e, s, t, id);
      var zone, i := PlanComes(e, s, t, g);
      StartedReady(e, t, zone, Play(i, g), id);
    }
    if t.sessions[id].held.Some? {
      if StillHeld(s, t, id) {
        OwnerIssued(e, s, id);
        UnreadyBack(e, s, t, id);
      } else {
        var zone, c := HeldComes(e, s, t, id);
        StartedReady(e, t, zone, c, id);
      }
    }
  }

  lemma HandlerTold(e: Env, s: St, t: St, zone: ZoneId, c: Command)
    requires Handled(e, s, t) && Unplanned(s) && c.PlayGroup? && ToldIn(t, zone, c)
    ensures c.generation !in t.plans && NoneHeld(t, c.generation)
  {
    hide Core, Sends, AllTurn, Tells, FreshStart, Unready, Told, NoneHeld;
    var g := c.generation;
    ToldBeforeHandled(e, s, t, zone, c);
    if g in t.plans {
      var z, i := PlanComes(e, s, t, g);
      OneStart(e, t, zone, c, z, Play(i, g));
    }
    forall id | id in t.sessions && t.sessions[id].generation == g ensures t.sessions[id].held.None? {
      HandlerToldHeld(e, s, t, zone, c, id);
    }
    HeldNone(t, g);
  }

  lemma HeldNone(s: St, g: nat)
    requires forall id :: id in s.sessions && s.sessions[id].generation == g ==> s.sessions[id].held.None?
    ensures NoneHeld(s, g)
  {
  }

  /** The stream of a command that tells to wait had no plan before, and held no delay. */
  lemma ToldBeforeHandled(e: Env, s: St, t: St, zone: ZoneId, c: Command)
    requires Handled(e, s, t) && Unplanned(s) && c.PlayGroup? && ToldIn(t, zone, c)
    ensures c.generation !in s.plans && NoneHeld(s, c.generation)
  {
    hide Core, AllTurn, Tells, FreshStart, Unready, Told;
    ToldBefore(s, t, zone, c);
    if !ToldIn(s, zone, c) {
      SentFits(s, t, zone, c);
      FreshSession(s, zone, c);
      forall id | id in s.sessions && s.sessions[id].generation == c.generation ensures s.sessions[id].held.None? {
        SameOwner(e, s, id, c.id);
      }
    }
  }

  lemma FreshSession(s: St, zone: ZoneId, c: Command)
    requires FreshStart(s, zone, c)
    ensures c.id in s.sessions && s.sessions[c.id].generation == c.generation
  {
  }

  lemma HandlerToldHeld(e: Env, s: St, t: St, zone: ZoneId, c: Command, id: SessionId)
    requires Handled(e, s, t) && Unplanned(s) && c.PlayGroup? && ToldIn(t, zone, c)
    requires id in t.sessions && t.sessions[id].generation == c.generation
    ensures t.sessions[id].held.None?
  {
    hide Core, Sends, AllTurn, Tells, FreshStart, Unready, Told;
    ToldBeforeHandled(e, s, t, zone, c);
    if t.sessions[id].held.Some? && !StillHeld(s, t, id) {
      var z, d := HeldComes(e, s, t, id);
      OneStart(e, t, zone, c, z, d);
    }
  }

  lemma HandlerUnplanned(e: Env, s: St, t: St)
    requires Handled(e, s, t) && Unplanned(s)
    ensures Unplanned(t)
  {
    hide Core, Sends, AllTurn, Tells, Unready, Told, NoneHeld, Handled;
    forall g | g in t.plans ensures g <= |t.issued| {
      HandlerPlans(e, s, t, g);
      HandledIssued(e, s, t);
    }
    forall id | id in t.sessions && Unready(t, id)
      ensures t.sessions[id].generation !in t.plans && t.sessions[id].held.None?
    {
      HandlerUnready(e, s, t, id);
    }
    forall z, c: Command | c.PlayGroup? && ToldIn(t, z, c)
      ensures c.generation !in t.plans && NoneHeld(t, c.generation)
    {
      HandlerTold(e, s, t, z, c);
    }
  }

  lemma HandledIssued(e: Env, s: St, t: St)
    requires Handled(e, s, t)
    ensures |s.issued| <= |t.issued|
  {
    hide Core, Sends, AllTurn, Tells;
  }

  lemma HandlerLaunched(e: Env, s: St, t: St, g: nat, joins: nat)
    requires Handled(e, s, t) && Launched(s, g, joins)
    ensures Launched(t, g, joins)
  {
    hide Core, Sends, AllTurn, Tells, Unready, Told, FreshStart, NoneHeld;
    HandledIssued(e, s, t);
    forall z, c: Command | c.PlayGroup? && c.generation == g && ToldIn(t, z, c) ensures c.joins == joins {
      ToldBefore(s, t, z, c);
      if !ToldIn(s, z, c) {
        SentFits(s, t, z, c);
        FreshSession(s, z, c);
      }
    }
    if g in t.plans && !SamePlan(s, t, g) {
      var zone, id := PlanComes(e, s, t, g);
      HeldAt(s, g, id);
    }
    forall id | id in t.sessions && t.sessions[id].generation == g
      ensures !Unready(t, id) && t.sessions[id].held.None?
    {
      if Unready(t, id) {
        UnreadyBack(e, s, t, id);
      }
      if t.sessions[id].held.Some? {
        if StillHeld(s, t, id) {
          HeldAt(s, g, id);
        } else {
          var z, c := HeldComes(e, s, t, id);
        }
      }
    }
    HeldNone(t, g);
  }

  lemma HeldAt(s: St, g: nat, id: SessionId)
    requires NoneHeld(s, g) && id in s.sessions && s.sessions[id].generation == g
    ensures s.sessions[id].held.None?
  {
  }

  // ---- A worker ----

  /** A worker of `zone` took the bridge from `s` to `t`, but for its plans. */
  ghost predicate Worked(e: Env, s: St, t: St) {
    && Core(e, s, {}) && t.sessions == s.sessions && t.issued == s.issued
    && (forall z, c :: ToldIn(t, z, c) ==> ToldIn(s, z, c))
    && (forall id :: id in t.sessions && Unready(t, id) ==> Unready(s, id))
  }

  lemma WorkedUnplanned(e: Env, s: St, t: St)
    requires Worked(e, s, t) && Unplanned(s) && t.plans == s.plans
    ensures Unplanned(t)
  {
    hide Core, Unready, ToldIn;
  }

  lemma WorkedLaunched(e: Env, s: St, t: St, g: nat, joins: nat)
    requires Worked(e, s, t) && Launched(s, g, joins) && t.plans == s.plans
    ensures Launched(t, g, joins)
  {
    hide Core, Unready, ToldIn;
  }

  lemma MoveTold(ch: Channel, zone: ZoneId, move: Move, c: Command)
    requires CanMove(ch, move) && Told(Moved(ch, zone, move), c)
    ensures Told(ch, c)
  {
  }

  lemma MoveWorked(e: Env, s: St, zone: ZoneId, move: Move)
    requires Core(e, s, {}) && zone in s.channels && CanMove(s.channels[zone], move)
    ensures var t := WithChannel(s, zone, Moved(s.channels[zone], zone, move)); Worked(e, s, t) && t.plans == s.plans
  {
    hide Core, CanMove, Moved, Told, Unreleased, HasEntry, RoomOk, ChannelOk, Bounded;
    var t := WithChannel(s, zone, Moved(s.channels[zone], zone, move));
    forall z, c | ToldIn(t, z, c) ensures ToldIn(s, z, c) {
      if z == zone {
        MoveTold(s.channels[zone], zone, move, c);
      }
    }
    forall id | id in t.sessions && Unready(t, id) ensures Unready(s, id) {
      if s.sessions[id].zone == zone {
        CoreAt(e, s, id, {});
        MoveUnreleased(e.wav, id, s.sessions[id], s.channels[zone], Entry(s, id), s.sessions[id].generation in s.plans,
            move);
      }
    }
  }

  lemma GroupWorked(e: Env, s: St, zone: ZoneId, outcome: Outcome)
    requires Core(e, s, {}) && zone in s.channels && CanFinishGroup(s.channels[zone], outcome)
    ensures Worked(e, s, FinishGroup(e, s, zone, outcome))
  {
    hide Core, HasEntry;
    var t := FinishGroup(e, s, zone, outcome);
    forall z, c | ToldIn(t, z, c) ensures ToldIn(s, z, c) {
    }
    forall id | id in t.sessions && Unready(t, id) ensures Unready(s, id) {
    }
  }

  /** The plan that a start gets when it ends begins at the release time of its wait. */
  lemma GroupPlanned(e: Env, s: St, zone: ZoneId, outcome: Outcome)
    requires zone in s.channels && CanFinishGroup(s.channels[zone], outcome)
    ensures var c := s.channels[zone].running.value;
            var t := FinishGroup(e, s, zone, outcome);
            && c.PlayGroup? && ToldIn(s, zone, c)
            && t.channels[zone].running.None? && t.channels[zone].unseen == s.channels[zone].unseen
            && (forall g :: g in t.plans && g != c.generation ==> g in s.plans && t.plans[g] == s.plans[g])
            && (c.generation in t.plans ==>
                  (c.generation in s.plans && t.plans[c.generation] == s.plans[c.generation])
                  || t.plans[c.generation].group == Some(c.joins))
            && (c.joins in s.released ==> c.joins in t.released && t.released[c.joins] == s.released[c.joins])
            && (c.delay.Some? ==>
                  && c.generation in t.plans && c.joins in t.released
                  && t.plans[c.generation] ==
                     Plan(t.released[c.joins] + SYNC_START_LEAD, c.delay.value, Some(c.joins)))
  {
  }

  lemma GroupUnplanned(e: Env, s: St, zone: ZoneId, outcome: Outcome)
    requires Core(e, s, {}) && zone in s.channels && CanFinishGroup(s.channels[zone], outcome) && Unplanned(s)
    ensures Unplanned(FinishGroup(e, s, zone, outcome))
  {
    hide Core, Unready, FinishGroup, NoneHeld, Told;
    var t := FinishGroup(e, s, zone, outcome);
    var c := s.channels[zone].running.value;
    GroupWorked(e, s, zone, outcome);
    GroupPlanned(e, s, zone, outcome);
    ToldIssued(e, s, zone, c);
    forall id | id in t.sessions && Unready(t, id)
      ensures t.sessions[id].generation !in t.plans && t.sessions[id].held.None?
    {
      if s.sessions[id].generation == c.generation {
        StartedReady(e, s, zone, c, id);
      }
    }
    forall z, d: Command | d.PlayGroup? && ToldIn(t, z, d)
      ensures d.generation !in t.plans && NoneHeld(t, d.generation)
    {
      SameHeld(s, t, d.generation);
      if d.generation == c.generation {
        OneStart(e, s, zone, c, z, d);
        StartsFirst(IsSonos(e, zone), e.wav, s.channels[zone], s.plans, t.channels[zone], c);
      }
    }
  }

  lemma SameHeld(s: St, t: St, g: nat)
    requires t.sessions == s.sessions
    ensures NoneHeld(t, g) == NoneHeld(s, g)
  {
  }

  /** A start that ran is not under way again. */
  lemma StartsFirst(sonos: bool, wav: bool, ch: Channel, plans: map<nat, Plan>, after: Channel, c: Command)
    requires ChannelOk(sonos, wav, ch, plans) && ch.running == Some(c) && IsStart(c)
    requires after.running.None? && after.unseen == ch.unseen
    ensures !Told(after, c)
  {
  }

  lemma GroupLaunched(e: Env, s: St, zone: ZoneId, outcome: Outcome, g: nat, joins: nat)
    requires Core(e, s, {}) && zone in s.channels && CanFinishGroup(s.channels[zone], outcome)
    requires Launched(s, g, joins)
    ensures Launched(FinishGroup(e, s, zone, outcome), g, joins)
  {
    hide Core, Unready, FinishGroup, NoneHeld, ToldIn;
    GroupWorked(e, s, zone, outcome);
    GroupPlanned(e, s, zone, outcome);
    SameHeld(s, FinishGroup(e, s, zone, outcome), g);
  }

  // ---- Runs ----

  lemma StepUnplanned(e: Env, s: St, step: Step)
    requires ValidEnv(e) && Sound(e, s) && Enabled(e, s, step) && Unplanned(s)
    ensures Unplanned(Next(e, s, step))
  {
    hide ValidEnv, Core, Queue, SharedCutoffs, Sends, AllTurn, Tells, Unplanned, CanMove, Moved, FinishGroup,
         CanFinishGroup, StartSession, StopSession, SetPlayback, HandleFlush, HandleFrame, HandlePrepared,
         HandleResult, HandleRetry, HandleWake;
    match step
    case WorkerMoves(zone, move) =>
      MoveWorked(e, s, zone, move);
      WorkedUnplanned(e, s, Next(e, s, step));
    case GroupPlayEnds(zone, outcome) => GroupUnplanned(e, s, zone, outcome);
    case _ =>
      StepHandled(e, s, step);
      HandlerUnplanned(e, s, Next(e, s, step));
  }

  lemma StepHandled(e: Env, s: St, step: Step)
    requires ValidEnv(e) && Sound(e, s) && Enabled(e, s, step) && !OfWorker(step)
    ensures Handled(e, s, Next(e, s, step))
  {
    hide ValidEnv, Core, Queue, SharedCutoffs, Sends, AllTurn, Tells, Next, Enabled;
    HandlerTurns(e, s, step);
    StepSound(e, s, step);
  }

  lemma StepLaunched(e: Env, s: St, step: Step, g: nat, joins: nat)
    requires ValidEnv(e) && Sound(e, s) && Enabled(e, s, step) && Launched(s, g, joins)
    ensures Launched(Next(e, s, step), g, joins)
  {
    hide ValidEnv, Core, Queue, SharedCutoffs, Sends, AllTurn, Tells, Launched, CanMove, Moved, FinishGroup,
         CanFinishGroup, StartSession, StopSession, SetPlayback, HandleFlush, HandleFrame, HandlePrepared,
         HandleResult, HandleRetry, HandleWake;
    match step
    case WorkerMoves(zone, move) =>
      MoveWorked(e, s, zone, move);
      WorkedLaunched(e, s, Next(e, s, step), g, joins);
    case GroupPlayEnds(zone, outcome) => GroupLaunched(e, s, zone, outcome, g, joins);
    case _ =>
      StepHandled(e, s, step);
      HandlerLaunched(e, s, Next(e, s, step), g, joins);
  }

  lemma {:induction false} RunUnplanned(e: Env, s: St, steps: seq<Step>)
    requires ValidEnv(e) && Sound(e, s) && Possible(e, s, steps) && Unplanned(s)
    ensures Unplanned(Run(e, s, steps))
    decreases |steps|
  {
    hide ValidEnv, Sound, Next, Enabled, Unplanned;
    if steps != [] {
      StepSound(e, s, steps[0]);
      StepUnplanned(e, s, steps[0]);
      RunUnplanned(e, Next(e, s, steps[0]), steps[1..]);
    }
  }

  lemma {:induction false} RunLaunched(e: Env, s: St, steps: seq<Step>, g: nat, joins: nat)
    requires ValidEnv(e) && Sound(e, s) && Possible(e, s, steps) && Launched(s, g, joins)
    ensures Launched(Run(e, s, steps), g, joins)
    decreases |steps|
  {
    hide ValidEnv, Sound, Next, Enabled, Launched;
    if steps != [] {
      StepSound(e, s, steps[0]);
      StepLaunched(e, s, steps[0], g, joins);
      RunLaunched(e, Next(e, s, steps[0]), steps[1..], g, joins);
    }
  }

  lemma InitUnplanned(e: Env)
    ensures Unplanned(Init(e))
  {
  }

  /** The room of a stream is told to wait for joins: it was released, and has no plan yet. */
  lemma ToldLaunched(e: Env, s: St, zone: ZoneId, c: Command)
    requires Core(e, s, {}) && Unplanned(s) && c.PlayGroup? && ToldIn(s, zone, c)
    ensures Launched(s, c.generation, c.joins)
  {
    hide Core, Unready, Told, NoneHeld;
    ToldIssued(e, s, zone, c);
    forall z, d: Command | d.PlayGroup? && d.generation == c.generation && ToldIn(s, z, d) ensures d.joins == c.joins {
      OneStart(e, s, zone, c, z, d);
    }
    forall id | id in s.sessions && s.sessions[id].generation == c.generation ensures !Unready(s, id) {
      StartedReady(e, s, zone, c, id);
    }
  }

  lemma LaunchedPlan(e: Env, s: St, g: nat, joins: nat)
    requires Sound(e, s) && Launched(s, g, joins) && g in s.plans
    ensures s.plans[g].group == Some(joins) && joins in s.released
    ensures s.plans[g].cutoff == s.released[joins] + SYNC_START_LEAD
  {
    hide Core, Queue, Unready;
  }

  /** Two rooms that a release told to wait for the same joins: in every later state in which their
      streams have plans, those begin at one source sample, the release time of that wait. */
  lemma ReleasedTogether(e: Env, before: seq<Step>, after: seq<Step>, y: ZoneId, c: Command, z: ZoneId, d: Command)
    requires ValidEnv(e) && Possible(e, Init(e), before) && Possible(e, Run(e, Init(e), before), after)
    requires var s := Run(e, Init(e), before);
             c.PlayGroup? && d.PlayGroup? && c.joins == d.joins && ToldIn(s, y, c) && ToldIn(s, z, d)
    ensures var t := Run(e, Run(e, Init(e), before), after);
            c.generation in t.plans && d.generation in t.plans ==>
              && t.plans[c.generation].cutoff == t.plans[d.generation].cutoff
              && c.joins in t.released && t.plans[c.generation].cutoff == t.released[c.joins] + SYNC_START_LEAD
  {
    hide Run, Possible, ValidEnv, Sound, Unplanned, Launched, ToldIn;
    InitSound(e);
    InitUnplanned(e);
    RunSound(e, Init(e), before);
    RunUnplanned(e, Init(e), before);
    var s := Run(e, Init(e), before);
    RunSound(e, s, after);
    var t := Run(e, s, after);
    SoundCore(e, s);
    ToldLaunched(e, s, y, c);
    ToldLaunched(e, s, z, d);
    RunLaunched(e, s, after, c.generation, c.joins);
    RunLaunched(e, s, after, d.generation, d.joins);
    if c.generation in t.plans && d.generation in t.plans {
      LaunchedPlan(e, t, c.generation, c.joins);
      LaunchedPlan(e, t, d.generation, d.joins);
    }
  }

  /** A release, wherever a handler nests it, and the state `t` in which that handler ends: the room of
      a stream that plays by itself is told to wait for the joins. */
  lemma ReleaseTold(e: Env, s: St, list: seq<Stream>, exempt: set<SessionId>, t: St, p: Stream) returns (c: Command)
    requires ValidEnv(e) && Core(e, s, exempt + Ids(list)) && DistinctIds(list) && forall r :: r in list ==> Ready(s, r)
    requires var (_, launch) := PrepareLaunch(e, s, list); launch.joins.Some? && p.id !in launch.roles
    requires p in list && Appends(PlayPrepared(e, s, list), t)
    ensures c.PlayGroup? && c.generation == p.generation && c.joins == s.joins && ToldIn(t, p.zone, c)
  {
    hide ValidEnv, Core, Ready, PrepareLaunch, StartAll, Commits;
    ReleaseSharesWait(e, s, list, exempt);
    var u := PlayPrepared(e, s, list);
    c := u.channels[p.zone].unseen[0];
    assert Appended(u, p.zone, u.channels[p.zone], t.channels[p.zone]);
    assert t.channels[p.zone].unseen[0] == c;
  }

  /** The streams of one release that play by themselves: in every later state in which they have
      plans, those begin at one source sample. */
  lemma ReleaseStartsTogether(e: Env, s: St, list: seq<Stream>, exempt: set<SessionId>, p: Stream, q: Stream,
                              before: seq<Step>, after: seq<Step>)
    requires ValidEnv(e) && Core(e, s, exempt + Ids(list)) && DistinctIds(list) && forall r :: r in list ==> Ready(s, r)
    requires var (_, launch) := PrepareLaunch(e, s, list);
             launch.joins.Some? && p.id !in launch.roles && q.id !in launch.roles
    requires Possible(e, Init(e), before) && Possible(e, Run(e, Init(e), before), after)
    requires p in list && q in list && Appends(PlayPrepared(e, s, list), Run(e, Init(e), before))
    ensures var t := Run(e, Run(e, Init(e), before), after);
            p.generation in t.plans && q.generation in t.plans ==>
              t.plans[p.generation].cutoff == t.plans[q.generation].cutoff
  {
    hide Run, Possible, ValidEnv, Core, Ready, PrepareLaunch, PlayPrepared, Appends, ToldIn;
    var c := ReleaseTold(e, s, list, exempt, Run(e, Init(e), before), p);
    var d := ReleaseTold(e, s, list, exempt, Run(e, Init(e), before), q);
    ReleasedTogether(e, before, after, p.zone, c, q.zone, d);
  }

  lemma SoundCore(e: Env, s: St)
    requires Sound(e, s)
    ensures Core(e, s, {})
  {
  }
}
