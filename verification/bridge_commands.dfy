/** What a release tells the rooms: each gets one start command, a room that joins is told the
    zone of the coordinator in whose group it now is, and no room is told to join itself. */
module BridgeCommands {
  import opened BridgeState
  import opened BridgeHandlers
  import opened BridgeRooms
  import opened BridgeCore
  import opened BridgeForest
  import opened BridgeRegroup
  import opened BridgeGroups
  import opened BridgeSystem

  /** The one command that the room of `p` has not seen starts that stream, and fits the groups. */
  ghost predicate Commanded(t: St, p: Stream) {
    && p.zone in t.channels && |t.channels[p.zone].unseen| == 1
    && var c := t.channels[p.zone].unseen[0];
       Starts(c, p) && if c.Join? then JoinsAt(t, p, c.coordinator) else !IsMember(t.groups, p.id)
  }

  /** In a release, each stream's room gets exactly the command that fits the new groups. */
  lemma PlayPreparedCommands(e: Env, s: St, list: seq<Stream>, exempt: set<SessionId>)
    requires ValidEnv(e) && Core(e, s, exempt + Ids(list)) && DistinctIds(list) && Forest(e, s)
    requires forall p :: p in list ==> Ready(s, p) && Ungrouped(s, p.id)
    ensures forall p :: p in list ==> Commanded(PlayPrepared(e, s, list), p)
  {
    hide Core, Shape, Ready, StartAll, IsMember, ValidEnv, RolesFit, PrepareLaunch, Forest, StartCommand;
    var (t, launch) := PrepareLaunch(e, s, list);
    var u := PlayPrepared(e, s, list);
    PrepareLaunchKeeps(e, s, list);
    PlanShape(e, s, list, exempt + Ids(list));
    OneZoneEach(e, s, exempt + Ids(list));
    RolesWait(e, s, list);
    forall p | p in list ensures p.zone in s.channels && s.channels[p.zone].unseen == [] && Wished(s, p) {
      ReadyRoom(s, p);
    }
    forall i, j | 0 <= i < j < |list| ensures list[i].zone != list[j].zone {
      ReadyRoom(s, list[i]);
      ReadyRoom(s, list[j]);
    }
    StartAllSends(e, t, t, launch, list);
    PlayPreparedIntent(e, s, list);
    forall p | p in list ensures Commanded(u, p) {
      ReadyRoom(s, p);
      PlannedCommand(e, s, t, launch, p);
      SameZones(s, u, t, p);
    }
  }

  /** The rooms of a release with joins all wait for those joins, under a number that no earlier
      release had. A WAV room that plays its own stream gets its delay along. */
  lemma ReleaseSharesWait(e: Env, s: St, list: seq<Stream>, exempt: set<SessionId>)
    requires ValidEnv(e) && Core(e, s, exempt + Ids(list)) && DistinctIds(list)
    requires forall p :: p in list ==> Ready(s, p)
    ensures var u := PlayPrepared(e, s, list);
            var (_, launch) := PrepareLaunch(e, s, list);
            launch.joins.Some? ==>
              && launch.joins.value == s.joins && u.joins == s.joins + 1
              && forall p :: p in list ==>
                   && p.zone in u.channels && |u.channels[p.zone].unseen| == 1
                   && var c := u.channels[p.zone].unseen[0];
                      && Starts(c, p) && (c.Join? || c.PlayGroup?) && c.joins == s.joins
                      && (c.PlayGroup? && e.wav ==> c.delay.Some?) && (p.id !in launch.roles ==> c.PlayGroup?)
  {
    hide Core, Ready, StartAll, PrepareLaunch, ValidEnv;
    var (t, launch) := PrepareLaunch(e, s, list);
    PrepareLaunchKeeps(e, s, list);
    LaunchJoins(e, s, list);
    OneZoneEach(e, s, exempt + Ids(list));
    ReleaseZones(s, list);
    StartAllSends(e, t, t, launch, list);
    StartAllJoins(e, t, t, launch, list);
    forall p | p in list ensures p.zone in s.channels {
      ReadyRoom(s, p);
    }
    forall p | p in list
      ensures Starts(StartCommand(e, t, launch, p), p)
              && (e.wav ==> DelayOf(e, t, launch.delays, launch.roles, p).Some?)
    {
      StartCommandOk(e, t, launch, p);
    }
  }

  lemma LaunchJoins(e: Env, s: St, list: seq<Stream>)
    ensures var (t, launch) := PrepareLaunch(e, s, list);
            launch.joins.Some? ==> launch.joins.value == s.joins && t.joins == s.joins + 1
  {
    hide CohortDelays, GroupAll;
    if e.nativeGroups {
      GroupAllKeeps(e, Grouping(s, map[]), list);
    }
  }

  lemma {:induction false} StartAllJoins(e: Env, before: St, s: St, launch: Launch, list: seq<Stream>)
    ensures StartAll(e, before, s, launch, list).joins == s.joins
    decreases |list|
  {
    if list != [] {
      SendJoins(e, before, s, launch, list[0]);
      StartAllJoins(e, before, StartOne(e, before, s, launch, list[0]), launch, list[1..]);
    }
  }

  lemma SendJoins(e: Env, before: St, s: St, launch: Launch, p: Stream)
    ensures StartOne(e, before, s, launch, p).joins == s.joins
  {
    hide DelayOf, StartCommand;
  }

  lemma SameZones(s: St, u: St, t: St, p: Stream)
    requires SameIntent(s, u) && t.sessions == s.sessions && u.groups == t.groups
    ensures forall target :: JoinsAt(t, p, target) ==> JoinsAt(u, p, target)
  {
    forall target | JoinsAt(t, p, target) ensures JoinsAt(u, p, target) {
      var c :| c in t.groups && p.id in t.groups[c] && c in t.sessions && t.sessions[c].zone == target;
      assert SameWish(s.sessions[c], u.sessions[c]);
    }
  }

  /** Whenever a run releases a cohort, the rooms that join do so where the coordinator of their
      group is, and the others are in no group. No room is told to join itself. */
  lemma ReleasesFitGroups(e: Env, steps: seq<Step>, p: Stream)
    requires ValidEnv(e) && Possible(e, Init(e), steps) && (e.clearFirst || CalmRun(e, Init(e), steps))
    requires var s := Run(e, Init(e), steps);
             s.cohorts != [] && p in StreamsOf(Pruned(s, s.cohorts[0]).sessions, Pruned(s, s.cohorts[0]).prepared)
    ensures var s := Run(e, Init(e), steps);
            var head := Pruned(s, s.cohorts[0]);
            Commanded(PlayPrepared(e, Ticked(s).(cohorts := s.cohorts[1..]), StreamsOf(head.sessions, head.prepared)),
                p)
  {
    hide Run, Possible, CalmRun, ValidEnv, Core, Forest, Distinct, Pruned, PlayPrepared, HasEntry, IsMember, Commanded;
    InitSound(e);
    InitForest(e);
    RunSound(e, Init(e), steps);
    if e.clearFirst {
      ClearFirstIsCalm(e, Init(e), steps);
    }
    RunForest(e, Init(e), steps);
    var s := Run(e, Init(e), steps);
    HeadCommands(e, s);
  }

  lemma HeadCommands(e: Env, s: St)
    requires ValidEnv(e) && Core(e, s, {}) && Distinct(s.cohorts) && Forest(e, s) && s.cohorts != []
    ensures var head := Pruned(s, s.cohorts[0]);
            var list := StreamsOf(head.sessions, head.prepared);
            forall p :: p in list ==> Commanded(PlayPrepared(e, Ticked(s).(cohorts := s.cohorts[1..]), list), p)
  {
    hide ValidEnv, Core, Distinct, Forest, HasEntry, PlayPrepared, Pruned, Idle, IsMember, Commanded;
    var head := Pruned(s, s.cohorts[0]);
    var rest := Ticked(s).(cohorts := s.cohorts[1..]);
    var list := StreamsOf(head.sessions, head.prepared);
    DropHead(e, s, rest, {});
    TailForest(e, s, rest, {});
    CoreStreams(e, s, {});
    HeadDistinct(s);
    forall p | p in list ensures Ready(rest, p) && Ungrouped(rest, p.id) {
      HeadReady(e, s, {}, p);
      HeadUngrouped(e, s, {}, p);
    }
    PlayPreparedCommands(e, rest, list, {});
  }
}
