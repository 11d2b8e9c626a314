/** What a release makes of its rooms: those that play their own streams are aligned, each is told
    its delay, and rooms of one sender share a group. */
module BridgeAlignment {
  import opened BridgeState
  import opened BridgeHandlers
  import opened BridgeRooms
  import opened BridgeCore
  import opened BridgeForest
  import opened BridgeSystem
  import Delays

  // ---- Roles ----

  predicate SonosRoom(e: Env, all: seq<Stream>, m: SessionId) {
    exists p :: p in all && p.id == m && IsSonos(e, p.zone)
  }

  /** Every role is that of a new member, and of a Sonos room of the release. */
  ghost predicate RolesJoin(e: Env, g: Grouping, all: seq<Stream>) {
    forall m :: m in g.roles ==>
      && g.roles[m] in g.st.groups && m in g.st.groups[g.roles[m]]
      && SonosRoom(e, all, m)
  }

  lemma AddRoles(e: Env, g: Grouping, c: SessionId, members: seq<SessionId>, all: seq<Stream>)
    requires RolesJoin(e, g, all) && forall m :: m in members ==> SonosRoom(e, all, m)
    ensures RolesJoin(e, AddToGroup(g, c, members), all)
  {
    hide SonosRoom;
  }

  lemma GroupSenderRoles(e: Env, g: Grouping, sender: Sender, members: seq<SessionId>, all: seq<Stream>)
    requires members != [] && RolesJoin(e, g, all)
    requires forall m :: m in members ==> SonosRoom(e, all, m)
    ensures RolesJoin(e, GroupSender(e, g, sender, members), all)
  {
    hide Preferred, AddToGroup, SonosRoom;
    AddRoles(e, g.(st := Ticked(g.st)), e.choose(g.st.ticks, Preferred(e, g.st, sender)), members, all);
    AddRoles(e, g, members[0], members[1..], all);
  }

  lemma {:induction false} GroupAllRoles(e: Env, g: Grouping, list: seq<Stream>, all: seq<Stream>)
    requires RolesJoin(e, g, all) && forall p :: p in list ==> p in all
    ensures RolesJoin(e, GroupAll(e, g, list), all)
    decreases |list|
  {
    hide GroupSender, RolesJoin;
    if list != [] {
      match StreamSender(e, g.st, list[0])
      case None => GroupAllRoles(e, g, list[1..], all);
      case Some(sender) =>
        var members := SameSender(e, g.st, list, sender);
        assert list[0].id in members;
        forall m | m in members ensures SonosRoom(e, all, m) {
          var p :| p in list && p.id == m && StreamSender(e, g.st, p) == Some(sender);
        }
        GroupSenderRoles(e, g, sender, members, all);
        GroupAllRoles(e, GroupSender(e, g, sender, members), OtherSenders(e, g.st, list, sender), all);
    }
  }

  /** Whoever is a member was one before, or has a role. */
  ghost predicate MembersFrom(before: map<SessionId, seq<SessionId>>, g: Grouping) {
    forall m :: IsMember(g.st.groups, m) ==> IsMember(before, m) || m in g.roles
  }

  lemma AddFrom(before: map<SessionId, seq<SessionId>>, g: Grouping, c: SessionId, members: seq<SessionId>)
    requires MembersFrom(before, g)
    ensures MembersFrom(before, AddToGroup(g, c, members))
  {
    var r := AddToGroup(g, c, members);
    forall m | IsMember(r.st.groups, m) ensures IsMember(before, m) || m in r.roles {
      var d :| d in r.st.groups && m in r.st.groups[d];
      assert m in members || (d in g.st.groups && m in g.st.groups[d]);
    }
  }

  lemma GroupSenderFrom(e: Env, before: map<SessionId, seq<SessionId>>, g: Grouping, sender: Sender,
                        members: seq<SessionId>)
    requires members != [] && MembersFrom(before, g)
    ensures MembersFrom(before, GroupSender(e, g, sender, members))
  {
    hide Preferred, AddToGroup, IsMember;
    AddFrom(before, g.(st := Ticked(g.st)), e.choose(g.st.ticks, Preferred(e, g.st, sender)), members);
    AddFrom(before, g, members[0], members[1..]);
  }

  lemma {:induction false} GroupAllFrom(e: Env, before: map<SessionId, seq<SessionId>>, g: Grouping, list: seq<Stream>)
    requires MembersFrom(before, g)
    ensures MembersFrom(before, GroupAll(e, g, list))
    decreases |list|
  {
    hide GroupSender, StreamSender, MembersFrom;
    if list != [] {
      match StreamSender(e, g.st, list[0])
      case None => GroupAllFrom(e, before, g, list[1..]);
      case Some(sender) =>
        var members := SameSender(e, g.st, list, sender);
        assert list[0].id in members;
        GroupSenderFrom(e, before, g, sender, members);
        GroupAllFrom(e, before, GroupSender(e, g, sender, members), OtherSenders(e, g.st, list, sender));
    }
  }

  lemma PlanRoles(e: Env, s: St, list: seq<Stream>)
    requires DistinctIds(list)
    ensures var (t, launch) := PrepareLaunch(e, s, list);
            && t.groups == PlayPrepared(e, s, list).groups && (launch.roles != map[] ==> launch.joins.Some?)
            && (forall p :: p in list && p.id in launch.roles ==> IsSonos(e, p.zone) && IsMember(t.groups, p.id))
            && (forall m :: IsMember(t.groups, m) ==> IsMember(s.groups, m) || m in launch.roles)
  {
    hide GroupAll, CohortDelays, StartAll;
    var (t, launch) := PrepareLaunch(e, s, list);
    if e.nativeGroups {
      GroupAllFrom(e, s.groups, Grouping(s, map[]), list);
      GroupAllRoles(e, Grouping(s, map[]), list, list);
      var g := GroupAll(e, Grouping(s, map[]), list);
      forall p | p in list && p.id in launch.roles ensures IsSonos(e, p.zone) && IsMember(t.groups, p.id) {
        assert g.roles[p.id] in g.st.groups && SonosRoom(e, list, p.id);
      }
    }
  }

  // ---- Plans ----

  lemma {:induction false} StartAllPlans(e: Env, before: St, s: St, launch: Launch, list: seq<Stream>)
    requires e.wav && forall i, j :: 0 <= i < j < |list| ==> list[i].generation != list[j].generation
    ensures var t := StartAll(e, before, s, launch, list);
            && (forall p :: p in list && StartCommand(e, before, launch, p).Play? ==>
                  && DelayOf(e, before, launch.delays, launch.roles, p).Some? && p.generation in t.plans
                  && t.plans[p.generation] ==
                       Plan(launch.cutoff, DelayOf(e, before, launch.delays, launch.roles, p).value, None))
            && (forall g :: g in s.plans && (forall p :: p in list ==> p.generation != g) ==>
                  g in t.plans && t.plans[g] == s.plans[g])
    decreases |list|
  {
    hide StartOne, StartCommand, DelayOf;
    if list != [] {
      StartOnePlan(e, before, s, launch, list[0]);
      StartAllPlans(e, before, StartOne(e, before, s, launch, list[0]), launch, list[1..]);
    }
  }

  lemma StartOnePlan(e: Env, before: St, s: St, launch: Launch, p: Stream)
    requires e.wav
    ensures var t := StartOne(e, before, s, launch, p);
            var delay := DelayOf(e, before, launch.delays, launch.roles, p);
            && delay.Some?
            && (StartCommand(e, before, launch, p).Play? ==>
                  p.generation in t.plans && t.plans[p.generation] == Plan(launch.cutoff, delay.value, None))
            && (forall g :: g in s.plans && g != p.generation ==> g in t.plans && t.plans[g] == s.plans[g])
  {
    hide Send, StartCommand;
  }

  lemma {:induction false} StartAllHeld(e: Env, before: St, s: St, launch: Launch, list: seq<Stream>)
    requires DistinctIds(list) && forall p :: p in list ==> p.id in s.sessions && s.sessions[p.id].prepared.Some?
    ensures var t := StartAll(e, before, s, launch, list);
            forall p :: p in list && StartCommand(e, before, launch, p).Join? ==>
              p.id in t.sessions && t.sessions[p.id].held == DelayOf(e, before, launch.delays, launch.roles, p)
    decreases |list|
  {
    hide StartOne, StartCommand, DelayOf;
    if list != [] {
      var p := list[0];
      var t := StartOne(e, before, s, launch, p);
      StartOneHeld(e, before, s, launch, p);
      StartAllElsewhere(e, before, t, launch, list[1..]);
      assert p.id !in Ids(list[1..]);
      forall q | q in list[1..] ensures q.id in t.sessions && t.sessions[q.id].prepared.Some? {
        assert q.id != p.id;
      }
      StartAllHeld(e, before, t, launch, list[1..]);
    }
  }

  lemma StartOneHeld(e: Env, before: St, s: St, launch: Launch, p: Stream)
    requires p.id in s.sessions && s.sessions[p.id].prepared.Some?
    ensures var t := StartOne(e, before, s, launch, p);
            && (forall j :: j in s.sessions && j != p.id ==> t.sessions[j] == s.sessions[j])
            && (StartCommand(e, before, launch, p).Join? ==>
                  t.sessions[p.id].held == DelayOf(e, before, launch.delays, launch.roles, p))
  {
    hide Send, StartCommand, DelayOf;
  }

  // ---- Alignment ----

  /** The room of `p` got one command, which starts that stream. */
  predicate Told(t: St, p: Stream) {
    && p.id in t.sessions && p.zone in t.channels && |t.channels[p.zone].unseen| == 1
    && Starts(t.channels[p.zone].unseen[0], p)
  }

  /** The room of `p` was not told to join another one. */
  predicate OnItsOwn(t: St, p: Stream) {
    Told(t, p) && !t.channels[p.zone].unseen[0].Join?
  }

  /** Its session's delay is the one that its plan, its shared wait, or the fallback of its join
      starts it with. The plan of a Play starts `SYNC_START_LEAD` after the release. */
  predicate ToldItsDelay(e: Env, t: St, p: Stream)
    requires Told(t, p) && t.ticks > 0
  {
    var delay := t.sessions[p.id].syncDelay;
    match t.channels[p.zone].unseen[0]
    case Play(_, g) => g in t.plans && t.plans[g] == Plan(e.clock(t.ticks - 1) + 120, delay, None)
    case PlayGroup(_, _, _, d) => d == Some(delay)
    case Join(_, _, _, _) => t.sessions[p.id].held == Some(delay)
    case _ => false
  }

  /** 64 bits can subtract the offsets of the rooms. */
  ghost predicate OffsetsFit(e: Env, list: seq<Stream>) {
    forall p, q :: p in list && q in list ==>
      e.offset(p.zone) - e.offset(q.zone) <= Delays.I64_MAX
  }

  /** A stream of the release that is not a new member. */
  predicate Own(list: seq<Stream>, roles: map<SessionId, SessionId>, p: Stream) {
    p in list && p.id !in roles
  }

  /** The delays make up for the latencies of the rooms with an own stream. */
  lemma OwnDelays(e: Env, list: seq<Stream>, roles: map<SessionId, SessionId>) returns (slowest: int)
    requires OffsetsFit(e, list)
    ensures var delays := CohortDelays(e, list, roles);
            && (forall p :: Own(list, roles, p) ==> p.zone in delays && e.offset(p.zone) + delays[p.zone] == slowest)
            && ((exists p :: Own(list, roles, p)) ==>
                  exists p :: Own(list, roles, p) && p.zone in delays && delays[p.zone] == 0)
  {
    hide OwnZones, Delays.DelaysFromOffsets;
    var zones := OwnZones(list, roles);
    var offsets := map z | z in zones :: e.offset(z);
    slowest := Delays.Slowest(zones, offsets);
    forall y, z | y in zones && z in zones ensures offsets[y] - offsets[z] <= Delays.I64_MAX {
      var p :| p in list && p.zone == y;
      var q :| q in list && q.zone == z;
    }
    Delays.DelaysExact(zones, offsets);
    SameDelaysOf(e, list, roles, offsets);
    if p :| Own(list, roles, p) {
      assert p.zone in zones;
      var z :| z in zones && Delays.DelaysFromOffsets(zones, offsets)[z] == 0;
      var q :| q in list && q.zone == z && q.id !in roles;
      assert Own(list, roles, q);
    }
  }

  lemma SameDelaysOf(e: Env, list: seq<Stream>, roles: map<SessionId, SessionId>, offsets: map<ZoneId, int>)
    requires var zones := OwnZones(list, roles); offsets == map z | z in zones :: e.offset(z)
    ensures CohortDelays(e, list, roles) == Delays.DelaysFromOffsets(OwnZones(list, roles), offsets)
  {
    hide OwnZones, Delays.DelaysFromOffsets;
  }

  lemma DistinctGenerations(e: Env, s: St, list: seq<Stream>, exempt: set<SessionId>)
    requires Core(e, s, exempt) && DistinctIds(list) && forall p :: p in list ==> Ready(s, p)
    ensures forall i, j :: 0 <= i < j < |list| ==> list[i].generation != list[j].generation
  {
    hide Core, Idle, HasEntry;
    forall i, j | 0 <= i < j < |list| ensures list[i].generation != list[j].generation {
      ReadyIssued(e, s, list[i], exempt);
      ReadyIssued(e, s, list[j], exempt);
    }
  }

  lemma ReadyIssued(e: Env, s: St, p: Stream, exempt: set<SessionId>)
    requires Core(e, s, exempt) && Ready(s, p)
    ensures Issued(s.issued, p.zone, p.id, p.generation)
  {
    hide Rooms, Channels, Streams, HasEntry;
    ReadyIdle(s, p);
  }

  /** Rooms that play their own streams reach the listener together: latency and delay add up to
      the same for all of them, and one is not delayed. */
  ghost predicate Aligned(e: Env, t: St, list: seq<Stream>) {
    && (forall p, q :: p in list && q in list && OnItsOwn(t, p) && OnItsOwn(t, q) ==>
          e.offset(p.zone) + t.sessions[p.id].syncDelay == e.offset(q.zone) + t.sessions[q.id].syncDelay)
    && ((exists p :: p in list && OnItsOwn(t, p)) ==>
          exists p :: p in list && OnItsOwn(t, p) && t.sessions[p.id].syncDelay == 0)
  }

  /** The rooms that a release tells to play at once, or after a shared wait, are aligned. Rooms in
      no group are among them, and no others if none was in a group before. Every room is told the
      delay that its session keeps. */
  lemma ReleaseAligns(e: Env, s: St, list: seq<Stream>, exempt: set<SessionId>)
    requires ValidEnv(e) && Core(e, s, exempt) && DistinctIds(list) && e.wav
    requires (forall p :: p in list ==> Ready(s, p)) && OffsetsFit(e, list)
    ensures var t := PlayPrepared(e, s, list);
            && t.ticks > 0 && Aligned(e, t, list)
            && forall p :: p in list ==>
                 && Told(t, p) && ToldItsDelay(e, t, p)
                 && (!IsMember(t.groups, p.id) ==> OnItsOwn(t, p))
                 && (OnItsOwn(t, p) && !IsMember(s.groups, p.id) ==> !IsMember(t.groups, p.id))
  {
    hide ValidEnv, Core, Ready, StartAll, PrepareLaunch, CohortDelays, DelayOf, StartCommand, OffsetsFit, IsMember,
         Aligned, Own;
    var (t, launch) := PrepareLaunch(e, s, list);
    var u := PlayPrepared(e, s, list);
    PrepareLaunchKeeps(e, s, list);
    PlanRoles(e, s, list);
    OneZoneEach(e, s, exempt);
    ReleaseZones(s, list);
    forall p | p in list ensures p.id in s.sessions && p.zone in s.channels && s.sessions[p.id].prepared.Some? {
      ReadyRoom(s, p);
      ReadyIdle(s, p);
    }
    StartAllSends(e, t, t, launch, list);
    StartAllDelays(e, t, t, launch, list);
    StartAllHeld(e, t, t, launch, list);
    DistinctGenerations(e, s, list, exempt);
    StartAllPlans(e, t, t, launch, list);
    ReleaseCutoff(e, s, list);
    forall p | p in list
      ensures Told(u, p) && ToldItsDelay(e, u, p) && (OnItsOwn(u, p) <==> p.id !in launch.roles)
      ensures p.id !in launch.roles && p.zone in launch.delays ==> u.sessions[p.id].syncDelay == launch.delays[p.zone]
    {
      StartCommandOk(e, t, launch, p);
      OwnCommand(e, t, launch, p);
    }
    OwnAligned(e, u, list, launch);
  }

  lemma OwnAligned(e: Env, t: St, list: seq<Stream>, launch: Launch)
    requires OffsetsFit(e, list) && launch.delays == CohortDelays(e, list, launch.roles)
    requires forall p :: p in list ==>
               && Told(t, p) && (OnItsOwn(t, p) <==> p.id !in launch.roles)
               && (p.id !in launch.roles && p.zone in launch.delays ==>
                     t.sessions[p.id].syncDelay == launch.delays[p.zone])
    ensures Aligned(e, t, list)
  {
    hide CohortDelays, OffsetsFit, OnItsOwn, Told;
    var slowest := OwnDelays(e, list, launch.roles);
    forall p | p in list && OnItsOwn(t, p)
      ensures p.id in t.sessions && e.offset(p.zone) + t.sessions[p.id].syncDelay == slowest
    {
      assert Own(list, launch.roles, p);
      ToldSession(t, p);
    }
    if p :| p in list && OnItsOwn(t, p) {
      assert Own(list, launch.roles, p);
      var q :| Own(list, launch.roles, q) && q.zone in launch.delays && launch.delays[q.zone] == 0;
      assert OnItsOwn(t, q);
    }
  }

  lemma ToldSession(t: St, p: Stream)
    requires Told(t, p)
    ensures p.id in t.sessions
  {
  }

  lemma OwnCommand(e: Env, s: St, launch: Launch, p: Stream)
    requires launch.roles != map[] ==> launch.joins.Some?
    requires p.id in launch.roles ==> IsSonos(e, p.zone)
    ensures StartCommand(e, s, launch, p).Join? <==> p.id in launch.roles
    ensures e.wav && p.id !in launch.roles && p.zone in launch.delays ==>
              DelayOf(e, s, launch.delays, launch.roles, p) == Some(launch.delays[p.zone])
  {
  }

  lemma ReleaseCutoff(e: Env, s: St, list: seq<Stream>)
    ensures var (t, launch) := PrepareLaunch(e, s, list);
            var u := PlayPrepared(e, s, list);
            && launch.delays == CohortDelays(e, list, launch.roles)
            && u.ticks > 0 && launch.cutoff == e.clock(u.ticks - 1) + 120
  {
    hide PlanNativeGroups, CohortDelays, StartAll;
  }

  /** Whenever a run releases a cohort of WAV streams, its rooms are aligned. */
  lemma ReleasesAlign(e: Env, steps: seq<Step>)
    requires ValidEnv(e) && Possible(e, Init(e), steps) && e.wav && Run(e, Init(e), steps).cohorts != []
    requires forall y, z :: e.offset(y) - e.offset(z) <= Delays.I64_MAX
    ensures var s := Run(e, Init(e), steps);
            var head := Pruned(s, s.cohorts[0]);
            var list := StreamsOf(head.sessions, head.prepared);
            var t := PlayPrepared(e, Ticked(s).(cohorts := s.cohorts[1..]), list);
            && t.ticks > 0 && Aligned(e, t, list)
            && forall p :: p in list ==>
                 Told(t, p) && ToldItsDelay(e, t, p) && (!IsMember(t.groups, p.id) ==> OnItsOwn(t, p))
  {
    hide Run, Possible, ValidEnv, Core, Distinct, Pruned, PlayPrepared, HasEntry, IsMember, Aligned, Told, Idle;
    InitSound(e);
    RunSound(e, Init(e), steps);
    var s := Run(e, Init(e), steps);
    var head := Pruned(s, s.cohorts[0]);
    var rest := Ticked(s).(cohorts := s.cohorts[1..]);
    var list := StreamsOf(head.sessions, head.prepared);
    QueueDistinct(e, s);
    DropHead(e, s, rest, {});
    CoreStreams(e, s, {});
    HeadDistinct(s);
    forall p | p in list ensures Ready(rest, p) {
      HeadReady(e, s, {}, p);
    }
    ReleaseAligns(e, rest, list, {} + Ids(list));
  }
}
