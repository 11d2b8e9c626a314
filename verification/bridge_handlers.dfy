/** The handlers of the bridge as functions of its state, with the nested calls of a restart.
    The class in bridge_runtime.dfy runs them in place. */
module BridgeHandlers {
  import opened BridgeState
  import Delays

  // ---- Commands and retries ----

  function Send(s: St, zone: ZoneId, command: Command): (r: St)
    ensures r.channels.Keys == s.channels.Keys
    ensures r.sessions == s.sessions && r.issued == s.issued && r.groups == s.groups && r.cohorts == s.cohorts
    ensures r.plans == s.plans && r.wakes == s.wakes && r.ticks == s.ticks && r.released == s.released
  {
    if zone in s.channels then
      var ch := s.channels[zone];
      s.(channels := s.channels[zone := ch.(unseen := ch.unseen + [command])])
    else s
  }

  function CancelRetry(s: St, id: SessionId): St {
    if id in s.sessions then s.(sessions := s.sessions[id := s.sessions[id].(timer := None)]) else s
  }

  /** Arms a retry, or gives up when the budget is spent. */
  function ScheduleRetry(s: St, id: SessionId): St {
    if id !in s.sessions then s
    else
      var x := s.sessions[id];
      if x.attempts >= RETRY_BUDGET then
        s.(sessions := s.sessions[id := x.(timer := None, resetNeeded := true)])
      else
        s.(sessions := s.sessions[id := x.(timer := Some(x.generation), attempts := x.attempts + 1)])
  }

  function NextGeneration(s: St, id: SessionId): St
    requires id in s.sessions
  {
    var x := s.sessions[id];
    var issued := s.issued + [Owner(id, x.zone)];
    s.(issued := issued, sessions := s.sessions[id := x.(generation := |issued|)])
  }

  // ---- Native groups ----

  function ForgetMember(groups: map<SessionId, seq<SessionId>>, id: SessionId): (r: map<SessionId, seq<SessionId>>)
    ensures r.Keys == groups.Keys
  {
    map c | c in groups :: Without(groups[c], id)
  }

  predicate IsMember(groups: map<SessionId, seq<SessionId>>, id: SessionId) {
    exists c :: c in groups && id in groups[c]
  }

  function MembersOf(groups: map<SessionId, seq<SessionId>>, c: SessionId): seq<SessionId> {
    if c in groups then groups[c] else []
  }

  /** A sender's Sonos room that plays, or coordinates a group that is still starting, and is
      not a member itself. */
  predicate Eligible(e: Env, s: St, id: SessionId, sender: Sender) {
    && id in s.sessions
    && s.sessions[id].sender == Some(sender)
    && s.sessions[id].wanted
    && (s.sessions[id].observed == Playing || id in s.groups)
    && IsSonos(e, s.sessions[id].zone)
    && !IsMember(s.groups, id)
  }

  function Candidates(e: Env, s: St, sender: Sender): set<SessionId> {
    set id | id in s.sessions && Eligible(e, s, id, sender)
  }

  function Coordinators(e: Env, s: St, sender: Sender): set<SessionId> {
    set id | id in s.groups && Eligible(e, s, id, sender)
  }

  /** The candidates that win: group coordinators, if there is one. */
  function Preferred(e: Env, s: St, sender: Sender): set<SessionId> {
    if Coordinators(e, s, sender) != {} then Coordinators(e, s, sender) else Candidates(e, s, sender)
  }

  function StreamSender(e: Env, s: St, p: Stream): Option<Sender> {
    if IsSonos(e, p.zone) && p.id in s.sessions then s.sessions[p.id].sender else None
  }

  function SameSender(e: Env, s: St, list: seq<Stream>, sender: Sender): (r: seq<SessionId>)
    ensures |r| <= |list|
    ensures forall id :: id in r <==> exists p :: p in list && p.id == id && StreamSender(e, s, p) == Some(sender)
  {
    if list == [] then []
    else
      var rest := SameSender(e, s, list[1..], sender);
      if StreamSender(e, s, list[0]) == Some(sender) then [list[0].id] + rest else rest
  }

  function OtherSenders(e: Env, s: St, list: seq<Stream>, sender: Sender): (r: seq<Stream>)
    ensures |r| + |SameSender(e, s, list, sender)| == |list|
    ensures forall p :: p in r <==> p in list && StreamSender(e, s, p) != Some(sender)
  {
    if list == [] then []
    else
      var rest := OtherSenders(e, s, list[1..], sender);
      if StreamSender(e, s, list[0]) == Some(sender) then rest else [list[0]] + rest
  }

  datatype Grouping = Grouping(st: St, roles: map<SessionId, SessionId>)

  /** Adds `members` to the group of `coordinator`. */
  function AddToGroup(g: Grouping, coordinator: SessionId, members: seq<SessionId>): Grouping {
    Grouping(
      g.st.(groups := g.st.groups[coordinator := MembersOf(g.st.groups, coordinator) + members]),
      g.roles + map m | m in members :: coordinator)
  }

  /** Groups the rooms of one sender: with the room that plays, or else with the first. */
  function GroupSender(e: Env, g: Grouping, sender: Sender, members: seq<SessionId>): Grouping
    requires members != []
  {
    var preferred := Preferred(e, g.st, sender);
    if preferred != {} then
      var coordinator := e.choose(g.st.ticks, preferred);
      var g' := g.(st := Ticked(g.st));
      if coordinator in g.st.sessions && IsSonos(e, g.st.sessions[coordinator].zone) then
        AddToGroup(g', coordinator, members)
      else g'
    else if |members| > 1 then AddToGroup(g, members[0], members[1..])
    else g
  }

  function GroupAll(e: Env, g: Grouping, list: seq<Stream>): Grouping
    decreases |list|
  {
    if list == [] then g
    else
      match StreamSender(e, g.st, list[0])
      case None => GroupAll(e, g, list[1..])
      case Some(sender) =>
        var members := SameSender(e, g.st, list, sender);
        assert list[0].id in members;
        GroupAll(e, GroupSender(e, g, sender, members), OtherSenders(e, g.st, list, sender))
  }

  function PlanNativeGroups(e: Env, s: St, list: seq<Stream>): Grouping {
    if e.nativeGroups then GroupAll(e, Grouping(s, map[]), list) else Grouping(s, map[])
  }

  // ---- Release ----

  /** The zones of the streams that play on their own, in order. */
  function OwnZones(list: seq<Stream>, roles: map<SessionId, SessionId>): (r: seq<ZoneId>)
    ensures forall z :: z in r <==> exists p :: p in list && p.zone == z && p.id !in roles
  {
    if list == [] then []
    else
      var rest := OwnZones(list[1..], roles);
      if list[0].id in roles then rest else [list[0].zone] + rest
  }

  function CohortDelays(e: Env, list: seq<Stream>, roles: map<SessionId, SessionId>): map<ZoneId, nat> {
    var zones := OwnZones(list, roles);
    Delays.DelaysFromOffsets(zones, map z | z in zones :: e.offset(z))
  }

  function At(delays: map<ZoneId, nat>, zone: ZoneId, fallback: nat): nat {
    if zone in delays then delays[zone] else fallback
  }

  /** The delay that a release gives to stream `p`. A group member takes its coordinator's. */
  function DelayOf(e: Env, s: St, delays: map<ZoneId, nat>, roles: map<SessionId, SessionId>, p: Stream): Option<nat> {
    if !e.wav then None
    else if p.id in roles then
      if roles[p.id] in s.sessions then
        var c := s.sessions[roles[p.id]];
        Some(At(delays, c.zone, c.syncDelay))
      else Some(0)
    else Some(At(delays, p.zone, 0))
  }

  datatype Launch = Launch(delays: map<ZoneId, nat>, roles: map<SessionId, SessionId>, joins: Option<nat>, cutoff: nat)

  /** How a released stream starts: as a group member, with the rooms that wait for the
      joins, or on its own. `s` is the state at the release. */
  function StartCommand(e: Env, s: St, launch: Launch, p: Stream): Command {
    if p.id in launch.roles && IsSonos(e, p.zone) && launch.joins.Some? then
      var coordinator := launch.roles[p.id];
      var target := if coordinator in s.sessions then s.sessions[coordinator].zone else p.zone;
      Join(p.id, p.generation, launch.joins.value, target)
    else if launch.joins.Some? then
      PlayGroup(p.id, p.generation, launch.joins.value, DelayOf(e, s, launch.delays, launch.roles, p))
    else Play(p.id, p.generation)
  }

  /** A member's own stream is held until a failed join falls back to it. */
  function StartedSession(x: Session, delay: Option<nat>, c: Command): Session {
    x.(syncDelay := if delay.Some? then delay.value else x.syncDelay,
       held := if c.Join? && x.prepared.Some? then delay else x.held)
  }

  /** Sends the start command of one released stream. `before` is the state at the release. */
  function StartOne(e: Env, before: St, s: St, launch: Launch, p: Stream): (r: St)
    ensures r.sessions.Keys == s.sessions.Keys && r.channels.Keys == s.channels.Keys
    ensures r.issued == s.issued && r.groups == s.groups && r.cohorts == s.cohorts && r.wakes == s.wakes
    ensures r.ticks == s.ticks
  {
    var delay := DelayOf(e, before, launch.delays, launch.roles, p);
    var c := StartCommand(e, before, launch, p);
    var s1 := if p.id in s.sessions then
                s.(sessions := s.sessions[p.id := StartedSession(s.sessions[p.id], delay, c)])
              else s;
    var s2 := if c.Play? && delay.Some? then
                s1.(plans := s1.plans[p.generation := Plan(launch.cutoff, delay.value, None)])
              else s1;
    Send(s2, p.zone, c)
  }

  function StartAll(e: Env, before: St, s: St, launch: Launch, list: seq<Stream>): (r: St)
    ensures r.sessions.Keys == s.sessions.Keys && r.channels.Keys == s.channels.Keys
    ensures r.issued == s.issued && r.groups == s.groups && r.cohorts == s.cohorts && r.wakes == s.wakes
    ensures r.ticks == s.ticks
    decreases |list|
  {
    if list == [] then s
    else StartAll(e, before, StartOne(e, before, s, launch, list[0]), launch, list[1..])
  }

  /** The launch of `list`, and the state in which its commands go out. */
  function PrepareLaunch(e: Env, s: St, list: seq<Stream>): (St, Launch) {
    var planned := PlanNativeGroups(e, s, list);
    var s1 := planned.st;
    var delays := CohortDelays(e, list, planned.roles);
    var cutoff := Now(e, s1) + SYNC_START_LEAD;
    var grouped := planned.roles != map[];
    (Ticked(s1).(joins := if grouped then s1.joins + 1 else s1.joins),
     Launch(delays, planned.roles, if grouped then Some(s1.joins) else None, cutoff))
  }

  function PlayPrepared(e: Env, s: St, list: seq<Stream>): St {
    var (s1, launch) := PrepareLaunch(e, s, list);
    StartAll(e, s1, s1, launch, list)
  }

  // ---- Cohorts ----

  function RemoveFrom(c: Cohort, id: SessionId): Cohort {
    c.(sessions := Without(c.sessions, id), prepared := c.prepared - {id})
  }

  function RemoveFromAll(q: seq<Cohort>, id: SessionId): (r: seq<Cohort>)
    ensures |r| == |q|
    ensures forall i :: 0 <= i < |q| ==> r[i] == RemoveFrom(q[i], id)
  {
    if q == [] then [] else [RemoveFrom(q[0], id)] + RemoveFromAll(q[1..], id)
  }

  /** The queue with `id` admitted at `now`: to the last cohort while its window is open, or
      else to a new one. */
  function Enqueue(e: Env, cohorts: seq<Cohort>, id: SessionId, now: nat): seq<Cohort> {
    var q := RemoveFromAll(cohorts, id);
    if q != [] && now < q[|q| - 1].windowDeadline && now < q[|q| - 1].startDeadline then
      var last := q[|q| - 1];
      q[|q| - 1 := last.(sessions := last.sessions + [id])]
    else
      q + [Cohort(now + e.window, now + e.deadline, [id], map[])]
  }

  function AddToCohort(e: Env, s: St, id: SessionId): (r: St)
    ensures r.sessions == s.sessions && r.issued == s.issued && r.groups == s.groups && r.channels == s.channels
    ensures r.plans == s.plans && s.wakes <= r.wakes
  {
    var now := Now(e, s);
    var q := Enqueue(e, s.cohorts, id, now);
    var wakes := if |q| > |s.cohorts| then s.wakes + {now + e.window, now + e.deadline} else s.wakes;
    Ticked(s).(cohorts := q, wakes := wakes)
  }

  predicate ShouldStart(c: Cohort, now: nat, force: bool) {
    || force
    || (c.sessions != [] && |c.sessions| == |c.prepared|)
    || (now >= c.windowDeadline && now >= c.startDeadline)
  }

  function WantedIds(s: St): set<SessionId> {
    set id | id in s.sessions && s.sessions[id].wanted
  }

  /** The cohort without sessions that no longer want playback and without stale streams. */
  function Pruned(s: St, c: Cohort): Cohort {
    var kept := Keep(c.sessions, WantedIds(s));
    c.(sessions := kept,
       prepared := map id | id in c.prepared && id in kept && id in s.sessions
                            && s.sessions[id].generation == c.prepared[id].generation :: c.prepared[id])
  }

  function StreamsOf(ids: seq<SessionId>, prepared: map<SessionId, Stream>): (r: seq<Stream>)
    ensures |r| <= |ids|
    ensures forall p :: p in r <==> exists id :: id in ids && id in prepared && prepared[id] == p
  {
    if ids == [] then []
    else
      var rest := StreamsOf(ids[1..], prepared);
      if ids[0] in prepared then [prepared[ids[0]]] + rest else rest
  }

  // ---- What a release can add to the groups ----

  /** The number of members over all groups. */
  ghost function Members(groups: map<SessionId, seq<SessionId>>): nat
    decreases |groups|
  {
    if groups == map[] then 0
    else
      var c :| c in groups;
      |groups[c]| + Members(groups - {c})
  }

  lemma {:induction false} MembersSplit(groups: map<SessionId, seq<SessionId>>, c: SessionId)
    requires c in groups
    ensures Members(groups) == |groups[c]| + Members(groups - {c})
    decreases |groups|
  {
    var d :| d in groups && Members(groups) == |groups[d]| + Members(groups - {d});
    if c != d {
      MembersSplit(groups - {d}, c);
      MembersSplit(groups - {c}, d);
      assert groups - {d} - {c} == groups - {c} - {d};
    }
  }

  lemma {:induction false} MembersMonotone(a: map<SessionId, seq<SessionId>>, b: map<SessionId, seq<SessionId>>)
    requires a.Keys == b.Keys && forall c :: c in a ==> |a[c]| <= |b[c]|
    ensures Members(a) <= Members(b)
    decreases |a|
  {
    if a == map[] {
      assert b == map[];
    } else {
      var c :| c in a;
      MembersSplit(a, c);
      MembersSplit(b, c);
      MembersMonotone(a - {c}, b - {c});
    }
  }

  lemma MembersExtend(groups: map<SessionId, seq<SessionId>>, c: SessionId, more: seq<SessionId>)
    ensures Members(groups[c := MembersOf(groups, c) + more]) == Members(groups) + |more|
  {
    var g := groups[c := MembersOf(groups, c) + more];
    MembersSplit(g, c);
    assert g - {c} == groups - {c};
    if c in groups {
      MembersSplit(groups, c);
    } else {
      assert groups - {c} == groups;
    }
  }

  lemma GroupSenderKeeps(e: Env, g: Grouping, sender: Sender, members: seq<SessionId>)
    requires members != []
    ensures var r := GroupSender(e, g, sender, members);
            && r.st == g.st.(groups := r.st.groups, ticks := r.st.ticks)
            && Members(r.st.groups) <= Members(g.st.groups) + |members|
            && g.st.groups.Keys <= r.st.groups.Keys && g.st.ticks <= r.st.ticks
  {
    hide Preferred, Members, AddToGroup;
    AddToGroupKeeps(g.(st := Ticked(g.st)), e.choose(g.st.ticks, Preferred(e, g.st, sender)), members);
    AddToGroupKeeps(g, members[0], members[1..]);
  }

  lemma AddToGroupKeeps(g: Grouping, c: SessionId, members: seq<SessionId>)
    ensures var r := AddToGroup(g, c, members);
            && r.st == g.st.(groups := r.st.groups) && g.st.groups.Keys <= r.st.groups.Keys
            && Members(r.st.groups) == Members(g.st.groups) + |members|
  {
    hide Members;
    MembersExtend(g.st.groups, c, members);
  }

  lemma {:induction false} GroupAllKeeps(e: Env, g: Grouping, list: seq<Stream>)
    ensures var r := GroupAll(e, g, list);
            && r.st == g.st.(groups := r.st.groups, ticks := r.st.ticks)
            && Members(r.st.groups) <= Members(g.st.groups) + |list|
    decreases |list|
  {
    hide GroupSender, Members, StreamSender;
    if list != [] {
      match StreamSender(e, g.st, list[0])
      case None => GroupAllKeeps(e, g, list[1..]);
      case Some(sender) =>
        var members := SameSender(e, g.st, list, sender);
        assert list[0].id in members;
        GroupSenderKeeps(e, g, sender, members);
        GroupAllKeeps(e, GroupSender(e, g, sender, members), OtherSenders(e, g.st, list, sender));
    }
  }

  lemma PlayPreparedKeeps(e: Env, s: St, list: seq<Stream>)
    ensures var r := PlayPrepared(e, s, list);
            && r.cohorts == s.cohorts && r.issued == s.issued && r.wakes == s.wakes
            && r.sessions.Keys == s.sessions.Keys && r.channels.Keys == s.channels.Keys
            && Members(r.groups) <= Members(s.groups) + |list|
  {
    if e.nativeGroups {
      GroupAllKeeps(e, Grouping(s, map[]), list);
    }
  }

  /** Releases or discards cohorts from the front of the queue, as far as they are due. */
  function MaybeStart(e: Env, s: St, force: bool): St
    decreases |s.cohorts|
  {
    if s.cohorts == [] then s
    else
      var head := Pruned(s, s.cohorts[0]);
      if head.sessions == [] then MaybeStart(e, s.(cohorts := s.cohorts[1..]), force)
      else if !ShouldStart(head, Now(e, s), force) then
        Ticked(s).(cohorts := [head] + s.cohorts[1..])
      else
        var rest := Ticked(s).(cohorts := s.cohorts[1..]);
        var next := PlayPrepared(e, rest, StreamsOf(head.sessions, head.prepared));
        PlayPreparedKeeps(e, rest, StreamsOf(head.sessions, head.prepared));
        MaybeStart(e, next, force)
  }

  // ---- Why the nested calls of a restart end ----

  /** Streams that still wait in cohorts. */
  ghost function Waiting(q: seq<Cohort>): nat {
    if q == [] then 0 else |StreamsOf(q[0].sessions, q[0].prepared)| + Waiting(q[1..])
  }

  /** Group members and waiting streams: each nested restart uses one up. */
  ghost function Load(s: St): nat {
    Members(s.groups) + Waiting(s.cohorts)
  }

  lemma {:induction false} StreamsOfKeep(ids: seq<SessionId>, kept: set<SessionId>,
                                         p: map<SessionId, Stream>, p': map<SessionId, Stream>)
    requires p'.Keys <= p.Keys
    ensures |StreamsOf(Keep(ids, kept), p')| <= |StreamsOf(ids, p)|
  {
    if ids != [] {
      StreamsOfKeep(ids[1..], kept, p, p');
      if ids[0] in kept {
        assert Keep(ids, kept)[1..] == Keep(ids[1..], kept);
      }
    }
  }

  lemma {:induction false} StreamsOfWithout(ids: seq<SessionId>, id: SessionId, p: map<SessionId, Stream>)
    ensures |StreamsOf(Without(ids, id), p - {id})| <= |StreamsOf(ids, p)|
  {
    if ids != [] {
      StreamsOfWithout(ids[1..], id, p);
      if ids[0] != id {
        assert Without(ids, id)[1..] == Without(ids[1..], id);
      }
    }
  }

  lemma {:induction false} StreamsOfAppend(ids: seq<SessionId>, id: SessionId, p: map<SessionId, Stream>)
    requires id !in p
    ensures |StreamsOf(ids + [id], p)| == |StreamsOf(ids, p)|
  {
    if ids == [] {
      assert ids + [id] == [id];
      assert StreamsOf([id][1..], p) == [];
    } else {
      StreamsOfAppend(ids[1..], id, p);
      assert (ids + [id])[1..] == ids[1..] + [id];
    }
  }

  lemma {:induction false} WaitingAppend(q: seq<Cohort>, c: Cohort)
    ensures Waiting(q + [c]) == Waiting(q) + |StreamsOf(c.sessions, c.prepared)|
  {
    if q == [] {
      assert q + [c] == [c];
    } else {
      WaitingAppend(q[1..], c);
      assert (q + [c])[1..] == q[1..] + [c];
    }
  }

  lemma {:induction false} WaitingRemove(q: seq<Cohort>, id: SessionId)
    ensures Waiting(RemoveFromAll(q, id)) <= Waiting(q)
  {
    if q != [] {
      StreamsOfWithout(q[0].sessions, id, q[0].prepared);
      WaitingRemove(q[1..], id);
      assert RemoveFromAll(q, id)[1..] == RemoveFromAll(q[1..], id);
    }
  }

  lemma AdmitWaiting(q: seq<Cohort>, id: SessionId)
    requires q != [] && id !in q[|q| - 1].prepared
    ensures var last := q[|q| - 1];
            Waiting(q[|q| - 1 := last.(sessions := last.sessions + [id])]) == Waiting(q)
  {
    hide Waiting, StreamsOf;
    var last := q[|q| - 1];
    var front := q[..|q| - 1];
    StreamsOfAppend(last.sessions, id, last.prepared);
    WaitingAppend(front, last);
    WaitingAppend(front, last.(sessions := last.sessions + [id]));
    assert q == front + [last];
    assert q[|q| - 1 := last.(sessions := last.sessions + [id])] == front + [last.(sessions := last.sessions + [id])];
  }

  lemma OpenWaiting(q: seq<Cohort>, w: nat, d: nat, id: SessionId)
    ensures Waiting(q + [Cohort(w, d, [id], map[])]) == Waiting(q)
  {
    hide Waiting;
    WaitingAppend(q, Cohort(w, d, [id], map[]));
    assert StreamsOf([id], map[]) == StreamsOf([id][1..], map[]);
  }

  lemma EnqueueWaiting(e: Env, cohorts: seq<Cohort>, id: SessionId, now: nat)
    ensures Waiting(Enqueue(e, cohorts, id, now)) <= Waiting(cohorts)
  {
    hide Waiting, RemoveFromAll;
    WaitingRemove(cohorts, id);
    var q := RemoveFromAll(cohorts, id);
    OpenWaiting(q, now + e.window, now + e.deadline, id);
    if q != [] {
      AdmitWaiting(q, id);
    }
  }

  lemma {:induction false} MaybeStartKeeps(e: Env, s: St, force: bool)
    ensures var r := MaybeStart(e, s, force);
            && Load(r) <= Load(s) && r.issued == s.issued
            && r.sessions.Keys == s.sessions.Keys && r.channels.Keys == s.channels.Keys
    decreases |s.cohorts|
  {
    hide PlayPrepared, ShouldStart, Members;
    if s.cohorts != [] {
      var first := s.cohorts[0];
      var head := Pruned(s, first);
      StreamsOfKeep(first.sessions, WantedIds(s), first.prepared, head.prepared);
      assert ([head] + s.cohorts[1..])[1..] == s.cohorts[1..];
      if head.sessions == [] {
        MaybeStartKeeps(e, s.(cohorts := s.cohorts[1..]), force);
      } else if ShouldStart(head, Now(e, s), force) {
        var rest := Ticked(s).(cohorts := s.cohorts[1..]);
        var list := StreamsOf(head.sessions, head.prepared);
        PlayPreparedKeeps(e, rest, list);
        MaybeStartKeeps(e, PlayPrepared(e, rest, list), force);
      }
    }
  }

  // ---- Restart ----

  /** `id` without its stream, in a new generation. */
  function Invalidate(s: St, id: SessionId): (r: St)
    requires id in s.sessions
    ensures r.sessions.Keys == s.sessions.Keys && r.issued == s.issued + [Owner(id, s.sessions[id].zone)]
    ensures r.groups == s.groups && r.cohorts == s.cohorts && r.channels == s.channels
  {
    NextGeneration(s.(sessions := s.sessions[id := s.sessions[id].(resetNeeded := true, observed := Unknown,
                                                                   prepared := None, held := None, encoder := None)]),
                                                                       id)
  }

  /** Starts the encoder of a new stream and sends its Prepare. */
  function Prepares(e: Env, s: St, id: SessionId): (r: St)
    requires id in s.sessions
    ensures r.sessions.Keys == s.sessions.Keys && r.channels.Keys == s.channels.Keys
    ensures r.issued == s.issued && r.groups == s.groups
  {
    var x := s.sessions[id];
    var s1 := s.(sessions := s.sessions[id := x.(encoder := Some(Encoder(x.generation, x.epoch, [])))]);
    Send(AddToCohort(e, s1, id), x.zone, Prepare(id, x.generation))
  }

  /** Whether the rebuild of `id` gets as far as waiting in a cohort. */
  predicate Rebuilds(e: Env, s: St, id: SessionId)
    requires id in s.sessions
  {
    s.sessions[id].zone in e.renderers && e.spawnOk(|s.issued| + 1)
  }

  /** The half of a restart that needs no other room: it invalidates the old stream, and
      prepares a new one unless encoder construction fails. */
  function Rebuild(e: Env, s: St, id: SessionId): (r: St)
    requires id in s.sessions
    ensures r.sessions.Keys == s.sessions.Keys
  {
    var zone := s.sessions[id].zone;
    var s1 := Invalidate(s, id);
    if zone !in e.renderers then s1
    else
      var s2 := Send(s1, zone, Stop(id, |s1.issued|));
      if Rebuilds(e, s, id) then Prepares(e, s2, id) else ScheduleRetry(s2, id)
  }

  lemma RebuildLoad(e: Env, s: St, id: SessionId)
    requires id in s.sessions
    ensures var r := Rebuild(e, s, id);
            && Load(r) <= Load(s) && r.groups == s.groups && r.issued == s.issued + [Owner(id, s.sessions[id].zone)]
            && r.channels.Keys == s.channels.Keys
  {
    hide Send, Invalidate, Enqueue, Members, Waiting;
    if Rebuilds(e, s, id) {
      var zone := s.sessions[id].zone;
      var s1 := Invalidate(s, id);
      var s2 := Send(s1, zone, Stop(id, |s1.issued|));
      EnqueueWaiting(e, s2.cohorts, id, Now(e, s2));
    }
  }

  /** The state in which a restart of `id` leaves its group. */
  function BeforeLeave(e: Env, s: St, id: SessionId): (r: St)
    ensures r.sessions.Keys == s.sessions.Keys
    ensures r.issued == s.issued && r.groups == s.groups && r.cohorts == s.cohorts && r.channels == s.channels
  {
    var s1 := CancelRetry(s, id);
    if e.clearFirst && id in s1.sessions then
      s1.(sessions := s1.sessions[id := s1.sessions[id].(observed := Unknown)])
    else s1
  }

  /** `id` out of all groups, and its own group gone. */
  function Detach(s: St, id: SessionId): St {
    s.(groups := ForgetMember(s.groups, id) - {id})
  }

  /** The members that a leaving `id` has to restart. */
  function Detached(s: St, id: SessionId): seq<SessionId> {
    MembersOf(ForgetMember(s.groups, id), id)
  }

  lemma DetachLoad(s: St, id: SessionId)
    ensures Load(Detach(s, id)) + |Detached(s, id)| <= Load(s)
  {
    var g := ForgetMember(s.groups, id);
    MembersMonotone(g, s.groups);
    if id in g {
      MembersSplit(g, id);
    } else {
      assert g - {id} == g;
    }
  }

  /** A restart once `id` has left its group. */
  function Resume(e: Env, s: St, id: SessionId): (r: St)
    requires id in s.sessions
    ensures Load(r) <= Load(s)
    ensures r.sessions.Keys == s.sessions.Keys && r.channels.Keys == s.channels.Keys
    ensures s.issued <= r.issued
  {
    RebuildLoad(e, s, id);
    var s1 := Rebuild(e, s, id);
    MaybeStartKeeps(e, s1, false);
    if Rebuilds(e, s, id) then MaybeStart(e, s1, false) else s1
  }

  function Restart(e: Env, s: St, id: SessionId): (r: St)
    ensures Load(r) <= Load(s)
    ensures r.sessions.Keys == s.sessions.Keys && r.channels.Keys == s.channels.Keys
    ensures s.issued <= r.issued
    decreases Load(s), 2
  {
    var s1 := LeaveGroup(e, BeforeLeave(e, s, id), id);
    if id in s1.sessions then Resume(e, s1, id) else s1
  }

  /** Takes `id` out of all groups. The members it coordinated restart on their own. */
  function LeaveGroup(e: Env, s: St, id: SessionId): (r: St)
    ensures Load(r) <= Load(s)
    ensures r.sessions.Keys == s.sessions.Keys && r.channels.Keys == s.channels.Keys
    ensures s.issued <= r.issued
    decreases Load(s), 1
  {
    DetachLoad(s, id);
    RestartMembers(e, Detach(s, id), Detached(s, id))
  }

  function RestartMembers(e: Env, s: St, list: seq<SessionId>): (r: St)
    ensures Load(r) <= Load(s)
    ensures r.sessions.Keys == s.sessions.Keys && r.channels.Keys == s.channels.Keys
    ensures s.issued <= r.issued
    decreases Load(s) + |list|, 0
  {
    if list == [] then s
    else
      var s1 := if list[0] in s.sessions && s.sessions[list[0]].wanted then Restart(e, s, list[0]) else s;
      RestartMembers(e, s1, list[1..])
  }

  // ---- Handlers ----

  /** The first cohort that `id` belongs to. */
  function CohortOf(q: seq<Cohort>, id: SessionId): (r: Option<nat>)
    ensures r.Some? ==> r.value < |q| && id in q[r.value].sessions
    ensures r.None? ==> forall i :: 0 <= i < |q| ==> id !in q[i].sessions
  {
    if q == [] then None
    else if id in q[0].sessions then Some(0)
    else match CohortOf(q[1..], id)
         case None => None
         case Some(i) => Some(i + 1)
  }

  function HandlePrepared(e: Env, s: St, id: SessionId, generation: nat): St {
    if id !in s.sessions || s.sessions[id].generation != generation || !s.sessions[id].wanted then s
    else
      var stream := Stream(id, s.sessions[id].zone, generation);
      var s1 := s.(sessions := s.sessions[id := s.sessions[id].(prepared := Some(stream), held := None)]);
      match CohortOf(s1.cohorts, id)
      case None => PlayPrepared(e, s1, [stream])
      case Some(i) =>
        var c := s1.cohorts[i];
        MaybeStart(e, s1.(cohorts := s1.cohorts[i := c.(prepared := c.prepared[id := stream])]), false)
  }

  /** The session as a start result leaves it: playing, waiting for a retry, or given up. */
  function ResultSession(x: Session, outcome: Outcome): Session {
    match outcome
    case Started | Joined => x.(observed := Playing, resetNeeded := false, attempts := 0, timer := None)
    case PermanentFailure => x.(observed := Unknown, resetNeeded := true, attempts := RETRY_BUDGET, timer := None)
    case TimedOut | Failed =>
      var y := x.(observed := Unknown, resetNeeded := x.prepared.None?);
      if x.attempts >= RETRY_BUDGET then y.(timer := None, resetNeeded := true)
      else y.(timer := Some(x.generation), attempts := x.attempts + 1)
    case Halted | HaltUnknown => x
  }

  /** No further retry follows, so members of this coordinator would stay silent. */
  predicate GivesUp(x: Session, outcome: Outcome) {
    outcome == PermanentFailure || ((outcome == TimedOut || outcome == Failed) && x.attempts >= RETRY_BUDGET)
  }

  function HandleResult(e: Env, s: St, id: SessionId, generation: nat, outcome: Outcome): St {
    if id !in s.sessions || s.sessions[id].generation != generation then s
    else
      var x := s.sessions[id];
      if !x.wanted then
        s.(sessions := s.sessions[id := x.(observed := if outcome == Halted then Stopped else Unknown)])
      else if outcome == Halted || outcome == HaltUnknown then s
      else
        var s1 := s.(sessions := s.sessions[id := ResultSession(x, outcome)]);
        // A room that plays its own stream, or failed to join, is in no native group.
        var s2 := if outcome == Started || outcome == Failed then s1.(groups := ForgetMember(s1.groups, id)) else s1;
        if GivesUp(x, outcome) then LeaveGroup(e, s2, id) else s2
  }

  function HandleRetry(e: Env, s: St, id: SessionId, generation: nat): St {
    if id !in s.sessions || s.sessions[id].generation != generation || !s.sessions[id].wanted then s
    else
      var x := s.sessions[id];
      if x.prepared.Some? then
        var s1 := s.(sessions := s.sessions[id := x.(timer := None, held := None)]);
        var s2 := if x.held.Some? then
                    Ticked(s1).(plans := s1.plans[generation := Plan(Now(e, s1) + SYNC_START_LEAD, x.held.value, None)])
                  else s1;
        Send(s2, x.zone, Play(id, generation))
      else Restart(e, CancelRetry(s, id), id)
  }

  /** The encoder's input has closed: the stream is lost, and a retry rebuilds it. */
  function HandleEncoderClosed(e: Env, s: St, id: SessionId): St {
    if id !in s.sessions || s.sessions[id].encoder.None? then s
    else
      var x := s.sessions[id];
      var s1 := s.(sessions := s.sessions[id := x.(prepared := None, held := None, resetNeeded := true,
          encoder := None)]);
      var s2 := NextGeneration(s1, id);
      var s3 := Send(s2, x.zone, Stop(id, |s2.issued|));
      if x.wanted then ScheduleRetry(s3, id) else s3
  }

  function Feed(x: Session, epoch: nat): Session
    requires x.encoder.Some?
  {
    x.(encoder := Some(x.encoder.value.(fed := x.encoder.value.fed + [epoch])))
  }

  /** A frame of `epoch` from the adapter's queue, and how the encoder's queue answers it. A frame
      of another epoch, or without an encoder, is dropped. */
  function HandleFrame(e: Env, s: St, id: SessionId, epoch: nat, write: Write): St {
    if id !in s.sessions || s.sessions[id].epoch != epoch || s.sessions[id].encoder.None? then s
    else
      match write
      case Taken => s.(sessions := s.sessions[id := Feed(s.sessions[id], epoch)])
      case Full => s
      case InputClosed => HandleEncoderClosed(e, s, id)
  }

  datatype Arrival = Arrival(epoch: nat, write: Write)

  /** The frames of one batch. */
  function HandleFrames(e: Env, s: St, id: SessionId, frames: seq<Arrival>): St
    decreases |frames|
  {
    if frames == [] then s
    else HandleFrame(e, HandleFrames(e, s, id, frames[..|frames| - 1]), id,
                     frames[|frames| - 1].epoch, frames[|frames| - 1].write)
  }

  function SetPlayback(e: Env, s: St, id: SessionId, playing: bool): St {
    if id !in s.sessions then s
    else
      var x := s.sessions[id];
      if playing then
        var s1 := s.(sessions := s.sessions[id := x.(wanted := true, attempts := 0)]);
        if !x.wanted || x.resetNeeded then Restart(e, s1, id) else s1
      else
        var s1 := s.(sessions := s.sessions[id := x.(wanted := false, resetNeeded := true, observed := Unknown,
                                                     prepared := None, held := None, timer := None)]);
        var s2 := NextGeneration(LeaveGroup(e, s1, id), id);
        MaybeStart(e, Send(s2, x.zone, Stop(id, |s2.issued|)), false)
  }

  function HandleFlush(e: Env, s: St, id: SessionId, epoch: nat): St {
    if id !in s.sessions || epoch <= s.sessions[id].epoch then s
    else
      var x := s.sessions[id];
      var y := if x.wanted then x.(epoch := epoch) else x.(epoch := epoch, encoder := None);
      var s1 := s.(sessions := s.sessions[id := y]);
      if x.wanted then Restart(e, s1, id) else SetPlayback(e, s1, id, false)
  }

  function StopSession(e: Env, s: St, id: SessionId): (r: St)
    ensures r.sessions.Keys == s.sessions.Keys - {id}
  {
    if id !in s.sessions then s
    else
      var x := s.sessions[id];
      var s1 := LeaveGroup(e, s.(sessions := s.sessions - {id}), id);
      var s2 := Send(s1, x.zone, Stop(id, x.generation));
      MaybeStartKeeps(e, s2, false);
      MaybeStart(e, s2, false)
  }

  function SessionsIn(s: St, zone: ZoneId): set<SessionId> {
    set id | id in s.sessions && s.sessions[id].zone == zone
  }

  /** Stops the sessions in `ids`, in any order. */
  function StopEach(e: Env, s: St, ids: set<SessionId>): St
    decreases ids
  {
    var id := e.choose(s.ticks, ids);
    if id !in ids then s
    else StopEach(e, StopSession(e, Ticked(s), id), ids - {id})
  }

  function NewSession(zone: ZoneId, sender: Option<Sender>): Session {
    Session(zone, sender, 0, 0, 0, true, Unknown, false, None, None, None, 0, None)
  }

  function StartSession(e: Env, s: St, id: SessionId, zone: ZoneId, sender: Option<Sender>): St {
    var s1 := StopEach(e, s, SessionsIn(s, zone));
    if zone !in e.renderers then s1
    else Restart(e, s1.(sessions := s1.sessions[id := NewSession(zone, sender)]), id)
  }
}
