/** A run of the bridge, with the order inside a restart that the source has, in which a room
    ends up as a member of the group that it coordinates, and is told to join itself. */
module BridgeCounterexample {
  import opened BridgeState
  import opened BridgeHandlers
  import opened BridgeCore
  import opened BridgeForest
  import opened BridgeSteps
  import opened BridgeWorker
  import opened BridgeSystem

  ghost function Pick(t: nat, ids: set<SessionId>): SessionId {
    if 1 in ids then 1 else if ids == {} then 0 else var id :| id in ids; id
  }

  function Clock(t: nat): nat {
    if t <= 13 then 0 else 10
  }

  /** Four Sonos rooms, one sender, and a clock that passes a deadline during a restart. */
  ghost function Home(): Env {
    Env(map[1 := Sonos, 2 := Sonos, 3 := Sonos, 4 := Sonos], z => 0, false, true, 1, 1, Clock, (t, ids) => Pick(t, ids),
        g => true, false)
  }

  lemma HomeValid()
    ensures ValidEnv(Home())
  {
  }

  const SENDER: Sender := 7

  function NewRoom(zone: ZoneId, g: nat): Session {
    Session(zone, Some(SENDER), 0, g, 0, true, Unknown, true, Some(Encoder(g, 0, [])), None, None, 0, None)
  }

  lemma NoLeave(s: St, id: SessionId)
    requires id !in s.groups && forall c :: c in s.groups ==> id !in s.groups[c]
    ensures LeaveGroup(Home(), s, id) == s
  {
    hide Load, Restart;
    assert ForgetMember(s.groups, id) == s.groups;
    assert s.groups - {id} == s.groups;
  }

  lemma {:induction false} KeepAll(ids: seq<SessionId>, kept: set<SessionId>)
    requires forall j :: j in ids ==> j in kept
    ensures Keep(ids, kept) == ids
  {
    if ids != [] {
      KeepAll(ids[1..], kept);
    }
  }

  /** A cohort of sessions that all want playback, with current streams. */
  predicate Whole(s: St, ids: seq<SessionId>, prepared: map<SessionId, Stream>) {
    && (forall j :: j in ids ==> j in s.sessions && s.sessions[j].wanted)
    && (forall j :: j in prepared ==> j in ids && s.sessions[j].generation == prepared[j].generation)
  }

  lemma PrunedWhole(s: St, w: nat, d: nat, ids: seq<SessionId>, prepared: map<SessionId, Stream>)
    requires Whole(s, ids, prepared)
    ensures var c := Cohort(w, d, ids, prepared); Pruned(s, c) == c
  {
    KeepAll(ids, WantedIds(s));
    assert Pruned(s, Cohort(w, d, ids, prepared)).prepared == prepared;
  }

  /** A cohort whose window is open, and that lacks a stream, keeps waiting. */
  lemma NotDue(s: St, w: nat, d: nat, ids: seq<SessionId>, prepared: map<SessionId, Stream>)
    requires s.cohorts == [Cohort(w, d, ids, prepared)] && Whole(s, ids, prepared)
    requires ids != [] && |prepared| < |ids| && Clock(s.ticks) < w
    ensures MaybeStart(Home(), s, false) == Ticked(s)
  {
    PrunedWhole(s, w, d, ids, prepared);
    assert [s.cohorts[0]] + s.cohorts[1..] == s.cohorts;
  }

  lemma Rebuilt(s: St, id: SessionId)
    requires id in s.sessions && s.sessions[id].zone in Home().renderers && s.sessions[id].zone in s.channels
    ensures var x := s.sessions[id];
            var g := |s.issued| + 1;
            var ch := s.channels[x.zone];
            var q := Enqueue(Home(), s.cohorts, id, Clock(s.ticks));
            var t := Rebuild(Home(), s, id);
            && Rebuilds(Home(), s, id)
            && t == s.(sessions := s.sessions[id := x.(resetNeeded := true, observed := Unknown, prepared := None,
                                                       held := None, encoder := Some(Encoder(g, x.epoch, [])),
                                                       generation := g)],
                       issued := s.issued + [Owner(id, x.zone)], cohorts := q,
                       channels := s.channels[x.zone := ch.(unseen := ch.unseen + [Stop(id, g), Prepare(id, g)])],
                       wakes := t.wakes, ticks := s.ticks + 1)
  {
    hide Enqueue;
    var x := s.sessions[id];
    var g := |s.issued| + 1;
    var ch := s.channels[x.zone];
    assert ch.unseen + [Stop(id, g)] + [Prepare(id, g)] == ch.unseen + [Stop(id, g), Prepare(id, g)];
    var t := Rebuild(Home(), s, id);
    assert t.sessions == s.sessions[id := x.(resetNeeded := true, observed := Unknown, prepared := None,
                                             held := None, encoder := Some(Encoder(g, x.epoch, [])), generation := g)];
    assert t.channels == s.channels[x.zone := ch.(unseen := ch.unseen + [Stop(id, g), Prepare(id, g)])];
  }

  lemma {:induction false} WithoutStranger(ids: seq<SessionId>, id: SessionId)
    requires id !in ids
    ensures Without(ids, id) == ids
  {
  }

  /** A session is admitted to the open cohort. */
  lemma Admitted(e: Env, d: nat, ids: seq<SessionId>, prepared: map<SessionId, Stream>, id: SessionId, now: nat)
    requires id !in ids && id !in prepared && now < d
    ensures Enqueue(e, [Cohort(d, d, ids, prepared)], id, now) == [Cohort(d, d, ids + [id], prepared)]
  {
    WithoutStranger(ids, id);
    assert prepared - {id} == prepared;
    assert RemoveFromAll([Cohort(d, d, ids, prepared)], id) == [Cohort(d, d, ids, prepared)];
  }

  lemma Opened(e: Env, id: SessionId, now: nat)
    ensures Enqueue(e, [], id, now) == [Cohort(now + e.window, now + e.deadline, [id], map[])]
  {
  }

  /** A session starts in an empty zone while the cohort's window is open. */
  lemma Begin(s: St, id: SessionId, zone: ZoneId, ids: seq<SessionId>, prepared: map<SessionId, Stream>)
    requires zone in Home().renderers && zone in s.channels && s.channels[zone].unseen == []
    requires id !in s.sessions && forall j :: j in s.sessions ==> s.sessions[j].zone != zone
    requires id !in s.groups && forall c :: c in s.groups ==> id !in s.groups[c]
    requires s.ticks <= 12 && Whole(s, ids, prepared) && id !in ids && |prepared| <= |ids|
    requires s.cohorts == if ids == [] then [] else [Cohort(1, 1, ids, prepared)]
    ensures var t := StartSession(Home(), s, id, zone, Some(SENDER));
            var g := |s.issued| + 1;
            t == s.(sessions := s.sessions[id := NewRoom(zone, g)], issued := s.issued + [Owner(id, zone)],
                    cohorts := [Cohort(1, 1, ids + [id], prepared)],
                    channels := s.channels[zone := s.channels[zone].(unseen := [Stop(id, g), Prepare(id, g)])],
                    wakes := t.wakes, ticks := s.ticks + 2)
  {
    hide Restart, Home;
    var s0 := s.(sessions := s.sessions[id := NewSession(zone, Some(SENDER))]);
    Starting(s, id, zone);
    WholeMore(s, s0, ids, prepared);
    BeginRestart(s0, id, zone, ids, prepared);
    var g := |s.issued| + 1;
    assert s0.sessions[id := NewRoom(zone, g)] == s.sessions[id := NewRoom(zone, g)];
  }

  lemma WholeMore(s: St, t: St, ids: seq<SessionId>, prepared: map<SessionId, Stream>)
    requires Whole(s, ids, prepared) && forall j :: j in ids ==>
               j in t.sessions && j in s.sessions && t.sessions[j] == s.sessions[j]
    ensures Whole(t, ids, prepared)
  {
  }

  lemma Starting(s: St, id: SessionId, zone: ZoneId)
    requires zone in Home().renderers && forall j :: j in s.sessions ==> s.sessions[j].zone != zone
    ensures StartSession(Home(), s, id, zone, Some(SENDER)) ==
            Restart(Home(), s.(sessions := s.sessions[id := NewSession(zone, Some(SENDER))]), id)
  {
    hide Restart, StopSession;
    assert SessionsIn(s, zone) == {};
    assert StopEach(Home(), s, {}) == s;
  }

  lemma BeginRestart(s: St, id: SessionId, zone: ZoneId, ids: seq<SessionId>, prepared: map<SessionId, Stream>)
    requires zone in Home().renderers && zone in s.channels && s.channels[zone].unseen == []
    requires id in s.sessions && s.sessions[id] == NewSession(zone, Some(SENDER))
    requires id !in s.groups && forall c :: c in s.groups ==> id !in s.groups[c]
    requires s.ticks <= 12 && Whole(s, ids, prepared) && id !in ids && |prepared| <= |ids|
    requires s.cohorts == if ids == [] then [] else [Cohort(1, 1, ids, prepared)]
    ensures var t := Restart(Home(), s, id);
            var g := |s.issued| + 1;
            t == s.(sessions := s.sessions[id := NewRoom(zone, g)], issued := s.issued + [Owner(id, zone)],
                    cohorts := [Cohort(1, 1, ids + [id], prepared)],
                    channels := s.channels[zone := s.channels[zone].(unseen := [Stop(id, g), Prepare(id, g)])],
                    wakes := t.wakes, ticks := s.ticks + 2)
  {
    hide Restart, Rebuild, MaybeStart, Enqueue, Home, Rebuilds;
    var g := |s.issued| + 1;
    var t := Rebuild(Home(), s, id);
    assert s.sessions[id := s.sessions[id].(timer := None)] == s.sessions;
    RestartAlone(s, id);
    Rebuilt(s, id);
    BeginQueue(ids, prepared, id);
    assert Whole(t, ids + [id], prepared);
    NotDue(t, 1, 1, ids + [id], prepared);
    assert t.sessions == s.sessions[id := NewRoom(zone, g)];
    assert [] + [Stop(id, g), Prepare(id, g)] == [Stop(id, g), Prepare(id, g)];
  }

  lemma BeginQueue(ids: seq<SessionId>, prepared: map<SessionId, Stream>, id: SessionId)
    requires id !in ids && id !in prepared && |prepared| <= |ids|
    ensures var q := if ids == [] then [] else [Cohort(1, 1, ids, prepared)];
            Enqueue(Home(), q, id, 0) == [Cohort(1, 1, ids + [id], prepared)]
  {
    hide Enqueue;
    if ids == [] {
      Opened(Home(), id, 0);
      assert prepared == map[] && ids + [id] == [id];
    } else {
      Admitted(Home(), 1, ids, prepared, id, 0);
    }
  }

  /** A restart of a session in no group. */
  lemma RestartAlone(s: St, id: SessionId)
    requires id in s.sessions && s.sessions[id].zone in Home().renderers && s.sessions[id].zone in s.channels
    requires id !in s.groups && forall c :: c in s.groups ==> id !in s.groups[c]
    ensures var s0 := s.(sessions := s.sessions[id := s.sessions[id].(timer := None)]);
            Restart(Home(), s, id) == MaybeStart(Home(), Rebuild(Home(), s0, id), false)
  {
    hide LeaveGroup, Rebuild, MaybeStart, Load;
    var s0 := s.(sessions := s.sessions[id := s.sessions[id].(timer := None)]);
    NoLeave(s0, id);
    Rebuilt(s0, id);
  }

  // ---- Runs ----

  ghost predicate Leads(s: St, t: St) {
    exists steps :: Possible(Home(), s, steps) && Run(Home(), s, steps) == t
  }

  lemma {:induction false} RunAppend(s: St, a: seq<Step>, b: seq<Step>)
    requires Possible(Home(), s, a) && Possible(Home(), Run(Home(), s, a), b)
    ensures Possible(Home(), s, a + b) && Run(Home(), s, a + b) == Run(Home(), Run(Home(), s, a), b)
    decreases |a|
  {
    hide Enabled, Next;
    if a == [] {
      assert a + b == b;
    } else {
      RunAppend(Next(Home(), s, a[0]), a[1..], b);
      assert (a + b)[1..] == a[1..] + b;
    }
  }

  lemma LeadsStep(s: St, t: St, step: Step, u: St)
    requires Leads(s, t) && Enabled(Home(), t, step) && Next(Home(), t, step) == u
    ensures Leads(s, u)
  {
    hide Enabled, Next, Home;
    var steps :| Possible(Home(), s, steps) && Run(Home(), s, steps) == t;
    assert Possible(Home(), t, [step]) && Run(Home(), t, [step]) == u by {
      assert [step][1..] == [];
    }
    RunAppend(s, steps, [step]);
    assert Possible(Home(), s, steps + [step]);
  }

  function Looked(ch: Channel): Channel
    requires CanMove(ch, Looks(1))
  {
    Moved(ch, 0, Looks(1))
  }

  /** A session starts. */
  lemma LeadsStart(s: St, t: St, id: SessionId, zone: ZoneId)
    requires Leads(s, t) && id !in t.sessions
    ensures Leads(s, StartSession(Home(), t, id, zone, Some(SENDER)))
  {
    hide Leads, Home, StartSession;
    LeadsStep(s, t, SessionStarts(id, zone, Some(SENDER)), StartSession(Home(), t, id, zone, Some(SENDER)));
  }

  /** A room's worker loads the stream that its last command asks for. */
  lemma LoadUp(s0: St, s: St, id: SessionId, zone: ZoneId, g: nat, stop: Command)
    requires Leads(s0, s) && zone in s.channels
    requires s.channels[zone] == Channel([stop, Prepare(id, g)], None, s.channels[zone].loaded, false, false,
             multiset{})
    ensures Leads(s0, WithChannel(s, zone, Channel([], None, Some(Stream(id, zone, g)), false, false,
            multiset{Prepared(id, g)})))
  {
    hide Leads;
    var looked := Channel([], Some(Prepare(id, g)), None, false, false, multiset{});
    var t := WithChannel(s, zone, looked);
    assert s.channels[zone].unseen[2..] == [];
    assert Looked(s.channels[zone]) == looked;
    LeadsStep(s0, s, WorkerMoves(zone, Looks(1)), t);
    var u := WithChannel(s, zone, Channel([], None, Some(Stream(id, zone, g)), false, false,
        multiset{Prepared(id, g)}));
    assert multiset{} + multiset{Prepared(id, g)} == multiset{Prepared(id, g)};
    assert WithChannel(t, zone, u.channels[zone]) == u;
    LeadsStep(s0, t, WorkerMoves(zone, PrepareEnds(Left, false, Loaded)), u);
  }

  const QUIET: Channel := Channel([], None, None, false, false, multiset{})

  function AskedChannel(id: SessionId, g: nat): Channel {
    Channel([Stop(id, g), Prepare(id, g)], None, None, false, false, multiset{})
  }

  function LoadedChannel(id: SessionId, zone: ZoneId, g: nat): Channel {
    Channel([], None, Some(Stream(id, zone, g)), false, false, multiset{Prepared(id, g)})
  }

  function FourChannels(a: Channel, b: Channel, c: Channel, d: Channel): map<ZoneId, Channel> {
    map[1 := a, 2 := b, 3 := c, 4 := d]
  }

  lemma FirstRoom() returns (s: St)
    ensures Leads(Init(Home()), s)
    ensures s == St(map[1 := NewRoom(1, 1)], [Owner(1, 1)], [Cohort(1, 1, [1], map[])], map[],
                    FourChannels(AskedChannel(1, 1), QUIET, QUIET, QUIET), map[], 0, map[], s.wakes, 2)
  {
    hide Leads, StartSession, Home, Init;
    var init := Init(Home());
    NoSteps(init);
    InitHome();
    HomeRooms();
    Begin(init, 1, 1, [], map[]);
    s := StartSession(Home(), init, 1, 1, Some(SENDER));
    LeadsStart(init, init, 1, 1);
    assert [] + [Owner(1, 1)] == [Owner(1, 1)] && [] + [1] == [1];
    assert s.channels == FourChannels(AskedChannel(1, 1), QUIET, QUIET, QUIET);
    assert s.sessions == map[1 := NewRoom(1, 1)];
  }

  lemma SecondRoom() returns (s: St)
    ensures Leads(Init(Home()), s)
    ensures s == St(map[1 := NewRoom(1, 1), 2 := NewRoom(2, 2)], [Owner(1, 1), Owner(2, 2)],
                    [Cohort(1, 1, [1, 2], map[])], map[],
                    FourChannels(AskedChannel(1, 1), AskedChannel(2, 2), QUIET, QUIET), map[], 0, map[], s.wakes, 4)
  {
    hide Leads, StartSession, Home, Init;
    var a := FirstRoom();
    HomeRooms();
    Begin(a, 2, 2, [1], map[]);
    s := StartSession(Home(), a, 2, 2, Some(SENDER));
    LeadsStart(Init(Home()), a, 2, 2);
    assert [Owner(1, 1)] + [Owner(2, 2)] == [Owner(1, 1), Owner(2, 2)] && [1] + [2] == [1, 2];
    assert s.channels == FourChannels(AskedChannel(1, 1), AskedChannel(2, 2), QUIET, QUIET);
    assert s.sessions == map[1 := NewRoom(1, 1), 2 := NewRoom(2, 2)];
  }

  lemma InitHome()
    ensures Init(Home()) == St(map[], [], [], map[], FourChannels(QUIET, QUIET, QUIET, QUIET), map[], 0, map[], {}, 0)
  {
    assert Init(Home()).channels == FourChannels(QUIET, QUIET, QUIET, QUIET);
  }

  lemma HomeRooms()
    ensures Home().renderers.Keys == {1, 2, 3, 4}
  {
  }

  /** Two rooms of one sender are prepared. */
  lemma TwoRooms() returns (s: St)
    ensures Leads(Init(Home()), s)
    ensures s == St(map[1 := NewRoom(1, 1), 2 := NewRoom(2, 2)], [Owner(1, 1), Owner(2, 2)],
                    [Cohort(1, 1, [1, 2], map[])], map[],
                    FourChannels(LoadedChannel(1, 1, 1), LoadedChannel(2, 2, 2), QUIET, QUIET), map[], 0, map[],
                        s.wakes, 4)
  {
    hide Leads, Home, Init;
    var a := SecondRoom();
    LoadUp(Init(Home()), a, 1, 1, 1, Stop(1, 1));
    var b := WithChannel(a, 1, LoadedChannel(1, 1, 1));
    LoadUp(Init(Home()), b, 2, 2, 2, Stop(2, 2));
    s := WithChannel(b, 2, LoadedChannel(2, 2, 2));
    assert s.channels == FourChannels(LoadedChannel(1, 1, 1), LoadedChannel(2, 2, 2), QUIET, QUIET);
  }

  lemma NoSteps(s: St)
    ensures Leads(s, s)
  {
    assert Possible(Home(), s, []) && Run(Home(), s, []) == s;
  }

  // ---- A stream arrives in its cohort ----

  function WithStream(x: Session, p: Stream): Session {
    x.(prepared := Some(p), held := None)
  }

  function IdleChannel(id: SessionId, zone: ZoneId, g: nat): Channel {
    Channel([], None, Some(Stream(id, zone, g)), false, false, multiset{})
  }

  lemma Arrives(s: St, id: SessionId, zone: ZoneId, g: nat, w: nat, ids: seq<SessionId>,
        prepared: map<SessionId, Stream>)
    requires id in s.sessions && s.sessions[id].zone == zone && s.sessions[id].generation == g && s.sessions[id].wanted
    requires zone in s.channels && s.channels[zone] == LoadedChannel(id, zone, g)
    requires s.cohorts == [Cohort(w, w, ids, prepared)] && id in ids
    ensures Enabled(Home(), s, PreparedArrives(zone, id, g))
    ensures var p := Stream(id, zone, g);
            Next(Home(), s, PreparedArrives(zone, id, g)) ==
            MaybeStart(Home(), s.(sessions := s.sessions[id := WithStream(s.sessions[id], p)],
                                  cohorts := [Cohort(w, w, ids, prepared[id := p])],
                                  channels := s.channels[zone := IdleChannel(id, zone, g)]), false)
  {
    hide MaybeStart, Home;
    assert multiset{Prepared(id, g)} - multiset{Prepared(id, g)} == multiset{};
    var c := s.cohorts[0];
    assert s.cohorts[0 := c.(prepared := c.prepared[id := Stream(id, zone, g)])] ==
           [Cohort(w, w, ids, prepared[id := Stream(id, zone, g)])];
  }

  /** A cohort that lacks no stream, or whose time has come, is released, and the queue is empty. */
  lemma Releases(s: St, w: nat, ids: seq<SessionId>, prepared: map<SessionId, Stream>)
    requires s.cohorts == [Cohort(w, w, ids, prepared)] && Whole(s, ids, prepared) && ids != []
    requires |prepared| == |ids| || w <= Clock(s.ticks)
    ensures MaybeStart(Home(), s, false) == PlayPrepared(Home(), Ticked(s).(cohorts := []), StreamsOf(ids, prepared))
  {
    hide PlayPrepared;
    PrunedWhole(s, w, w, ids, prepared);
    assert s.cohorts[1..] == [];
    PlayPreparedKeeps(Home(), Ticked(s).(cohorts := []), StreamsOf(ids, prepared));
  }

  /** A release without WAV delays: the groups and the start commands. */
  lemma Planned(s: St, list: seq<Stream>, groups: map<SessionId, seq<SessionId>>, roles: map<SessionId, SessionId>,
        ticks: nat)
    requires GroupAll(Home(), Grouping(s, map[]), list) == Grouping(s.(groups := groups, ticks := ticks), roles)
    requires roles != map[]
    ensures PrepareLaunch(Home(), s, list).0 == s.(groups := groups, ticks := ticks + 1, joins := s.joins + 1)
    ensures PrepareLaunch(Home(), s, list).1.roles == roles && PrepareLaunch(Home(), s, list).1.joins == Some(s.joins)
  {
    hide GroupAll, CohortDelays;
  }

  lemma StartedPlain(before: St, s: St, launch: Launch, p: Stream)
    requires p.id in s.sessions && p.zone in s.channels
    requires s.channels[p.zone] == IdleChannel(p.id, p.zone, p.generation)
    requires launch.joins.Some? && s.sessions[p.id].held.None? && s.sessions[p.id].zone == p.zone
             && IsSonos(Home(), p.zone)
    requires p.id in launch.roles ==> launch.roles[p.id] in before.sessions
    ensures var c := if p.id in launch.roles then
                       Join(p.id, p.generation, launch.joins.value, before.sessions[launch.roles[p.id]].zone)
                     else PlayGroup(p.id, p.generation, launch.joins.value, None);
            StartOne(Home(), before, s, launch, p) ==
            s.(channels := s.channels[p.zone := IdleChannel(p.id, p.zone, p.generation).(unseen := [c])])
  {
    assert s.sessions[p.id := s.sessions[p.id]] == s.sessions;
    var t := StartOne(Home(), before, s, launch, p);
    assert StartedSession(s.sessions[p.id], None, StartCommand(Home(), before, launch, p)) == s.sessions[p.id];
    assert t.sessions == s.sessions;
    var c := StartCommand(Home(), before, launch, p);
    assert [] + [c] == [c];
  }

  function LoadedRoom(zone: ZoneId, g: nat): Session {
    WithStream(NewRoom(zone, g), Stream(zone, zone, g))
  }

  lemma OneStream() returns (s: St)
    ensures Leads(Init(Home()), s)
    ensures s == St(map[1 := LoadedRoom(1, 1), 2 := NewRoom(2, 2)], [Owner(1, 1), Owner(2, 2)],
                    [Cohort(1, 1, [1, 2], map[1 := Stream(1, 1, 1)])], map[],
                    FourChannels(IdleChannel(1, 1, 1), LoadedChannel(2, 2, 2), QUIET, QUIET), map[], 0, map[], s.wakes,
                        5)
  {
    hide Leads, Home, Init, MaybeStart, Next, Enabled;
    var a := TwoRooms();
    var p := Stream(1, 1, 1);
    Arrives(a, 1, 1, 1, 1, [1, 2], map[]);
    s := Next(Home(), a, PreparedArrives(1, 1, 1));
    LeadsStep(Init(Home()), a, PreparedArrives(1, 1, 1), s);
    assert map[][1 := p] == map[1 := p];
    var u := a.(sessions := a.sessions[1 := WithStream(a.sessions[1], p)],
        cohorts := [Cohort(1, 1, [1, 2], map[][1 := p])],
                channels := a.channels[1 := IdleChannel(1, 1, 1)]);
    assert u.sessions == map[1 := LoadedRoom(1, 1), 2 := NewRoom(2, 2)];
    assert u.channels == FourChannels(IdleChannel(1, 1, 1), LoadedChannel(2, 2, 2), QUIET, QUIET);
    NotDue(u, 1, 1, [1, 2], map[1 := p]);
  }

  /** All streams of a release are of one sender. */
  lemma OneParty(g: Grouping, list: seq<Stream>, members: seq<SessionId>)
    requires list != [] && StreamSender(Home(), g.st, list[0]) == Some(SENDER)
    requires SameSender(Home(), g.st, list, SENDER) == members && OtherSenders(Home(), g.st, list, SENDER) == []
    ensures members != [] && GroupAll(Home(), g, list) == GroupSender(Home(), g, SENDER, members)
  {
    hide StreamSender, SameSender, OtherSenders, GroupSender;
    assert list[0].id in members;
  }

  lemma TwoSenders(s: St, p1: Stream, p2: Stream)
    requires StreamSender(Home(), s, p1) == Some(SENDER) && StreamSender(Home(), s, p2) == Some(SENDER)
    ensures SameSender(Home(), s, [p1, p2], SENDER) == [p1.id, p2.id] && OtherSenders(Home(), s, [p1, p2], SENDER) == []
  {
    hide StreamSender;
    assert [p1, p2][1..] == [p2] && [p2][1..] == [];
    assert SameSender(Home(), s, [p2], SENDER) == [p2.id] && OtherSenders(Home(), s, [p2], SENDER) == [];
  }

  lemma FirstTwoGrouped(s: St)
    requires s.sessions == map[1 := LoadedRoom(1, 1), 2 := LoadedRoom(2, 2)] && s.groups == map[]
    ensures GroupAll(Home(), Grouping(s, map[]), [Stream(1, 1, 1), Stream(2, 2, 2)]) ==
            Grouping(s.(groups := map[1 := [2]]), map[2 := 1])
  {
    hide GroupAll, SameSender, OtherSenders;
    var e := Home();
    var p1, p2 := Stream(1, 1, 1), Stream(2, 2, 2);
    var g := Grouping(s, map[]);
    TwoSenders(s, p1, p2);
    OneParty(g, [p1, p2], [1, 2]);
    assert Coordinators(e, s, SENDER) == {} && Candidates(e, s, SENDER) == {};
    assert [1, 2][1..] == [2];
    assert GroupSender(e, g, SENDER, [1, 2]) == AddToGroup(g, 1, [2]);
    JoinOne(g, 1, 2);
  }

  lemma JoinOne(g: Grouping, c: SessionId, m: SessionId)
    requires g.st.groups == map[] && g.roles == map[]
    ensures AddToGroup(g, c, [m]) == Grouping(g.st.(groups := map[c := [m]]), map[m := c])
  {
    assert [] + [m] == [m];
    assert map[][c := [m]] == map[c := [m]];
    assert map[] + (map x | x in [m] :: c) == map[m := c];
  }

  lemma TwoStreams(p1: Stream, p2: Stream)
    ensures StreamsOf([1, 2], map[1 := p1, 2 := p2]) == [p1, p2]
  {
    assert [1, 2][1..] == [2] && [2][1..] == [];
  }

  /** The first two rooms form a group: room 1 coordinates it, and room 2 is told to join. */
  lemma BothStart(s: St)
    requires s.sessions == map[1 := LoadedRoom(1, 1), 2 := LoadedRoom(2, 2)] && s.groups == map[]
    requires s.channels == FourChannels(IdleChannel(1, 1, 1), IdleChannel(2, 2, 2), QUIET, QUIET) && s.joins == 0
    ensures PlayPrepared(Home(), s, [Stream(1, 1, 1), Stream(2, 2, 2)]) ==
            s.(groups := map[1 := [2]], ticks := s.ticks + 1, joins := 1,
               channels := FourChannels(IdleChannel(1, 1, 1).(unseen := [PlayGroup(1, 1, 0, None)]),
                                  IdleChannel(2, 2, 2).(unseen := [Join(2, 2, 0, 1)]), QUIET, QUIET))
  {
    hide Home, StartOne, PrepareLaunch, GroupAll, IsSonos, StartAll;
    HomeSonos();
    var p1, p2 := Stream(1, 1, 1), Stream(2, 2, 2);
    FirstTwoGrouped(s);
    assert 2 in map[2 := 1];
    Planned(s, [p1, p2], map[1 := [2]], map[2 := 1], s.ticks);
    var (t, launch) := PrepareLaunch(Home(), s, [p1, p2]);
    StartTwo(t, launch, p1, p2);
    StartedPlain(t, t, launch, p1);
    var u := StartOne(Home(), t, t, launch, p1);
    StartedPlain(t, u, launch, p2);
    assert StartOne(Home(), t, u, launch, p2).channels ==
           FourChannels(IdleChannel(1, 1, 1).(unseen := [PlayGroup(1, 1, 0, None)]),
               IdleChannel(2, 2, 2).(unseen := [Join(2, 2, 0, 1)]),
                  QUIET, QUIET);
  }

  lemma StartTwo(s: St, launch: Launch, p1: Stream, p2: Stream)
    ensures StartAll(Home(), s, s, launch, [p1, p2]) ==
            StartOne(Home(), s, StartOne(Home(), s, s, launch, p1), launch, p2)
  {
    hide StartOne;
    assert [p1, p2][1..] == [p2] && [p2][1..] == [];
    var u := StartOne(Home(), s, s, launch, p1);
    assert StartAll(Home(), s, u, launch, [p2]) == StartOne(Home(), s, u, launch, p2);
  }

  lemma HomeSonos()
    ensures forall z :: z in {1, 2, 3, 4} ==> IsSonos(Home(), z)
  {
  }

  lemma Grouped() returns (s: St)
    ensures Leads(Init(Home()), s)
    ensures s == St(map[1 := LoadedRoom(1, 1), 2 := LoadedRoom(2, 2)], [Owner(1, 1), Owner(2, 2)], [], map[1 := [2]],
                    FourChannels(IdleChannel(1, 1, 1).(unseen := [PlayGroup(1, 1, 0, None)]),
                           IdleChannel(2, 2, 2).(unseen := [Join(2, 2, 0, 1)]), QUIET, QUIET), map[], 1, map[],
                               s.wakes, 7)
  {
    hide Leads, Home, Init, PlayPrepared, MaybeStart, Next, Enabled;
    var a := OneStream();
    var p1, p2 := Stream(1, 1, 1), Stream(2, 2, 2);
    Arrives(a, 2, 2, 2, 1, [1, 2], map[1 := p1]);
    s := Next(Home(), a, PreparedArrives(2, 2, 2));
    LeadsStep(Init(Home()), a, PreparedArrives(2, 2, 2), s);
    var prepared := map[1 := p1][2 := p2];
    var u := a.(sessions := a.sessions[2 := WithStream(a.sessions[2], p2)], cohorts := [Cohort(1, 1, [1, 2], prepared)],
                channels := a.channels[2 := IdleChannel(2, 2, 2)]);
    assert u.sessions == map[1 := LoadedRoom(1, 1), 2 := LoadedRoom(2, 2)];
    assert u.channels == FourChannels(IdleChannel(1, 1, 1), IdleChannel(2, 2, 2), QUIET, QUIET);
    assert prepared == map[1 := p1, 2 := p2];
    Releases(u, 1, [1, 2], prepared);
    TwoStreams(p1, p2);
    BothStart(Ticked(u).(cohorts := []));
  }

  // ---- The coordinator plays, and two more rooms start ----

  const PLAYED: Session := LoadedRoom(1, 1).(observed := Playing, resetNeeded := false)

  function ToldChannel(id: SessionId, zone: ZoneId, g: nat, c: Command): Channel {
    IdleChannel(id, zone, g).(unseen := [c])
  }

  /** Room 1's worker takes its start and waits for the join. */
  lemma StartTaken() returns (s: St)
    ensures Leads(Init(Home()), s)
    ensures s == St(map[1 := LoadedRoom(1, 1), 2 := LoadedRoom(2, 2)], [Owner(1, 1), Owner(2, 2)], [], map[1 := [2]],
                    FourChannels(IdleChannel(1, 1, 1).(running := Some(PlayGroup(1, 1, 0, None))),
                                 ToldChannel(2, 2, 2, Join(2, 2, 0, 1)), QUIET, QUIET), map[], 1, map[], s.wakes, 7)
  {
    hide Leads, Init, Home;
    var a := Grouped();
    var c := PlayGroup(1, 1, 0, None);
    s := WithChannel(a, 1, IdleChannel(1, 1, 1).(running := Some(c)));
    assert a.channels[1].unseen[1..] == [];
    LeadsStep(Init(Home()), a, WorkerMoves(1, Looks(0)), s);
    assert s.channels == FourChannels(IdleChannel(1, 1, 1).(running := Some(c)), ToldChannel(2, 2, 2, Join(2, 2, 0, 1)),
                                      QUIET, QUIET);
  }

  /** The wait is over and the room answers that it plays. */
  lemma StartAnswered() returns (s: St)
    ensures Leads(Init(Home()), s)
    ensures s == St(map[1 := LoadedRoom(1, 1), 2 := LoadedRoom(2, 2)], [Owner(1, 1), Owner(2, 2)], [], map[1 := [2]],
                    FourChannels(IdleChannel(1, 1, 1).(bag := multiset{Result(1, 1, Started)}),
                                 ToldChannel(2, 2, 2, Join(2, 2, 0, 1)), QUIET, QUIET), map[], 1, map[0 := 0], s.wakes,
                                     8)
  {
    hide Leads, Init;
    var a := StartTaken();
    var ended := IdleChannel(1, 1, 1).(bag := multiset{Result(1, 1, Started)});
    s := WithChannel(Ticked(a).(released := map[0 := 0]), 1, ended);
    assert multiset{} + multiset{Result(1, 1, Started)} == multiset{Result(1, 1, Started)};
    assert map[][0 := 0] == map[0 := 0];
    LeadsStep(Init(Home()), a, GroupPlayEnds(1, Started), s);
    assert s.channels == FourChannels(ended, ToldChannel(2, 2, 2, Join(2, 2, 0, 1)), QUIET, QUIET);
  }

  /** The result of room 1 arrives: it plays. */
  lemma Started1(s: St)
    requires s == St(map[1 := LoadedRoom(1, 1), 2 := LoadedRoom(2, 2)], [Owner(1, 1), Owner(2, 2)], [], map[1 := [2]],
                     FourChannels(IdleChannel(1, 1, 1).(bag := multiset{Result(1, 1, Started)}),
                                  ToldChannel(2, 2, 2, Join(2, 2, 0, 1)), QUIET, QUIET), map[], 1, map[0 := 0],
                                      s.wakes, 8)
    ensures Next(Home(), s, ResultArrives(1, 1, 1, Started)) ==
            s.(sessions := map[1 := PLAYED, 2 := LoadedRoom(2, 2)],
               channels := FourChannels(IdleChannel(1, 1, 1), ToldChannel(2, 2, 2, Join(2, 2, 0, 1)), QUIET, QUIET))
  {
    hide Home, HandleResult, ForgetMember, FourChannels;
    var m := Result(1, 1, Started);
    TakeOnly(s, IdleChannel(1, 1, 1), ToldChannel(2, 2, 2, Join(2, 2, 0, 1)), m);
    StartedSimply(Take(s, 1, m), 1, 1);
    OthersStay([2], 1);
    assert map[1 := LoadedRoom(1, 1), 2 := LoadedRoom(2, 2)][1 := PLAYED] == map[1 := PLAYED, 2 := LoadedRoom(2, 2)];
  }

  lemma TakeOnly(s: St, a: Channel, b: Channel, m: Message)
    requires a.bag == multiset{} && s.channels == FourChannels(a.(bag := multiset{m}), b, QUIET, QUIET)
    ensures 1 in s.channels && Take(s, 1, m) == s.(channels := FourChannels(a, b, QUIET, QUIET))
  {
    assert multiset{m} - multiset{m} == multiset{};
    assert FourChannels(a.(bag := multiset{m}), b, QUIET, QUIET)[1 := a] == FourChannels(a, b, QUIET, QUIET);
  }

  lemma StartedSimply(s: St, id: SessionId, g: nat)
    requires id in s.sessions && s.sessions[id].generation == g && s.sessions[id].wanted
    ensures HandleResult(Home(), s, id, g, Started) ==
            s.(sessions := s.sessions[id := ResultSession(s.sessions[id], Started)],
                groups := ForgetMember(s.groups, id))
  {
    hide LeaveGroup, ForgetMember, ResultSession, Home;
  }

  lemma OthersStay(members: seq<SessionId>, id: SessionId)
    requires id !in members
    ensures ForgetMember(map[id := members], id) == map[id := members]
  {
    WithoutStranger(members, id);
  }

  lemma Plays() returns (s: St)
    ensures Leads(Init(Home()), s)
    ensures s == St(map[1 := PLAYED, 2 := LoadedRoom(2, 2)], [Owner(1, 1), Owner(2, 2)], [], map[1 := [2]],
                    FourChannels(IdleChannel(1, 1, 1), ToldChannel(2, 2, 2, Join(2, 2, 0, 1)), QUIET, QUIET), map[], 1,
                        map[0 := 0], s.wakes, 8)
  {
    hide Leads, Init, Home, HandleResult;
    var a := StartAnswered();
    Started1(a);
    s := Next(Home(), a, ResultArrives(1, 1, 1, Started));
    LeadsStep(Init(Home()), a, ResultArrives(1, 1, 1, Started), s);
  }

  lemma WholeWithout(s: St, ids: seq<SessionId>)
    requires forall j :: j in ids ==> j in s.sessions && s.sessions[j].wanted
    ensures Whole(s, ids, map[])
  {
  }

  lemma ThirdRoom() returns (s: St)
    ensures Leads(Init(Home()), s)
    ensures s == St(map[1 := PLAYED, 2 := LoadedRoom(2, 2), 3 := NewRoom(3, 3)],
            [Owner(1, 1), Owner(2, 2), Owner(3, 3)],
                    [Cohort(1, 1, [3], map[])], map[1 := [2]],
                    FourChannels(IdleChannel(1, 1, 1), ToldChannel(2, 2, 2, Join(2, 2, 0, 1)), AskedChannel(3, 3),
                        QUIET), map[], 1, map[0 := 0], s.wakes, 10)
  {
    hide Leads, StartSession, Home, Init, Whole;
    var a := Plays();
    HomeRooms();
    WholeWithout(a, []);
    Begin(a, 3, 3, [], map[]);
    s := StartSession(Home(), a, 3, 3, Some(SENDER));
    LeadsStart(Init(Home()), a, 3, 3);
    assert a.issued + [Owner(3, 3)] == [Owner(1, 1), Owner(2, 2), Owner(3, 3)] && [] + [3] == [3];
    assert s.channels == FourChannels(IdleChannel(1, 1, 1), ToldChannel(2, 2, 2, Join(2, 2, 0, 1)), AskedChannel(3, 3),
           QUIET);
    assert s.sessions == map[1 := PLAYED, 2 := LoadedRoom(2, 2), 3 := NewRoom(3, 3)];
  }

  function FourSessions(a: Session, b: Session, c: Session, d: Session): map<SessionId, Session> {
    map[1 := a, 2 := b, 3 := c, 4 := d]
  }

  lemma FourthStarts() returns (s: St)
    ensures Leads(Init(Home()), s)
    ensures s == St(FourSessions(PLAYED, LoadedRoom(2, 2), NewRoom(3, 3), NewRoom(4, 4)),
                    [Owner(1, 1), Owner(2, 2), Owner(3, 3), Owner(4, 4)],
                    [Cohort(1, 1, [3, 4], map[])], map[1 := [2]],
                    FourChannels(IdleChannel(1, 1, 1), ToldChannel(2, 2, 2, Join(2, 2, 0, 1)), AskedChannel(3, 3),
                                 AskedChannel(4, 4)), map[], 1, map[0 := 0], s.wakes, 12)
  {
    hide Leads, StartSession, Home, Init, Whole;
    var a := ThirdRoom();
    HomeRooms();
    WholeWithout(a, [3]);
    Begin(a, 4, 4, [3], map[]);
    s := StartSession(Home(), a, 4, 4, Some(SENDER));
    LeadsStart(Init(Home()), a, 4, 4);
    assert a.issued + [Owner(4, 4)] == [Owner(1, 1), Owner(2, 2), Owner(3, 3), Owner(4, 4)] && [3] + [4] == [3, 4];
    assert s.channels == FourChannels(IdleChannel(1, 1, 1), ToldChannel(2, 2, 2, Join(2, 2, 0, 1)), AskedChannel(3, 3),
                                      AskedChannel(4, 4));
    assert s.sessions == FourSessions(PLAYED, LoadedRoom(2, 2), NewRoom(3, 3), NewRoom(4, 4));
  }

  lemma FourthRoom() returns (s: St)
    ensures Leads(Init(Home()), s)
    ensures s == St(FourSessions(PLAYED, LoadedRoom(2, 2), NewRoom(3, 3), NewRoom(4, 4)),
                    [Owner(1, 1), Owner(2, 2), Owner(3, 3), Owner(4, 4)],
                    [Cohort(1, 1, [3, 4], map[])], map[1 := [2]],
                    FourChannels(IdleChannel(1, 1, 1), ToldChannel(2, 2, 2, Join(2, 2, 0, 1)), LoadedChannel(3, 3, 3),
                                 AskedChannel(4, 4)), map[], 1, map[0 := 0], s.wakes, 12)
  {
    hide Leads, Home, Init;
    var a := FourthStarts();
    LoadUp(Init(Home()), a, 3, 3, 3, Stop(3, 3));
    s := WithChannel(a, 3, LoadedChannel(3, 3, 3));
    assert s.channels == FourChannels(IdleChannel(1, 1, 1), ToldChannel(2, 2, 2, Join(2, 2, 0, 1)),
           LoadedChannel(3, 3, 3),
                                      AskedChannel(4, 4));
  }

  /** Room 1 plays and has a member, and room 3's stream waits for room 4's. */
  lemma ThirdWaits() returns (s: St)
    ensures Leads(Init(Home()), s)
    ensures s == St(FourSessions(PLAYED, LoadedRoom(2, 2), LoadedRoom(3, 3), NewRoom(4, 4)),
                    [Owner(1, 1), Owner(2, 2), Owner(3, 3), Owner(4, 4)],
                    [Cohort(1, 1, [3, 4], map[3 := Stream(3, 3, 3)])], map[1 := [2]],
                    FourChannels(IdleChannel(1, 1, 1), ToldChannel(2, 2, 2, Join(2, 2, 0, 1)), IdleChannel(3, 3, 3),
                        AskedChannel(4, 4)),
                    map[], 1, map[0 := 0], s.wakes, 13)
  {
    hide Leads, Home, Init, MaybeStart, Next, Enabled;
    var a := FourthRoom();
    var p := Stream(3, 3, 3);
    Arrives(a, 3, 3, 3, 1, [3, 4], map[]);
    s := Next(Home(), a, PreparedArrives(3, 3, 3));
    LeadsStep(Init(Home()), a, PreparedArrives(3, 3, 3), s);
    assert map[][3 := p] == map[3 := p];
    var u := a.(sessions := a.sessions[3 := WithStream(a.sessions[3], p)],
        cohorts := [Cohort(1, 1, [3, 4], map[][3 := p])],
                channels := a.channels[3 := IdleChannel(3, 3, 3)]);
    assert u.sessions == FourSessions(PLAYED, LoadedRoom(2, 2), LoadedRoom(3, 3), NewRoom(4, 4));
    assert u.channels == FourChannels(IdleChannel(1, 1, 1), ToldChannel(2, 2, 2, Join(2, 2, 0, 1)),
           IdleChannel(3, 3, 3), AskedChannel(4, 4));
    NotDue(u, 1, 1, [3, 4], map[3 := p]);
  }

  // ---- The restart ----

  /** A restarted session, in epoch `epoch`. */
  function RestartedRoom(zone: ZoneId, g: nat, epoch: nat): Session {
    NewRoom(zone, g).(encoder := Some(Encoder(g, epoch, [])), epoch := epoch)
  }

  /** The room that plays is picked, and the waiting room is told to join it. */
  lemma ThirdJoins(s: St, wanted: Session)
    requires s.sessions == FourSessions(PLAYED.(epoch := 1), wanted, LoadedRoom(3, 3), NewRoom(4, 4))
             && wanted == RestartedRoom(2, 5, 0)
    requires s.groups == map[] && 3 in s.channels && s.channels[3] == IdleChannel(3, 3, 3)
    ensures PlayPrepared(Home(), s, [Stream(3, 3, 3)]) ==
            s.(groups := map[1 := [3]], ticks := s.ticks + 2, joins := s.joins + 1,
               channels := s.channels[3 := ToldChannel(3, 3, 3, Join(3, 3, s.joins, 1))])
  {
    hide Home, StartOne, PrepareLaunch, GroupAll, IsSonos, StartAll;
    HomeSonos();
    var p := Stream(3, 3, 3);
    ThirdGrouped(s, wanted);
    assert 3 in map[3 := 1];
    Planned(s, [p], map[1 := [3]], map[3 := 1], s.ticks + 1);
    var (t, launch) := PrepareLaunch(Home(), s, [p]);
    StartSingle(t, launch, p);
    StartedPlain(t, t, launch, p);
  }

  lemma StartSingle(s: St, launch: Launch, p: Stream)
    ensures StartAll(Home(), s, s, launch, [p]) == StartOne(Home(), s, s, launch, p)
  {
    hide StartOne;
    assert [p][1..] == [];
    var u := StartOne(Home(), s, s, launch, p);
    assert StartAll(Home(), s, u, launch, []) == u;
  }

  lemma OneSender(s: St, p: Stream)
    requires StreamSender(Home(), s, p) == Some(SENDER)
    ensures SameSender(Home(), s, [p], SENDER) == [p.id] && OtherSenders(Home(), s, [p], SENDER) == []
  {
    hide StreamSender;
    assert [p][1..] == [];
  }

  lemma ThirdGrouped(s: St, wanted: Session)
    requires s.sessions == FourSessions(PLAYED.(epoch := 1), wanted, LoadedRoom(3, 3), NewRoom(4, 4))
             && wanted == RestartedRoom(2, 5, 0)
    requires s.groups == map[]
    ensures GroupAll(Home(), Grouping(s, map[]), [Stream(3, 3, 3)]) ==
            Grouping(s.(groups := map[1 := [3]], ticks := s.ticks + 1), map[3 := 1])
  {
    hide GroupAll, SameSender, OtherSenders;
    var e := Home();
    var p := Stream(3, 3, 3);
    var g := Grouping(s, map[]);
    OneSender(s, p);
    OneParty(g, [p], [3]);
    assert Coordinators(e, s, SENDER) == {};
    assert Eligible(e, s, 1, SENDER);
    assert 1 in Candidates(e, s, SENDER);
    JoinOne(g.(st := Ticked(s)), 1, 3);
  }

  function Owners(n: nat): seq<Owner>
    requires n <= 6
  {
    [Owner(1, 1), Owner(2, 2), Owner(3, 3), Owner(4, 4), Owner(2, 2), Owner(1, 1)][..n]
  }

  /** Room 1 plays and is about to restart, room 3 waits. */
  predicate Leaving(s: St, groups: map<SessionId, seq<SessionId>>) {
    s == St(FourSessions(PLAYED.(epoch := 1), LoadedRoom(2, 2), LoadedRoom(3, 3), NewRoom(4, 4)), Owners(4),
            [Cohort(1, 1, [3, 4], map[3 := Stream(3, 3, 3)])], groups,
            FourChannels(IdleChannel(1, 1, 1), ToldChannel(2, 2, 2, Join(2, 2, 0, 1)), IdleChannel(3, 3, 3),
                AskedChannel(4, 4)),
            map[], 1, map[0 := 0], s.wakes, 13)
  }

  /** Room 2 is prepared anew. */
  predicate MemberBack(s: St, cohorts: seq<Cohort>, ticks: nat) {
    2 in s.channels
    && s == St(FourSessions(PLAYED.(epoch := 1), RestartedRoom(2, 5, 0), LoadedRoom(3, 3), NewRoom(4, 4)), Owners(5),
       cohorts, map[],
               FourChannels(IdleChannel(1, 1, 1), s.channels[2], IdleChannel(3, 3, 3), AskedChannel(4, 4)), map[], 1,
                   map[0 := 0], s.wakes, ticks)
  }

  lemma MemberRebuilt(s: St)
    requires Leaving(s, map[])
    ensures Restart(Home(), s, 2) == MaybeStart(Home(), Rebuild(Home(), s, 2), false)
    ensures MemberBack(Rebuild(Home(), s, 2), [Cohort(1, 1, [3, 4, 2], map[3 := Stream(3, 3, 3)])], 14)
  {
    hide Home, Restart, Rebuild, MaybeStart, Enqueue, Rebuilds;
    HomeRooms();
    assert s.sessions[2 := s.sessions[2].(timer := None)] == s.sessions;
    RestartAlone(s, 2);
    Rebuilt(s, 2);
    Admitted(Home(), 1, [3, 4], map[3 := Stream(3, 3, 3)], 2, 0);
    var u := Rebuild(Home(), s, 2);
    assert [3, 4] + [2] == [3, 4, 2];
    assert u.sessions == FourSessions(PLAYED.(epoch := 1), RestartedRoom(2, 5, 0), LoadedRoom(3, 3), NewRoom(4, 4));
    assert Owners(4) + [Owner(2, 2)] == Owners(5);
    assert u.channels == FourChannels(IdleChannel(1, 1, 1), u.channels[2], IdleChannel(3, 3, 3), AskedChannel(4, 4));
  }

  /** The member that restarts releases the waiting cohort, whose time has come. */
  lemma MemberRestarts(s: St)
    requires Leaving(s, map[])
    ensures var t := Restart(Home(), s, 2);
            && 2 in t.channels
            && t == St(FourSessions(PLAYED.(epoch := 1), RestartedRoom(2, 5, 0), LoadedRoom(3, 3), NewRoom(4, 4)),
               Owners(5), [], map[1 := [3]],
                       FourChannels(IdleChannel(1, 1, 1), t.channels[2], ToldChannel(3, 3, 3, Join(3, 3, 1, 1)),
                           AskedChannel(4, 4)),
                       map[], 2, map[0 := 0], t.wakes, 17)
  {
    hide Home, Restart, Rebuild, MaybeStart, PlayPrepared;
    var p := Stream(3, 3, 3);
    MemberRebuilt(s);
    var u := Rebuild(Home(), s, 2);
    Releases(u, 1, [3, 4, 2], map[3 := p]);
    OneOfThree(p);
    var v := Ticked(u).(cohorts := []);
    ThirdJoins(v, RestartedRoom(2, 5, 0));
    ThirdChanges(IdleChannel(1, 1, 1), v.channels[2], IdleChannel(3, 3, 3), AskedChannel(4, 4),
                 ToldChannel(3, 3, 3, Join(3, 3, 1, 1)));
  }

  lemma ThirdChanges(a: Channel, b: Channel, c: Channel, d: Channel, to: Channel)
    ensures FourChannels(a, b, c, d)[3 := to] == FourChannels(a, b, to, d)
  {
  }

  lemma OneOfThree(p: Stream)
    ensures StreamsOf([3, 4, 2], map[3 := p]) == [p]
  {
    assert [3, 4, 2][1..] == [4, 2] && [4, 2][1..] == [2] && [2][1..] == [];
    assert StreamsOf([2], map[3 := p]) == [];
    assert StreamsOf([4, 2], map[3 := p]) == [];
  }

  predicate Broken(s: St) {
    2 in s.channels
    && s == St(FourSessions(RestartedRoom(1, 6, 1), RestartedRoom(2, 5, 0), LoadedRoom(3, 3), NewRoom(4, 4)), Owners(6),
               [Cohort(11, 11, [1], map[])], map[1 := [3]],
               FourChannels(IdleChannel(1, 1, 1).(unseen := [Stop(1, 6), Prepare(1, 6)]), s.channels[2],
                      ToldChannel(3, 3, 3, Join(3, 3, 1, 1)), AskedChannel(4, 4)),
               map[], 2, map[0 := 0], s.wakes, 19)
  }

  lemma CoordinatorRebuilt(s: St)
    requires 2 in s.channels
    requires s == St(FourSessions(PLAYED.(epoch := 1), RestartedRoom(2, 5, 0), LoadedRoom(3, 3), NewRoom(4, 4)),
             Owners(5), [], map[1 := [3]],
                     FourChannels(IdleChannel(1, 1, 1), s.channels[2], ToldChannel(3, 3, 3, Join(3, 3, 1, 1)),
                         AskedChannel(4, 4)),
                     map[], 2, map[0 := 0], s.wakes, 17)
    ensures Broken(MaybeStart(Home(), Rebuild(Home(), s, 1), false))
  {
    hide Home, Rebuild, MaybeStart, Enqueue, Rebuilds;
    HomeRooms();
    HomeTimes();
    Rebuilt(s, 1);
    Opened(Home(), 1, 10);
    var u := Rebuild(Home(), s, 1);
    assert u.sessions == FourSessions(RestartedRoom(1, 6, 1), RestartedRoom(2, 5, 0), LoadedRoom(3, 3), NewRoom(4, 4));
    assert Owners(5) + [Owner(1, 1)] == Owners(6);
    assert [] + [Stop(1, 6), Prepare(1, 6)] == [Stop(1, 6), Prepare(1, 6)];
    NotDue(u, 11, 11, [1], map[]);
  }

  lemma FlushRestarts(s: St)
    requires 1 in s.sessions && s.sessions[1] == PLAYED
    ensures Next(Home(), s, Flushed(1, 1)) == Restart(Home(), s.(sessions := s.sessions[1 := PLAYED.(epoch := 1)]), 1)
    ensures Enabled(Home(), s, Flushed(1, 1))
  {
    hide Restart, Home;
  }

  lemma CoordinatorLeaves(s: St)
    requires Leaving(s, map[1 := [2]])
    ensures Broken(Restart(Home(), s, 1))
  {
    hide Home, Restart, Rebuild, MaybeStart, LeaveGroup, Broken;
    HomeRooms();
    GroupDissolves(s);
    MemberRestarts(s.(groups := map[]));
    RestartOfPlaying(s, LeaveGroup(Home(), s, 1));
    CoordinatorRebuilt(LeaveGroup(Home(), s, 1));
  }

  /** Room 1 restarts: it is being prepared, and coordinates a group. */
  lemma CoordinatorRestarts() returns (s: St)
    ensures Leads(Init(Home()), s) && Broken(s)
  {
    hide Leads, Init, Home, Restart, Broken, Next, Enabled;
    var a := ThirdWaits();
    var b := a.(sessions := a.sessions[1 := PLAYED.(epoch := 1)]);
    assert b.sessions == FourSessions(PLAYED.(epoch := 1), LoadedRoom(2, 2), LoadedRoom(3, 3), NewRoom(4, 4));
    assert a.issued == Owners(4);
    FlushRestarts(a);
    s := Next(Home(), a, Flushed(1, 1));
    LeadsStep(Init(Home()), a, Flushed(1, 1), s);
    CoordinatorLeaves(b);
  }

  lemma HomeTimes()
    ensures Home().window == 1 && Home().deadline == 1 && !Home().clearFirst
  {
  }

  lemma RestartOfPlaying(s: St, t: St)
    requires 1 in s.sessions && s.sessions[1].timer.None? && LeaveGroup(Home(), s, 1) == t
    requires 1 in t.sessions && t.sessions[1].zone == 1 && 1 in t.channels
    ensures Restart(Home(), s, 1) == MaybeStart(Home(), Rebuild(Home(), t, 1), false)
  {
    hide LeaveGroup, Rebuild, MaybeStart, Load;
    assert s.sessions[1 := s.sessions[1].(timer := None)] == s.sessions;
    Rebuilt(t, 1);
  }

  lemma GroupDissolves(s: St)
    requires Leaving(s, map[1 := [2]])
    ensures LeaveGroup(Home(), s, 1) == Restart(Home(), s.(groups := map[]), 2)
  {
    hide Restart, Load;
    WithoutStranger([2], 1);
    assert ForgetMember(s.groups, 1) == map[1 := [2]];
    assert map[1 := [2]] - {1} == map[];
    assert [2][1..] == [];
    var t := s.(groups := map[]);
    var u := Restart(Home(), t, 2);
    assert RestartMembers(Home(), u, []) == u;
    assert RestartMembers(Home(), t, [2]) == u;
  }

  // ---- The coordinator is told to join itself ----

  lemma SelfPreferred(s: St)
    requires s.sessions == FourSessions(WithStream(RestartedRoom(1, 6, 1), Stream(1, 1, 6)), RestartedRoom(2, 5, 0),
             LoadedRoom(3, 3), NewRoom(4, 4))
    requires s.groups == map[1 := [3]]
    ensures 1 in Preferred(Home(), s, SENDER) && Home().choose(s.ticks, Preferred(Home(), s, SENDER)) == 1
    ensures IsSonos(Home(), 1)
  {
    assert Eligible(Home(), s, 1, SENDER);
    assert 1 in Coordinators(Home(), s, SENDER);
  }

  lemma SelfAdded(s: St)
    requires s.groups == map[1 := [3]]
    ensures AddToGroup(Grouping(s, map[]), 1, [1]) == Grouping(s.(groups := map[1 := [3, 1]]), map[1 := 1])
  {
    assert [3] + [1] == [3, 1];
    assert map[1 := [3]][1 := [3, 1]] == map[1 := [3, 1]];
    assert map[] + (map x | x in [1] :: 1) == map[1 := 1];
  }

  lemma SelfGrouped(s: St)
    requires s.sessions == FourSessions(WithStream(RestartedRoom(1, 6, 1), Stream(1, 1, 6)), RestartedRoom(2, 5, 0),
             LoadedRoom(3, 3), NewRoom(4, 4))
    requires s.groups == map[1 := [3]]
    ensures GroupAll(Home(), Grouping(s, map[]), [Stream(1, 1, 6)]) ==
            Grouping(s.(groups := map[1 := [3, 1]], ticks := s.ticks + 1), map[1 := 1])
  {
    hide GroupAll, SameSender, OtherSenders, Preferred, Home, AddToGroup, IsSonos;
    var p := Stream(1, 1, 6);
    var g := Grouping(s, map[]);
    SelfPreferred(s);
    OneSender(s, p);
    OneParty(g, [p], [1]);
    SelfAdded(Ticked(s));
    assert Ticked(s).(groups := map[1 := [3, 1]]) == s.(groups := map[1 := [3, 1]], ticks := s.ticks + 1);
  }

  lemma SelfJoins(s: St)
    requires s.sessions == FourSessions(WithStream(RestartedRoom(1, 6, 1), Stream(1, 1, 6)), RestartedRoom(2, 5, 0),
             LoadedRoom(3, 3), NewRoom(4, 4))
    requires s.groups == map[1 := [3]] && s.joins == 2 && 1 in s.channels && s.channels[1] == IdleChannel(1, 1, 6)
    ensures var t := PlayPrepared(Home(), s, [Stream(1, 1, 6)]);
            && t.sessions == s.sessions && t.groups == map[1 := [3, 1]]
            && t.channels == s.channels[1 := ToldChannel(1, 1, 6, Join(1, 6, 2, 1))]
  {
    hide Home, StartOne, PrepareLaunch, GroupAll, IsSonos, StartAll;
    HomeSonos();
    var p := Stream(1, 1, 6);
    SelfGrouped(s);
    assert 1 in map[1 := 1];
    Planned(s, [p], map[1 := [3, 1]], map[1 := 1], s.ticks + 1);
    var (t, launch) := PrepareLaunch(Home(), s, [p]);
    StartSingle(t, launch, p);
    StartedPlain(t, t, launch, p);
  }

  /** In the order that the source has, a run can end with a room that is a member of its own
      group and is told to join itself. */
  lemma CoordinatorJoinsItself() returns (steps: seq<Step>)
    ensures ValidEnv(Home()) && !Home().clearFirst && Possible(Home(), Init(Home()), steps)
    ensures var s := Run(Home(), Init(Home()), steps);
            && 1 in s.groups && 1 in s.groups[1] && !Forest(Home(), s)
            && 1 in s.sessions && s.sessions[1].zone == 1
            && 1 in s.channels && s.channels[1].unseen == [Join(1, s.sessions[1].generation, 2, 1)]
  {
    hide Home, Init, MaybeStart, PlayPrepared, ValidEnv, Forest, Run, Possible;
    HomeValid();
    HomeTimes();
    var a := CoordinatorRestarts();
    LoadUp(Init(Home()), a, 1, 1, 6, Stop(1, 6));
    var b := WithChannel(a, 1, LoadedChannel(1, 1, 6));
    Arrives(b, 1, 1, 6, 11, [1], map[]);
    var p := Stream(1, 1, 6);
    var s := Next(Home(), b, PreparedArrives(1, 1, 6));
    LeadsStep(Init(Home()), b, PreparedArrives(1, 1, 6), s);
    SelfRelease(b);
    SelfMember(Home(), s);
    steps :| Possible(Home(), Init(Home()), steps) && Run(Home(), Init(Home()), steps) == s;
  }

  lemma SelfRelease(s: St)
    requires s.sessions == FourSessions(RestartedRoom(1, 6, 1), RestartedRoom(2, 5, 0), LoadedRoom(3, 3), NewRoom(4, 4))
    requires s.groups == map[1 := [3]] && s.joins == 2 && 1 in s.channels && s.ticks == 19
    requires s.cohorts == [Cohort(11, 11, [1], map[])]
    ensures var p := Stream(1, 1, 6);
            var u := s.(sessions := s.sessions[1 := WithStream(s.sessions[1], p)],
                        cohorts := [Cohort(11, 11, [1], map[][1 := p])],
                            channels := s.channels[1 := IdleChannel(1, 1, 6)]);
            var t := MaybeStart(Home(), u, false);
            && t.groups == map[1 := [3, 1]] && t.sessions == u.sessions
            && 1 in t.channels && t.channels[1] == ToldChannel(1, 1, 6, Join(1, 6, 2, 1))
  {
    hide Home, MaybeStart, PlayPrepared;
    var p := Stream(1, 1, 6);
    var u := s.(sessions := s.sessions[1 := WithStream(s.sessions[1], p)],
                cohorts := [Cohort(11, 11, [1], map[][1 := p])], channels := s.channels[1 := IdleChannel(1, 1, 6)]);
    assert u.sessions == FourSessions(WithStream(RestartedRoom(1, 6, 1), p), RestartedRoom(2, 5, 0), LoadedRoom(3, 3),
           NewRoom(4, 4));
    Releases(u, 11, [1], map[][1 := p]);
    assert StreamsOf([1], map[][1 := p]) == [p] by {
      assert [1][1..] == [];
    }
    SelfJoins(Ticked(u).(cohorts := []));
  }

  lemma SelfMember(e: Env, s: St)
    requires 1 in s.groups && 1 in s.groups[1]
    ensures !Forest(e, s)
  {
    hide Unready;
    assert Forest(e, s) ==> MemberOk(e, s, 1, 1);
  }
}
