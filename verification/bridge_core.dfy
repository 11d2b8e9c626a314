/** The room invariant over the whole bridge, and why every handler keeps it, whichever order
    a restart uses. */
module BridgeCore {
  import opened BridgeState
  import opened BridgeHandlers
  import opened BridgeRooms

  // ---- The cohort queue ----

  /** A session waits in at most one cohort, at most once, and only a cohort's sessions have
      streams there. */
  ghost predicate Distinct(q: seq<Cohort>) {
    && (forall i :: 0 <= i < |q| ==> NoDuplicates(q[i].sessions))
    && (forall i, j, id :: 0 <= i < j < |q| && id in q[i].sessions ==> id !in q[j].sessions)
    && (forall i, id :: 0 <= i < |q| && id in q[i].prepared ==> id in q[i].sessions)
  }

  /** Deadlines are sorted and at most the configured deadline away, and each has a wake that
      is still to come. */
  ghost predicate Timely(e: Env, q: seq<Cohort>, wakes: set<nat>, now: nat) {
    && (forall i :: 0 <= i < |q| ==> q[i].windowDeadline <= q[i].startDeadline <= now + e.deadline)
    && (forall i, j :: 0 <= i < j < |q| ==> q[i].startDeadline <= q[j].startDeadline)
    && (forall i :: 0 <= i < |q| ==> q[i].startDeadline in wakes)
  }

  ghost predicate ValidEnv(e: Env) {
    && e.window <= e.deadline
    && (forall i, j :: 0 <= i <= j ==> e.clock(i) <= e.clock(j))
    && (forall t, ids: set<SessionId> :: ids != {} ==> e.choose(t, ids) in ids)
  }

  ghost predicate Queue(e: Env, s: St) {
    Distinct(s.cohorts) && Timely(e, s.cohorts, s.wakes, Now(e, s))
  }

  // ---- The core invariant ----

  ghost predicate Channels(e: Env, s: St) {
    && s.channels.Keys == e.renderers.Keys
    && (forall z :: z in s.channels ==>
          ChannelOk(IsSonos(e, z), e.wav, s.channels[z], s.plans) && Bounded(s.channels[z], z, s.issued))
  }

  /** Zones have one session each, and the newest generation of each session is its own. */
  ghost predicate Sessions(e: Env, s: St) {
    && (forall id :: id in s.sessions ==>
          && s.sessions[id].zone in e.renderers
          && (s.sessions[id].timer.Some? ==> Issued(s.issued, s.sessions[id].zone, id, s.sessions[id].timer.value))
          && (s.sessions[id].generation > 0 ==> Issued(s.issued, s.sessions[id].zone, id, s.sessions[id].generation)))
    && (forall i, j :: i in s.sessions && j in s.sessions && s.sessions[i].zone == s.sessions[j].zone ==> i == j)
  }

  /** A stream that waits carries a generation that was issued to its session. */
  predicate StreamFits(s: St, id: SessionId, p: Stream) {
    p.id == id && Issued(s.issued, p.zone, id, p.generation)
  }

  ghost predicate Streams(s: St) {
    forall i, id :: 0 <= i < |s.cohorts| && id in s.cohorts[i].prepared ==>
      StreamFits(s, id, s.cohorts[i].prepared[id])
  }

  ghost predicate Rooms(e: Env, s: St, exempt: set<SessionId>)
    requires Channels(e, s) && Sessions(e, s)
  {
    forall id :: id in s.sessions ==> Room(e, s, id, exempt)
  }

  /** The core invariant. Sessions in `exempt` are in the middle of a change: what drives
      them is settled when it ends. */
  ghost predicate Core(e: Env, s: St, exempt: set<SessionId>) {
    Channels(e, s) && Sessions(e, s) && Streams(s) && Rooms(e, s, exempt)
  }

  lemma CoreRelax(e: Env, s: St, exempt: set<SessionId>, more: set<SessionId>)
    requires Core(e, s, exempt) && exempt <= more
    ensures Core(e, s, more)
  {
    forall id | id in s.sessions ensures Room(e, s, id, more) {
      assert Room(e, s, id, exempt);
    }
  }

  /** Two states that agree outside one session and its zone. */
  ghost predicate SameElsewhere(s: St, t: St, id: SessionId)
    requires id in s.sessions
  {
    && t.sessions.Keys == s.sessions.Keys
    && (forall j :: j in s.sessions && j != id ==> t.sessions[j] == s.sessions[j])
    && t.channels.Keys == s.channels.Keys
    && (forall z :: z in s.channels && z != s.sessions[id].zone ==> t.channels[z] == s.channels[z])
    && t.sessions[id].zone == s.sessions[id].zone
    && s.issued <= t.issued
    && s.plans.Keys <= t.plans.Keys
  }

  lemma SameSession(s: St, t: St, id: SessionId, j: SessionId)
    requires id in s.sessions && SameElsewhere(s, t, id)
    ensures j in t.sessions <==> j in s.sessions
    ensures j in s.sessions && j != id ==> t.sessions[j] == s.sessions[j]
  {
  }

  lemma SameSessions(s: St, t: St, id: SessionId)
    requires id in s.sessions && SameElsewhere(s, t, id)
    ensures t.sessions.Keys == s.sessions.Keys
    ensures forall j :: j in s.sessions && j != id ==> t.sessions[j] == s.sessions[j]
  {
  }

  /** What the core invariant says about one session. */
  lemma CoreAt(e: Env, s: St, id: SessionId, exempt: set<SessionId>)
    requires Core(e, s, exempt) && id in s.sessions
    ensures s.channels.Keys == e.renderers.Keys && s.sessions[id].zone in s.channels
    ensures var z := s.sessions[id].zone;
            ChannelOk(IsSonos(e, z), e.wav, s.channels[z], s.plans) && Bounded(s.channels[z], z, s.issued)
    ensures s.sessions[id].attempts <= RETRY_BUDGET
    ensures s.sessions[id].generation > 0 ==> Issued(s.issued, s.sessions[id].zone, id, s.sessions[id].generation)
    ensures s.sessions[id].timer.Some? ==> Issued(s.issued, s.sessions[id].zone, id, s.sessions[id].timer.value)
    ensures Room(e, s, id, exempt) && Streams(s)
  {
    assert Room(e, s, id, exempt);
  }

  lemma ChannelMorePlans(sonos: bool, wav: bool, ch: Channel, plans: map<nat, Plan>, plans': map<nat, Plan>)
    requires ChannelOk(sonos, wav, ch, plans) && plans.Keys <= plans'.Keys
    ensures ChannelOk(sonos, wav, ch, plans')
  {
  }

  lemma StreamsKept(s: St, t: St)
    requires Streams(s) && t.cohorts == s.cohorts && s.issued <= t.issued
    ensures Streams(t)
  {
    forall i, id | 0 <= i < |t.cohorts| && id in t.cohorts[i].prepared
      ensures StreamFits(t, id, t.cohorts[i].prepared[id])
    {
      assert StreamFits(s, id, s.cohorts[i].prepared[id]);
    }
  }

  lemma StepIssued(s: St, t: St, id: SessionId)
    requires id in s.sessions && SameElsewhere(s, t, id)
    ensures forall z, j, g :: Issued(s.issued, z, j, g) ==> Issued(t.issued, z, j, g)
    ensures |s.issued| <= |t.issued|
  {
  }

  /** A step in one room keeps the core invariant if that room ends up right. */
  lemma StepInRoom(e: Env, s: St, t: St, id: SessionId, exempt: set<SessionId>, after: set<SessionId>)
    requires Core(e, s, exempt) && id in s.sessions && SameElsewhere(s, t, id)
    requires exempt <= after + {id}
    requires forall j :: j in s.sessions && j != id ==> Entry(t, j) == Entry(s, j)
    requires Streams(t)
    requires var z := s.sessions[id].zone;
             ChannelOk(IsSonos(e, z), e.wav, t.channels[z], t.plans) && Bounded(t.channels[z], z, t.issued)
    requires t.sessions[id].timer.Some? ==> Issued(t.issued, t.sessions[id].zone, id, t.sessions[id].timer.value)
    requires t.sessions[id].generation > 0 ==> Issued(t.issued, t.sessions[id].zone, id, t.sessions[id].generation)
    requires Room(e, t, id, after)
    ensures Core(e, t, after)
  {
    hide RoomOk, ChannelOk, Bounded, HasEntry, StreamFits, Issued, Streams, Sessions, Channels, Rooms, SameElsewhere,
         Room;
    ZoneStays(e, s, t, id, exempt);
    StepSessions(e, s, t, id);
    StepChannels(e, s, t, id);
    StepRooms(e, s, t, id, exempt, after);
  }

  lemma ZoneStays(e: Env, s: St, t: St, id: SessionId, exempt: set<SessionId>)
    requires Core(e, s, exempt) && id in s.sessions && SameElsewhere(s, t, id)
    ensures s.sessions[id].zone in t.channels && id in t.sessions && t.sessions[id].zone == s.sessions[id].zone
  {
    CoreAt(e, s, id, exempt);
  }

  lemma StepSessions(e: Env, s: St, t: St, id: SessionId)
    requires Sessions(e, s) && id in s.sessions && SameElsewhere(s, t, id)
    requires t.sessions[id].timer.Some? ==> Issued(t.issued, t.sessions[id].zone, id, t.sessions[id].timer.value)
    requires t.sessions[id].generation > 0 ==> Issued(t.issued, t.sessions[id].zone, id, t.sessions[id].generation)
    ensures Sessions(e, t)
  {
    StepIssued(s, t, id);
  }

  lemma StepChannels(e: Env, s: St, t: St, id: SessionId)
    requires Channels(e, s) && id in s.sessions && SameElsewhere(s, t, id)
    requires var z := s.sessions[id].zone;
             z in t.channels && ChannelOk(IsSonos(e, z), e.wav, t.channels[z], t.plans)
                 && Bounded(t.channels[z], z, t.issued)
    ensures Channels(e, t)
  {
    hide ChannelOk, Bounded;
    forall z | z in t.channels
      ensures ChannelOk(IsSonos(e, z), e.wav, t.channels[z], t.plans) && Bounded(t.channels[z], z, t.issued)
    {
      if z != s.sessions[id].zone {
        BoundedMore(s.channels[z], z, s.issued, t.issued);
        ChannelMorePlans(IsSonos(e, z), e.wav, s.channels[z], s.plans, t.plans);
      }
    }
  }

  lemma StepRooms(e: Env, s: St, t: St, id: SessionId, exempt: set<SessionId>, after: set<SessionId>)
    requires Channels(e, s) && Sessions(e, s) && Rooms(e, s, exempt) && Channels(e, t) && Sessions(e, t)
    requires id in s.sessions && SameElsewhere(s, t, id) && exempt <= after + {id}
    requires forall j :: j in s.sessions && j != id ==> Entry(t, j) == Entry(s, j)
    requires t.sessions[id].zone in t.channels && Room(e, t, id, after)
    ensures Rooms(e, t, after)
  {
    hide RoomOk, ChannelOk, Bounded, HasEntry, Issued;
    forall j | j in t.sessions ensures Room(e, t, j, after) {
      if j != id {
        assert Room(e, s, j, exempt);
        var x := s.sessions[j];
        RoomRelax(e.wav, j, x, s.channels[x.zone], Entry(s, j), x.generation in s.plans, j !in exempt,
                  x.generation in t.plans, j !in after);
      }
    }
  }

  // ---- Before a restart leaves its group ----

  lemma BeforeLeaveCore(e: Env, s: St, id: SessionId, exempt: set<SessionId>)
    requires Core(e, s, exempt)
    ensures Core(e, BeforeLeave(e, s, id), exempt + {id})
  {
    hide RoomOk, ChannelOk, Bounded, HasEntry;
    if id in s.sessions {
      var t := BeforeLeave(e, s, id);
      var x := s.sessions[id];
      assert Room(e, s, id, exempt);
      RoomCancel(e.wav, id, x, s.channels[x.zone], Entry(s, id), x.generation in s.plans, id !in exempt,
          t.sessions[id]);
      StreamsKept(s, t);
      StepInRoom(e, s, t, id, exempt, exempt + {id});
    } else {
      CoreRelax(e, s, exempt, exempt + {id});
    }
  }

  // ---- Cohorts and entries ----

  lemma EntryRemoved(q: seq<Cohort>, id: SessionId, j: SessionId, generation: nat)
    ensures HasEntry(RemoveFromAll(q, id), j, generation) == (j != id && HasEntry(q, j, generation))
  {
    var r := RemoveFromAll(q, id);
    if j != id && HasEntry(q, j, generation) {
      var i :| 0 <= i < |q| && j in q[i].prepared && q[i].prepared[j].generation == generation;
      assert j in r[i].prepared;
    }
    if HasEntry(r, j, generation) {
      var i :| 0 <= i < |r| && j in r[i].prepared && r[i].prepared[j].generation == generation;
      assert j in q[i].prepared;
    }
  }

  lemma EnqueueEntries(e: Env, q: seq<Cohort>, id: SessionId, now: nat, j: SessionId, generation: nat)
    ensures HasEntry(Enqueue(e, q, id, now), j, generation) == (j != id && HasEntry(q, j, generation))
  {
    var r := RemoveFromAll(q, id);
    var t := Enqueue(e, q, id, now);
    EntryRemoved(q, id, j, generation);
    forall i | 0 <= i < |r| ensures t[i].prepared == r[i].prepared {
    }
    if HasEntry(r, j, generation) {
      var i :| 0 <= i < |r| && j in r[i].prepared && r[i].prepared[j].generation == generation;
      assert j in t[i].prepared;
    }
    if HasEntry(t, j, generation) {
      var i :| 0 <= i < |t| && j in t[i].prepared && t[i].prepared[j].generation == generation;
      assert i < |r|;
      assert j in r[i].prepared;
    }
  }

  lemma RemovedDistinct(q: seq<Cohort>, id: SessionId)
    requires Distinct(q)
    ensures var r := RemoveFromAll(q, id);
            Distinct(r) && forall i :: 0 <= i < |r| ==> id !in r[i].sessions
  {
    forall i | 0 <= i < |q| ensures NoDuplicates(Without(q[i].sessions, id)) {
      WithoutNoDuplicates(q[i].sessions, id);
    }
  }

  lemma AdmitDistinct(q: seq<Cohort>, i: nat, id: SessionId)
    requires Distinct(q) && i < |q| && forall k :: 0 <= k < |q| ==> id !in q[k].sessions
    ensures Distinct(q[i := q[i].(sessions := q[i].sessions + [id])])
  {
  }

  lemma OpenDistinct(q: seq<Cohort>, c: Cohort)
    requires Distinct(q) && NoDuplicates(c.sessions) && c.prepared == map[]
    requires forall k, id :: 0 <= k < |q| && id in c.sessions ==> id !in q[k].sessions
    ensures Distinct(q + [c])
  {
  }

  lemma EnqueueDistinct(e: Env, q: seq<Cohort>, id: SessionId, now: nat)
    requires Distinct(q)
    ensures Distinct(Enqueue(e, q, id, now))
  {
    hide Distinct, RemoveFromAll;
    RemovedDistinct(q, id);
    var r := RemoveFromAll(q, id);
    if |Enqueue(e, q, id, now)| == |q| {
      AdmitDistinct(r, |r| - 1, id);
    } else {
      OpenDistinct(r, Cohort(now + e.window, now + e.deadline, [id], map[]));
    }
  }

  ghost predicate SameDeadlines(q: seq<Cohort>, t: seq<Cohort>) {
    |t| == |q| && forall i :: 0 <= i < |q| ==>
      t[i].windowDeadline == q[i].windowDeadline && t[i].startDeadline == q[i].startDeadline
  }

  lemma SameTimely(e: Env, q: seq<Cohort>, t: seq<Cohort>, wakes: set<nat>, now: nat)
    requires Timely(e, q, wakes, now) && SameDeadlines(q, t)
    ensures Timely(e, t, wakes, now)
  {
  }

  lemma AppendTimely(e: Env, q: seq<Cohort>, c: Cohort, wakes: set<nat>, now: nat)
    requires Timely(e, q, wakes, now) && c.windowDeadline <= c.startDeadline == now + e.deadline
             && c.startDeadline in wakes
    ensures Timely(e, q + [c], wakes, now)
  {
  }

  lemma EnqueueShape(e: Env, q: seq<Cohort>, id: SessionId, now: nat)
    ensures var r := RemoveFromAll(q, id);
            var t := Enqueue(e, q, id, now);
            && SameDeadlines(q, r)
            && if |t| > |q| then t == r + [Cohort(now + e.window, now + e.deadline, [id], map[])]
               else SameDeadlines(q, t)
  {
    hide Without, RemoveFromAll;
    var r := RemoveFromAll(q, id);
    assert SameDeadlines(q, r) by {
      forall i | 0 <= i < |q| ensures r[i] == RemoveFrom(q[i], id) {
      }
    }
  }

  lemma EnqueueTimely(e: Env, q: seq<Cohort>, id: SessionId, wakes: set<nat>, now: nat)
    requires Timely(e, q, wakes, now) && e.window <= e.deadline
    ensures var t := Enqueue(e, q, id, now);
            Timely(e, t, if |t| > |q| then wakes + {now + e.window, now + e.deadline} else wakes, now)
  {
    hide Timely, Enqueue, RemoveFromAll, SameDeadlines;
    var t := Enqueue(e, q, id, now);
    var more := wakes + {now + e.window, now + e.deadline};
    EnqueueShape(e, q, id, now);
    if |t| > |q| {
      MoreWakes(e, q, wakes, more, now);
      SameTimely(e, q, RemoveFromAll(q, id), more, now);
      AppendTimely(e, RemoveFromAll(q, id), Cohort(now + e.window, now + e.deadline, [id], map[]), more, now);
    } else {
      SameTimely(e, q, t, wakes, now);
    }
  }

  lemma MoreWakes(e: Env, q: seq<Cohort>, wakes: set<nat>, more: set<nat>, now: nat)
    requires Timely(e, q, wakes, now) && wakes <= more
    ensures Timely(e, q, more, now)
  {
  }

  lemma TimelyLater(e: Env, q: seq<Cohort>, wakes: set<nat>, now: nat, later: nat)
    requires Timely(e, q, wakes, now) && now <= later
    ensures Timely(e, q, wakes, later)
  {
  }

  lemma AddToCohortQueue(e: Env, s: St, id: SessionId)
    requires ValidEnv(e) && Queue(e, s)
    ensures Queue(e, AddToCohort(e, s, id))
  {
    EnqueueDistinct(e, s.cohorts, id, Now(e, s));
    EnqueueTimely(e, s.cohorts, id, s.wakes, Now(e, s));
    var t := AddToCohort(e, s, id);
    TimelyLater(e, t.cohorts, t.wakes, Now(e, s), Now(e, t));
  }

  lemma EnqueueStreams(e: Env, s: St, t: St, id: SessionId, now: nat)
    requires Streams(s) && t.cohorts == Enqueue(e, s.cohorts, id, now) && s.issued <= t.issued
    ensures Streams(t)
  {
    hide RemoveFromAll, Without, StreamFits;
    var r := RemoveFromAll(s.cohorts, id);
    forall i, j | 0 <= i < |t.cohorts| && j in t.cohorts[i].prepared
      ensures StreamFits(t, j, t.cohorts[i].prepared[j])
    {
      assert i < |r| ==> t.cohorts[i].prepared == r[i].prepared;
      FitsLater(s, t, j, s.cohorts[i].prepared[j]);
    }
  }

  lemma FitsLater(s: St, t: St, id: SessionId, p: Stream)
    requires StreamFits(s, id, p) && s.issued <= t.issued
    ensures StreamFits(t, id, p)
  {
  }

  // ---- Rebuild ----

  /** What a rebuild changes of the bridge: one session, its room, its generation and the queue. */
  ghost predicate RebuiltAs(s: St, t: St, id: SessionId, x: Session, commands: seq<Command>)
    requires id in s.sessions && s.sessions[id].zone in s.channels
  {
    var z := s.sessions[id].zone;
    var ch := s.channels[z];
    && t.sessions == s.sessions[id := x] && t.channels == s.channels[z := ch.(unseen := ch.unseen + commands)]
    && t.issued == s.issued + [Owner(id, z)]
    && t.groups == s.groups && t.plans == s.plans && t.joins == s.joins && t.released == s.released
    && s.wakes <= t.wakes
  }

  function Invalidated(x: Session, g: nat): Session {
    x.(resetNeeded := true, observed := Unknown, prepared := None, held := None, encoder := None, generation := g)
  }

  lemma RebuildPrepares(e: Env, s: St, id: SessionId)
    requires id in s.sessions && s.sessions[id].zone in s.channels && Rebuilds(e, s, id)
    ensures var x := s.sessions[id];
            var g := |s.issued| + 1;
            var t := Rebuild(e, s, id);
            && RebuiltAs(s, t, id, Invalidated(x, g).(encoder := Some(Encoder(g, x.epoch, []))),
               [Stop(id, g), Prepare(id, g)])
            && t.cohorts == Enqueue(e, s.cohorts, id, Now(e, s))
  {
    hide Enqueue;
    var ch := s.channels[s.sessions[id].zone];
    var g := |s.issued| + 1;
    assert ch.unseen + [Stop(id, g)] + [Prepare(id, g)] == ch.unseen + [Stop(id, g), Prepare(id, g)];
  }

  lemma RebuildFails(e: Env, s: St, id: SessionId)
    requires id in s.sessions && s.sessions[id].zone in s.channels && s.channels.Keys == e.renderers.Keys
             && !Rebuilds(e, s, id)
    ensures var x := s.sessions[id];
            var g := |s.issued| + 1;
            var y := Invalidated(x, g);
            var t := Rebuild(e, s, id);
            && RebuiltAs(s, t, id, if x.attempts >= RETRY_BUDGET then y.(timer := None)
                                   else y.(timer := Some(g), attempts := x.attempts + 1), [Stop(id, g)])
            && t.cohorts == s.cohorts && t.ticks == s.ticks && t.wakes == s.wakes
  {
    hide Enqueue;
  }

  /** What the rebuild of `id` makes of its session. */
  lemma RebuildSession(e: Env, s: St, id: SessionId)
    requires id in s.sessions && s.sessions[id].zone in s.channels && s.channels.Keys == e.renderers.Keys
    ensures var x := s.sessions[id];
            var t := Rebuild(e, s, id);
            var g := |s.issued| + 1;
            var x1 := Invalidated(x, g);
            var ch := s.channels[x.zone];
            && SameElsewhere(s, t, id) && t.issued == s.issued + [Owner(id, s.sessions[id].zone)]
            && t.sessions.Keys == s.sessions.Keys && t.channels.Keys == s.channels.Keys
            && t.groups == s.groups && t.plans == s.plans && t.joins == s.joins && t.released == s.released
            && s.wakes <= t.wakes
            && if Rebuilds(e, s, id) then
                 && t.sessions[id] == x1.(encoder := Some(Encoder(g, x.epoch, [])))
                 && t.channels[x.zone] == ch.(unseen := ch.unseen + [Stop(id, g), Prepare(id, g)])
                 && t.cohorts == Enqueue(e, s.cohorts, id, Now(e, s))
               else
                 && t.sessions[id] == (if x.attempts >= RETRY_BUDGET then x1.(timer := None)
                                       else x1.(timer := Some(g), attempts := x.attempts + 1))
                 && t.channels[x.zone] == ch.(unseen := ch.unseen + [Stop(id, g)])
                 && t.cohorts == s.cohorts && t.ticks == s.ticks && t.wakes == s.wakes
  {
    hide Rebuild, Enqueue, Rebuilds;
    if Rebuilds(e, s, id) {
      RebuildPrepares(e, s, id);
    } else {
      RebuildFails(e, s, id);
    }
  }

  lemma RebuildQueue(e: Env, s: St, id: SessionId)
    requires ValidEnv(e) && Queue(e, s) && id in s.sessions
    ensures Queue(e, Rebuild(e, s, id))
  {
    hide Queue, Send, AddToCohort, ScheduleRetry, ValidEnv;
    var zone := s.sessions[id].zone;
    var s1 := Invalidate(s, id);
    var s2 := Send(s1, zone, Stop(id, |s1.issued|));
    InvalidateIntent(s, id);
    if Rebuilds(e, s, id) {
      var x := s2.sessions[id];
      var s3 := s2.(sessions := s2.sessions[id := x.(encoder := Some(Encoder(x.generation, x.epoch, [])))]);
      QueueSame(e, s, s3);
      AddToCohortQueue(e, s3, id);
      QueueSame(e, AddToCohort(e, s3, id), Rebuild(e, s, id));
    } else {
      ScheduleKeeps(s2, id);
      QueueSame(e, s, Rebuild(e, s, id));
    }
  }

  lemma ScheduleKeeps(s: St, id: SessionId)
    ensures var t := ScheduleRetry(s, id); t.cohorts == s.cohorts && t.wakes == s.wakes && t.ticks == s.ticks
  {
  }

  lemma PreparingCore(e: Env, s: St, id: SessionId, exempt: set<SessionId>)
    requires Core(e, s, exempt) && id in s.sessions && s.sessions[id].wanted && Rebuilds(e, s, id)
    ensures Core(e, Rebuild(e, s, id), exempt - {id})
  {
    hide Core, Channels, Sessions, Streams, Rooms, SameElsewhere;
    hide RoomOk, ChannelOk, Bounded, HasEntry, Rebuild, Enqueue, StreamFits;
    CoreAt(e, s, id, exempt);
    RebuildSession(e, s, id);
    var t := Rebuild(e, s, id);
    var x := s.sessions[id];
    var ch := s.channels[x.zone];
    var g := |t.issued|;
    forall j | j in s.sessions ensures Entry(t, j) == (j != id && Entry(s, j)) {
      SameSession(s, t, id, j);
      EnqueueEntries(e, s.cohorts, id, Now(e, s), j, t.sessions[j].generation);
    }
    assert ChannelOk(IsSonos(e, x.zone), e.wav, t.channels[x.zone], t.plans)
           && Bounded(t.channels[x.zone], x.zone, t.issued) by {
      var ch1 := ch.(unseen := ch.unseen + [Stop(id, g)]);
      ChannelAppend(IsSonos(e, x.zone), e.wav, ch, s.plans, x.zone, s.issued, Stop(id, g), t.issued);
      ChannelAppend(IsSonos(e, x.zone), e.wav, ch1, s.plans, x.zone, t.issued, Prepare(id, g), t.issued);
      assert ch1.unseen + [Prepare(id, g)] == ch.unseen + [Stop(id, g), Prepare(id, g)];
    }
    RoomPrepare(e.wav, id, t.sessions[id], ch, s.issued, g in t.plans);
    assert Streams(t) by {
      EnqueueStreams(e, s, t, id, Now(e, s));
    }
    StepInRoom(e, s, t, id, exempt, exempt - {id});
  }

  lemma SpawnFailedCore(e: Env, s: St, id: SessionId, exempt: set<SessionId>)
    requires Core(e, s, exempt) && id in s.sessions && s.sessions[id].wanted && !Rebuilds(e, s, id)
    ensures Core(e, Rebuild(e, s, id), exempt - {id})
  {
    hide Core, Channels, Sessions, Streams, Rooms, SameElsewhere;
    hide RoomOk, ChannelOk, Bounded, HasEntry, Rebuild, Enqueue, StreamFits;
    CoreAt(e, s, id, exempt);
    RebuildSession(e, s, id);
    var t := Rebuild(e, s, id);
    var x := s.sessions[id];
    var ch := s.channels[x.zone];
    var g := |t.issued|;
    ChannelAppend(IsSonos(e, x.zone), e.wav, ch, s.plans, x.zone, s.issued, Stop(id, g), t.issued);
    RoomStopped(e.wav, id, t.sessions[id], ch, s.issued, g in t.plans, true);
    assert Streams(t) by {
      StreamsKept(s, t);
    }
    NoFreshEntry(s, id, g);
    forall j | j in s.sessions && j != id ensures Entry(t, j) == Entry(s, j) {
      SameSession(s, t, id, j);
    }
    StepInRoom(e, s, t, id, exempt, exempt - {id});
  }

  lemma RebuildCore(e: Env, s: St, id: SessionId, exempt: set<SessionId>)
    requires Core(e, s, exempt) && id in s.sessions && s.sessions[id].wanted
    ensures Core(e, Rebuild(e, s, id), exempt - {id})
  {
    hide Rebuild;
    if Rebuilds(e, s, id) {
      PreparingCore(e, s, id, exempt);
    } else {
      SpawnFailedCore(e, s, id, exempt);
    }
  }

  /** No stream waits in a generation that has not been issued. */
  lemma NoFreshEntry(s: St, id: SessionId, generation: nat)
    requires Streams(s) && (generation > |s.issued| || generation == 0)
    ensures !HasEntry(s.cohorts, id, generation)
  {
    forall i | 0 <= i < |s.cohorts| && id in s.cohorts[i].prepared
      ensures s.cohorts[i].prepared[id].generation != generation
    {
      assert StreamFits(s, id, s.cohorts[i].prepared[id]);
    }
  }

  // ---- Release ----

  /** A released stream: its session wants it, its room is idle, and it left the queue. */
  ghost predicate Ready(s: St, p: Stream) {
    && p.id in s.sessions && s.sessions[p.id].zone in s.channels
    && var x := s.sessions[p.id];
       var ch := s.channels[x.zone];
       x.prepared == Some(p) && p.zone == x.zone && 1 <= p.generation && x.wanted && Idle(p.id, x, ch) && !ch.member
           && !Entry(s, p.id)
  }

  /** Every role belongs to a launch that waits for its joins. */
  predicate LaunchOk(launch: Launch) {
    launch.joins.None? ==> launch.roles == map[]
  }

  lemma StartOneRoom(e: Env, before: St, s: St, launch: Launch, p: Stream)
    requires Ready(s, p)
    ensures var t := StartOne(e, before, s, launch, p);
            var x := s.sessions[p.id];
            var c := StartCommand(e, before, launch, p);
            var delay := DelayOf(e, before, launch.delays, launch.roles, p);
            && SameElsewhere(s, t, p.id)
            && t.sessions[p.id] == StartedSession(x, delay, c)
            && t.channels[x.zone] == s.channels[x.zone].(unseen := [c])
            && s.plans.Keys <= t.plans.Keys
            && (c.Play? && delay.Some? ==> p.generation in t.plans)
  {
    hide DelayOf, StartCommand, Idle;
    var c := StartCommand(e, before, launch, p);
    var ch := s.channels[s.sessions[p.id].zone];
    assert ch.unseen == [] by {
      ReadyIdle(s, p);
    }
    assert [] + [c] == [c];
  }

  lemma ReadyIdle(s: St, p: Stream)
    requires Ready(s, p)
    ensures var x := s.sessions[p.id];
            s.channels[x.zone].unseen == [] && x.prepared == Some(p) && x.generation == p.generation
  {
  }

  lemma StartCommandOk(e: Env, before: St, launch: Launch, p: Stream)
    requires LaunchOk(launch)
    ensures var c := StartCommand(e, before, launch, p);
            var delay := DelayOf(e, before, launch.delays, launch.roles, p);
            && Starts(c, p) && (e.wav ==> delay.Some?) && (c.Join? ==> IsSonos(e, p.zone))
               && (c.PlayGroup? ==> c.delay == delay)
  {
  }

  lemma StartOneCore(e: Env, before: St, s: St, launch: Launch, p: Stream, exempt: set<SessionId>,
        after: set<SessionId>)
    requires Core(e, s, exempt) && Ready(s, p) && LaunchOk(launch)
    requires exempt <= after + {p.id}
    requires p.id !in after ==> var x := s.sessions[p.id];
               (x.encoder.Some? ==> x.encoder.value.epoch == x.epoch) && x.generation > 0
    ensures Core(e, StartOne(e, before, s, launch, p), after)
  {
    hide Core, Channels, Sessions, Streams, Rooms, SameElsewhere, StreamFits;
    hide RoomOk, ChannelOk, Bounded, HasEntry, StartOne, StartCommand, DelayOf;
    var t := StartOne(e, before, s, launch, p);
    var id := p.id;
    CoreAt(e, s, id, exempt);
    StartOneRoom(e, before, s, launch, p);
    StartCommandOk(e, before, launch, p);
    var z := s.sessions[id].zone;
    var c := StartCommand(e, before, launch, p);
    assert Bounded(t.channels[z], z, t.issued) by {
      StartBounded(s.channels[z], z, s.issued, c);
    }
    ChannelMorePlans(IsSonos(e, z), e.wav, s.channels[z], s.plans, t.plans);
    RoomStart(IsSonos(e, z), e.wav, id, t.sessions[id], s.channels[z], t.plans, c, id !in after);
    assert Streams(t) by {
      StreamsKept(s, t);
    }
    forall j | j in s.sessions && j != id ensures Entry(t, j) == Entry(s, j) {
      SameSession(s, t, id, j);
    }
    StepInRoom(e, s, t, id, exempt, after);
  }

  lemma StartBounded(ch: Channel, zone: ZoneId, issued: seq<Owner>, c: Command)
    requires Bounded(ch, zone, issued) && Issued(issued, zone, c.id, c.generation)
    ensures Bounded(ch.(unseen := [c]), zone, issued)
  {
  }

  function Ids(list: seq<Stream>): set<SessionId> {
    set p | p in list :: p.id
  }

  ghost predicate DistinctIds(list: seq<Stream>) {
    forall i, j :: 0 <= i < j < |list| ==> list[i].id != list[j].id
  }

  /** The session of `p` accepts its encoder's epoch, unless it is in the middle of a change. */
  predicate Startable(s: St, p: Stream, exempt: set<SessionId>) {
    p.id in s.sessions && p.id !in exempt ==>
      var x := s.sessions[p.id];
      (x.encoder.Some? ==> x.encoder.value.epoch == x.epoch) && x.generation > 0
  }

  lemma ReadyElsewhere(e: Env, s: St, t: St, p: Stream, q: Stream, exempt: set<SessionId>)
    requires Core(e, s, exempt) && Ready(s, p) && Ready(s, q) && p.id != q.id
    requires SameElsewhere(s, t, p.id) && t.cohorts == s.cohorts
    ensures Ready(t, q)
  {
    hide RoomOk, ChannelOk, Bounded, HasEntry, Idle, Streams, Rooms;
  }

  lemma {:induction false} StartAllCore(e: Env, before: St, s: St, launch: Launch, list: seq<Stream>,
        after: set<SessionId>)
    requires Core(e, s, after + Ids(list)) && LaunchOk(launch) && DistinctIds(list)
    requires forall p :: p in list ==> Ready(s, p) && Startable(s, p, after)
    ensures Core(e, StartAll(e, before, s, launch, list), after)
    decreases |list|
  {
    hide Core, SameElsewhere, Ready, StartOne;
    if list == [] {
      assert after + Ids(list) == after;
    } else {
      var p := list[0];
      var rest := list[1..];
      var t := StartOne(e, before, s, launch, p);
      assert p.id in Ids(list);
      assert Ids(list) == Ids(rest) + {p.id};
      ReadySession(s, p);
      StartOneRoom(e, before, s, launch, p);
      StartOneCore(e, before, s, launch, p, after + Ids(list), after + Ids(rest));
      SameSessions(s, t, p.id);
      forall q | q in rest ensures Ready(t, q) && Startable(t, q, after) {
        assert q.id != p.id;
        ReadyElsewhere(e, s, t, p, q, after + Ids(list));
        ReadySession(s, q);
      }
      StartAllCore(e, before, t, launch, rest, after);
    }
  }

  lemma ReadySession(s: St, p: Stream)
    requires Ready(s, p)
    ensures p.id in s.sessions && s.sessions[p.id].wanted
  {
  }

  lemma RoomLoseEntry(wav: bool, id: SessionId, x: Session, ch: Channel, entry: bool, planned: bool, settled: bool)
    requires RoomOk(wav, id, x, ch, entry, planned, settled)
    ensures RoomOk(wav, id, x, ch, false, planned, false)
  {
  }

  /** Dropping streams from the queue is right for sessions that are exempt. */
  lemma LoseEntries(e: Env, s: St, t: St, exempt: set<SessionId>, after: set<SessionId>)
    requires Core(e, s, exempt) && exempt <= after
    requires t.sessions == s.sessions && t.channels == s.channels && t.issued == s.issued && t.plans == s.plans
    requires Streams(t)
    requires forall j :: j in s.sessions && j !in after ==> Entry(t, j) == Entry(s, j)
    requires forall j :: j in s.sessions && Entry(t, j) ==> Entry(s, j)
    ensures Core(e, t, after)
  {
    hide RoomOk, ChannelOk, Bounded, HasEntry, Streams;
    forall j | j in t.sessions ensures Room(e, t, j, after) {
      assert Room(e, s, j, exempt);
      var x := s.sessions[j];
      var ch := s.channels[x.zone];
      var planned := x.generation in s.plans;
      RoomRelax(e.wav, j, x, ch, Entry(s, j), planned, j !in exempt, planned, j !in after);
      if Entry(t, j) != Entry(s, j) {
        RoomLoseEntry(e.wav, j, x, ch, Entry(s, j), planned, j !in exempt);
      }
    }
  }

  lemma CoreSame(e: Env, s: St, t: St, exempt: set<SessionId>)
    requires Core(e, s, exempt)
    requires t.sessions == s.sessions && t.channels == s.channels && t.issued == s.issued && t.plans == s.plans
    requires t.cohorts == s.cohorts
    ensures Core(e, t, exempt)
  {
    hide RoomOk, ChannelOk, Bounded, HasEntry;
    StreamsKept(s, t);
    forall j | j in t.sessions ensures Room(e, t, j, exempt) {
      assert Room(e, s, j, exempt);
    }
  }

  lemma PrepareLaunchKeeps(e: Env, s: St, list: seq<Stream>)
    ensures var (t, launch) := PrepareLaunch(e, s, list);
            && LaunchOk(launch) && s.ticks <= t.ticks
            && t.sessions == s.sessions && t.channels == s.channels && t.issued == s.issued && t.plans == s.plans
            && t.cohorts == s.cohorts && t.wakes == s.wakes && t.released == s.released
  {
    hide CohortDelays;
    if e.nativeGroups {
      GroupAllKeeps(e, Grouping(s, map[]), list);
      GroupAllTicks(e, Grouping(s, map[]), list);
    }
  }

  lemma {:induction false} GroupAllTicks(e: Env, g: Grouping, list: seq<Stream>)
    ensures g.st.ticks <= GroupAll(e, g, list).st.ticks
    decreases |list|
  {
    hide GroupSender, StreamSender;
    if list != [] {
      match StreamSender(e, g.st, list[0])
      case None => GroupAllTicks(e, g, list[1..]);
      case Some(sender) =>
        var members := SameSender(e, g.st, list, sender);
        assert list[0].id in members;
        GroupSenderKeeps(e, g, sender, members);
        GroupAllTicks(e, GroupSender(e, g, sender, members), OtherSenders(e, g.st, list, sender));
    }
  }

  lemma PlayPreparedCore(e: Env, s: St, list: seq<Stream>, exempt: set<SessionId>)
    requires Core(e, s, exempt + Ids(list)) && DistinctIds(list)
    requires forall p :: p in list ==> Ready(s, p) && Startable(s, p, exempt)
    ensures Core(e, PlayPrepared(e, s, list), exempt)
  {
    hide Core, Idle, HasEntry, PrepareLaunch;
    var (t, launch) := PrepareLaunch(e, s, list);
    PrepareLaunchKeeps(e, s, list);
    CoreSame(e, s, t, exempt + Ids(list));
    StartAllCore(e, t, t, launch, list, exempt);
  }

  // ---- The queue moves on ----

  /** The cohort at the front, pruned, and its streams. */
  lemma HeadReady(e: Env, s: St, exempt: set<SessionId>, p: Stream)
    requires Core(e, s, exempt) && Distinct(s.cohorts) && s.cohorts != []
    requires var head := Pruned(s, s.cohorts[0]); p in StreamsOf(head.sessions, head.prepared)
    ensures p.id in s.sessions && Ready(s.(cohorts := s.cohorts[1..]), p) && Startable(s, p, exempt)
    ensures p.id in Pruned(s, s.cohorts[0]).prepared
  {
    hide Core, Distinct, RoomOk, Idle, StreamsOf, Keep, HasEntry, ChannelOk, Bounded;
    var head := Pruned(s, s.cohorts[0]);
    var id :| id in head.sessions && id in head.prepared && head.prepared[id] == p;
    CoreAt(e, s, id, exempt);
    StreamAt(s, 0, id);
    var x := s.sessions[id];
    HasEntryCons(s.cohorts, id, x.generation);
    EntryIdle(e.wav, id, x, s.channels[x.zone], x.generation in s.plans, id !in exempt);
    IdleStream(id, x, s.channels[x.zone]);
    assert !HasEntry(s.cohorts[1..], id, x.generation) by {
      NotInRest(s.cohorts, id);
      NoEntry(s.cohorts[1..], id, x.generation);
    }
  }

  lemma NoEntry(q: seq<Cohort>, id: SessionId, g: nat)
    requires forall i :: 0 <= i < |q| ==> id !in q[i].prepared
    ensures !HasEntry(q, id, g)
  {
  }

  lemma IdleStream(id: SessionId, x: Session, ch: Channel)
    requires Idle(id, x, ch)
    ensures x.prepared == Some(Stream(id, x.zone, x.generation))
  {
  }

  lemma NotInRest(q: seq<Cohort>, id: SessionId)
    requires Distinct(q) && q != [] && id in q[0].sessions
    ensures forall i :: 0 <= i < |q| - 1 ==> id !in q[1..][i].sessions && id !in q[1..][i].prepared
  {
  }

  lemma StreamAt(s: St, i: nat, id: SessionId)
    requires Streams(s) && i < |s.cohorts| && id in s.cohorts[i].prepared
    ensures StreamFits(s, id, s.cohorts[i].prepared[id])
  {
  }

  /** A session outside the released streams loses nothing when the front cohort goes. */
  lemma HasEntryCons(q: seq<Cohort>, j: SessionId, g: nat)
    requires q != []
    ensures HasEntry(q, j, g) == ((j in q[0].prepared && q[0].prepared[j].generation == g) || HasEntry(q[1..], j, g))
  {
    if HasEntry(q, j, g) {
      var i :| 0 <= i < |q| && j in q[i].prepared && q[i].prepared[j].generation == g;
      assert i > 0 ==> q[1..][i - 1] == q[i];
    }
    if HasEntry(q[1..], j, g) {
      var i :| 0 <= i < |q| - 1 && j in q[1..][i].prepared && q[1..][i].prepared[j].generation == g;
      assert q[i + 1] == q[1..][i];
    }
  }

  /** A stream waits only for a session that wants playback. */
  lemma EntryWanted(e: Env, s: St, j: SessionId, exempt: set<SessionId>)
    requires Core(e, s, exempt) && j in s.sessions && j !in exempt && Entry(s, j)
    ensures s.sessions[j].wanted
  {
    hide Core, HasEntry, ChannelOk, Bounded, SingleToken, StreamOk;
    CoreAt(e, s, j, exempt);
  }

  lemma PrunedEntries(e: Env, s: St, exempt: set<SessionId>, j: SessionId)
    requires Core(e, s, exempt) && Distinct(s.cohorts) && s.cohorts != [] && j in s.sessions
    ensures var head := Pruned(s, s.cohorts[0]);
            var g := s.sessions[j].generation;
            var rest := HasEntry(s.cohorts[1..], j, g);
            && (rest ==> Entry(s, j))
            && (j in head.prepared ==> Entry(s, j))
            && (j !in exempt && Entry(s, j) ==> rest || j in head.prepared)
            && HasEntry([head] + s.cohorts[1..], j, g) == (rest || j in head.prepared)
            && (j in head.prepared ==> Ids(StreamsOf(head.sessions, head.prepared)) >= {j})
  {
    hide Core, HasEntry, StreamsOf, Keep;
    var head := Pruned(s, s.cohorts[0]);
    var g := s.sessions[j].generation;
    var q := [head] + s.cohorts[1..];
    assert q[0] == head && q[1..] == s.cohorts[1..];
    HasEntryCons(s.cohorts, j, g);
    HasEntryCons(q, j, g);
    if j in head.prepared {
      CoreStreams(e, s, exempt);
      StreamAt(s, 0, j);
      assert head.prepared[j] in StreamsOf(head.sessions, head.prepared);
    }
    if j !in exempt && Entry(s, j) {
      EntryWanted(e, s, j, exempt);
    }
  }

  lemma {:induction false} StreamsDistinct(ids: seq<SessionId>, prepared: map<SessionId, Stream>)
    requires NoDuplicates(ids) && forall id :: id in prepared ==> prepared[id].id == id
    ensures DistinctIds(StreamsOf(ids, prepared))
  {
    if ids != [] {
      StreamsDistinct(ids[1..], prepared);
      var rest := StreamsOf(ids[1..], prepared);
      forall i | 0 <= i < |rest| && ids[0] in prepared ensures rest[i].id != ids[0] {
        assert rest[i] in rest;
      }
    }
  }

  lemma HeadDistinct(s: St)
    requires Streams(s) && Distinct(s.cohorts) && s.cohorts != []
    ensures var head := Pruned(s, s.cohorts[0]);
            NoDuplicates(head.sessions) && DistinctIds(StreamsOf(head.sessions, head.prepared))
  {
    var head := Pruned(s, s.cohorts[0]);
    KeepNoDuplicates(s.cohorts[0].sessions, WantedIds(s));
    forall id | id in head.prepared ensures head.prepared[id].id == id {
      StreamAt(s, 0, id);
    }
    StreamsDistinct(head.sessions, head.prepared);
  }

  lemma TailStreams(s: St, t: St)
    requires Streams(s) && s.cohorts != [] && t.sessions == s.sessions && t.issued == s.issued
    requires t.cohorts == s.cohorts[1..] || t.cohorts == [Pruned(s, s.cohorts[0])] + s.cohorts[1..]
    ensures Streams(t)
  {
    var d := |s.cohorts| - |t.cohorts|;
    forall i, id | 0 <= i < |t.cohorts| && id in t.cohorts[i].prepared
      ensures StreamFits(t, id, t.cohorts[i].prepared[id])
    {
      assert id in s.cohorts[i + d].prepared;
      StreamAt(s, i + d, id);
    }
  }

  lemma DropHead(e: Env, s: St, t: St, exempt: set<SessionId>)
    requires Core(e, s, exempt) && Distinct(s.cohorts) && s.cohorts != []
    requires t == s.(cohorts := s.cohorts[1..], ticks := t.ticks)
    ensures var head := Pruned(s, s.cohorts[0]);
            Core(e, t, exempt + Ids(StreamsOf(head.sessions, head.prepared)))
  {
    hide Core, Distinct, HasEntry;
    var head := Pruned(s, s.cohorts[0]);
    var list := StreamsOf(head.sessions, head.prepared);
    assert Streams(t) by {
      CoreStreams(e, s, exempt);
      TailStreams(s, t);
    }
    forall j | j in s.sessions
      ensures j !in exempt + Ids(list) ==> Entry(t, j) == Entry(s, j)
      ensures Entry(t, j) ==> Entry(s, j)
    {
      PrunedEntries(e, s, exempt, j);
    }
    LoseEntries(e, s, t, exempt, exempt + Ids(list));
  }

  lemma KeepHead(e: Env, s: St, t: St, exempt: set<SessionId>)
    requires Core(e, s, exempt) && Distinct(s.cohorts) && s.cohorts != []
    requires t == s.(cohorts := [Pruned(s, s.cohorts[0])] + s.cohorts[1..], ticks := t.ticks)
    ensures Core(e, t, exempt)
  {
    hide Core, Distinct, HasEntry;
    assert Streams(t) by {
      CoreStreams(e, s, exempt);
      TailStreams(s, t);
    }
    forall j | j in s.sessions
      ensures j !in exempt ==> Entry(t, j) == Entry(s, j)
      ensures Entry(t, j) ==> Entry(s, j)
    {
      PrunedEntries(e, s, exempt, j);
    }
    LoseEntries(e, s, t, exempt, exempt);
  }

  lemma CoreStreams(e: Env, s: St, exempt: set<SessionId>)
    requires Core(e, s, exempt)
    ensures Streams(s)
  {
  }

  lemma ReleaseHead(e: Env, s: St, exempt: set<SessionId>)
    requires Core(e, s, exempt) && Distinct(s.cohorts) && s.cohorts != []
    ensures var head := Pruned(s, s.cohorts[0]);
            var rest := Ticked(s).(cohorts := s.cohorts[1..]);
            Core(e, PlayPrepared(e, rest, StreamsOf(head.sessions, head.prepared)), exempt)
  {
    hide Core, Distinct, HasEntry, PlayPrepared, Idle, Pruned;
    var head := Pruned(s, s.cohorts[0]);
    var rest := Ticked(s).(cohorts := s.cohorts[1..]);
    var list := StreamsOf(head.sessions, head.prepared);
    DropHead(e, s, rest, exempt);
    CoreStreams(e, s, exempt);
    HeadDistinct(s);
    forall p | p in list ensures Ready(rest, p) && Startable(rest, p, exempt) {
      HeadReady(e, s, exempt, p);
    }
    PlayPreparedCore(e, rest, list, exempt);
  }

  lemma {:induction false} MaybeStartCore(e: Env, s: St, force: bool, exempt: set<SessionId>)
    requires Core(e, s, exempt) && Distinct(s.cohorts)
    ensures Core(e, MaybeStart(e, s, force), exempt)
    decreases |s.cohorts|
  {
    hide Core, PlayPrepared, Pruned, ShouldStart;
    if s.cohorts != [] {
      var head := Pruned(s, s.cohorts[0]);
      if head.sessions == [] {
        DropHead(e, s, s.(cohorts := s.cohorts[1..]), exempt);
        assert exempt + Ids(StreamsOf(head.sessions, head.prepared)) == exempt;
        MaybeStartCore(e, s.(cohorts := s.cohorts[1..]), force, exempt);
      } else if !ShouldStart(head, Now(e, s), force) {
        KeepHead(e, s, Ticked(s).(cohorts := [head] + s.cohorts[1..]), exempt);
      } else {
        var rest := Ticked(s).(cohorts := s.cohorts[1..]);
        var next := PlayPrepared(e, rest, StreamsOf(head.sessions, head.prepared));
        PlayPreparedKeeps(e, rest, StreamsOf(head.sessions, head.prepared));
        ReleaseHead(e, s, exempt);
        MaybeStartCore(e, next, force, exempt);
      }
    }
  }

  // ---- Queue safety and timeliness ----

  lemma PlayPreparedTicks(e: Env, s: St, list: seq<Stream>)
    ensures var t := PlayPrepared(e, s, list); s.ticks <= t.ticks && t.cohorts == s.cohorts && t.wakes == s.wakes
  {
    PrepareLaunchKeeps(e, s, list);
  }

  lemma QueueTail(e: Env, s: St, t: St)
    requires ValidEnv(e) && Queue(e, s) && s.cohorts != []
    requires t.cohorts == s.cohorts[1..] && t.wakes == s.wakes && s.ticks <= t.ticks
    ensures Queue(e, t) && Now(e, s) <= Now(e, t)
  {
  }

  lemma QueuePruned(e: Env, s: St, t: St)
    requires ValidEnv(e) && Queue(e, s) && s.cohorts != []
    requires t == Ticked(s).(cohorts := [Pruned(s, s.cohorts[0])] + s.cohorts[1..])
    requires !ShouldStart(Pruned(s, s.cohorts[0]), Now(e, s), false)
    ensures Queue(e, t)
    ensures forall i :: 0 <= i < |t.cohorts| ==> t.cohorts[i].startDeadline > Now(e, s)
  {
    var head := Pruned(s, s.cohorts[0]);
    KeepNoDuplicates(s.cohorts[0].sessions, WantedIds(s));
    assert Now(e, s) <= Now(e, t);
    forall i | 0 <= i < |t.cohorts|
      ensures t.cohorts[i].startDeadline == s.cohorts[i].startDeadline
      ensures t.cohorts[i].windowDeadline == s.cohorts[i].windowDeadline
    {
    }
    assert s.cohorts[0].startDeadline > Now(e, s);
    assert Distinct(t.cohorts) by {
      PrunedDistinct(s, head);
    }
  }

  lemma PrunedDistinct(s: St, head: Cohort)
    requires Distinct(s.cohorts) && s.cohorts != [] && NoDuplicates(head.sessions)
    requires forall id :: id in head.sessions ==> id in s.cohorts[0].sessions
    requires forall id :: id in head.prepared ==> id in head.sessions
    ensures Distinct([head] + s.cohorts[1..])
  {
  }

  /** One call at time t leaves no cohort whose start deadline is t or earlier: a cohort that
      waits behind another never misses its own deadline. The queue stays right. */
  lemma {:induction false} MaybeStartQueue(e: Env, s: St)
    requires ValidEnv(e) && Queue(e, s)
    ensures var t := MaybeStart(e, s, false);
            && Queue(e, t) && s.ticks <= t.ticks && t.wakes == s.wakes
            && (forall i :: 0 <= i < |t.cohorts| ==> t.cohorts[i].startDeadline > Now(e, s))
    decreases |s.cohorts|
  {
    hide PlayPrepared, Queue, ValidEnv, ShouldStart, Pruned;
    if s.cohorts != [] {
      var head := Pruned(s, s.cohorts[0]);
      if head.sessions == [] {
        QueueTail(e, s, s.(cohorts := s.cohorts[1..]));
        MaybeStartQueue(e, s.(cohorts := s.cohorts[1..]));
      } else if ShouldStart(head, Now(e, s), false) {
        var rest := Ticked(s).(cohorts := s.cohorts[1..]);
        var next := PlayPrepared(e, rest, StreamsOf(head.sessions, head.prepared));
        PlayPreparedTicks(e, rest, StreamsOf(head.sessions, head.prepared));
        QueueTail(e, s, next);
        MaybeStartQueue(e, next);
      } else {
        QueuePruned(e, s, Ticked(s).(cohorts := [head] + s.cohorts[1..]));
      }
    }
  }

  // ---- Nested restarts ----

  /** What no restart changes of a session. One that does not want playback is left alone. */
  predicate SameWish(x: Session, y: Session) {
    && x.wanted == y.wanted && x.zone == y.zone && x.sender == y.sender && x.epoch == y.epoch
    && (!x.wanted ==> x == y)
  }

  /** Plans that a shared wait fixed stay as they are. */
  ghost predicate PlansStay(s: St, t: St) {
    t.released == s.released
    && forall g :: g in t.plans && t.plans[g].group.Some? ==> g in s.plans && s.plans[g] == t.plans[g]
  }

  ghost predicate SameIntent(s: St, t: St) {
    && t.sessions.Keys == s.sessions.Keys
    && (forall id :: id in s.sessions ==> SameWish(s.sessions[id], t.sessions[id]))
    && PlansStay(s, t)
  }

  lemma IntentTransitive(s: St, t: St, u: St)
    requires SameIntent(s, t) && SameIntent(t, u)
    ensures SameIntent(s, u)
  {
    forall id | id in s.sessions ensures SameWish(s.sessions[id], u.sessions[id]) {
      assert SameWish(s.sessions[id], t.sessions[id]) && SameWish(t.sessions[id], u.sessions[id]);
    }
  }

  /** The stream `p` is for a session that wants playback, if it still lives. */
  predicate Wished(s: St, p: Stream) {
    p.id in s.sessions ==> s.sessions[p.id].wanted
  }

  /** Cohorts keep streams under their own sessions. */
  ghost predicate Keyed(q: seq<Cohort>) {
    forall i, id :: 0 <= i < |q| && id in q[i].prepared ==> q[i].prepared[id].id == id
  }

  lemma StreamsKeyed(s: St)
    requires Streams(s)
    ensures Keyed(s.cohorts)
  {
    forall i, id | 0 <= i < |s.cohorts| && id in s.cohorts[i].prepared ensures s.cohorts[i].prepared[id].id == id {
      StreamAt(s, i, id);
    }
  }

  lemma StartOneIntent(e: Env, before: St, s: St, launch: Launch, p: Stream)
    requires Wished(s, p)
    ensures SameIntent(s, StartOne(e, before, s, launch, p))
  {
    hide DelayOf, StartCommand, Send;
  }

  lemma {:induction false} StartAllIntent(e: Env, before: St, s: St, launch: Launch, list: seq<Stream>)
    requires forall p :: p in list ==> Wished(s, p)
    ensures SameIntent(s, StartAll(e, before, s, launch, list))
    decreases |list|
  {
    if list != [] {
      hide StartOne;
      var t := StartOne(e, before, s, launch, list[0]);
      StartOneIntent(e, before, s, launch, list[0]);
      forall p | p in list[1..] ensures Wished(t, p) {
        assert Wished(s, p);
        assert p.id in s.sessions ==> SameWish(s.sessions[p.id], t.sessions[p.id]);
      }
      StartAllIntent(e, before, t, launch, list[1..]);
      IntentTransitive(s, t, StartAll(e, before, s, launch, list));
    }
  }

  lemma PlayPreparedIntent(e: Env, s: St, list: seq<Stream>)
    requires forall p :: p in list ==> Wished(s, p)
    ensures SameIntent(s, PlayPrepared(e, s, list))
  {
    hide StartAll, PrepareLaunch, SameWish;
    var (t, launch) := PrepareLaunch(e, s, list);
    PrepareLaunchKeeps(e, s, list);
    forall p | p in list ensures Wished(t, p) {
      assert Wished(s, p);
    }
    StartAllIntent(e, t, t, launch, list);
  }

  lemma ReleaseIntent(e: Env, s: St, rest: St)
    requires Keyed(s.cohorts) && s.cohorts != []
    requires rest == Ticked(s).(cohorts := s.cohorts[1..])
    ensures var head := Pruned(s, s.cohorts[0]);
            SameIntent(s, PlayPrepared(e, rest, StreamsOf(head.sessions, head.prepared)))
  {
    hide PlayPrepared, SameWish, PlansStay;
    var head := Pruned(s, s.cohorts[0]);
    var list := StreamsOf(head.sessions, head.prepared);
    forall p | p in list ensures Wished(rest, p) {
      var id :| id in head.sessions && id in head.prepared && head.prepared[id] == p;
      assert s.cohorts[0].prepared[id].id == id;
    }
    PlayPreparedIntent(e, rest, list);
    SameStart(s, rest, PlayPrepared(e, rest, list));
  }

  lemma SameStart(s: St, t: St, u: St)
    requires SameIntent(t, u) && t.sessions == s.sessions && t.plans == s.plans && t.released == s.released
    ensures SameIntent(s, u)
  {
  }

  lemma {:induction false} MaybeStartIntent(e: Env, s: St, force: bool)
    requires Keyed(s.cohorts)
    ensures SameIntent(s, MaybeStart(e, s, force))
    decreases |s.cohorts|
  {
    hide PlayPrepared, ShouldStart, Pruned, SameIntent, Keyed;
    KeyedTail(s.cohorts);
    if s.cohorts == [] {
      SameSelf(s, s);
    } else {
      var head := Pruned(s, s.cohorts[0]);
      if head.sessions == [] {
        var rest := s.(cohorts := s.cohorts[1..]);
        MaybeStartIntent(e, rest, force);
        SameStart(s, rest, MaybeStart(e, rest, force));
      } else if ShouldStart(head, Now(e, s), force) {
        var rest := Ticked(s).(cohorts := s.cohorts[1..]);
        var list := StreamsOf(head.sessions, head.prepared);
        var next := PlayPrepared(e, rest, list);
        ReleaseIntent(e, s, rest);
        PlayPreparedKeeps(e, rest, list);
        MaybeStartIntent(e, next, force);
        IntentTransitive(s, next, MaybeStart(e, next, force));
      } else {
        SameSelf(s, Ticked(s).(cohorts := [head] + s.cohorts[1..]));
      }
    }
  }

  lemma KeyedTail(q: seq<Cohort>)
    requires Keyed(q)
    ensures q != [] ==> Keyed(q[1..])
  {
  }

  lemma SameSelf(s: St, t: St)
    requires t.sessions == s.sessions && t.plans == s.plans && t.released == s.released
    ensures SameIntent(s, t)
  {
  }

  lemma InvalidateIntent(s: St, id: SessionId)
    requires id in s.sessions
    ensures s.sessions[id].wanted ==> SameIntent(s, Invalidate(s, id))
    ensures Invalidate(s, id).ticks == s.ticks && Invalidate(s, id).wakes == s.wakes
  {
  }

  lemma ScheduleIntent(s: St, id: SessionId)
    requires id in s.sessions ==> s.sessions[id].wanted
    ensures SameIntent(s, ScheduleRetry(s, id)) && ScheduleRetry(s, id).ticks == s.ticks
  {
  }

  lemma RebuildIntent(e: Env, s: St, id: SessionId)
    requires id in s.sessions && s.sessions[id].wanted
    ensures SameIntent(s, Rebuild(e, s, id)) && s.ticks <= Rebuild(e, s, id).ticks
  {
    hide Send, Prepares, Invalidate, ScheduleRetry;
    var s1 := Invalidate(s, id);
    var s2 := Send(s1, s.sessions[id].zone, Stop(id, |s1.issued|));
    InvalidateIntent(s, id);
    assert SameIntent(s, s2);
    PreparesIntent(e, s2, id);
    IntentTransitive(s, s2, Prepares(e, s2, id));
    ScheduleIntent(s2, id);
    IntentTransitive(s, s2, ScheduleRetry(s2, id));
  }

  lemma PreparesIntent(e: Env, s: St, id: SessionId)
    requires id in s.sessions && s.sessions[id].wanted
    ensures SameIntent(s, Prepares(e, s, id)) && s.ticks <= Prepares(e, s, id).ticks
  {
    hide Enqueue;
  }

  /** `t` follows `s` by a handler's work on other sessions. */
  ghost predicate Follows(e: Env, s: St, t: St, exempt: set<SessionId>) {
    Core(e, t, exempt) && Queue(e, t) && SameIntent(s, t) && s.ticks <= t.ticks && s.issued <= t.issued
  }

  /** A whole handler took the bridge from `s` to `t`. */
  ghost predicate Advances(e: Env, s: St, t: St) {
    Core(e, t, {}) && Queue(e, t) && PlansStay(s, t) && s.ticks <= t.ticks && s.issued <= t.issued
  }

  lemma AdvancesBy(e: Env, s: St, t: St, u: St)
    requires Follows(e, t, u, {}) && PlansStay(s, t) && s.ticks <= t.ticks && s.issued <= t.issued
    ensures Advances(e, s, u)
  {
    hide Core, Queue;
  }

  lemma ResumeCore(e: Env, s: St, id: SessionId, exempt: set<SessionId>)
    requires ValidEnv(e) && Core(e, s, exempt) && Queue(e, s) && id in s.sessions && s.sessions[id].wanted
    ensures Follows(e, s, Resume(e, s, id), exempt - {id})
  {
    hide Core, Queue, Rebuild, MaybeStart, Rebuilds;
    var t := Rebuild(e, s, id);
    RebuildCore(e, s, id, exempt);
    RebuildQueue(e, s, id);
    RebuildIntent(e, s, id);
    QueueDistinct(e, t);
    MaybeStartCore(e, t, false, exempt - {id});
    MaybeStartQueue(e, t);
    CoreStreams(e, t, exempt - {id});
    StreamsKeyed(t);
    MaybeStartIntent(e, t, false);
  }

  lemma QueueDistinct(e: Env, s: St)
    requires Queue(e, s)
    ensures Distinct(s.cohorts)
  {
  }

  lemma BeforeLeaveIntent(e: Env, s: St, id: SessionId)
    requires id in s.sessions ==> s.sessions[id].wanted
    ensures var t := BeforeLeave(e, s, id);
            && SameIntent(s, t) && t.cohorts == s.cohorts && t.wakes == s.wakes && t.ticks == s.ticks
               && t.issued == s.issued
            && t.groups == s.groups
  {
  }

  lemma IntentAt(s: St, t: St, id: SessionId)
    requires SameIntent(s, t) && id in s.sessions
    ensures id in t.sessions && t.sessions[id].wanted == s.sessions[id].wanted
  {
    assert SameWish(s.sessions[id], t.sessions[id]);
  }

  /** A restart keeps the core invariant and settles its session, through all the restarts
      and releases that it nests. */
  lemma {:induction false} RestartCore(e: Env, s: St, id: SessionId, exempt: set<SessionId>)
    requires ValidEnv(e) && Core(e, s, exempt) && Queue(e, s)
    requires id in s.sessions ==> s.sessions[id].wanted
    ensures Follows(e, s, Restart(e, s, id), exempt - {id})
    decreases Load(s), 2
  {
    hide ValidEnv, Core, Queue, LeaveGroup, Resume, RestartMembers, SameIntent, BeforeLeave;
    hide Members, Waiting;
    var s1 := BeforeLeave(e, s, id);
    BeforeLeaveCore(e, s, id, exempt);
    BeforeLeaveIntent(e, s, id);
    QueueSame(e, s, s1);
    var s2 := LeaveGroup(e, s1, id);
    LeaveGroupCore(e, s1, id, exempt + {id});
    IntentTransitive(s, s1, s2);
    if id in s2.sessions {
      IntentAt(s, s2, id);
      ResumeCore(e, s2, id, exempt + {id});
      IntentTransitive(s, s2, Resume(e, s2, id));
      CoreRelax(e, Resume(e, s2, id), exempt + {id} - {id}, exempt - {id});
    } else {
      DeadExempt(e, s2, id, exempt + {id}, exempt - {id});
    }
  }

  lemma DeadExempt(e: Env, s: St, id: SessionId, exempt: set<SessionId>, after: set<SessionId>)
    requires Core(e, s, exempt) && id !in s.sessions && exempt <= after + {id}
    ensures Core(e, s, after)
  {
    hide RoomOk, ChannelOk, Bounded, HasEntry;
    LoseEntries(e, s, s, exempt, exempt + after);
    forall j | j in s.sessions ensures Room(e, s, j, after) {
      assert Room(e, s, j, exempt + after);
      assert (j in exempt + after) == (j in after);
    }
  }

  lemma QueueSame(e: Env, s: St, t: St)
    requires Queue(e, s) && t.cohorts == s.cohorts && t.wakes == s.wakes && t.ticks == s.ticks
    ensures Queue(e, t)
  {
  }

  lemma {:induction false} LeaveGroupCore(e: Env, s: St, id: SessionId, exempt: set<SessionId>)
    requires ValidEnv(e) && Core(e, s, exempt) && Queue(e, s)
    ensures Follows(e, s, LeaveGroup(e, s, id), exempt)
    decreases Load(s), 1
  {
    hide Core, Queue, Load, RestartMembers;
    var t := Detach(s, id);
    DetachLoad(s, id);
    CoreSame(e, s, t, exempt);
    QueueSame(e, s, t);
    RestartMembersCore(e, t, Detached(s, id), exempt);
  }

  lemma {:induction false} RestartMembersCore(e: Env, s: St, list: seq<SessionId>, exempt: set<SessionId>)
    requires ValidEnv(e) && Core(e, s, exempt) && Queue(e, s)
    ensures Follows(e, s, RestartMembers(e, s, list), exempt)
    decreases Load(s) + |list|, 0
  {
    hide Core, Queue, Load, Restart;
    if list != [] {
      var id := list[0];
      var t := if id in s.sessions && s.sessions[id].wanted then Restart(e, s, id) else s;
      if id in s.sessions && s.sessions[id].wanted {
        RestartCore(e, s, id, exempt);
        CoreRelax(e, t, exempt - {id}, exempt);
      }
      RestartMembersCore(e, t, list[1..], exempt);
    }
  }
}
