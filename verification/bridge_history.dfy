/** What handlers append to the command channels, and how generations and encoders of sessions
    change, through all the restarts and releases that they nest. */
module BridgeHistory {
  import opened BridgeState
  import opened BridgeHandlers
  import opened BridgeRooms
  import opened BridgeCore
  import opened BridgeForest
  import opened BridgeOut

  /** The start is for a stream that waits for its release: of the current generation of a session
      that wants playback, in that session's room. */
  predicate Due(s: St, zone: ZoneId, c: Command) {
    && c.id in s.sessions && s.sessions[c.id].generation == c.generation && s.sessions[c.id].wanted
    && s.sessions[c.id].zone == zone && Entry(s, c.id)
  }

  /** Commands are only appended. Every start among the new ones was due in `s`, and every Prepare
      is for a new generation. Messages are only taken. */
  ghost predicate Appended(s: St, zone: ZoneId, a: Channel, b: Channel) {
    && a.unseen <= b.unseen && b.running == a.running && b.bag <= a.bag
    && forall c :: c in b.unseen[|a.unseen|..] ==>
         (IsStart(c) ==> Due(s, zone, c)) && (c.Prepare? ==> c.generation > |s.issued|)
  }

  /** The command was sent to the room between `s` and `t`. */
  predicate SentNew(s: St, t: St, zone: ZoneId, c: Command) {
    && zone in s.channels && zone in t.channels && s.channels[zone].unseen <= t.channels[zone].unseen
    && c in t.channels[zone].unseen[|s.channels[zone].unseen|..]
  }

  ghost predicate PlaySent(s: St, t: St, g: nat) {
    exists z, id :: SentNew(s, t, z, Play(id, g))
  }

  ghost predicate JoinSent(s: St, t: St, g: nat) {
    exists z, c :: SentNew(s, t, z, c) && c.Join? && c.generation == g
  }

  predicate SamePlan(s: St, t: St, g: nat)
    requires g in t.plans
  {
    g in s.plans && s.plans[g] == t.plans[g]
  }

  predicate StillHeld(s: St, t: St, j: SessionId)
    requires j in t.sessions
  {
    && j in s.sessions && s.sessions[j].held.Some? && s.sessions[j].generation == t.sessions[j].generation
  }

  /** A plan is only made with the Play of its stream, and a delay is only held with its Join. */
  ghost predicate Commits(s: St, t: St) {
    && (forall g :: g in t.plans && !SamePlan(s, t, g) ==> PlaySent(s, t, g))
    && (forall j :: j in t.sessions && t.sessions[j].held.Some? && !StillHeld(s, t, j) ==>
          JoinSent(s, t, t.sessions[j].generation))
  }

  ghost predicate Appends(s: St, t: St) {
    && t.channels.Keys == s.channels.Keys
    && (forall z :: z in s.channels ==> Appended(s, z, s.channels[z], t.channels[z]))
    && Commits(s, t)
  }

  /** A session that starts: it has no stream yet. */
  predicate Begins(from: nat, to: nat, y: Session) {
    && (y.generation == 0 || y.generation > from)
    && (y.encoder.None? || NewEncoder(from, to, y.encoder.value))
  }

  predicate Ages(s: St, t: St, j: SessionId)
    requires j in t.sessions
  {
    if j in s.sessions then
      Renews(|s.issued|, |t.issued|, s.sessions[j], t.sessions[j]) && s.sessions[j].epoch <= t.sessions[j].epoch
    else Begins(|s.issued|, |t.issued|, t.sessions[j])
  }

  /** What waits in `t` waited in `s`. */
  predicate StillWaits(s: St, t: St, j: SessionId)
    requires j in t.sessions
  {
    t.sessions[j].wanted && Entry(t, j) ==>
      && j in s.sessions && s.sessions[j].wanted && Entry(s, j)
      && s.sessions[j].generation == t.sessions[j].generation && s.sessions[j].zone == t.sessions[j].zone
  }

  ghost predicate Grows(s: St, t: St) {
    && |s.issued| <= |t.issued|
    && forall j :: j in t.sessions ==> Ages(s, t, j) && StillWaits(s, t, j)
  }

  ghost predicate Evolves(s: St, t: St) {
    Appends(s, t) && Grows(s, t)
  }

  lemma GrowsBy(s: St, t: St, u: St)
    requires Grows(s, t) && Grows(t, u) && u.sessions.Keys <= t.sessions.Keys
    ensures Grows(s, u)
  {
    hide HasEntry;
    forall j | j in u.sessions ensures Ages(s, u, j) && StillWaits(s, u, j) {
      assert Ages(s, t, j) && StillWaits(s, t, j) && Ages(t, u, j) && StillWaits(t, u, j);
    }
  }

  lemma AppendsBy(s: St, t: St, u: St)
    requires Appends(s, t) && Grows(s, t) && Appends(t, u)
    ensures Appends(s, u)
  {
    hide HasEntry, Commits;
    forall z | z in s.channels ensures Appended(s, z, s.channels[z], u.channels[z]) {
      var a, b, c := s.channels[z].unseen, t.channels[z].unseen, u.channels[z].unseen;
      assert Appended(s, z, s.channels[z], t.channels[z]) && Appended(t, z, t.channels[z], u.channels[z]);
      assert c[|a|..] == b[|a|..] + c[|b|..];
      forall x | x in c[|b|..] && IsStart(x) ensures Due(s, z, x) {
        assert Due(t, z, x);
        assert StillWaits(s, t, x.id);
      }
    }
    CommitsBy(s, t, u);
  }

  lemma SentEither(s: St, t: St, u: St, zone: ZoneId, c: Command)
    requires zone in s.channels && zone in t.channels && zone in u.channels
    requires s.channels[zone].unseen <= t.channels[zone].unseen <= u.channels[zone].unseen
    ensures SentNew(s, t, zone, c) || SentNew(t, u, zone, c) ==> SentNew(s, u, zone, c)
  {
    var x, y, z := s.channels[zone].unseen, t.channels[zone].unseen, u.channels[zone].unseen;
    assert z[|x|..] == y[|x|..] + z[|y|..];
  }

  lemma PlaySentBy(s: St, t: St, u: St, g: nat)
    requires Appends(s, t) && Appends(t, u)
    ensures PlaySent(s, t, g) || PlaySent(t, u, g) ==> PlaySent(s, u, g)
  {
    hide Commits, SentNew;
    if z, id :| SentNew(s, t, z, Play(id, g)) || SentNew(t, u, z, Play(id, g)) {
      SentZone(s, t, z, Play(id, g));
      SentZone(t, u, z, Play(id, g));
      assert Appended(s, z, s.channels[z], t.channels[z]) && Appended(t, z, t.channels[z], u.channels[z]);
      SentEither(s, t, u, z, Play(id, g));
      assert SentNew(s, u, z, Play(id, g));
    }
  }

  lemma JoinSentBy(s: St, t: St, u: St, g: nat)
    requires Appends(s, t) && Appends(t, u)
    ensures JoinSent(s, t, g) || JoinSent(t, u, g) ==> JoinSent(s, u, g)
  {
    hide Commits, SentNew;
    if z, c :| (SentNew(s, t, z, c) || SentNew(t, u, z, c)) && c.Join? && c.generation == g {
      SentZone(s, t, z, c);
      SentZone(t, u, z, c);
      assert Appended(s, z, s.channels[z], t.channels[z]) && Appended(t, z, t.channels[z], u.channels[z]);
      SentEither(s, t, u, z, c);
      assert SentNew(s, u, z, c);
    }
  }

  lemma SentZone(s: St, t: St, zone: ZoneId, c: Command)
    ensures SentNew(s, t, zone, c) ==> zone in s.channels && zone in t.channels
  {
  }

  lemma CommitsBy(s: St, t: St, u: St)
    requires Appends(s, t) && Appends(t, u)
    ensures Commits(s, u)
  {
    hide Appended, PlaySent, JoinSent;
    forall g | g in u.plans && !SamePlan(s, u, g) ensures PlaySent(s, u, g) {
      PlaySentBy(s, t, u, g);
    }
    forall j | j in u.sessions && u.sessions[j].held.Some? && !StillHeld(s, u, j)
      ensures JoinSent(s, u, u.sessions[j].generation)
    {
      JoinSentBy(s, t, u, u.sessions[j].generation);
    }
  }

  lemma EvolvesBy(s: St, t: St, u: St)
    requires Evolves(s, t) && Evolves(t, u) && u.sessions.Keys <= t.sessions.Keys
    ensures Evolves(s, u)
  {
    hide Appends, Grows;
    GrowsBy(s, t, u);
    AppendsBy(s, t, u);
  }

  /** No plan is made, and no delay is held anew. */
  ghost predicate Uncommitted(s: St, t: St) {
    t.plans == s.plans && forall j :: j in t.sessions && t.sessions[j].held.Some? ==> StillHeld(s, t, j)
  }

  lemma SameAppends(s: St, t: St)
    requires t.channels == s.channels && Uncommitted(s, t)
    ensures Appends(s, t)
  {
  }

  /** Nothing is sent or planned, and the delays that are held stay with their generations. */
  lemma CommitsFrame(s: St, t: St, u: St)
    requires Commits(s, t) && u.channels == t.channels && u.plans == t.plans
    requires forall j :: j in u.sessions && u.sessions[j].held.Some? ==>
               j in t.sessions && t.sessions[j].held.Some? && t.sessions[j].generation == u.sessions[j].generation
    ensures Commits(s, u)
  {
    hide SentNew;
    forall g | g in u.plans && !SamePlan(s, u, g) ensures PlaySent(s, u, g) {
      var z, id :| SentNew(s, t, z, Play(id, g));
      SameSent(s, t, u, z, Play(id, g));
    }
    forall j | j in u.sessions && u.sessions[j].held.Some? && !StillHeld(s, u, j)
      ensures JoinSent(s, u, u.sessions[j].generation)
    {
      assert !StillHeld(s, t, j);
      var z, c :| SentNew(s, t, z, c) && c.Join? && c.generation == u.sessions[j].generation;
      SameSent(s, t, u, z, c);
    }
  }

  lemma SameSent(s: St, t: St, u: St, zone: ZoneId, c: Command)
    requires u.channels == t.channels
    ensures SentNew(s, u, zone, c) == SentNew(s, t, zone, c)
  {
  }

  /** Only the channel of one room changes. */
  lemma OneAppends(s: St, t: St, zone: ZoneId)
    requires zone in s.channels && zone in t.channels && t.channels == s.channels[zone := t.channels[zone]]
    requires Appended(s, zone, s.channels[zone], t.channels[zone]) && Uncommitted(s, t)
    ensures Appends(s, t)
  {
  }

  lemma ThinnerGrows(s: St, t: St)
    requires Thinner(s, t)
    ensures Grows(s, t)
  {
    hide HasEntry;
    forall j | j in t.sessions ensures Ages(s, t, j) && StillWaits(s, t, j) {
      assert Thins(s, t, j);
    }
  }

  /** A command that starts nothing. */
  lemma SendEvolves(s: St, zone: ZoneId, c: Command)
    requires !IsStart(c) && !c.Prepare?
    ensures Evolves(s, Send(s, zone, c))
  {
    hide HasEntry;
    var t := Send(s, zone, c);
    if zone in s.channels {
      assert t.channels[zone].unseen[|s.channels[zone].unseen|..] == [c];
      OneAppends(s, t, zone);
    }
  }

  // ---- Releases ----

  lemma HeadAppends(e: Env, s: St, exempt: set<SessionId>)
    requires ValidEnv(e) && Core(e, s, exempt) && Distinct(s.cohorts) && s.cohorts != []
    ensures var head := Pruned(s, s.cohorts[0]);
            var rest := Ticked(s).(cohorts := s.cohorts[1..]);
            Appends(s, PlayPrepared(e, rest, StreamsOf(head.sessions, head.prepared)))
  {
    hide ValidEnv, Core, Distinct, HasEntry, StartAll, PrepareLaunch, Pruned, StartCommand, Idle;
    var head := Pruned(s, s.cohorts[0]);
    var rest := Ticked(s).(cohorts := s.cohorts[1..]);
    var list := StreamsOf(head.sessions, head.prepared);
    var (t, launch) := PrepareLaunch(e, rest, list);
    PrepareLaunchKeeps(e, rest, list);
    CoreStreams(e, s, exempt);
    HeadDistinct(s);
    OneZoneEach(e, s, exempt);
    forall p | p in list ensures Ready(rest, p) && ReleasedFrom(s, p) {
      HeadReady(e, s, exempt, p);
      ReadyFrom(s, rest, p);
      HeadWaits(e, s, exempt, p);
      ReadyGeneration(rest, p);
    }
    ReleaseZones(rest, list);
    ListAppends(e, s, t, launch, list);
  }

  lemma ReadyFrom(s: St, t: St, p: Stream)
    requires s.cohorts != [] && Ready(s.(cohorts := s.cohorts[1..]), p) && t == Ticked(s).(cohorts := s.cohorts[1..])
    ensures Ready(t, p)
  {
  }

  lemma ReadyGeneration(s: St, p: Stream)
    requires Ready(s, p)
    ensures p.id in s.sessions && s.sessions[p.id].generation == p.generation
  {
  }

  /** What is known of a stream that a cohort releases. */
  predicate ReleasedFrom(s: St, p: Stream) {
    && p.id in s.sessions && s.sessions[p.id].generation == p.generation && s.sessions[p.id].wanted
    && s.sessions[p.id].zone == p.zone && Entry(s, p.id)
  }

  /** New plans are for streams of the list that play, new held delays for sessions that join. */
  predicate Committed(e: Env, before: St, s: St, t: St, launch: Launch, list: seq<Stream>) {
    && (forall g :: g in t.plans && !SamePlan(s, t, g) ==>
          exists p :: p in list && p.generation == g && StartCommand(e, before, launch, p).Play?)
    && t.sessions.Keys == s.sessions.Keys
    && (forall j :: j in s.sessions && t.sessions[j].held != s.sessions[j].held ==>
          exists p :: p in list && p.id == j && StartCommand(e, before, launch, p).Join?)
  }

  lemma StartOneCommits(e: Env, before: St, s: St, launch: Launch, p: Stream, list: seq<Stream>)
    requires p in list
    ensures Committed(e, before, s, StartOne(e, before, s, launch, p), launch, list)
  {
    hide DelayOf, StartCommand;
  }

  lemma {:induction false} StartAllCommits(e: Env, before: St, s: St, launch: Launch, list: seq<Stream>,
        all: seq<Stream>)
    requires forall p :: p in list ==> p in all
    ensures Committed(e, before, s, StartAll(e, before, s, launch, list), launch, all)
    decreases |list|
  {
    hide StartOne, StartCommand;
    if list != [] {
      var t := StartOne(e, before, s, launch, list[0]);
      StartOneCommits(e, before, s, launch, list[0], all);
      StartAllCommits(e, before, t, launch, list[1..], all);
      var u := StartAll(e, before, s, launch, list);
      assert forall g :: g in u.plans && SamePlan(t, u, g) && !SamePlan(s, u, g) ==> !SamePlan(s, t, g);
    }
  }

  lemma ListCommits(e: Env, s: St, t: St, launch: Launch, list: seq<Stream>)
    requires t.channels == s.channels && t.plans == s.plans && t.sessions == s.sessions
    requires DistinctZones(list) && LaunchOk(launch)
    requires forall p :: p in list ==> p.zone in s.channels && s.channels[p.zone].unseen == [] && ReleasedFrom(s, p)
    ensures Commits(s, StartAll(e, t, t, launch, list))
  {
    hide StartAll, StartCommand, HasEntry, Commits, Committed;
    var u := StartAll(e, t, t, launch, list);
    StartAllSends(e, t, t, launch, list);
    StartAllCommits(e, t, t, launch, list, list);
    StartAllGenerations(e, t, t, launch, list);
    forall p | p in list
      ensures var c := StartCommand(e, t, launch, p); SentNew(s, u, p.zone, c) && Starts(c, p)
    {
      StartCommandOk(e, t, launch, p);
    }
    forall p | p in list ensures p.id in s.sessions && s.sessions[p.id].generation == p.generation {
      assert ReleasedFrom(s, p);
    }
    SentCommits(e, s, t, u, launch, list);
  }

  lemma SentCommits(e: Env, s: St, t: St, u: St, launch: Launch, list: seq<Stream>)
    requires Committed(e, t, t, u, launch, list) && t.plans == s.plans && t.sessions == s.sessions
    requires forall p :: p in list ==>
               && SentNew(s, u, p.zone, StartCommand(e, t, launch, p)) && Starts(StartCommand(e, t, launch, p), p)
               && p.id in s.sessions && s.sessions[p.id].generation == p.generation
    requires forall j :: j in s.sessions ==> j in u.sessions && u.sessions[j].generation == s.sessions[j].generation
    ensures Commits(s, u)
  {
    hide StartCommand, SentNew;
    forall g | g in u.plans && !SamePlan(s, u, g) ensures PlaySent(s, u, g) {
      var p :| p in list && p.generation == g && StartCommand(e, t, launch, p).Play?;
      assert StartCommand(e, t, launch, p) == Play(p.id, g);
    }
    forall j | j in u.sessions && u.sessions[j].held.Some? && !StillHeld(s, u, j)
      ensures JoinSent(s, u, u.sessions[j].generation)
    {
      var p :| p in list && p.id == j && StartCommand(e, t, launch, p).Join?;
    }
  }

  lemma ListAppends(e: Env, s: St, t: St, launch: Launch, list: seq<Stream>)
    requires t.channels == s.channels && t.plans == s.plans && t.sessions == s.sessions
    requires DistinctZones(list) && LaunchOk(launch)
    requires forall p :: p in list ==> p.zone in s.channels && s.channels[p.zone].unseen == [] && ReleasedFrom(s, p)
    ensures Appends(s, StartAll(e, t, t, launch, list))
  {
    hide StartAll, StartCommand, HasEntry, Commits;
    var u := StartAll(e, t, t, launch, list);
    ListCommits(e, s, t, launch, list);
    StartAllSends(e, t, t, launch, list);
    forall z | z in s.channels ensures Appended(s, z, s.channels[z], u.channels[z]) {
      if p :| p in list && p.zone == z {
        StartCommandOk(e, t, launch, p);
        assert ReleasedFrom(s, p);
      }
    }
  }

  lemma {:induction false} MaybeStartEvolves(e: Env, s: St, force: bool, exempt: set<SessionId>)
    requires ValidEnv(e) && Core(e, s, exempt) && Distinct(s.cohorts)
    ensures Evolves(s, MaybeStart(e, s, force))
  {
    hide ValidEnv, Core, MaybeStart, Grows, Appends, Thinner, Distinct;
    MaybeStartThinner(e, s, force, exempt);
    ThinnerGrows(s, MaybeStart(e, s, force));
    MaybeStartAppends(e, s, force, exempt);
  }

  lemma {:induction false} MaybeStartAppends(e: Env, s: St, force: bool, exempt: set<SessionId>)
    requires ValidEnv(e) && Core(e, s, exempt) && Distinct(s.cohorts)
    ensures Appends(s, MaybeStart(e, s, force))
    decreases |s.cohorts|
  {
    hide ValidEnv, Core, PlayPrepared, Pruned, ShouldStart, HasEntry, Appends, Grows, Thinner;
    SameAppends(s, s);
    if s.cohorts != [] {
      var head := Pruned(s, s.cohorts[0]);
      var list := StreamsOf(head.sessions, head.prepared);
      if head.sessions == [] {
        var rest := s.(cohorts := s.cohorts[1..]);
        DropHead(e, s, rest, exempt);
        assert exempt + Ids(list) == exempt;
        TailThinner(e, s, rest, exempt);
        ThinnerGrows(s, rest);
        SameAppends(s, rest);
        MaybeStartAppends(e, rest, force, exempt);
        AppendsBy(s, rest, MaybeStart(e, rest, force));
      } else if !ShouldStart(head, Now(e, s), force) {
        SameAppends(s, Ticked(s).(cohorts := [head] + s.cohorts[1..]));
      } else {
        var rest := Ticked(s).(cohorts := s.cohorts[1..]);
        var next := PlayPrepared(e, rest, list);
        PlayPreparedKeeps(e, rest, list);
        ReleaseHead(e, s, exempt);
        TailThinner(e, s, rest, exempt);
        ReleaseThinner(e, s, exempt);
        ThinnerTransitive(s, rest, next);
        ThinnerGrows(s, next);
        HeadAppends(e, s, exempt);
        MaybeStartAppends(e, next, force, exempt);
        AppendsBy(s, next, MaybeStart(e, next, force));
      }
    }
  }

  // ---- Restarts ----

  lemma RebuildAppends(e: Env, s: St, id: SessionId, exempt: set<SessionId>)
    requires Core(e, s, exempt) && id in s.sessions
    ensures Appends(s, Rebuild(e, s, id))
  {
    hide Core, Rebuild, HasEntry, Rebuilds, Enqueue, Invalidated, Uncommitted, Appended;
    CoreAt(e, s, id, exempt);
    RebuildSession(e, s, id);
    var t := Rebuild(e, s, id);
    var zone := s.sessions[id].zone;
    RebuildAppended(s, zone, s.channels[zone], t.channels[zone], id);
    assert t.channels == s.channels[zone := t.channels[zone]];
    RebuildUncommitted(e, s, id);
    OneAppends(s, t, zone);
  }

  lemma RebuildAppended(s: St, zone: ZoneId, a: Channel, b: Channel, id: SessionId)
    requires var g := |s.issued| + 1;
             b == a.(unseen := a.unseen + [Stop(id, g), Prepare(id, g)]) || b == a.(unseen := a.unseen + [Stop(id, g)])
    ensures Appended(s, zone, a, b)
  {
    hide Due;
    var g := |s.issued| + 1;
    assert b.unseen[|a.unseen|..] == [Stop(id, g), Prepare(id, g)] || b.unseen[|a.unseen|..] == [Stop(id, g)];
  }

  lemma RebuildUncommitted(e: Env, s: St, id: SessionId)
    requires id in s.sessions && s.sessions[id].zone in s.channels && s.channels.Keys == e.renderers.Keys
    ensures Uncommitted(s, Rebuild(e, s, id))
  {
    hide Rebuild, Rebuilds, Enqueue;
    RebuildSession(e, s, id);
    SameSessions(s, Rebuild(e, s, id), id);
  }

  lemma ResumeAppends(e: Env, s: St, id: SessionId, exempt: set<SessionId>)
    requires ValidEnv(e) && Core(e, s, exempt) && Queue(e, s) && id in s.sessions && s.sessions[id].wanted
    ensures Appends(s, Resume(e, s, id))
  {
    hide ValidEnv, Core, Queue, Rebuild, MaybeStart, Rebuilds, HasEntry, Thinner, Grows, Appends;
    var t := Rebuild(e, s, id);
    RebuildCore(e, s, id, exempt);
    RebuildQueue(e, s, id);
    RebuildThins(e, s, id, exempt);
    ThinnerGrows(s, t);
    RebuildAppends(e, s, id, exempt);
    QueueDistinct(e, t);
    MaybeStartAppends(e, t, false, exempt - {id});
    AppendsBy(s, t, MaybeStart(e, t, false));
  }

  lemma {:induction false} RestartAppends(e: Env, s: St, id: SessionId, exempt: set<SessionId>)
    requires ValidEnv(e) && Core(e, s, exempt) && Queue(e, s)
    requires id in s.sessions ==> s.sessions[id].wanted
    ensures Appends(s, Restart(e, s, id))
    decreases Load(s), 2
  {
    hide ValidEnv, Core, Queue, LeaveGroup, Resume, Thinner, Grows, Appends;
    hide Members, Waiting;
    var s1 := BeforeLeave(e, s, id);
    BeforeLeaveCore(e, s, id, exempt);
    QueueSame(e, s, s1);
    BeforeLeaveThinner(e, s, id);
    SameAppends(s, s1);
    var s2 := LeaveGroup(e, s1, id);
    LeaveGroupCore(e, s1, id, exempt + {id});
    LeaveGroupThinner(e, s1, id, exempt + {id});
    LeaveGroupAppends(e, s1, id, exempt + {id});
    ThinnerGrows(s, s1);
    AppendsBy(s, s1, s2);
    ThinnerTransitive(s, s1, s2);
    ThinnerGrows(s, s2);
    if id in s2.sessions {
      assert SameWish(s1.sessions[id], s2.sessions[id]);
      ResumeAppends(e, s2, id, exempt + {id});
      AppendsBy(s, s2, Resume(e, s2, id));
    }
  }

  lemma {:induction false} LeaveGroupAppends(e: Env, s: St, id: SessionId, exempt: set<SessionId>)
    requires ValidEnv(e) && Core(e, s, exempt) && Queue(e, s)
    ensures Appends(s, LeaveGroup(e, s, id))
    decreases Load(s), 1
  {
    hide ValidEnv, Core, Queue, Load, RestartMembers, Thinner, Grows, Appends;
    var t := Detach(s, id);
    DetachLoad(s, id);
    CoreSame(e, s, t, exempt);
    QueueSame(e, s, t);
    DetachThinner(s, id);
    ThinnerGrows(s, t);
    SameAppends(s, t);
    RestartMembersAppends(e, t, Detached(s, id), exempt);
    AppendsBy(s, t, RestartMembers(e, t, Detached(s, id)));
  }

  lemma {:induction false} RestartMembersAppends(e: Env, s: St, list: seq<SessionId>, exempt: set<SessionId>)
    requires ValidEnv(e) && Core(e, s, exempt) && Queue(e, s)
    ensures Appends(s, RestartMembers(e, s, list))
    decreases Load(s) + |list|, 0
  {
    hide ValidEnv, Core, Queue, Load, Restart, Thinner, Grows, Appends;
    SameAppends(s, s);
    if list != [] {
      var id := list[0];
      if id in s.sessions && s.sessions[id].wanted {
        var t := Restart(e, s, id);
        RestartCore(e, s, id, exempt);
        CoreRelax(e, t, exempt - {id}, exempt);
        RestartThinner(e, s, id, exempt);
        ThinnerGrows(s, t);
        RestartAppends(e, s, id, exempt);
        RestartMembersAppends(e, t, list[1..], exempt);
        AppendsBy(s, t, RestartMembers(e, t, list[1..]));
      } else {
        RestartMembersAppends(e, s, list[1..], exempt);
      }
    }
  }

  /** A restart starts only what waited, and renews what it restarts. */
  lemma RestartEvolves(e: Env, s: St, id: SessionId, exempt: set<SessionId>)
    requires ValidEnv(e) && Core(e, s, exempt) && Queue(e, s)
    requires id in s.sessions ==> s.sessions[id].wanted
    ensures Evolves(s, Restart(e, s, id))
  {
    hide ValidEnv, Core, Queue, Restart, Thinner, Grows, Appends;
    RestartAppends(e, s, id, exempt);
    RestartThinner(e, s, id, exempt);
    ThinnerGrows(s, Restart(e, s, id));
  }

  lemma LeaveGroupEvolves(e: Env, s: St, id: SessionId, exempt: set<SessionId>)
    requires ValidEnv(e) && Core(e, s, exempt) && Queue(e, s)
    ensures Evolves(s, LeaveGroup(e, s, id))
  {
    hide ValidEnv, Core, Queue, LeaveGroup, Thinner, Grows, Appends;
    LeaveGroupAppends(e, s, id, exempt);
    LeaveGroupThinner(e, s, id, exempt);
    ThinnerGrows(s, LeaveGroup(e, s, id));
  }
}
