/** Which sessions stay out of every group, whatever restarts and releases happen, in either order
    of a restart. */
module BridgeOut {
  import opened BridgeState
  import opened BridgeHandlers
  import opened BridgeRooms
  import opened BridgeCore
  import opened BridgeForest

  /** A stream of the same sender waits for its release, in another Sonos room. */
  predicate Waits(e: Env, s: St, sender: Option<Sender>, j: SessionId) {
    && sender.Some? && j in s.sessions && s.sessions[j].wanted && s.sessions[j].sender == sender
    && IsSonos(e, s.sessions[j].zone) && Entry(s, j)
  }

  ghost predicate SomeoneWaits(e: Env, s: St, sender: Option<Sender>) {
    exists j :: Waits(e, s, sender, j)
  }

  /** Nothing can put `c` into a group. */
  ghost predicate Out(e: Env, s: St, c: SessionId) {
    && Ungrouped(s, c)
    && (c in s.sessions ==>
          && !Entry(s, c)
          && (e.nativeGroups && s.sessions[c].observed == Playing ==> !SomeoneWaits(e, s, s.sessions[c].sender)))
  }

  /** Built between two counts of generations, and not fed yet. */
  predicate NewEncoder(from: nat, to: nat, encoder: Encoder) {
    from < encoder.stream <= to && encoder.fed == []
  }

  /** The session keeps its generation, or gets a new one. It keeps its encoder, loses it, or gets
      a new one. */
  predicate Renews(from: nat, to: nat, x: Session, y: Session) {
    && (y.generation == x.generation || y.generation > from)
    && (y.encoder == x.encoder || y.encoder.None? || NewEncoder(from, to, y.encoder.value))
  }

  /** Every retry that is armed anew costs an attempt, and no attempt is given back. */
  predicate Pays(x: Session, y: Session) {
    x.attempts <= y.attempts && (y.timer.None? || y.timer == x.timer || x.attempts < y.attempts)
  }

  /** Sessions keep what they want, none is seen to start playing, and no stream starts to wait. */
  predicate Thins(s: St, t: St, j: SessionId)
    requires j in s.sessions
  {
    && j in t.sessions && SameWish(s.sessions[j], t.sessions[j])
    && Renews(|s.issued|, |t.issued|, s.sessions[j], t.sessions[j])
    && (t.sessions[j].observed == Playing ==> s.sessions[j].observed == Playing)
    && Pays(s.sessions[j], t.sessions[j])
    && (Entry(t, j) ==> Entry(s, j) && t.sessions[j].generation == s.sessions[j].generation)
  }

  ghost predicate Thinner(s: St, t: St) {
    && t.sessions.Keys == s.sessions.Keys && |s.issued| <= |t.issued|
    && forall j :: j in s.sessions ==> Thins(s, t, j)
  }

  lemma ThinnerSame(s: St)
    ensures Thinner(s, s)
  {
    hide HasEntry;
  }

  lemma ThinnerTransitive(s: St, t: St, u: St)
    requires Thinner(s, t) && Thinner(t, u)
    ensures Thinner(s, u)
  {
    hide HasEntry;
    forall j | j in s.sessions ensures Thins(s, u, j) {
      assert Thins(s, t, j) && Thins(t, u, j);
    }
  }

  lemma FewerWait(e: Env, s: St, t: St, sender: Option<Sender>)
    requires Thinner(s, t)
    ensures SomeoneWaits(e, t, sender) ==> SomeoneWaits(e, s, sender)
  {
    hide HasEntry;
    forall j | Waits(e, t, sender, j) ensures Waits(e, s, sender, j) {
      assert Thins(s, t, j);
    }
  }

  lemma OutFrame(e: Env, s: St, t: St, c: SessionId)
    requires Out(e, s, c) && Thinner(s, t) && Ungrouped(t, c)
    requires c in s.sessions && t.sessions[c].observed == Playing ==> s.sessions[c].observed == Playing
    ensures Out(e, t, c)
  {
    hide HasEntry, IsMember, Waits, SomeoneWaits;
    if c in s.sessions {
      assert Thins(s, t, c);
      FewerWait(e, s, t, s.sessions[c].sender);
    }
  }

  lemma GroupSenderOut(e: Env, g: Grouping, sender: Sender, members: seq<SessionId>, c: SessionId)
    requires ValidEnv(e) && Ungrouped(g.st, c) && members != [] && c !in members
    requires c in g.st.sessions ==> g.st.sessions[c].observed != Playing || g.st.sessions[c].sender != Some(sender)
    ensures Ungrouped(GroupSender(e, g, sender, members).st, c)
  {
    var preferred := Preferred(e, g.st, sender);
    assert c !in preferred;
    var g' := g.(st := Ticked(g.st));
    if preferred != {} {
      assert e.choose(g.st.ticks, preferred) in preferred;
      BystandersStay(g', e.choose(g.st.ticks, preferred), members);
    } else {
      BystandersStay(g, members[0], members[1..]);
    }
  }

  lemma {:induction false} GroupAllOut(e: Env, g: Grouping, list: seq<Stream>, c: SessionId)
    requires ValidEnv(e) && Ungrouped(g.st, c) && forall p :: p in list ==> p.id != c
    requires c in g.st.sessions && g.st.sessions[c].observed == Playing ==>
               forall p :: p in list ==>
                 StreamSender(e, g.st, p).None? || StreamSender(e, g.st, p) != g.st.sessions[c].sender
    ensures Ungrouped(GroupAll(e, g, list).st, c)
    decreases |list|
  {
    hide ValidEnv, GroupSender, IsMember;
    if list != [] {
      match StreamSender(e, g.st, list[0])
      case None => GroupAllOut(e, g, list[1..], c);
      case Some(sender) =>
        var members := SameSender(e, g.st, list, sender);
        assert list[0].id in members && list[0] in list;
        GroupSenderOut(e, g, sender, members, c);
        var r := GroupSender(e, g, sender, members);
        GroupSenderKeeps(e, g, sender, members);
        GroupAllOut(e, r, OtherSenders(e, g.st, list, sender), c);
    }
  }

  lemma PlayPreparedThinner(e: Env, s: St, list: seq<Stream>)
    requires forall p :: p in list ==> Wished(s, p)
    ensures Thinner(s, PlayPrepared(e, s, list))
  {
    hide HasEntry, CohortDelays, StartAll;
    var (t, launch) := PrepareLaunch(e, s, list);
    PrepareLaunchKeeps(e, s, list);
    PlayPreparedIntent(e, s, list);
    StartAllGenerations(e, t, t, launch, list);
    forall j | j in s.sessions ensures Thins(s, PlayPrepared(e, s, list), j) {
    }
  }

  lemma PlayPreparedOut(e: Env, s: St, list: seq<Stream>, c: SessionId)
    requires ValidEnv(e) && Out(e, s, c) && forall p :: p in list ==> p.id in s.sessions && p.id != c
    requires c in s.sessions && e.nativeGroups && s.sessions[c].observed == Playing ==>
               forall p :: p in list ==> StreamSender(e, s, p).None? || StreamSender(e, s, p) != s.sessions[c].sender
    requires forall p :: p in list ==> Wished(s, p)
    ensures Out(e, PlayPrepared(e, s, list), c)
  {
    hide ValidEnv, GroupAll, IsMember, HasEntry, CohortDelays, StartAll, SomeoneWaits, Thinner;
    var (t, launch) := PrepareLaunch(e, s, list);
    var u := PlayPrepared(e, s, list);
    PrepareLaunchKeeps(e, s, list);
    if e.nativeGroups {
      GroupAllOut(e, Grouping(s, map[]), list, c);
    }
    assert Ungrouped(u, c);
    StartAllElsewhere(e, t, t, launch, list);
    PlayPreparedThinner(e, s, list);
    OutFrame(e, s, u, c);
  }

  lemma {:induction false} StartAllGenerations(e: Env, before: St, s: St, launch: Launch, list: seq<Stream>)
    ensures var t := StartAll(e, before, s, launch, list);
            forall id :: id in s.sessions ==>
              && t.sessions[id].generation == s.sessions[id].generation
              && t.sessions[id].encoder == s.sessions[id].encoder
              && t.sessions[id].observed == s.sessions[id].observed
              && t.sessions[id].attempts == s.sessions[id].attempts && t.sessions[id].timer == s.sessions[id].timer
    decreases |list|
  {
    hide StartOne;
    if list != [] {
      StartOneGeneration(e, before, s, launch, list[0]);
      StartAllGenerations(e, before, StartOne(e, before, s, launch, list[0]), launch, list[1..]);
    }
  }

  lemma StartOneGeneration(e: Env, before: St, s: St, launch: Launch, p: Stream)
    ensures var t := StartOne(e, before, s, launch, p);
            forall id :: id in s.sessions ==>
              && t.sessions[id].generation == s.sessions[id].generation
              && t.sessions[id].encoder == s.sessions[id].encoder
              && t.sessions[id].observed == s.sessions[id].observed
              && t.sessions[id].attempts == s.sessions[id].attempts && t.sessions[id].timer == s.sessions[id].timer
  {
    hide DelayOf, StartCommand, Send;
  }

  /** What a released stream says about its session. */
  lemma HeadWaits(e: Env, s: St, exempt: set<SessionId>, p: Stream)
    requires Core(e, s, exempt) && Distinct(s.cohorts) && s.cohorts != []
    requires var head := Pruned(s, s.cohorts[0]); p in StreamsOf(head.sessions, head.prepared)
    ensures p.id in s.sessions && Entry(s, p.id) && s.sessions[p.id].wanted && p.zone == s.sessions[p.id].zone
  {
    hide Core, Distinct, HasEntry, Idle;
    HeadReady(e, s, exempt, p);
    PrunedEntries(e, s, exempt, p.id);
    ReadyZone(s.(cohorts := s.cohorts[1..]), p);
  }

  lemma ReadyZone(s: St, p: Stream)
    requires Ready(s, p)
    ensures p.id in s.sessions && s.sessions[p.id].wanted && p.zone == s.sessions[p.id].zone
  {
  }

  lemma TailThinner(e: Env, s: St, t: St, exempt: set<SessionId>)
    requires Core(e, s, exempt) && Distinct(s.cohorts) && s.cohorts != []
    requires t == s.(cohorts := t.cohorts, ticks := t.ticks)
    requires t.cohorts == s.cohorts[1..] || t.cohorts == [Pruned(s, s.cohorts[0])] + s.cohorts[1..]
    ensures Thinner(s, t)
  {
    hide Core, Distinct, HasEntry, Pruned;
    forall j | j in s.sessions ensures Thins(s, t, j) {
      PrunedEntries(e, s, exempt, j);
    }
  }

  lemma TailOut(e: Env, s: St, t: St, exempt: set<SessionId>, c: SessionId)
    requires Core(e, s, exempt) && Distinct(s.cohorts) && s.cohorts != [] && Out(e, s, c)
    requires t == s.(cohorts := t.cohorts, ticks := t.ticks)
    requires t.cohorts == s.cohorts[1..] || t.cohorts == [Pruned(s, s.cohorts[0])] + s.cohorts[1..]
    ensures Out(e, t, c)
  {
    hide Core, Distinct, HasEntry, Pruned, IsMember, SomeoneWaits, Thinner;
    TailThinner(e, s, t, exempt);
    OutFrame(e, s, t, c);
  }

  lemma ReleaseOut(e: Env, s: St, exempt: set<SessionId>, c: SessionId)
    requires ValidEnv(e) && Core(e, s, exempt) && Distinct(s.cohorts) && s.cohorts != [] && Out(e, s, c)
    ensures var head := Pruned(s, s.cohorts[0]);
            Out(e, PlayPrepared(e, Ticked(s).(cohorts := s.cohorts[1..]), StreamsOf(head.sessions, head.prepared)), c)
  {
    hide Core, Distinct, HasEntry, Pruned, IsMember, PlayPrepared, ValidEnv;
    var rest := Ticked(s).(cohorts := s.cohorts[1..]);
    var list := StreamsOf(Pruned(s, s.cohorts[0]).sessions, Pruned(s, s.cohorts[0]).prepared);
    TailOut(e, s, rest, exempt, c);
    forall p | p in list
      ensures p.id in s.sessions && p.id != c && Wished(rest, p)
      ensures c in s.sessions && e.nativeGroups && s.sessions[c].observed == Playing ==>
                StreamSender(e, rest, p).None? || StreamSender(e, rest, p) != s.sessions[c].sender
    {
      HeadWaits(e, s, exempt, p);
      if c in s.sessions {
        assert !Waits(e, s, s.sessions[c].sender, p.id) || SomeoneWaits(e, s, s.sessions[c].sender);
      }
    }
    PlayPreparedOut(e, rest, list, c);
  }

  lemma {:induction false} MaybeStartOut(e: Env, s: St, force: bool, exempt: set<SessionId>, c: SessionId)
    requires ValidEnv(e) && Core(e, s, exempt) && Distinct(s.cohorts) && Out(e, s, c)
    ensures Out(e, MaybeStart(e, s, force), c)
    decreases |s.cohorts|
  {
    hide ValidEnv, Core, PlayPrepared, Pruned, ShouldStart, Out;
    if s.cohorts != [] {
      var head := Pruned(s, s.cohorts[0]);
      var list := StreamsOf(head.sessions, head.prepared);
      if head.sessions == [] {
        var rest := s.(cohorts := s.cohorts[1..]);
        DropHead(e, s, rest, exempt);
        assert exempt + Ids(list) == exempt;
        TailOut(e, s, rest, exempt, c);
        MaybeStartOut(e, rest, force, exempt, c);
      } else if !ShouldStart(head, Now(e, s), force) {
        TailOut(e, s, Ticked(s).(cohorts := [head] + s.cohorts[1..]), exempt, c);
      } else {
        var rest := Ticked(s).(cohorts := s.cohorts[1..]);
        PlayPreparedKeeps(e, rest, list);
        ReleaseHead(e, s, exempt);
        ReleaseOut(e, s, exempt, c);
        MaybeStartOut(e, PlayPrepared(e, rest, list), force, exempt, c);
      }
    }
  }

  lemma RebuildThins(e: Env, s: St, id: SessionId, exempt: set<SessionId>)
    requires Core(e, s, exempt) && id in s.sessions && s.sessions[id].wanted
    ensures var t := Rebuild(e, s, id);
            && Thinner(s, t) && t.groups == s.groups
            && (forall j :: j in s.sessions && j != id ==> t.sessions[j] == s.sessions[j] && Entry(t, j) == Entry(s, j))
            && !Entry(t, id) && t.sessions[id].observed == Unknown
  {
    hide Core, Rebuild, HasEntry, Rebuilds, Enqueue;
    CoreAt(e, s, id, exempt);
    RebuildSession(e, s, id);
    RebuildIntent(e, s, id);
    var t := Rebuild(e, s, id);
    NoFreshEntry(s, id, |s.issued| + 1);
    forall j | j in s.sessions ensures Thins(s, t, j) && (j != id ==> Entry(t, j) == Entry(s, j)) && !Entry(t, id) {
      SameSession(s, t, id, j);
      EnqueueEntries(e, s.cohorts, id, Now(e, s), j, t.sessions[j].generation);
      EnqueueEntries(e, s.cohorts, id, Now(e, s), id, t.sessions[id].generation);
    }
  }

  lemma DetachUngrouped(s: St, id: SessionId, c: SessionId)
    ensures Ungrouped(Detach(s, id), id)
    ensures Ungrouped(s, c) ==> Ungrouped(Detach(s, id), c) && c !in Detached(s, id)
  {
    var t := Detach(s, id);
    forall d | d in t.groups ensures id !in t.groups[d] && (Ungrouped(s, c) ==> c !in t.groups[d]) {
      assert d in s.groups;
    }
    assert id in s.groups && c in s.groups[id] ==> IsMember(s.groups, c);
  }

  lemma ResumeOut(e: Env, s: St, id: SessionId, exempt: set<SessionId>, c: SessionId)
    requires ValidEnv(e) && Core(e, s, exempt) && Queue(e, s) && id in s.sessions && s.sessions[id].wanted
    requires if c == id then Ungrouped(s, c) else Out(e, s, c)
    ensures Out(e, Resume(e, s, id), c)
  {
    hide ValidEnv, Core, Queue, Rebuild, MaybeStart, Rebuilds, IsMember, HasEntry, SomeoneWaits;
    var t := Rebuild(e, s, id);
    RebuildCore(e, s, id, exempt);
    RebuildQueue(e, s, id);
    RebuildThins(e, s, id, exempt);
    if c != id {
      OutFrame(e, s, t, c);
    }
    QueueDistinct(e, t);
    MaybeStartOut(e, t, false, exempt - {id}, c);
  }

  lemma BeforeLeaveOut(e: Env, s: St, id: SessionId, c: SessionId)
    requires Out(e, s, c)
    ensures Out(e, BeforeLeave(e, s, id), c)
  {
    hide HasEntry, IsMember, SomeoneWaits;
    if c in s.sessions {
      BeforeLeaveWaits(e, s, id, c);
    }
  }

  lemma BeforeLeaveWaits(e: Env, s: St, id: SessionId, c: SessionId)
    requires c in s.sessions
    ensures var t := BeforeLeave(e, s, id);
            && c in t.sessions && SomeoneWaits(e, t, t.sessions[c].sender) == SomeoneWaits(e, s, s.sessions[c].sender)
            && Entry(t, c) == Entry(s, c)
            && t.sessions[c].observed in {s.sessions[c].observed, Unknown}
            && (!e.clearFirst ==> t.sessions[c].observed == s.sessions[c].observed)
  {
    hide HasEntry;
    var t := BeforeLeave(e, s, id);
    var sender := s.sessions[c].sender;
    forall j | j in s.sessions ensures Waits(e, t, sender, j) == Waits(e, s, sender, j) {
    }
    if j :| Waits(e, s, sender, j) {
      assert Waits(e, t, sender, j);
    }
  }

  lemma {:induction false} RestartOut(e: Env, s: St, id: SessionId, exempt: set<SessionId>, c: SessionId)
    requires ValidEnv(e) && Core(e, s, exempt) && Queue(e, s)
    requires id in s.sessions ==> s.sessions[id].wanted
    requires Out(e, s, c) && id != c
    ensures Out(e, Restart(e, s, id), c)
    decreases Load(s), 2
  {
    hide ValidEnv, Core, Queue, LeaveGroup, Resume, Out;
    hide Members, Waiting;
    var s1 := BeforeLeave(e, s, id);
    BeforeLeaveCore(e, s, id, exempt);
    QueueSame(e, s, s1);
    BeforeLeaveOut(e, s, id, c);
    var s2 := LeaveGroup(e, s1, id);
    LeaveGroupCore(e, s1, id, exempt + {id});
    LeaveGroupOut(e, s1, id, exempt + {id}, c);
    if id in s2.sessions {
      assert SameWish(s1.sessions[id], s2.sessions[id]);
      ResumeOut(e, s2, id, exempt + {id}, c);
    }
  }

  lemma DetachOut(e: Env, s: St, id: SessionId, c: SessionId)
    requires Out(e, s, c)
    ensures Out(e, Detach(s, id), c) && c !in Detached(s, id)
  {
    hide HasEntry, IsMember, SomeoneWaits, Detach;
    DetachUngrouped(s, id, c);
    DetachWaits(e, s, id, if c in s.sessions then s.sessions[c].sender else None);
  }

  lemma DetachWaits(e: Env, s: St, id: SessionId, sender: Option<Sender>)
    ensures var t := Detach(s, id);
            && t == s.(groups := t.groups) && SomeoneWaits(e, t, sender) == SomeoneWaits(e, s, sender)
  {
    hide HasEntry;
    var t := Detach(s, id);
    forall j | j in s.sessions ensures Waits(e, t, sender, j) == Waits(e, s, sender, j) {
    }
    if j :| Waits(e, s, sender, j) {
      assert Waits(e, t, sender, j);
    }
  }

  lemma {:induction false} LeaveGroupOut(e: Env, s: St, id: SessionId, exempt: set<SessionId>, c: SessionId)
    requires ValidEnv(e) && Core(e, s, exempt) && Queue(e, s) && Out(e, s, c)
    ensures Out(e, LeaveGroup(e, s, id), c)
    decreases Load(s), 1
  {
    hide ValidEnv, Core, Queue, Load, RestartMembers, Out;
    var t := Detach(s, id);
    DetachLoad(s, id);
    CoreSame(e, s, t, exempt);
    QueueSame(e, s, t);
    DetachOut(e, s, id, c);
    RestartMembersOut(e, t, Detached(s, id), exempt, c);
  }

  lemma {:induction false} RestartMembersOut(e: Env, s: St, list: seq<SessionId>, exempt: set<SessionId>, c: SessionId)
    requires ValidEnv(e) && Core(e, s, exempt) && Queue(e, s) && Out(e, s, c) && c !in list
    ensures Out(e, RestartMembers(e, s, list), c)
    decreases Load(s) + |list|, 0
  {
    hide ValidEnv, Core, Queue, Load, Restart, Out;
    if list != [] {
      var id := list[0];
      var t := if id in s.sessions && s.sessions[id].wanted then Restart(e, s, id) else s;
      if id in s.sessions && s.sessions[id].wanted {
        RestartCore(e, s, id, exempt);
        CoreRelax(e, t, exempt - {id}, exempt);
        RestartOut(e, s, id, exempt, c);
      }
      RestartMembersOut(e, t, list[1..], exempt, c);
    }
  }

  // ---- No stream starts to wait while others restart ----

  lemma ReleaseThinner(e: Env, s: St, exempt: set<SessionId>)
    requires ValidEnv(e) && Core(e, s, exempt) && Distinct(s.cohorts) && s.cohorts != []
    ensures var head := Pruned(s, s.cohorts[0]);
            var rest := Ticked(s).(cohorts := s.cohorts[1..]);
            Thinner(rest, PlayPrepared(e, rest, StreamsOf(head.sessions, head.prepared)))
  {
    hide Core, Distinct, HasEntry, Pruned, PlayPrepared, Thinner;
    var head := Pruned(s, s.cohorts[0]);
    var rest := Ticked(s).(cohorts := s.cohorts[1..]);
    var list := StreamsOf(head.sessions, head.prepared);
    forall p | p in list ensures Wished(rest, p) {
      HeadWaits(e, s, exempt, p);
    }
    PlayPreparedThinner(e, rest, list);
  }

  lemma {:induction false} MaybeStartThinner(e: Env, s: St, force: bool, exempt: set<SessionId>)
    requires ValidEnv(e) && Core(e, s, exempt) && Distinct(s.cohorts)
    ensures Thinner(s, MaybeStart(e, s, force))
    decreases |s.cohorts|
  {
    hide ValidEnv, Core, PlayPrepared, Pruned, ShouldStart, HasEntry, Thinner;
    ThinnerSame(s);
    if s.cohorts != [] {
      var head := Pruned(s, s.cohorts[0]);
      var list := StreamsOf(head.sessions, head.prepared);
      if head.sessions == [] {
        var rest := s.(cohorts := s.cohorts[1..]);
        DropHead(e, s, rest, exempt);
        assert exempt + Ids(list) == exempt;
        TailThinner(e, s, rest, exempt);
        MaybeStartThinner(e, rest, force, exempt);
        ThinnerTransitive(s, rest, MaybeStart(e, rest, force));
      } else if !ShouldStart(head, Now(e, s), force) {
        TailThinner(e, s, Ticked(s).(cohorts := [head] + s.cohorts[1..]), exempt);
      } else {
        var rest := Ticked(s).(cohorts := s.cohorts[1..]);
        var next := PlayPrepared(e, rest, list);
        PlayPreparedKeeps(e, rest, list);
        ReleaseHead(e, s, exempt);
        TailThinner(e, s, rest, exempt);
        ReleaseThinner(e, s, exempt);
        ThinnerTransitive(s, rest, next);
        MaybeStartThinner(e, next, force, exempt);
        ThinnerTransitive(s, next, MaybeStart(e, next, force));
      }
    }
  }

  lemma ResumeThinner(e: Env, s: St, id: SessionId, exempt: set<SessionId>)
    requires ValidEnv(e) && Core(e, s, exempt) && Queue(e, s) && id in s.sessions && s.sessions[id].wanted
    ensures Thinner(s, Resume(e, s, id))
  {
    hide ValidEnv, Core, Queue, Rebuild, MaybeStart, Rebuilds, HasEntry, Thinner;
    var t := Rebuild(e, s, id);
    RebuildCore(e, s, id, exempt);
    RebuildQueue(e, s, id);
    RebuildThins(e, s, id, exempt);
    QueueDistinct(e, t);
    MaybeStartThinner(e, t, false, exempt - {id});
    ThinnerTransitive(s, t, MaybeStart(e, t, false));
  }

  lemma BeforeLeaveThinner(e: Env, s: St, id: SessionId)
    requires id in s.sessions ==> s.sessions[id].wanted
    ensures Thinner(s, BeforeLeave(e, s, id))
  {
    hide HasEntry;
    forall j | j in s.sessions ensures Thins(s, BeforeLeave(e, s, id), j) {
    }
  }

  lemma DetachThinner(s: St, id: SessionId)
    ensures Thinner(s, Detach(s, id))
  {
    hide HasEntry;
  }

  lemma {:induction false} RestartThinner(e: Env, s: St, id: SessionId, exempt: set<SessionId>)
    requires ValidEnv(e) && Core(e, s, exempt) && Queue(e, s)
    requires id in s.sessions ==> s.sessions[id].wanted
    ensures Thinner(s, Restart(e, s, id))
    decreases Load(s), 2
  {
    hide ValidEnv, Core, Queue, LeaveGroup, Resume, Thinner;
    hide Members, Waiting;
    var s1 := BeforeLeave(e, s, id);
    BeforeLeaveCore(e, s, id, exempt);
    QueueSame(e, s, s1);
    BeforeLeaveThinner(e, s, id);
    var s2 := LeaveGroup(e, s1, id);
    LeaveGroupCore(e, s1, id, exempt + {id});
    LeaveGroupThinner(e, s1, id, exempt + {id});
    ThinnerTransitive(s, s1, s2);
    if id in s2.sessions {
      assert SameWish(s1.sessions[id], s2.sessions[id]);
      ResumeThinner(e, s2, id, exempt + {id});
      ThinnerTransitive(s, s2, Resume(e, s2, id));
    }
  }

  lemma {:induction false} LeaveGroupThinner(e: Env, s: St, id: SessionId, exempt: set<SessionId>)
    requires ValidEnv(e) && Core(e, s, exempt) && Queue(e, s)
    ensures Thinner(s, LeaveGroup(e, s, id))
    decreases Load(s), 1
  {
    hide ValidEnv, Core, Queue, Load, RestartMembers, Thinner;
    var t := Detach(s, id);
    DetachLoad(s, id);
    CoreSame(e, s, t, exempt);
    QueueSame(e, s, t);
    DetachThinner(s, id);
    RestartMembersThinner(e, t, Detached(s, id), exempt);
    ThinnerTransitive(s, t, RestartMembers(e, t, Detached(s, id)));
  }

  lemma {:induction false} RestartMembersThinner(e: Env, s: St, list: seq<SessionId>, exempt: set<SessionId>)
    requires ValidEnv(e) && Core(e, s, exempt) && Queue(e, s)
    ensures Thinner(s, RestartMembers(e, s, list))
    decreases Load(s) + |list|, 0
  {
    hide ValidEnv, Core, Queue, Load, Restart, HasEntry;
    if list != [] {
      var id := list[0];
      if id in s.sessions && s.sessions[id].wanted {
        var t := Restart(e, s, id);
        RestartCore(e, s, id, exempt);
        CoreRelax(e, t, exempt - {id}, exempt);
        RestartThinner(e, s, id, exempt);
        RestartMembersThinner(e, t, list[1..], exempt);
        ThinnerTransitive(s, t, RestartMembers(e, t, list[1..]));
      } else {
        RestartMembersThinner(e, s, list[1..], exempt);
      }
    }
  }
}
