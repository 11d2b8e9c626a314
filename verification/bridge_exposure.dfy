/** The order that the source has: a restart leaves its group first, and clears what it
    observed only after the members it left behind have restarted. Exactly when can it end up
    as the coordinator of a group again? */
module BridgeExposure {
  import opened BridgeState
  import opened BridgeHandlers
  import opened BridgeRooms
  import opened BridgeCore
  import opened BridgeForest
  import opened BridgeOut
  import opened BridgeRegroup

  /** `f` is another course that timing, hash order and encoder construction may take from `s` on. */
  ghost predicate Course(e: Env, s: St, f: Env) {
    && f == e.(clock := f.clock, choose := f.choose, spawnOk := f.spawnOk)
    && ValidEnv(f) && Queue(f, s) && SamePast(e, s, f)
  }

  ghost predicate SamePast(e: Env, s: St, f: Env) {
    && (forall t: nat :: t < s.ticks ==> f.clock(t) == e.clock(t))
    && (forall t: nat, ids :: t < s.ticks ==> f.choose(t, ids) == e.choose(t, ids))
    && (forall g: nat :: g <= |s.issued| ==> f.spawnOk(g) == e.spawnOk(g))
  }

  /** The session plays, leaves members behind, and a stream of its sender waits. */
  ghost predicate Exposed(e: Env, s: St, c: SessionId)
    requires c in s.sessions
  {
    e.nativeGroups && s.sessions[c].observed == Playing && Detached(s, c) != []
        && SomeoneWaits(e, s, s.sessions[c].sender)
  }

  /** A session that is not exposed ends its restart in no group. */
  lemma UnexposedStaysOut(e: Env, s: St, c: SessionId)
    requires ValidEnv(e) && Core(e, s, {}) && Queue(e, s) && Forest(e, s) && c in s.sessions && s.sessions[c].wanted
    requires !Exposed(e, s, c)
    ensures Ungrouped(Restart(e, s, c), c)
  {
    hide ValidEnv, Core, Queue, Forest, HasEntry, IsMember, RestartMembers, Resume, SomeoneWaits, Detach;
    var s1 := BeforeLeave(e, s, c);
    BeforeLeaveCore(e, s, c, {});
    assert {} + {c} == {c};
    QueueSame(e, s, s1);
    BeforeLeaveWaits(e, s, c, c);
    var t := Detach(s1, c);
    DetachUngrouped(s1, c, c);
    DetachWaits(e, s1, c, s.sessions[c].sender);
    CoreSame(e, s1, t, {c});
    QueueSame(e, s1, t);
    var s2 := LeaveGroup(e, s1, c);
    LeaveGroupCore(e, s1, c, {c});
    assert SameWish(s1.sessions[c], s2.sessions[c]);
    assert Ungrouped(s2, c) by {
      if Detached(s1, c) == [] {
        NoMembers(e, t);
      } else {
        CoreKeys(e, s, {});
        ShapeOf(e, s);
        CoordinatorReady(e, s, c);
        NotItsOwn(s1, c);
        RestartMembersOut(e, t, Detached(s1, c), {c}, c);
      }
    }
    ResumeOut(e, s2, c, {c}, c);
  }

  lemma ShapeOf(e: Env, s: St)
    requires Forest(e, s)
    ensures Shape(e, s)
  {
  }

  lemma NotItsOwn(s: St, c: SessionId)
    ensures c !in Detached(s, c)
  {
  }

  // ---- With exposure, some course picks the session again ----

  /** `c` is the room that a release of `sender`'s streams would pick. */
  ghost predicate Bait(e: Env, s: St, c: SessionId, sender: Sender) {
    && Eligible(e, s, c, sender)
    && (forall d :: d in s.groups && d in s.sessions && s.sessions[d].sender == Some(sender) ==> d == c)
    && (forall t, ids: set<SessionId> :: s.ticks <= t && c in ids ==> e.choose(t, ids) == c)
  }

  lemma GroupSenderBait(e: Env, g: Grouping, other: Sender, members: seq<SessionId>, c: SessionId, sender: Sender)
    requires ValidEnv(e) && Bait(e, g.st, c, sender) && members != [] && c !in members
    requires forall m :: m in members ==> m in g.st.sessions && g.st.sessions[m].sender == Some(other)
    ensures var r := GroupSender(e, g, other, members);
            Bait(e, r.st, c, sender) && (other == sender ==> c in r.st.groups)
  {
    var s := g.st;
    var preferred := Preferred(e, s, other);
    var r := GroupSender(e, g, other, members);
    var d := if preferred != {} then e.choose(s.ticks, preferred) else members[0];
    assert d in s.sessions && s.sessions[d].sender == Some(other) by {
      assert preferred != {} ==> d in preferred && Eligible(e, s, d, other);
    }
    if other == sender {
      assert c in Candidates(e, s, sender);
      assert c in preferred;
      assert d == c;
    }
    assert !IsMember(r.st.groups, c) by {
      forall f | f in r.st.groups ensures c !in r.st.groups[f] {
      }
    }
  }

  lemma {:induction false} GroupAllBait(e: Env, g: Grouping, list: seq<Stream>, c: SessionId, sender: Sender)
    requires ValidEnv(e) && Bait(e, g.st, c, sender) && forall p :: p in list ==> p.id != c
    ensures var r := GroupAll(e, g, list);
            && Bait(e, r.st, c, sender) && g.st.groups.Keys <= r.st.groups.Keys
            && ((exists p :: p in list && StreamSender(e, g.st, p) == Some(sender)) ==> c in r.st.groups)
    decreases |list|
  {
    hide ValidEnv, GroupSender, Bait;
    if list != [] {
      match StreamSender(e, g.st, list[0])
      case None => GroupAllBait(e, g, list[1..], c, sender);
      case Some(other) =>
        var members := SameSender(e, g.st, list, other);
        var others := OtherSenders(e, g.st, list, other);
        assert list[0].id in members;
        GroupSenderBait(e, g, other, members, c, sender);
        var r := GroupSender(e, g, other, members);
        GroupSenderKeeps(e, g, other, members);
        GroupAllBait(e, r, others, c, sender);
        if p :| p in list && StreamSender(e, g.st, p) == Some(sender) && sender != other {
          assert p in others && StreamSender(e, r.st, p) == Some(sender);
        }
    }
  }

  /** `c` leads a group, and nothing makes it a member. */
  predicate Hooked(s: St, c: SessionId) {
    c in s.groups && !IsMember(s.groups, c) && c in s.sessions && !Entry(s, c)
  }

  lemma GroupSenderHooked(e: Env, g: Grouping, sender: Sender, members: seq<SessionId>, c: SessionId)
    requires members != [] && c !in members && c in g.st.groups && !IsMember(g.st.groups, c)
    ensures var r := GroupSender(e, g, sender, members); c in r.st.groups && !IsMember(r.st.groups, c)
  {
    hide Preferred;
    var r := GroupSender(e, g, sender, members);
    forall f | f in r.st.groups ensures c !in r.st.groups[f] {
    }
  }

  lemma {:induction false} GroupAllHooked(e: Env, g: Grouping, list: seq<Stream>, c: SessionId)
    requires c in g.st.groups && !IsMember(g.st.groups, c) && forall p :: p in list ==> p.id != c
    ensures var r := GroupAll(e, g, list); c in r.st.groups && !IsMember(r.st.groups, c)
    decreases |list|
  {
    hide GroupSender, IsMember;
    if list != [] {
      match StreamSender(e, g.st, list[0])
      case None => GroupAllHooked(e, g, list[1..], c);
      case Some(sender) =>
        var members := SameSender(e, g.st, list, sender);
        assert list[0].id in members;
        GroupSenderHooked(e, g, sender, members, c);
        GroupAllHooked(e, GroupSender(e, g, sender, members), OtherSenders(e, g.st, list, sender), c);
    }
  }

  lemma PlayPreparedHooked(e: Env, s: St, list: seq<Stream>, c: SessionId)
    requires Hooked(s, c) && forall p :: p in list ==> p.id != c
    ensures Hooked(PlayPrepared(e, s, list), c)
  {
    hide GroupAll, IsMember, HasEntry, CohortDelays, StartAll;
    var (t, launch) := PrepareLaunch(e, s, list);
    PrepareLaunchKeeps(e, s, list);
    if e.nativeGroups {
      GroupAllHooked(e, Grouping(s, map[]), list, c);
    }
    StartAllElsewhere(e, t, t, launch, list);
    StartAllGenerations(e, t, t, launch, list);
  }

  lemma {:induction false} MaybeStartHooked(e: Env, s: St, force: bool, exempt: set<SessionId>, c: SessionId)
    requires Core(e, s, exempt) && Distinct(s.cohorts) && Hooked(s, c)
    ensures Hooked(MaybeStart(e, s, force), c)
    decreases |s.cohorts|
  {
    hide Core, PlayPrepared, Pruned, ShouldStart, HasEntry, IsMember;
    if s.cohorts != [] {
      PrunedEntries(e, s, exempt, c);
      var head := Pruned(s, s.cohorts[0]);
      var list := StreamsOf(head.sessions, head.prepared);
      if head.sessions == [] {
        var rest := s.(cohorts := s.cohorts[1..]);
        DropHead(e, s, rest, exempt);
        assert exempt + Ids(list) == exempt;
        MaybeStartHooked(e, rest, force, exempt, c);
      } else if ShouldStart(head, Now(e, s), force) {
        var rest := Ticked(s).(cohorts := s.cohorts[1..]);
        PlayPreparedKeeps(e, rest, list);
        ReleaseHead(e, s, exempt);
        forall p | p in list ensures p.id != c {
          HeadWaits(e, s, exempt, p);
        }
        PlayPreparedHooked(e, rest, list, c);
        MaybeStartHooked(e, PlayPrepared(e, rest, list), force, exempt, c);
      }
    }
  }

  lemma ResumeHooked(e: Env, s: St, id: SessionId, exempt: set<SessionId>, c: SessionId)
    requires ValidEnv(e) && Core(e, s, exempt) && Queue(e, s) && id in s.sessions && s.sessions[id].wanted
             && Hooked(s, c)
    ensures Hooked(Resume(e, s, id), c)
  {
    hide ValidEnv, Core, Queue, Rebuild, MaybeStart, Rebuilds, IsMember, HasEntry;
    var t := Rebuild(e, s, id);
    RebuildCore(e, s, id, exempt);
    RebuildQueue(e, s, id);
    RebuildThins(e, s, id, exempt);
    QueueDistinct(e, t);
    MaybeStartHooked(e, t, false, exempt - {id}, c);
  }

  lemma DetachHooked(s: St, id: SessionId, c: SessionId)
    requires Hooked(s, c) && id != c
    ensures Hooked(Detach(s, id), c) && c !in Detached(s, id)
  {
    hide HasEntry;
    var t := Detach(s, id);
    forall d | d in t.groups ensures c !in t.groups[d] {
    }
    assert id in s.groups && c in s.groups[id] ==> IsMember(s.groups, c);
  }

  lemma {:induction false} RestartHooked(e: Env, s: St, id: SessionId, exempt: set<SessionId>, c: SessionId)
    requires ValidEnv(e) && Core(e, s, exempt) && Queue(e, s)
    requires id in s.sessions ==> s.sessions[id].wanted
    requires Hooked(s, c) && id != c
    ensures Hooked(Restart(e, s, id), c)
    decreases Load(s), 2
  {
    hide ValidEnv, Core, Queue, LeaveGroup, Resume, IsMember, HasEntry;
    hide Members, Waiting;
    var s1 := BeforeLeave(e, s, id);
    BeforeLeaveCore(e, s, id, exempt);
    QueueSame(e, s, s1);
    var s2 := LeaveGroup(e, s1, id);
    LeaveGroupCore(e, s1, id, exempt + {id});
    LeaveGroupHooked(e, s1, id, exempt + {id}, c);
    if id in s2.sessions {
      assert SameWish(s1.sessions[id], s2.sessions[id]);
      ResumeHooked(e, s2, id, exempt + {id}, c);
    }
  }

  lemma {:induction false} LeaveGroupHooked(e: Env, s: St, id: SessionId, exempt: set<SessionId>, c: SessionId)
    requires ValidEnv(e) && Core(e, s, exempt) && Queue(e, s) && Hooked(s, c) && id != c
    ensures Hooked(LeaveGroup(e, s, id), c)
    decreases Load(s), 1
  {
    hide ValidEnv, Core, Queue, Load, RestartMembers, Hooked;
    var t := Detach(s, id);
    DetachLoad(s, id);
    CoreSame(e, s, t, exempt);
    QueueSame(e, s, t);
    DetachHooked(s, id, c);
    RestartMembersHooked(e, t, Detached(s, id), exempt, c);
  }

  lemma {:induction false} RestartMembersHooked(e: Env, s: St, list: seq<SessionId>, exempt: set<SessionId>,
        c: SessionId)
    requires ValidEnv(e) && Core(e, s, exempt) && Queue(e, s) && Hooked(s, c) && c !in list
    ensures Hooked(RestartMembers(e, s, list), c)
    decreases Load(s) + |list|, 0
  {
    hide ValidEnv, Core, Queue, Load, Restart, Hooked;
    if list != [] {
      var id := list[0];
      var t := if id in s.sessions && s.sessions[id].wanted then Restart(e, s, id) else s;
      if id in s.sessions && s.sessions[id].wanted {
        RestartCore(e, s, id, exempt);
        CoreRelax(e, t, exempt - {id}, exempt);
        RestartHooked(e, s, id, exempt, c);
      }
      RestartMembersHooked(e, t, list[1..], exempt, c);
    }
  }

  ghost predicate AllDue(e: Env, s: St) {
    forall i :: 0 <= i < |s.cohorts| ==>
      s.cohorts[i].windowDeadline <= Now(e, s) && s.cohorts[i].startDeadline <= Now(e, s)
  }

  lemma BaitFrame(e: Env, s: St, t: St, c: SessionId, sender: Sender)
    requires Bait(e, s, c, sender) && s.ticks <= t.ticks && t.sessions.Keys == s.sessions.Keys
    requires t.groups.Keys <= s.groups.Keys && !IsMember(t.groups, c) && (c in s.groups ==> c in t.groups)
    requires t.sessions[c].sender == s.sessions[c].sender && t.sessions[c].wanted
             && t.sessions[c].zone == s.sessions[c].zone
    requires t.sessions[c].observed == s.sessions[c].observed
    requires forall d :: d in s.sessions ==> t.sessions[d].sender == s.sessions[d].sender
    ensures Bait(e, t, c, sender)
  {
  }

  lemma PlayPreparedBait(e: Env, s: St, list: seq<Stream>, c: SessionId, sender: Sender)
    requires ValidEnv(e) && Bait(e, s, c, sender) && e.nativeGroups && c in s.sessions && !Entry(s, c)
    requires forall p :: p in list ==> p.id != c && Wished(s, p)
    ensures var t := PlayPrepared(e, s, list);
            && Bait(e, t, c, sender) && !Entry(t, c) && t.cohorts == s.cohorts && s.ticks <= t.ticks
            && c in t.sessions
            && (forall j :: j in s.sessions && j !in Ids(list) ==> j in t.sessions && t.sessions[j] == s.sessions[j])
            && ((exists p :: p in list && StreamSender(e, s, p) == Some(sender)) ==> Hooked(t, c))
  {
    hide ValidEnv, GroupAll, HasEntry, CohortDelays, StartAll, Bait;
    var (t, launch) := PrepareLaunch(e, s, list);
    PrepareLaunchKeeps(e, s, list);
    var planned := PlanNativeGroups(e, s, list);
    GroupAllBait(e, Grouping(s, map[]), list, c, sender);
    GroupAllTicks(e, Grouping(s, map[]), list);
    GroupAllKeeps(e, Grouping(s, map[]), list);
    StartAllElsewhere(e, t, t, launch, list);
    PlayPreparedIntent(e, s, list);
    var u := PlayPrepared(e, s, list);
    BaitEligible(e, planned.st, c, sender);
    forall d | d in s.sessions ensures u.sessions[d].sender == s.sessions[d].sender {
      assert SameWish(s.sessions[d], u.sessions[d]);
    }
    BaitFrame(e, planned.st, u, c, sender);
    StartAllGenerations(e, t, t, launch, list);
  }

  lemma BaitEligible(e: Env, s: St, c: SessionId, sender: Sender)
    requires Bait(e, s, c, sender)
    ensures Eligible(e, s, c, sender)
  {
  }

  /** The front cohort is released: either it holds `j`'s stream, or `j` still waits. */
  lemma DrawnRelease(e: Env, s: St, exempt: set<SessionId>, c: SessionId, sender: Sender, j: SessionId)
    requires ValidEnv(e) && Core(e, s, exempt) && Distinct(s.cohorts) && s.cohorts != [] && e.nativeGroups
    requires Bait(e, s, c, sender) && c in s.sessions && !Entry(s, c) && Waits(e, s, Some(sender), j) && j !in exempt
    ensures var head := Pruned(s, s.cohorts[0]);
            var list := StreamsOf(head.sessions, head.prepared);
            var t := PlayPrepared(e, Ticked(s).(cohorts := s.cohorts[1..]), list);
            && t.cohorts == s.cohorts[1..] && s.ticks <= t.ticks && c in t.sessions
            && (Hooked(t, c) || (Bait(e, t, c, sender) && !Entry(t, c) && Waits(e, t, Some(sender), j)))
  {
    hide ValidEnv, Core, Distinct, HasEntry, Pruned, PlayPrepared, Bait, IsMember;
    var head := Pruned(s, s.cohorts[0]);
    var list := StreamsOf(head.sessions, head.prepared);
    var rest := Ticked(s).(cohorts := s.cohorts[1..]);
    PrunedEntries(e, s, exempt, j);
    PrunedEntries(e, s, exempt, c);
    BaitEligible(e, s, c, sender);
    BaitFrame(e, s, rest, c, sender);
    forall p | p in list ensures p.id != c && Wished(rest, p) {
      HeadWaits(e, s, exempt, p);
    }
    PlayPreparedBait(e, rest, list, c, sender);
    if j in Ids(list) {
      var p :| p in list && p.id == j;
      HeadWaits(e, s, exempt, p);
      assert StreamSender(e, rest, p) == Some(sender);
    } else {
      assert HasEntry(s.cohorts[1..], j, s.sessions[j].generation);
    }
  }

  lemma {:induction false} DrawnMaybeStart(e: Env, s: St, exempt: set<SessionId>, c: SessionId, sender: Sender,
        j: SessionId)
    requires ValidEnv(e) && Core(e, s, exempt) && Distinct(s.cohorts) && AllDue(e, s) && e.nativeGroups
    requires Bait(e, s, c, sender) && c in s.sessions && !Entry(s, c) && Waits(e, s, Some(sender), j) && j !in exempt
    ensures Hooked(MaybeStart(e, s, false), c)
    decreases |s.cohorts|
  {
    hide ValidEnv, Core, PlayPrepared, Pruned, HasEntry, IsMember, Bait, Hooked;
    assert s.cohorts != [] by {
      NoCohorts(s.cohorts, j, s.sessions[j].generation);
    }
    var head := Pruned(s, s.cohorts[0]);
    var list := StreamsOf(head.sessions, head.prepared);
    PrunedEntries(e, s, exempt, j);
    PrunedEntries(e, s, exempt, c);
    DueHead(e, s);
    if head.sessions == [] {
      var rest := s.(cohorts := s.cohorts[1..]);
      DropHead(e, s, rest, exempt);
      assert exempt + Ids(list) == exempt;
      BaitEligible(e, s, c, sender);
      BaitFrame(e, s, rest, c, sender);
      DrawnMaybeStart(e, rest, exempt, c, sender, j);
    } else {
      var rest := Ticked(s).(cohorts := s.cohorts[1..]);
      var next := PlayPrepared(e, rest, list);
      PlayPreparedKeeps(e, rest, list);
      ReleaseHead(e, s, exempt);
      DrawnRelease(e, s, exempt, c, sender, j);
      if Hooked(next, c) {
        MaybeStartHooked(e, next, false, exempt, c);
      } else {
        DueLater(e, s, next);
        DrawnMaybeStart(e, next, exempt, c, sender, j);
      }
    }
  }

  lemma NoCohorts(q: seq<Cohort>, j: SessionId, g: nat)
    requires HasEntry(q, j, g)
    ensures q != []
  {
  }

  lemma DueHead(e: Env, s: St)
    requires AllDue(e, s) && s.cohorts != []
    ensures ShouldStart(Pruned(s, s.cohorts[0]), Now(e, s), false)
    ensures AllDue(e, s.(cohorts := s.cohorts[1..]))
  {
  }

  lemma DueLater(e: Env, s: St, t: St)
    requires ValidEnv(e) && AllDue(e, s) && s.cohorts != [] && t.cohorts == s.cohorts[1..] && s.ticks <= t.ticks
    ensures AllDue(e, t)
  {
  }

  lemma DrawnResume(e: Env, s: St, id: SessionId, exempt: set<SessionId>, c: SessionId, sender: Sender, j: SessionId)
    requires ValidEnv(e) && Core(e, s, exempt) && Queue(e, s) && e.nativeGroups
    requires id in s.sessions && s.sessions[id].wanted && id != c && id != j && j !in exempt
    requires Bait(e, s, c, sender) && c in s.sessions && !Entry(s, c) && Waits(e, s, Some(sender), j)
    requires e.spawnOk(|s.issued| + 1) && e.clock(s.ticks) + e.deadline <= e.clock(s.ticks + 1)
    ensures Hooked(Resume(e, s, id), c)
  {
    hide ValidEnv, Core, Queue, Rebuild, MaybeStart, IsMember, HasEntry, Bait, Hooked, AllDue;
    CoreAt(e, s, id, exempt);
    var t := Rebuild(e, s, id);
    RebuildCore(e, s, id, exempt);
    RebuildQueue(e, s, id);
    RebuildThins(e, s, id, exempt);
    RebuildIntent(e, s, id);
    RebuildDue(e, s, id);
    QueueDistinct(e, t);
    forall d | d in s.sessions ensures t.sessions[d].sender == s.sessions[d].sender {
      assert SameWish(s.sessions[d], t.sessions[d]);
    }
    BaitEligible(e, s, c, sender);
    BaitFrame(e, s, t, c, sender);
    DrawnMaybeStart(e, t, exempt - {id}, c, sender, j);
  }

  lemma BeforeLeaveBait(e: Env, s: St, id: SessionId, c: SessionId, sender: Sender, j: SessionId)
    requires Bait(e, s, c, sender) && c in s.sessions && !Entry(s, c) && Waits(e, s, Some(sender), j)
    requires id !in s.groups && id != c && id != j
    ensures var t := Detach(BeforeLeave(e, s, id), id);
            && Bait(e, t, c, sender) && c in t.sessions && !Entry(t, c) && Waits(e, t, Some(sender), j)
               && t.ticks == s.ticks
  {
    hide IsMember, HasEntry, Bait, Detach;
    BaitEligible(e, s, c, sender);
    DetachedBait(BeforeLeave(e, s, id), id, c);
    BaitFrame(e, s, Detach(BeforeLeave(e, s, id), id), c, sender);
  }

  /** The first member that restarts releases what waits. */
  lemma DrawnRestart(e: Env, s: St, id: SessionId, exempt: set<SessionId>, c: SessionId, sender: Sender, j: SessionId)
    requires ValidEnv(e) && Core(e, s, exempt) && Queue(e, s) && e.nativeGroups
    requires id in s.sessions && s.sessions[id].wanted && id !in s.groups && id != c && id != j && j !in exempt
    requires Bait(e, s, c, sender) && c in s.sessions && !Entry(s, c) && Waits(e, s, Some(sender), j)
    requires e.spawnOk(|s.issued| + 1) && e.clock(s.ticks) + e.deadline <= e.clock(s.ticks + 1)
    ensures Hooked(Restart(e, s, id), c)
  {
    hide ValidEnv, Core, Queue, IsMember, HasEntry, Bait, Hooked, Detach, RestartMembers, Resume, Waits;
    var s1 := BeforeLeave(e, s, id);
    BeforeLeaveCore(e, s, id, exempt);
    QueueSame(e, s, s1);
    var s2 := Detach(s1, id);
    NotCoordinator(s1, id);
    NoMembers(e, s2);
    DetachWaits(e, s1, id, None);
    CoreSame(e, s1, s2, exempt + {id});
    QueueSame(e, s1, s2);
    BeforeLeaveBait(e, s, id, c, sender, j);
    BeforeLeaveKeeps(e, s, id);
    DrawnResume(e, s2, id, exempt + {id}, c, sender, j);
  }

  lemma BeforeLeaveKeeps(e: Env, s: St, id: SessionId)
    requires id in s.sessions
    ensures var t := BeforeLeave(e, s, id);
            id in t.sessions && t.sessions[id].wanted == s.sessions[id].wanted && t.ticks == s.ticks
                && t.issued == s.issued
  {
  }

  lemma NotCoordinator(s: St, id: SessionId)
    requires id !in s.groups
    ensures Detached(s, id) == []
  {
  }

  lemma DetachedBait(s: St, id: SessionId, c: SessionId)
    requires !IsMember(s.groups, c) && id !in s.groups
    ensures var t := Detach(s, id);
            t == s.(groups := t.groups) && t.groups.Keys == s.groups.Keys && !IsMember(t.groups, c)
  {
    var t := Detach(s, id);
    forall d | d in t.groups ensures c !in t.groups[d] {
    }
  }

  lemma RebuildDue(e: Env, s: St, id: SessionId)
    requires ValidEnv(e) && Queue(e, s) && id in s.sessions && s.sessions[id].zone in s.channels
             && s.channels.Keys == e.renderers.Keys
    requires Rebuilds(e, s, id) && e.clock(s.ticks) + e.deadline <= e.clock(s.ticks + 1)
    ensures AllDue(e, Rebuild(e, s, id))
  {
    RebuildSession(e, s, id);
    EnqueueTimely(e, s.cohorts, id, s.wakes, Now(e, s));
    RebuildTicks(e, s, id);
  }

  lemma RebuildTicks(e: Env, s: St, id: SessionId)
    requires id in s.sessions && Rebuilds(e, s, id)
    ensures Rebuild(e, s, id).ticks == s.ticks + 1
  {
    hide Enqueue;
  }

  /** The course in which every wait ends while the first member restarts, and time flies. */
  function Hasty(e: Env, s: St, c: SessionId): Env {
    e.(clock := t => FastClock(e, s.ticks, t), choose := (t, ids) => HastyChoice(e, s.ticks, c, t, ids),
       spawnOk := (g: nat) => g > |s.issued| || e.spawnOk(g))
  }

  function FastClock(e: Env, from: int, t: nat): nat {
    if t <= from then e.clock(t) else e.clock(t) + e.deadline * (t - from)
  }

  function HastyChoice(e: Env, from: nat, c: SessionId, t: nat, ids: set<SessionId>): SessionId {
    if from <= t && c in ids then c else e.choose(t, ids)
  }

  /** From tick `from` on, a whole deadline passes between two readings of the clock. */
  ghost predicate Flies(e: Env, from: nat) {
    forall t :: from <= t ==> e.clock(t) + e.deadline <= e.clock(t + 1)
  }

  lemma FastClockFlies(e: Env, from: int, t: nat)
    requires ValidEnv(e) && from <= t
    ensures FastClock(e, from, t) + e.deadline <= FastClock(e, from, t + 1)
  {
    assert e.clock(t) <= e.clock(t + 1);
    assert e.deadline * (t + 1 - from) == e.deadline * (t - from) + e.deadline;
  }

  lemma FastClockGrows(e: Env, from: int, i: nat, j: nat)
    requires ValidEnv(e) && i <= j
    ensures e.clock(i) <= FastClock(e, from, i) <= FastClock(e, from, j)
  {
    assert e.clock(i) <= e.clock(j);
    if from < i {
      assert e.deadline * (j - from) == e.deadline * (i - from) + e.deadline * (j - i);
    }
  }

  lemma HastyFlies(e: Env, s: St, c: SessionId)
    requires ValidEnv(e)
    ensures Flies(Hasty(e, s, c), s.ticks)
  {
    forall t: nat | s.ticks <= t ensures FastClock(e, s.ticks, t) + e.deadline <= FastClock(e, s.ticks, t + 1) {
      FastClockFlies(e, s.ticks, t);
    }
  }

  lemma HastyCourse(e: Env, s: St, c: SessionId)
    requires ValidEnv(e) && Queue(e, s)
    ensures Course(e, s, Hasty(e, s, c))
  {
    hide Distinct;
    var f := Hasty(e, s, c);
    forall i: nat, j: nat | i <= j ensures f.clock(i) <= f.clock(j) {
      FastClockGrows(e, s.ticks, i, j);
    }
    forall t, ids: set<SessionId> | ids != {} ensures f.choose(t, ids) in ids {
    }
  }

  lemma CoreCourse(e: Env, s: St, f: Env, exempt: set<SessionId>)
    requires Core(e, s, exempt) && f == e.(clock := f.clock, choose := f.choose, spawnOk := f.spawnOk)
    ensures Core(f, s, exempt)
  {
    hide RoomOk, ChannelOk, Bounded, HasEntry, StreamFits;
    assert Channels(f, s) && Sessions(f, s) && Streams(s);
    forall id | id in s.sessions ensures Room(f, s, id, exempt) {
      assert Room(e, s, id, exempt);
    }
  }

  lemma ForestCourse(e: Env, s: St, f: Env)
    requires Forest(e, s) && f == e.(clock := f.clock, choose := f.choose, spawnOk := f.spawnOk)
    ensures Forest(f, s)
  {
    hide Unready, SameDelays;
    forall c | c in s.groups ensures Participant(f, s, c) {
      assert Participant(e, s, c);
    }
    forall c, m | c in s.groups && m in s.groups[c] ensures MemberOk(f, s, c, m) {
      assert MemberOk(e, s, c, m);
    }
  }

  lemma ExposedBait(e: Env, s: St, f: Env, c: SessionId)
    requires Shape(e, s) && c in s.sessions && Exposed(e, s, c) && f == Hasty(e, s, c)
    requires s.channels.Keys == e.renderers.Keys
    ensures s.sessions[c].sender.Some? && Bait(f, Detach(s, c), c, s.sessions[c].sender.value) && !Entry(s, c)
    ensures var m := Detached(s, c)[0];
            && m in s.sessions && s.sessions[m].wanted && m !in s.groups && m != c && !Unready(s, m)
            && s.sessions[m].zone in s.channels
  {
    hide Unready, HasEntry, SomeoneWaits;
    assert Participant(e, s, c);
    var t := Detach(s, c);
    DetachUngrouped(s, c, c);
    forall d | d in t.groups && d in t.sessions && t.sessions[d].sender == s.sessions[c].sender ensures d == c {
      assert SharesSender(s, c, d);
    }
    var m := Detached(s, c)[0];
    assert m in Detached(s, c) && m in s.groups[c];
    assert MemberOk(e, s, c, m);
    NotItsOwn(s, c);
    ReadyNoEntry(s, c);
  }

  lemma ReadyNoEntry(s: St, id: SessionId)
    requires id in s.sessions && s.sessions[id].zone in s.channels && !Unready(s, id)
    ensures !Entry(s, id)
  {
  }

  /** The state in which the members of an exposed session restart: `m` first, while `j` waits. */
  ghost predicate Drawn(e: Env, s: St, m: SessionId, c: SessionId, sender: Sender, j: SessionId) {
    && m in s.sessions && s.sessions[m].wanted && m !in s.groups && m != c && m != j && j != c
    && e.nativeGroups && Bait(e, s, c, sender) && c in s.sessions && !Entry(s, c) && Waits(e, s, Some(sender), j)
    && e.spawnOk(|s.issued| + 1) && e.clock(s.ticks) + e.deadline <= e.clock(s.ticks + 1)
  }

  lemma ExposedWaits(e: Env, s: St, c: SessionId) returns (j: SessionId)
    requires c in s.sessions && Exposed(e, s, c)
    ensures Waits(e, s, s.sessions[c].sender, j) && e.nativeGroups && Detached(s, c) != []
  {
    j :| Waits(e, s, s.sessions[c].sender, j);
  }

  lemma WaitsBefore(e: Env, s: St, c: SessionId, sender: Option<Sender>, j: SessionId)
    requires Waits(e, s, sender, j) && c in s.sessions && !e.clearFirst
    ensures var f := Hasty(e, s, c); Waits(f, Detach(BeforeLeave(f, s, c), c), sender, j)
    ensures var f := Hasty(e, s, c); Entry(Detach(BeforeLeave(f, s, c), c), c) == Entry(s, c)
  {
    hide HasEntry, ForgetMember;
  }

  lemma ExposedDrawn(e: Env, s: St, c: SessionId) returns (sender: Sender, j: SessionId)
    requires ValidEnv(e) && Shape(e, s) && c in s.sessions && Exposed(e, s, c) && !e.clearFirst
    requires s.channels.Keys == e.renderers.Keys
    ensures var f := Hasty(e, s, c);
            var s1 := BeforeLeave(f, s, c);
            Detached(s1, c) != [] && Drawn(f, Detach(s1, c), Detached(s1, c)[0], c, sender, j)
  {
    hide Unready, HasEntry, Bait, Detach, Detached, IsMember, Shape, Exposed, Waits, BeforeLeave, ValidEnv;
    var f := Hasty(e, s, c);
    ExposedBait(e, s, f, c);
    sender := s.sessions[c].sender.value;
    j := ExposedWaits(e, s, c);
    BeforeDetached(f, s, c);
    WaitsEntry(e, s, Some(sender), j);
    EntryNotReady(s, Detached(s, c)[0], j);
    WaitsBefore(e, s, c, Some(sender), j);
    BaitBefore(f, s, c, sender);
    HastySteps(e, s, c);
  }

  lemma WaitsEntry(e: Env, s: St, sender: Option<Sender>, j: SessionId)
    requires Waits(e, s, sender, j)
    ensures j in s.sessions && Entry(s, j)
  {
  }

  lemma HastySteps(e: Env, s: St, c: SessionId)
    requires ValidEnv(e)
    ensures var f := Hasty(e, s, c); f.spawnOk(|s.issued| + 1) && f.clock(s.ticks) + f.deadline <= f.clock(s.ticks + 1)
  {
    HastyFlies(e, s, c);
  }

  lemma BaitBefore(e: Env, s: St, c: SessionId, sender: Sender)
    requires c in s.sessions && !e.clearFirst && Bait(e, Detach(s, c), c, sender)
    ensures Bait(e, Detach(BeforeLeave(e, s, c), c), c, sender)
  {
    hide Bait, IsMember, Detach, Detached;
    BeforeDetached(e, s, c);
    BaitEligible(e, Detach(s, c), c, sender);
    BaitFrame(e, Detach(s, c), Detach(BeforeLeave(e, s, c), c), c, sender);
  }

  lemma EntryNotReady(s: St, m: SessionId, j: SessionId)
    requires m in s.sessions && s.sessions[m].zone in s.channels && !Unready(s, m) && j in s.sessions && Entry(s, j)
    ensures m != j
  {
  }

  lemma BeforeDetached(e: Env, s: St, c: SessionId)
    requires c in s.sessions && !e.clearFirst
    ensures var s1 := BeforeLeave(e, s, c);
            && Detached(s1, c) == Detached(s, c) && Detach(s1, c).groups == Detach(s, c).groups
            && Detach(s, c) == s.(groups := Detach(s, c).groups)
            && Detach(s1, c) == s1.(groups := Detach(s, c).groups)
            && Detach(s, c).groups.Keys == s.groups.Keys - {c}
            && s1 == s.(sessions := s.sessions[c := s.sessions[c].(timer := None)])
  {
  }

  lemma DrawnMembers(e: Env, s: St, list: seq<SessionId>, c: SessionId, sender: Sender, j: SessionId)
    requires ValidEnv(e) && Core(e, s, {c}) && Queue(e, s) && list != [] && c !in list
    requires Drawn(e, s, list[0], c, sender, j)
    ensures Hooked(RestartMembers(e, s, list), c)
  {
    hide ValidEnv, Core, Queue, Restart, Bait, Hooked, Waits;
    var m := list[0];
    var t := Restart(e, s, m);
    DrawnRestart(e, s, m, {c}, c, sender, j);
    RestartCore(e, s, m, {c});
    CoreRelax(e, t, {c} - {m}, {c});
    RestartMembersHooked(e, t, list[1..], {c}, c);
  }

  /** A session that is exposed can end its restart as the coordinator of a group. */
  lemma ExposedFails(e: Env, s: St, c: SessionId)
    requires ValidEnv(e) && Core(e, s, {}) && Queue(e, s) && Forest(e, s) && c in s.sessions && s.sessions[c].wanted
    requires !e.clearFirst && Exposed(e, s, c)
    ensures var f := Hasty(e, s, c);
            Course(e, s, f) && Hooked(Restart(f, s, c), c) && !Ungrouped(Restart(f, s, c), c)
  {
    hide ValidEnv, Core, Queue, Forest, HasEntry, IsMember, Resume, Detach, Bait, Hooked, RestartMembers, Waits,
         Exposed, Hasty;
    var f := Hasty(e, s, c);
    HastyCourse(e, s, c);
    CoreCourse(e, s, f, {});
    var s1 := BeforeLeave(f, s, c);
    BeforeLeaveCore(f, s, c, {});
    assert {} + {c} == {c};
    QueueSame(f, s, s1);
    var t := Detach(s1, c);
    DetachWaits(f, s1, c, None);
    CoreSame(f, s1, t, {c});
    QueueSame(f, s1, t);
    CoreKeys(e, s, {});
    ShapeOf(e, s);
    var sender, j := ExposedDrawn(e, s, c);
    NotItsOwn(s1, c);
    DrawnMembers(f, t, Detached(s1, c), c, sender, j);
    var s2 := LeaveGroup(f, s1, c);
    LeaveGroupCore(f, s1, c, {c});
    assert SameWish(s1.sessions[c], s2.sessions[c]);
    ResumeHooked(f, s2, c, {c}, c);
    HookedGrouped(Resume(f, s2, c), c);
  }

  lemma HookedGrouped(s: St, c: SessionId)
    requires Hooked(s, c)
    ensures !Ungrouped(s, c)
  {
  }

  /** In the order that the source has, a restart leaves its session in no group, whatever the
      timing, exactly when the session is not exposed. */
  lemma StaysOutExactly(e: Env, s: St, c: SessionId)
    requires ValidEnv(e) && Core(e, s, {}) && Queue(e, s) && Forest(e, s) && c in s.sessions && s.sessions[c].wanted
    requires !e.clearFirst
    ensures (forall f :: Course(e, s, f) ==> Ungrouped(Restart(f, s, c), c)) <==> !Exposed(e, s, c)
  {
    hide ValidEnv, Core, Queue, Forest, Ungrouped, Restart, Hasty, Detached;
    if Exposed(e, s, c) {
      ExposedFails(e, s, c);
    } else {
      forall f | Course(e, s, f) ensures Ungrouped(Restart(f, s, c), c) {
        CoreCourse(e, s, f, {});
        ForestCourse(e, s, f);
        ExposedCourse(e, s, f, c);
        UnexposedStaysOut(f, s, c);
      }
    }
  }

  // ---- Its stream is prepared anew ----

  /** The last command that the session's room has not seen prepares its stream. */
  predicate Coming(s: St, c: SessionId) {
    && c in s.sessions && s.sessions[c].zone in s.channels && !Entry(s, c)
    && var ch := s.channels[s.sessions[c].zone];
       ch.unseen != [] && Last(ch.unseen) == Prepare(c, s.sessions[c].generation)
  }

  lemma {:induction false} StartAllComing(e: Env, before: St, s: St, launch: Launch, list: seq<Stream>, c: SessionId)
    requires Coming(s, c) && forall p :: p in list ==> p.id != c && p.zone != s.sessions[c].zone
    ensures Coming(StartAll(e, before, s, launch, list), c)
    decreases |list|
  {
    hide StartOne, HasEntry;
    if list != [] {
      StartOneComing(e, before, s, launch, list[0], c);
      StartAllComing(e, before, StartOne(e, before, s, launch, list[0]), launch, list[1..], c);
    }
  }

  lemma StartOneComing(e: Env, before: St, s: St, launch: Launch, p: Stream, c: SessionId)
    requires Coming(s, c) && p.id != c && p.zone != s.sessions[c].zone
    ensures var t := StartOne(e, before, s, launch, p); Coming(t, c) && t.sessions[c] == s.sessions[c]
  {
    hide DelayOf, StartCommand, HasEntry;
  }

  lemma ReleaseComing(e: Env, s: St, exempt: set<SessionId>, c: SessionId)
    requires Core(e, s, exempt) && Distinct(s.cohorts) && s.cohorts != [] && Coming(s, c)
    ensures var head := Pruned(s, s.cohorts[0]);
            Coming(PlayPrepared(e, Ticked(s).(cohorts := s.cohorts[1..]), StreamsOf(head.sessions, head.prepared)), c)
  {
    hide Core, Distinct, HasEntry, Pruned, StartAll, PrepareLaunch;
    var rest := Ticked(s).(cohorts := s.cohorts[1..]);
    var list := StreamsOf(Pruned(s, s.cohorts[0]).sessions, Pruned(s, s.cohorts[0]).prepared);
    var (t, launch) := PrepareLaunch(e, rest, list);
    PrepareLaunchKeeps(e, rest, list);
    PrunedEntries(e, s, exempt, c);
    OneZoneEach(e, s, exempt);
    forall p | p in list ensures p.id != c && p.zone != s.sessions[c].zone {
      HeadWaits(e, s, exempt, p);
    }
    StartAllComing(e, t, t, launch, list, c);
  }

  lemma {:induction false} MaybeStartComing(e: Env, s: St, force: bool, exempt: set<SessionId>, c: SessionId)
    requires Core(e, s, exempt) && Distinct(s.cohorts) && Coming(s, c)
    ensures Coming(MaybeStart(e, s, force), c)
    decreases |s.cohorts|
  {
    hide Core, PlayPrepared, Pruned, ShouldStart, HasEntry;
    if s.cohorts != [] {
      PrunedEntries(e, s, exempt, c);
      var head := Pruned(s, s.cohorts[0]);
      var list := StreamsOf(head.sessions, head.prepared);
      if head.sessions == [] {
        var rest := s.(cohorts := s.cohorts[1..]);
        DropHead(e, s, rest, exempt);
        assert exempt + Ids(list) == exempt;
        MaybeStartComing(e, rest, force, exempt, c);
      } else if ShouldStart(head, Now(e, s), force) {
        var rest := Ticked(s).(cohorts := s.cohorts[1..]);
        PlayPreparedKeeps(e, rest, list);
        ReleaseHead(e, s, exempt);
        ReleaseComing(e, s, exempt, c);
        MaybeStartComing(e, PlayPrepared(e, rest, list), force, exempt, c);
      }
    }
  }

  lemma RebuildComing(e: Env, s: St, c: SessionId, exempt: set<SessionId>)
    requires Core(e, s, exempt) && c in s.sessions && s.sessions[c].wanted && e.spawnOk(|s.issued| + 1)
    ensures Rebuilds(e, s, c) && Coming(Rebuild(e, s, c), c)
  {
    hide Core, Rebuild, HasEntry, Enqueue;
    CoreAt(e, s, c, exempt);
    CoreKeys(e, s, exempt);
    RebuildSession(e, s, c);
    RebuildThins(e, s, c, exempt);
  }

  /** When time flies and no encoder fails, a session is being prepared when its restart ends, and
      nothing waits. */
  lemma RestartPrepares(e: Env, s: St, c: SessionId, exempt: set<SessionId>)
    requires ValidEnv(e) && Core(e, s, exempt) && exempt <= {c} && Queue(e, s)
    requires c in s.sessions && s.sessions[c].wanted
    requires (forall g: nat :: g > |s.issued| ==> e.spawnOk(g)) && Flies(e, s.ticks)
    ensures Coming(Restart(e, s, c), c) && Restart(e, s, c).cohorts == [] && s.ticks <= Restart(e, s, c).ticks
  {
    hide ValidEnv, Core, Queue, HasEntry, Rebuild, MaybeStart, LeaveGroup, Coming, Rebuilds, AllDue;
    var s1 := BeforeLeave(e, s, c);
    BeforeLeaveCore(e, s, c, exempt);
    assert exempt + {c} == {c};
    QueueSame(e, s, s1);
    var s2 := LeaveGroup(e, s1, c);
    LeaveGroupCore(e, s1, c, {c});
    assert SameWish(s1.sessions[c], s2.sessions[c]);
    var t := Rebuild(e, s2, c);
    RebuildComing(e, s2, c, {c});
    RebuildCore(e, s2, c, {c});
    RebuildQueue(e, s2, c);
    QueueDistinct(e, t);
    CoreAt(e, s2, c, {c});
    RebuildDue(e, s2, c);
    RebuildTicks(e, s2, c);
    MaybeStartComing(e, t, false, {c} - {c}, c);
    MaybeStartQueue(e, t);
    DueDrains(e, t);
  }

  /** When every deadline has passed, nothing goes on waiting. */
  lemma {:induction false} DueDrains(e: Env, s: St)
    requires ValidEnv(e) && AllDue(e, s)
    ensures MaybeStart(e, s, false).cohorts == []
    decreases |s.cohorts|
  {
    hide ValidEnv, AllDue, PlayPrepared, Pruned, ShouldStart;
    if s.cohorts != [] {
      DueHead(e, s);
      var head := Pruned(s, s.cohorts[0]);
      if head.sessions == [] {
        DueDrains(e, s.(cohorts := s.cohorts[1..]));
      } else {
        var rest := Ticked(s).(cohorts := s.cohorts[1..]);
        var list := StreamsOf(head.sessions, head.prepared);
        PlayPreparedKeeps(e, rest, list);
        PlayPreparedTicks(e, rest, list);
        DueLater(e, s, PlayPrepared(e, rest, list));
        DueDrains(e, PlayPrepared(e, rest, list));
      }
    }
  }

  lemma ExposedCourse(e: Env, s: St, f: Env, c: SessionId)
    requires c in s.sessions && f == e.(clock := f.clock, choose := f.choose, spawnOk := f.spawnOk)
    ensures Exposed(f, s, c) == Exposed(e, s, c)
  {
    hide HasEntry;
    var sender := s.sessions[c].sender;
    forall j | j in s.sessions ensures Waits(f, s, sender, j) == Waits(e, s, sender, j) {
    }
    if j :| Waits(e, s, sender, j) {
      assert Waits(f, s, sender, j);
    }
  }
}
