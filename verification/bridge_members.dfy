/** No wanted member of a native group is forgotten: it stays in its group or restarts. */
module BridgeMembers {
  import opened BridgeState
  import opened BridgeHandlers
  import opened BridgeRooms
  import opened BridgeCore
  import opened BridgeOut
  import opened BridgeHistory

  predicate WantedIn(s: St, m: SessionId) {
    m in s.sessions && s.sessions[m].wanted
  }

  /** The session restarted between `s` and `t`: it is in a new generation, is not seen to play, and
      its room was told to stop. */
  ghost predicate Renewed(s: St, t: St, m: SessionId) {
    && m in s.sessions && m in t.sessions
    && t.sessions[m].generation > |s.issued| && t.sessions[m].observed != Playing
    && exists g: nat :: g > |s.issued| && SentNew(s, t, s.sessions[m].zone, Stop(m, g))
  }

  ghost predicate MemberKept(s: St, t: St, c: SessionId, m: SessionId) {
    (c in t.groups && m in t.groups[c]) || Renewed(s, t, m)
  }

  /** Every member that wants playback before and after, but for those in `leavers`, stays in its
      group or restarts. */
  ghost predicate KeepsMembers(s: St, t: St, leavers: set<SessionId>) {
    forall c, m :: c in s.groups && m in s.groups[c] && m !in leavers && WantedIn(s, m) && WantedIn(t, m) ==>
      MemberKept(s, t, c, m)
  }

  // ---- What later commands and restarts leave as it is ----

  predicate GoesOn(s: St, t: St, j: SessionId)
    requires j in s.sessions && j in t.sessions
  {
    var x, y := s.sessions[j], t.sessions[j];
    y.zone == x.zone && (y.generation == x.generation || y.generation > |s.issued|)
    && (y.observed == Playing ==> x.observed == Playing)
  }

  /** Commands are only appended, and no session is seen to start playing. */
  ghost predicate Onward(s: St, t: St) {
    && t.channels.Keys == s.channels.Keys && |s.issued| <= |t.issued|
    && (forall z :: z in s.channels ==> s.channels[z].unseen <= t.channels[z].unseen)
    && forall j :: j in s.sessions && j in t.sessions ==> GoesOn(s, t, j)
  }

  lemma OnwardThin(s: St, t: St)
    requires Appends(s, t) && Thinner(s, t)
    ensures Onward(s, t)
  {
    hide HasEntry, Commits;
    forall z | z in s.channels ensures s.channels[z].unseen <= t.channels[z].unseen {
      assert Appended(s, z, s.channels[z], t.channels[z]);
    }
    forall j | j in s.sessions ensures j in t.sessions && GoesOn(s, t, j) {
      assert Thins(s, t, j);
    }
  }

  lemma OnwardBy(s: St, t: St, u: St)
    requires Onward(s, t) && Onward(t, u)
    requires forall j :: j in s.sessions && j in u.sessions ==> j in t.sessions
    ensures Onward(s, u)
  {
    forall j | j in s.sessions && j in u.sessions ensures GoesOn(s, u, j) {
      assert GoesOn(s, t, j) && GoesOn(t, u, j);
    }
    forall z | z in s.channels ensures s.channels[z].unseen <= u.channels[z].unseen {
      assert s.channels[z].unseen <= t.channels[z].unseen && t.channels[z].unseen <= u.channels[z].unseen;
    }
  }

  lemma SentBoth(s: St, t: St, u: St, zone: ZoneId, c: Command)
    requires Onward(s, t) && Onward(t, u)
    ensures SentNew(s, t, zone, c) || SentNew(t, u, zone, c) ==> SentNew(s, u, zone, c)
  {
    hide GoesOn;
    if SentNew(s, t, zone, c) || SentNew(t, u, zone, c) {
      SentEither(s, t, u, zone, c);
    }
  }

  lemma RenewedStays(s: St, t: St, u: St, m: SessionId)
    requires Renewed(s, t, m) && Onward(s, t) && Onward(t, u) && m in u.sessions
    ensures Renewed(s, u, m)
  {
    hide SentNew;
    assert GoesOn(t, u, m);
    var g: nat :| g > |s.issued| && SentNew(s, t, s.sessions[m].zone, Stop(m, g));
    SentBoth(s, t, u, s.sessions[m].zone, Stop(m, g));
  }

  lemma RenewedFrom(s: St, t: St, u: St, m: SessionId)
    requires m in s.sessions && Onward(s, t) && Onward(t, u) && Renewed(t, u, m)
    ensures Renewed(s, u, m)
  {
    hide SentNew;
    assert GoesOn(s, t, m);
    var g: nat :| g > |t.issued| && SentNew(t, u, t.sessions[m].zone, Stop(m, g));
    SentBoth(s, t, u, s.sessions[m].zone, Stop(m, g));
  }

  lemma KeepsBy(s: St, t: St, u: St, a: set<SessionId>, b: set<SessionId>)
    requires KeepsMembers(s, t, a) && KeepsMembers(t, u, b) && Onward(s, t) && Onward(t, u)
    requires forall j :: WantedIn(s, j) && WantedIn(u, j) ==> WantedIn(t, j)
    ensures KeepsMembers(s, u, a + b)
  {
    hide Renewed, Onward;
    forall c, m | c in s.groups && m in s.groups[c] && m !in a + b && WantedIn(s, m) && WantedIn(u, m)
      ensures MemberKept(s, u, c, m)
    {
      assert MemberKept(s, t, c, m);
      if Renewed(s, t, m) {
        RenewedStays(s, t, u, m);
      } else {
        assert MemberKept(t, u, c, m);
        if Renewed(t, u, m) {
          RenewedFrom(s, t, u, m);
        }
      }
    }
  }

  lemma SameWanted(s: St, t: St, m: SessionId)
    requires Thinner(s, t)
    ensures WantedIn(t, m) == WantedIn(s, m)
  {
    hide HasEntry, Renews;
    assert m in s.sessions ==> Thins(s, t, m);
  }

  lemma KeepsThin(s: St, t: St, u: St, a: set<SessionId>, b: set<SessionId>)
    requires KeepsMembers(s, t, a) && KeepsMembers(t, u, b) && Onward(s, t) && Onward(t, u) && Thinner(s, t)
    ensures KeepsMembers(s, u, a + b)
  {
    hide KeepsMembers, Onward, Thinner, WantedIn;
    forall j | WantedIn(s, j) ensures WantedIn(t, j) {
      SameWanted(s, t, j);
    }
    KeepsBy(s, t, u, a, b);
  }

  // ---- Releases only add members ----

  ghost predicate Regrouped(s: map<SessionId, seq<SessionId>>, t: map<SessionId, seq<SessionId>>) {
    forall c :: c in s ==> c in t && s[c] <= t[c]
  }

  lemma AddRegroups(g: Grouping, c: SessionId, members: seq<SessionId>)
    ensures Regrouped(g.st.groups, AddToGroup(g, c, members).st.groups)
  {
  }

  lemma GroupSenderRegroups(e: Env, g: Grouping, sender: Sender, members: seq<SessionId>)
    requires members != []
    ensures Regrouped(g.st.groups, GroupSender(e, g, sender, members).st.groups)
  {
    hide Preferred, AddToGroup, Regrouped;
    AddRegroups(g.(st := Ticked(g.st)), e.choose(g.st.ticks, Preferred(e, g.st, sender)), members);
    AddRegroups(g, members[0], members[1..]);
    SameGroups(g.st.groups);
  }

  lemma SameGroups(groups: map<SessionId, seq<SessionId>>)
    ensures Regrouped(groups, groups)
  {
  }

  lemma {:induction false} GroupAllRegroups(e: Env, g: Grouping, list: seq<Stream>)
    ensures Regrouped(g.st.groups, GroupAll(e, g, list).st.groups)
    decreases |list|
  {
    hide GroupSender, StreamSender;
    if list != [] {
      match StreamSender(e, g.st, list[0])
      case None => GroupAllRegroups(e, g, list[1..]);
      case Some(sender) =>
        var members := SameSender(e, g.st, list, sender);
        assert list[0].id in members;
        GroupSenderRegroups(e, g, sender, members);
        GroupAllRegroups(e, GroupSender(e, g, sender, members), OtherSenders(e, g.st, list, sender));
    }
  }

  lemma PlayPreparedRegroups(e: Env, s: St, list: seq<Stream>)
    ensures Regrouped(s.groups, PlayPrepared(e, s, list).groups)
  {
    hide GroupAll, CohortDelays, StartAll;
    GroupAllRegroups(e, Grouping(s, map[]), list);
  }

  lemma {:induction false} MaybeStartRegroups(e: Env, s: St, force: bool)
    ensures Regrouped(s.groups, MaybeStart(e, s, force).groups)
    decreases |s.cohorts|
  {
    hide PlayPrepared, ShouldStart, Pruned;
    if s.cohorts != [] {
      var head := Pruned(s, s.cohorts[0]);
      if head.sessions == [] {
        MaybeStartRegroups(e, s.(cohorts := s.cohorts[1..]), force);
      } else if ShouldStart(head, Now(e, s), force) {
        var rest := Ticked(s).(cohorts := s.cohorts[1..]);
        var list := StreamsOf(head.sessions, head.prepared);
        PlayPreparedRegroups(e, rest, list);
        PlayPreparedKeeps(e, rest, list);
        MaybeStartRegroups(e, PlayPrepared(e, rest, list), force);
      }
    }
  }

  lemma RegroupedKeeps(s: St, t: St)
    requires Regrouped(s.groups, t.groups)
    ensures KeepsMembers(s, t, {})
  {
    hide Renewed, WantedIn;
  }

  lemma MaybeStartMembers(e: Env, s: St, force: bool, exempt: set<SessionId>)
    requires ValidEnv(e) && Core(e, s, exempt) && Distinct(s.cohorts)
    ensures var t := MaybeStart(e, s, force);
            Onward(s, t) && Thinner(s, t) && KeepsMembers(s, t, {})
  {
    hide ValidEnv, Core, Distinct, MaybeStart, Appends, Thinner, Onward, KeepsMembers, Regrouped;
    MaybeStartAppends(e, s, force, exempt);
    MaybeStartThinner(e, s, force, exempt);
    OnwardThin(s, MaybeStart(e, s, force));
    MaybeStartRegroups(e, s, force);
    RegroupedKeeps(s, MaybeStart(e, s, force));
  }

  // ---- Restarts ----

  lemma RebuildMembers(e: Env, s: St, id: SessionId, exempt: set<SessionId>)
    requires Core(e, s, exempt) && id in s.sessions && s.sessions[id].wanted
    ensures var t := Rebuild(e, s, id);
            Onward(s, t) && Thinner(s, t) && Renewed(s, t, id) && KeepsMembers(s, t, {})
  {
    hide Core, Rebuild, HasEntry, Rebuilds, Enqueue, Appends, Thinner, Onward, KeepsMembers;
    CoreAt(e, s, id, exempt);
    RebuildSession(e, s, id);
    var t := Rebuild(e, s, id);
    RebuildAppends(e, s, id, exempt);
    RebuildThins(e, s, id, exempt);
    OnwardThin(s, t);
    SameGroups(s.groups);
    RegroupedKeeps(s, t);
    RebuildStops(s, t, id);
  }

  lemma RebuildStops(s: St, t: St, id: SessionId)
    requires id in s.sessions && s.sessions[id].zone in s.channels
    requires id in t.sessions && s.sessions[id].zone in t.channels
    requires t.sessions[id].generation == |s.issued| + 1 && t.sessions[id].observed != Playing
    requires var a, b := s.channels[s.sessions[id].zone].unseen, t.channels[s.sessions[id].zone].unseen;
             var g := |s.issued| + 1;
             b == a + [Stop(id, g), Prepare(id, g)] || b == a + [Stop(id, g)]
    ensures Renewed(s, t, id)
  {
    var zone := s.sessions[id].zone;
    var a, b := s.channels[zone].unseen, t.channels[zone].unseen;
    var g: nat := |s.issued| + 1;
    assert b[|a|] == Stop(id, g) && b[|a|..][0] == b[|a|];
    assert SentNew(s, t, zone, Stop(id, g));
  }

  lemma ResumeMembers(e: Env, s: St, id: SessionId, exempt: set<SessionId>)
    requires ValidEnv(e) && Core(e, s, exempt) && Queue(e, s) && id in s.sessions && s.sessions[id].wanted
    ensures var t := Resume(e, s, id);
            Onward(s, t) && Thinner(s, t) && Renewed(s, t, id) && KeepsMembers(s, t, {})
  {
    hide ValidEnv, Core, Queue, Rebuild, MaybeStart, Rebuilds, Thinner, Onward, KeepsMembers, Renewed;
    var t := Rebuild(e, s, id);
    RebuildCore(e, s, id, exempt);
    RebuildQueue(e, s, id);
    RebuildMembers(e, s, id, exempt);
    if Rebuilds(e, s, id) {
      QueueDistinct(e, t);
      MaybeStartMembers(e, t, false, exempt - {id});
      var u := MaybeStart(e, t, false);
      ThinnerTransitive(s, t, u);
      ThinKeys(s, t, u);
      OnwardBy(s, t, u);
      var none: set<SessionId> := {};
      KeepsThin(s, t, u, none, none);
      assert none + none == none;
      RenewedStays(s, t, u, id);
    }
  }

  lemma ThinKeys(s: St, t: St, u: St)
    requires Thinner(s, t) && Thinner(t, u)
    ensures t.sessions.Keys == s.sessions.Keys && u.sessions.Keys == t.sessions.Keys
  {
  }

  /** A restart forgets no member, and renews its session. */
  lemma {:induction false} RestartMembersOf(e: Env, s: St, id: SessionId, exempt: set<SessionId>)
    requires ValidEnv(e) && Core(e, s, exempt) && Queue(e, s)
    requires id in s.sessions ==> s.sessions[id].wanted
    ensures var t := Restart(e, s, id);
            && Onward(s, t) && Thinner(s, t) && KeepsMembers(s, t, {}) && (id in s.sessions ==> Renewed(s, t, id))
            && forall m :: m in MembersOf(s.groups, id) && WantedIn(s, m) ==> Renewed(s, t, m)
    decreases Load(s), 2
  {
    hide ValidEnv, Core, Queue, LeaveGroup, Resume, Thinner, Onward, KeepsMembers, Renewed, Appends;
    hide Members, Waiting;
    var s1 := BeforeLeave(e, s, id);
    BeforeLeaveCore(e, s, id, exempt);
    QueueSame(e, s, s1);
    BeforeLeaveMembers(e, s, id);
    var s2 := LeaveGroup(e, s1, id);
    LeaveGroupCore(e, s1, id, exempt + {id});
    LeavingMembers(e, s1, id, exempt + {id});
    LeftFrom(s, s1, s2, id);
    if id in s2.sessions {
      assert SameWish(s1.sessions[id], s2.sessions[id]);
      ResumeMembers(e, s2, id, exempt + {id});
      ResumedFrom(s, s2, Resume(e, s2, id), id);
    } else {
      GoneLeaver(s, s2, id);
    }
  }

  lemma BeforeLeaveMembers(e: Env, s: St, id: SessionId)
    requires id in s.sessions ==> s.sessions[id].wanted
    ensures var t := BeforeLeave(e, s, id);
            Onward(s, t) && Thinner(s, t) && t.groups == s.groups && t.sessions.Keys == s.sessions.Keys
  {
    hide Thinner, Onward, Appends;
    var t := BeforeLeave(e, s, id);
    BeforeLeaveThinner(e, s, id);
    SameAppends(s, t);
    OnwardThin(s, t);
  }

  /** What left its group from `t` on left it from `s` on, when nothing happened to groups between. */
  lemma LeftFrom(s: St, t: St, u: St, id: SessionId)
    requires t.groups == s.groups && Onward(s, t) && Thinner(s, t) && Onward(t, u) && Thinner(t, u)
    requires KeepsMembers(t, u, {id})
    requires forall m :: m in MembersOf(t.groups, id) && m != id && WantedIn(t, m) ==> Renewed(t, u, m)
    ensures Onward(s, u) && Thinner(s, u) && KeepsMembers(s, u, {id})
    ensures forall m :: m in MembersOf(s.groups, id) && m != id && WantedIn(s, m) ==> Renewed(s, u, m)
  {
    hide Thinner, Onward, KeepsMembers, Renewed, WantedIn;
    ThinKeys(s, t, u);
    ThinnerTransitive(s, t, u);
    OnwardBy(s, t, u);
    SameGroups(s.groups);
    RegroupedKeeps(s, t);
    KeepsThin(s, t, u, {}, {id});
    assert {} + {id} == {id};
    forall m | m in MembersOf(s.groups, id) && m != id && WantedIn(s, m) ensures Renewed(s, u, m) {
      SameWanted(s, t, m);
      Known(s, m);
      RenewedFrom(s, t, u, m);
    }
  }

  lemma Known(s: St, m: SessionId)
    requires WantedIn(s, m)
    ensures m in s.sessions
  {
  }

  lemma ResumedFrom(s: St, t: St, u: St, id: SessionId)
    requires Onward(s, t) && Thinner(s, t) && KeepsMembers(s, t, {id}) && id in s.sessions
    requires Onward(t, u) && Thinner(t, u) && KeepsMembers(t, u, {}) && Renewed(t, u, id)
    requires forall m :: m in MembersOf(s.groups, id) && m != id && WantedIn(s, m) ==> Renewed(s, t, m)
    ensures Onward(s, u) && Thinner(s, u) && KeepsMembers(s, u, {}) && Renewed(s, u, id)
    ensures forall m :: m in MembersOf(s.groups, id) && WantedIn(s, m) ==> Renewed(s, u, m)
  {
    hide Thinner, Onward, KeepsMembers, Renewed, WantedIn;
    ThinKeys(s, t, u);
    ThinnerTransitive(s, t, u);
    OnwardBy(s, t, u);
    RenewedFrom(s, t, u, id);
    KeepsThin(s, t, u, {id}, {});
    assert {id} + {} == {id};
    RenewedLeaver(s, u, id);
    forall m | m in MembersOf(s.groups, id) && WantedIn(s, m) ensures Renewed(s, u, m) {
      Known(s, m);
      if m != id {
        RenewedStays(s, t, u, m);
      }
    }
  }

  lemma RenewedLeaver(s: St, t: St, id: SessionId)
    requires KeepsMembers(s, t, {id}) && Renewed(s, t, id)
    ensures KeepsMembers(s, t, {})
  {
    hide Renewed, WantedIn;
  }

  lemma GoneLeaver(s: St, t: St, id: SessionId)
    requires KeepsMembers(s, t, {id}) && id !in t.sessions && Thinner(s, t)
    requires forall m :: m in MembersOf(s.groups, id) && m != id && WantedIn(s, m) ==> Renewed(s, t, m)
    ensures KeepsMembers(s, t, {}) && id !in s.sessions
    ensures forall m :: m in MembersOf(s.groups, id) && WantedIn(s, m) ==> Renewed(s, t, m)
  {
    hide Renewed;
  }

  /** A session that leaves its group restarts every wanted member of the group it coordinates, and
      forgets no member of another group. */
  lemma {:induction false} LeavingMembers(e: Env, s: St, id: SessionId, exempt: set<SessionId>)
    requires ValidEnv(e) && Core(e, s, exempt) && Queue(e, s)
    ensures var t := LeaveGroup(e, s, id);
            && Onward(s, t) && Thinner(s, t) && KeepsMembers(s, t, {id})
            && forall m :: m in MembersOf(s.groups, id) && m != id && WantedIn(s, m) ==> Renewed(s, t, m)
    decreases Load(s), 1
  {
    hide ValidEnv, Core, Queue, Load, RestartMembers, Thinner, Onward, KeepsMembers, Renewed, Appends, Detach, Detached;
    var d := Detach(s, id);
    DetachLoad(s, id);
    DetachSame(s, id);
    CoreSame(e, s, d, exempt);
    QueueSame(e, s, d);
    EachMember(e, d, Detached(s, id), exempt);
    DetachedFrom(s, RestartMembers(e, d, Detached(s, id)), id);
  }

  lemma DetachSame(s: St, id: SessionId)
    ensures Detach(s, id) == s.(groups := Detach(s, id).groups)
  {
  }

  lemma DetachedFrom(s: St, t: St, id: SessionId)
    requires var d := Detach(s, id); Onward(d, t) && Thinner(d, t) && KeepsMembers(d, t, {})
    requires forall m :: m in Detached(s, id) && WantedIn(Detach(s, id), m) ==> Renewed(Detach(s, id), t, m)
    ensures Onward(s, t) && Thinner(s, t) && KeepsMembers(s, t, {id})
    ensures forall m :: m in MembersOf(s.groups, id) && m != id && WantedIn(s, m) ==> Renewed(s, t, m)
  {
    hide Onward, Renewed, Thinner;
    var d := Detach(s, id);
    RegroupedFrom(s, d, t);
    forall c, m | c in s.groups && m in s.groups[c] && m != id && WantedIn(s, m) && WantedIn(t, m)
      ensures MemberKept(s, t, c, m)
    {
      RenewedSame(s, d, t, m);
      if c == id {
        assert m in Detached(s, id);
      } else {
        assert c in d.groups && m in d.groups[c];
        assert MemberKept(d, t, c, m);
      }
    }
    forall m | m in MembersOf(s.groups, id) && m != id && WantedIn(s, m) ensures Renewed(s, t, m) {
      RenewedSame(s, d, t, m);
    }
  }

  lemma RegroupedFrom(s: St, d: St, t: St)
    requires d == s.(groups := d.groups) && Onward(d, t) && Thinner(d, t)
    ensures Onward(s, t) && Thinner(s, t)
  {
    hide HasEntry;
    forall j | j in s.sessions ensures Thins(s, t, j) {
      assert Thins(d, t, j);
    }
    forall j | j in s.sessions && j in t.sessions ensures GoesOn(s, t, j) {
      assert GoesOn(d, t, j);
    }
  }

  lemma RenewedSame(s: St, d: St, t: St, m: SessionId)
    requires d == s.(groups := d.groups)
    ensures Renewed(d, t, m) == Renewed(s, t, m)
  {
    assert forall z, c :: SentNew(d, t, z, c) == SentNew(s, t, z, c);
  }

  lemma {:induction false} EachMember(e: Env, s: St, list: seq<SessionId>, exempt: set<SessionId>)
    requires ValidEnv(e) && Core(e, s, exempt) && Queue(e, s)
    ensures var t := RestartMembers(e, s, list);
            && Onward(s, t) && Thinner(s, t) && KeepsMembers(s, t, {})
            && forall m :: m in list && WantedIn(s, m) ==> Renewed(s, t, m)
    decreases Load(s) + |list|, 0
  {
    hide ValidEnv, Core, Queue, Load, Restart, Thinner, Onward, KeepsMembers, Renewed, Appends;
    if list == [] {
      ThinnerSame(s);
      SameAppends(s, s);
      OnwardThin(s, s);
      SameGroups(s.groups);
      RegroupedKeeps(s, s);
    } else {
      var id := list[0];
      if id in s.sessions && s.sessions[id].wanted {
        var t := Restart(e, s, id);
        RestartCore(e, s, id, exempt);
        CoreRelax(e, t, exempt - {id}, exempt);
        RestartMembersOf(e, s, id, exempt);
        EachMember(e, t, list[1..], exempt);
        MembersRest(s, t, RestartMembers(e, t, list[1..]), list);
      } else {
        EachMember(e, s, list[1..], exempt);
      }
    }
  }

  lemma MembersRest(s: St, t: St, u: St, list: seq<SessionId>)
    requires list != [] && Onward(s, t) && Thinner(s, t) && KeepsMembers(s, t, {}) && Renewed(s, t, list[0])
    requires Onward(t, u) && Thinner(t, u) && KeepsMembers(t, u, {})
    requires forall m :: m in list[1..] && WantedIn(t, m) ==> Renewed(t, u, m)
    ensures Onward(s, u) && Thinner(s, u) && KeepsMembers(s, u, {})
    ensures forall m :: m in list && WantedIn(s, m) ==> Renewed(s, u, m)
  {
    hide Thinner, Onward, KeepsMembers, Renewed, WantedIn;
    ThinKeys(s, t, u);
    ThinnerTransitive(s, t, u);
    OnwardBy(s, t, u);
    var none: set<SessionId> := {};
    KeepsThin(s, t, u, none, none);
    assert none + none == none;
    forall m | m in list && WantedIn(s, m) ensures Renewed(s, u, m) {
      Known(s, m);
      SameWanted(s, t, m);
      if m in list[1..] {
        RenewedFrom(s, t, u, m);
      } else {
        RenewedStays(s, t, u, m);
      }
    }
  }

  /** When a session leaves its group, every wanted room that it coordinated restarts. */
  lemma LeaveGroupRestarts(e: Env, s: St, id: SessionId, exempt: set<SessionId>, m: SessionId)
    requires ValidEnv(e) && Core(e, s, exempt) && Queue(e, s)
    requires id in s.groups && m in s.groups[id] && m != id && m in s.sessions && s.sessions[m].wanted
    ensures var t := LeaveGroup(e, s, id);
            var zone := s.sessions[m].zone;
            && m in t.sessions && t.sessions[m].generation > |s.issued| && t.sessions[m].observed != Playing
            && zone in s.channels && zone in t.channels && s.channels[zone].unseen <= t.channels[zone].unseen
            && exists g: nat :: g > |s.issued| && Stop(m, g) in t.channels[zone].unseen[|s.channels[zone].unseen|..]
  {
    hide ValidEnv, Core, Queue, LeaveGroup, Onward, Thinner, KeepsMembers;
    var t := LeaveGroup(e, s, id);
    LeavingMembers(e, s, id, exempt);
    assert Renewed(s, t, m);
    var g: nat :| g > |s.issued| && SentNew(s, t, s.sessions[m].zone, Stop(m, g));
    assert Stop(m, g) in t.channels[s.sessions[m].zone].unseen[|s.channels[s.sessions[m].zone].unseen|..];
  }
}
