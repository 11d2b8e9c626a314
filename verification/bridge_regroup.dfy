/** When a restart keeps the native groups a forest, through every restart and release that it
    nests: always if it clears what it observed first, and otherwise if no stream of the sender
    whose group it leaves waits, or if neither its session nor more than the first member plays. */
module BridgeRegroup {
  import opened BridgeState
  import opened BridgeHandlers
  import opened BridgeRooms
  import opened BridgeCore
  import opened BridgeForest
  import opened BridgeOut

  // ---- The queue moves on ----

  /** Sessions and rooms stay, and no stream starts to wait. */
  lemma FewerForest(e: Env, s: St, t: St)
    requires Forest(e, s) && t.groups == s.groups
    requires t.sessions == s.sessions && t.channels == s.channels
    requires forall j :: j in s.sessions && Entry(t, j) ==> Entry(s, j)
    ensures Forest(e, t)
  {
    hide Forest, Entry, IsMember;
    forall id | id in s.sessions ensures Stays(s, t, id) {
    }
    ForestFrame(e, s, t);
  }

  lemma UnreadyUngrouped(e: Env, s: St, id: SessionId)
    requires Forest(e, s) && id in s.sessions && Unready(s, id)
    ensures Ungrouped(s, id)
  {
    hide Unready;
    assert id in s.groups ==> Participant(e, s, id);
    forall c | c in s.groups ensures id !in s.groups[c] {
      assert id in s.groups[c] ==> MemberOk(e, s, c, id);
    }
  }

  lemma EntryUnready(e: Env, s: St, id: SessionId, exempt: set<SessionId>)
    requires Core(e, s, exempt) && id in s.sessions && Entry(s, id)
    ensures Unready(s, id)
  {
    CoreAt(e, s, id, exempt);
  }

  /** The room of a Prepared message has not released its stream. */
  lemma PreparedUnready(e: Env, s: St, id: SessionId)
    requires Core(e, s, {}) && id in s.sessions && s.sessions[id].zone in s.channels
    requires Prepared(id, s.sessions[id].generation) in s.channels[s.sessions[id].zone].bag
    ensures Unready(s, id)
  {
  }

  /** A stream that the front cohort releases belongs to no group. */
  lemma HeadUngrouped(e: Env, s: St, exempt: set<SessionId>, p: Stream)
    requires Core(e, s, exempt) && Distinct(s.cohorts) && s.cohorts != [] && Forest(e, s)
    requires var head := Pruned(s, s.cohorts[0]); p in StreamsOf(head.sessions, head.prepared)
    ensures Ungrouped(s, p.id)
  {
    hide Core, Distinct, Forest, HasEntry, Unready, IsMember;
    HeadReady(e, s, exempt, p);
    PrunedEntries(e, s, exempt, p.id);
    EntryUnready(e, s, p.id, exempt);
    UnreadyUngrouped(e, s, p.id);
  }

  lemma ReleaseForest(e: Env, s: St, exempt: set<SessionId>)
    requires ValidEnv(e) && Core(e, s, exempt) && Distinct(s.cohorts) && s.cohorts != [] && Forest(e, s)
    ensures var head := Pruned(s, s.cohorts[0]);
            var rest := Ticked(s).(cohorts := s.cohorts[1..]);
            Forest(e, PlayPrepared(e, rest, StreamsOf(head.sessions, head.prepared)))
  {
    hide ValidEnv, Core, Distinct, Forest, HasEntry, PlayPrepared, Pruned, Idle, IsMember;
    var head := Pruned(s, s.cohorts[0]);
    var rest := Ticked(s).(cohorts := s.cohorts[1..]);
    var list := StreamsOf(head.sessions, head.prepared);
    DropHead(e, s, rest, exempt);
    TailForest(e, s, rest, exempt);
    CoreStreams(e, s, exempt);
    HeadDistinct(s);
    forall p | p in list ensures Ready(rest, p) && Startable(rest, p, exempt) && Ungrouped(rest, p.id) {
      HeadReady(e, s, exempt, p);
      HeadUngrouped(e, s, exempt, p);
    }
    PlayPreparedForest(e, rest, list, exempt);
  }

  lemma TailForest(e: Env, s: St, t: St, exempt: set<SessionId>)
    requires Core(e, s, exempt) && Distinct(s.cohorts) && s.cohorts != [] && Forest(e, s)
    requires t == s.(cohorts := t.cohorts, ticks := t.ticks)
    requires t.cohorts == s.cohorts[1..] || t.cohorts == [Pruned(s, s.cohorts[0])] + s.cohorts[1..]
    ensures Forest(e, t)
  {
    hide Core, Distinct, Forest, HasEntry, Pruned;
    forall j | j in s.sessions && Entry(t, j) ensures Entry(s, j) {
      PrunedEntries(e, s, exempt, j);
    }
    FewerForest(e, s, t);
  }

  lemma {:induction false} MaybeStartForest(e: Env, s: St, force: bool, exempt: set<SessionId>)
    requires ValidEnv(e) && Core(e, s, exempt) && Distinct(s.cohorts) && Forest(e, s)
    ensures Forest(e, MaybeStart(e, s, force))
    decreases |s.cohorts|
  {
    hide ValidEnv, Core, Forest, PlayPrepared, Pruned, ShouldStart;
    if s.cohorts != [] {
      var head := Pruned(s, s.cohorts[0]);
      var list := StreamsOf(head.sessions, head.prepared);
      if head.sessions == [] {
        var rest := s.(cohorts := s.cohorts[1..]);
        DropHead(e, s, rest, exempt);
        assert exempt + Ids(list) == exempt;
        TailForest(e, s, rest, exempt);
        MaybeStartForest(e, rest, force, exempt);
      } else if !ShouldStart(head, Now(e, s), force) {
        TailForest(e, s, Ticked(s).(cohorts := [head] + s.cohorts[1..]), exempt);
      } else {
        var rest := Ticked(s).(cohorts := s.cohorts[1..]);
        PlayPreparedKeeps(e, rest, list);
        ReleaseHead(e, s, exempt);
        ReleaseForest(e, s, exempt);
        MaybeStartForest(e, PlayPrepared(e, rest, list), force, exempt);
      }
    }
  }

  // ---- Restart ----

  lemma RebuildForest(e: Env, s: St, id: SessionId, exempt: set<SessionId>)
    requires Core(e, s, exempt) && id in s.sessions && Ungrouped(s, id) && Forest(e, s)
    ensures Forest(e, Rebuild(e, s, id))
  {
    hide Core, Forest, Rebuild, IsMember, HasEntry, Unready, Rebuilds, Enqueue;
    CoreAt(e, s, id, exempt);
    RebuildSession(e, s, id);
    var t := Rebuild(e, s, id);
    forall j | j in s.sessions && j != id ensures Stays(s, t, j) && Entry(t, j) == Entry(s, j) {
      SameSession(s, t, id, j);
      EnqueueEntries(e, s.cohorts, id, Now(e, s), j, t.sessions[j].generation);
      assert Unready(t, j) == Unready(s, j) by {
        UnreadyElsewhere(e, s, t, id, j, exempt);
      }
    }
    ForestFrame(e, s, t);
  }

  lemma UnreadyElsewhere(e: Env, s: St, t: St, id: SessionId, j: SessionId, exempt: set<SessionId>)
    requires Core(e, s, exempt) && id in s.sessions && j in s.sessions && j != id && SameElsewhere(s, t, id)
    requires j in t.sessions && Entry(t, j) == Entry(s, j)
    ensures Unready(t, j) == Unready(s, j)
  {
    hide Rooms, Streams, Channels, HasEntry;
  }

  lemma BeforeLeaveForest(e: Env, s: St, id: SessionId)
    requires Forest(e, s)
    ensures Forest(e, BeforeLeave(e, s, id))
  {
    hide Forest, IsMember, HasEntry;
    var t := BeforeLeave(e, s, id);
    forall j | j in s.sessions ensures Stays(s, t, j) {
    }
    ForestFrame(e, s, t);
  }

  lemma CoreKeys(e: Env, s: St, exempt: set<SessionId>)
    requires Core(e, s, exempt)
    ensures s.channels.Keys == e.renderers.Keys
  {
  }

  lemma NoMembers(e: Env, s: St)
    ensures RestartMembers(e, s, []) == s
  {
  }

  /** No stream of the member's sender waits. */
  ghost predicate Quiet(e: Env, s: St, m: SessionId) {
    e.nativeGroups && m in s.sessions ==> !SomeoneWaits(e, s, s.sessions[m].sender)
  }

  ghost predicate AllQuiet(e: Env, s: St, list: seq<SessionId>) {
    forall m :: m in list ==> Quiet(e, s, m)
  }

  /** Only the first of them may play. */
  predicate Still(s: St, list: seq<SessionId>) {
    forall i :: 1 <= i < |list| && list[i] in s.sessions ==> s.sessions[list[i]].observed != Playing
  }

  /** No restart of a member that `id` leaves behind can end in a group: a restart clears first what
      it observed, no stream of the sender waits, or no member plays but the one that restarts first. */
  ghost predicate Safe(e: Env, s: St, id: SessionId) {
    e.clearFirst || AllQuiet(e, s, Detached(s, id)) || Still(s, Detached(s, id))
  }

  /** Nor can the restart of `id` itself, which leaves its members behind while it still plays. */
  ghost predicate RestartSafe(e: Env, s: St, id: SessionId) {
    && Safe(e, s, id)
    && (!e.clearFirst && id in s.sessions && s.sessions[id].observed == Playing ==> AllQuiet(e, s, Detached(s, id)))
  }

  /** The members are in no group, and none of them waits. */
  ghost predicate Loose(s: St, list: seq<SessionId>) {
    NoDuplicates(list) && forall m :: m in list ==> Ungrouped(s, m) && (m in s.sessions ==> !Entry(s, m))
  }

  /** `id` can leave its group, and stays out of it while its members restart. */
  ghost predicate CanLeave(e: Env, s: St, id: SessionId) {
    && Safe(e, s, id)
    && Forest(e, Detach(s, id))
    && Ungrouped(Detach(s, id), id)
    && id !in Detached(s, id) && Loose(Detach(s, id), Detached(s, id))
    && (Detached(s, id) != [] ==> Out(e, Detach(s, id), id))
  }

  lemma MembersLoose(e: Env, s: St, id: SessionId)
    requires Forest(e, s) && s.channels.Keys == e.renderers.Keys
    ensures Loose(Detach(s, id), Detached(s, id))
  {
    hide HasEntry, SameDelays, NoSelfJoins;
    if id in s.groups {
      WithoutNoDuplicates(s.groups[id], id);
      forall m | m in Detached(s, id)
        ensures Ungrouped(Detach(s, id), m) && m in s.sessions && !Entry(s, m)
      {
        assert m in s.groups[id];
        assert MemberOk(e, s, id, m);
        forall d | d in Detach(s, id).groups ensures m !in Detach(s, id).groups[d] {
        }
      }
    }
  }

  lemma DetachCanLeave(e: Env, s: St, id: SessionId)
    requires Forest(e, s) && s.channels.Keys == e.renderers.Keys && RestartSafe(e, s, id)
    requires e.clearFirst && id in s.sessions ==> s.sessions[id].observed != Playing
    ensures CanLeave(e, s, id)
  {
    hide HasEntry, SomeoneWaits, IsMember, Detach, Unready, SameDelays, Loose, Still;
    DetachForest(e, s, id);
    MembersLoose(e, s, id);
    if Detached(s, id) != [] {
      CoordinatorReady(e, s, id);
      var m := Detached(s, id)[0];
      assert m in Detached(s, id) && m in s.groups[id];
      assert MemberOk(e, s, id, m);
      DetachWaits(e, s, id, s.sessions[id].sender);
    }
  }

  lemma CoordinatorReady(e: Env, s: St, id: SessionId)
    requires Forest(e, s) && id in s.groups && s.channels.Keys == e.renderers.Keys
    ensures id in s.sessions && !Entry(s, id)
  {
    hide HasEntry;
    assert Participant(e, s, id);
  }

  lemma ResumeForest(e: Env, s: St, id: SessionId, exempt: set<SessionId>)
    requires ValidEnv(e) && Core(e, s, exempt) && Queue(e, s) && id in s.sessions && s.sessions[id].wanted
    requires Forest(e, s) && Ungrouped(s, id)
    ensures Forest(e, Resume(e, s, id))
  {
    hide ValidEnv, Core, Queue, Rebuild, MaybeStart, Rebuilds, Forest, IsMember;
    var t := Rebuild(e, s, id);
    RebuildCore(e, s, id, exempt);
    RebuildQueue(e, s, id);
    RebuildForest(e, s, id, exempt);
    QueueDistinct(e, t);
    MaybeStartForest(e, t, false, exempt - {id});
  }

  lemma SafeBefore(e: Env, s: St, id: SessionId)
    requires RestartSafe(e, s, id)
    ensures RestartSafe(e, BeforeLeave(e, s, id), id)
  {
    hide HasEntry, SomeoneWaits;
    var t := BeforeLeave(e, s, id);
    assert Detached(t, id) == Detached(s, id);
    if !e.clearFirst && AllQuiet(e, s, Detached(s, id)) {
      forall m | m in Detached(s, id) ensures Quiet(e, t, m) {
        assert Quiet(e, s, m);
        if m in s.sessions {
          BeforeLeaveWaits(e, s, id, m);
        }
      }
    }
  }

  /** A session that coordinates no group leaves nobody behind. */
  lemma AloneIsSafe(e: Env, s: St, id: SessionId)
    requires id !in s.groups
    ensures RestartSafe(e, s, id)
  {
  }

  /** The members of a group share their coordinator's sender. */
  lemma QuietIsSafe(e: Env, s: St, id: SessionId)
    requires Forest(e, s) && (e.clearFirst || Quiet(e, s, id))
    ensures RestartSafe(e, s, id)
  {
    hide SomeoneWaits, Unready, SameDelays;
    forall m | m in Detached(s, id) && !e.clearFirst ensures Quiet(e, s, m) {
      assert id in s.groups && m in s.groups[id];
      assert MemberOk(e, s, id, m);
    }
  }

  lemma QuietLater(e: Env, s: St, t: St, m: SessionId)
    requires Thinner(s, t) && Quiet(e, s, m)
    ensures Quiet(e, t, m)
  {
    hide HasEntry, SomeoneWaits;
    if m in s.sessions {
      assert Thins(s, t, m);
      FewerWait(e, s, t, s.sessions[m].sender);
    }
  }

  /** A restart keeps the groups a forest, if its session's group can be left safely. */
  lemma {:induction false} RestartForest(e: Env, s: St, id: SessionId, exempt: set<SessionId>)
    requires ValidEnv(e) && Core(e, s, exempt) && Queue(e, s) && RestartSafe(e, s, id)
    requires id in s.sessions ==> s.sessions[id].wanted
    requires Forest(e, s)
    ensures Forest(e, Restart(e, s, id))
    decreases Load(s), 2
  {
    hide ValidEnv, Core, Queue, LeaveGroup, Resume, Forest, IsMember;
    hide Members, Waiting, CanLeave, RestartSafe;
    var s1 := BeforeLeave(e, s, id);
    BeforeLeaveCore(e, s, id, exempt);
    QueueSame(e, s, s1);
    BeforeLeaveForest(e, s, id);
    SafeBefore(e, s, id);
    CoreKeys(e, s1, exempt + {id});
    DetachCanLeave(e, s1, id);
    var s2 := LeaveGroup(e, s1, id);
    LeaveGroupCore(e, s1, id, exempt + {id});
    LeaveGroupForest(e, s1, id, exempt + {id});
    if id in s2.sessions {
      assert SameWish(s1.sessions[id], s2.sessions[id]);
      ResumeForest(e, s2, id, exempt + {id});
    }
  }

  lemma {:induction false} LeaveGroupForest(e: Env, s: St, id: SessionId, exempt: set<SessionId>)
    requires ValidEnv(e) && Core(e, s, exempt) && Queue(e, s)
    requires CanLeave(e, s, id)
    ensures Forest(e, LeaveGroup(e, s, id)) && Ungrouped(LeaveGroup(e, s, id), id)
    decreases Load(s), 1
  {
    hide ValidEnv, Core, Queue, Load, RestartMembers, Forest, IsMember, HasEntry, Quiet, SomeoneWaits, Restartable;
    var t := Detach(s, id);
    DetachLoad(s, id);
    CoreSame(e, s, t, exempt);
    QueueSame(e, s, t);
    if Detached(s, id) == [] {
      NoMembers(e, t);
    } else {
      DetachQuiet(e, s, id);
      LooseRestartable(e, s, t, Detached(s, id));
      RestartMembersForest(e, t, Detached(s, id), exempt);
      RestartMembersOut(e, t, Detached(s, id), exempt, id);
    }
  }

  lemma DetachQuiet(e: Env, s: St, id: SessionId)
    ensures forall m :: Quiet(e, s, m) ==> Quiet(e, Detach(s, id), m)
  {
    hide HasEntry, SomeoneWaits, Detach;
    DetachWaits(e, s, id, None);
    forall m | Quiet(e, s, m) && m in s.sessions ensures Quiet(e, Detach(s, id), m) {
      DetachWaits(e, s, id, s.sessions[m].sender);
    }
  }

  /** They can restart one after the other: none ends up in a group. */
  ghost predicate Restartable(e: Env, s: St, list: seq<SessionId>) {
    || e.clearFirst || AllQuiet(e, s, list)
    || (NoDuplicates(list) && (list != [] ==> list[0] !in s.groups) && forall m :: m in list[1..] ==> Out(e, s, m))
  }

  lemma LooseRestartable(e: Env, s: St, t: St, list: seq<SessionId>)
    requires list != [] && t == s.(groups := t.groups) && Loose(t, list)
    requires e.clearFirst || AllQuiet(e, s, list) || Still(s, list)
    requires forall m :: Quiet(e, s, m) ==> Quiet(e, t, m)
    ensures Restartable(e, t, list)
  {
    hide HasEntry, SomeoneWaits, IsMember, Quiet;
    if Still(s, list) {
      forall m | m in list[1..] ensures Out(e, t, m) {
        var i :| 1 <= i < |list| && list[i] == m;
      }
    }
  }

  /** The first of them restarts safely, and then the others can go on. */
  lemma HeadRestartable(e: Env, s: St, list: seq<SessionId>)
    requires Restartable(e, s, list) && list != [] && Forest(e, s)
    ensures RestartSafe(e, s, list[0])
  {
    hide Forest, Quiet, RestartSafe;
    if e.clearFirst || AllQuiet(e, s, list) {
      QuietIsSafe(e, s, list[0]);
    } else {
      AloneIsSafe(e, s, list[0]);
    }
  }

  lemma TailRestartable(e: Env, s: St, list: seq<SessionId>, exempt: set<SessionId>)
    requires ValidEnv(e) && Core(e, s, exempt) && Queue(e, s) && Restartable(e, s, list) && list != []
    requires list[0] in s.sessions && s.sessions[list[0]].wanted
    ensures Restartable(e, Restart(e, s, list[0]), list[1..])
  {
    hide ValidEnv, Core, Queue, Restart, Quiet, Out, Thinner;
    var t := Restart(e, s, list[0]);
    RestartThinner(e, s, list[0], exempt);
    if AllQuiet(e, s, list) {
      forall m | m in list[1..] ensures Quiet(e, t, m) {
        QuietLater(e, s, t, m);
      }
    } else if !e.clearFirst {
      forall m | m in list[1..] ensures Out(e, t, m) {
        RestartOut(e, s, list[0], exempt, m);
      }
      OutTail(e, t, list[1..]);
    }
  }

  lemma OutTail(e: Env, s: St, list: seq<SessionId>)
    requires NoDuplicates(list) && forall m :: m in list ==> Out(e, s, m)
    ensures Restartable(e, s, list)
  {
    hide SomeoneWaits, HasEntry, IsMember;
    assert list != [] ==> Out(e, s, list[0]);
  }

  lemma SkipRestartable(e: Env, s: St, list: seq<SessionId>)
    requires Restartable(e, s, list) && list != []
    ensures Restartable(e, s, list[1..])
  {
    hide Quiet, Out;
    if !e.clearFirst && !AllQuiet(e, s, list) {
      OutTail(e, s, list[1..]);
    } else {
      assert AllQuiet(e, s, list) ==> AllQuiet(e, s, list[1..]);
    }
  }

  lemma {:induction false} RestartMembersForest(e: Env, s: St, list: seq<SessionId>, exempt: set<SessionId>)
    requires ValidEnv(e) && Core(e, s, exempt) && Queue(e, s)
    requires Forest(e, s) && Restartable(e, s, list)
    ensures Forest(e, RestartMembers(e, s, list))
    decreases Load(s) + |list|, 0
  {
    hide ValidEnv, Core, Queue, Load, Restart, Forest, Restartable, RestartSafe;
    if list != [] {
      var id := list[0];
      if id in s.sessions && s.sessions[id].wanted {
        var t := Restart(e, s, id);
        RestartCore(e, s, id, exempt);
        CoreRelax(e, t, exempt - {id}, exempt);
        HeadRestartable(e, s, list);
        RestartForest(e, s, id, exempt);
        TailRestartable(e, s, list, exempt);
        RestartMembersForest(e, t, list[1..], exempt);
      } else {
        SkipRestartable(e, s, list);
        RestartMembersForest(e, s, list[1..], exempt);
      }
    }
  }
}
