/** Native groups form a forest of depth one, and a member keeps its coordinator's delay. A
    release of streams that belong to no group keeps both. */
module BridgeForest {
  import opened BridgeState
  import opened BridgeHandlers
  import opened BridgeRooms
  import opened BridgeCore

  /** The session is being prepared, or its stream has not been released. */
  predicate Unready(s: St, id: SessionId)
    requires id in s.sessions
  {
    s.sessions[id].zone in s.channels
    && Unreleased(id, s.sessions[id], s.channels[s.sessions[id].zone], Entry(s, id))
  }

  /** A session that may be in a group: live, wanted, a Sonos room with a sender, released. */
  predicate Participant(e: Env, s: St, id: SessionId) {
    && id in s.sessions
    && s.sessions[id].wanted && s.sessions[id].sender.Some?
    && IsSonos(e, s.sessions[id].zone)
    && !Unready(s, id)
  }

  predicate SharesSender(s: St, i: SessionId, j: SessionId) {
    i in s.sessions && j in s.sessions && s.sessions[i].sender == s.sessions[j].sender
  }

  predicate MemberOk(e: Env, s: St, c: SessionId, m: SessionId) {
    Participant(e, s, m) && SharesSender(s, c, m) && m !in s.groups
  }

  /** Groups have participants only, no coordinator is a member, no session is a member
      twice, members share their coordinator's sender, and a sender has one group. */
  ghost predicate Shape(e: Env, s: St) {
    && (forall c :: c in s.groups ==> Participant(e, s, c) && NoDuplicates(s.groups[c]))
    && (forall c, m :: c in s.groups && m in s.groups[c] ==> MemberOk(e, s, c, m))
    && (forall c, d, m :: c in s.groups && d in s.groups && m in s.groups[c] && m in s.groups[d] ==> c == d)
    && (forall c, d :: c in s.groups && d in s.groups && SharesSender(s, c, d) ==> c == d)
  }

  predicate SharesDelay(s: St, c: SessionId, m: SessionId) {
    c in s.sessions && m in s.sessions && s.sessions[m].syncDelay == s.sessions[c].syncDelay
  }

  /** A member would fall back to its own stream with its coordinator's delay. */
  ghost predicate SameDelays(s: St) {
    forall c, m :: c in s.groups && m in s.groups[c] ==> SharesDelay(s, c, m)
  }

  predicate NoSelfJoin(zone: ZoneId, ch: Channel) {
    && (forall c :: c in ch.unseen && c.Join? ==> c.coordinator != zone)
    && (ch.running.Some? && ch.running.value.Join? ==> ch.running.value.coordinator != zone)
  }

  /** No room is told to join itself. */
  ghost predicate NoSelfJoins(s: St) {
    forall z :: z in s.channels ==> NoSelfJoin(z, s.channels[z])
  }

  ghost predicate Forest(e: Env, s: St) {
    Shape(e, s) && (e.wav ==> SameDelays(s)) && NoSelfJoins(s)
  }

  /** What a coordinator and its member have in common. */
  predicate TreePair(e: Env, s: St, c: SessionId, m: SessionId) {
    && c in s.sessions && m in s.sessions && c != m && m !in s.groups
    && s.sessions[c].wanted && s.sessions[m].wanted
    && IsSonos(e, s.sessions[c].zone) && IsSonos(e, s.sessions[m].zone)
    && s.sessions[c].sender.Some? && s.sessions[m].sender == s.sessions[c].sender
    && (e.wav ==> s.sessions[m].syncDelay == s.sessions[c].syncDelay)
  }

  /** The groups are a forest of depth one: members are in one group, once, and coordinate none. */
  ghost predicate DepthOne(e: Env, s: St) {
    && (forall c :: c in s.groups ==> NoDuplicates(s.groups[c]))
    && (forall c, m :: c in s.groups && m in s.groups[c] ==> TreePair(e, s, c, m))
    && (forall c, d, m :: c in s.groups && d in s.groups && m in s.groups[c] && m in s.groups[d] ==> c == d)
  }

  lemma ForestIsDepthOne(e: Env, s: St)
    requires Forest(e, s)
    ensures DepthOne(e, s)
  {
    hide Unready;
    forall c, m | c in s.groups && m in s.groups[c] ensures TreePair(e, s, c, m) {
      assert Participant(e, s, c) && MemberOk(e, s, c, m);
      if e.wav {
        assert SharesDelay(s, c, m);
      }
    }
  }

  predicate Ungrouped(s: St, id: SessionId) {
    id !in s.groups && !IsMember(s.groups, id)
  }

  // ---- Changes that leave the groups alone ----

  /** The session stays a participant if it was one. */
  predicate StaysFit(s: St, t: St, id: SessionId)
    requires id in s.sessions
  {
    && id in t.sessions
    && t.sessions[id].wanted == s.sessions[id].wanted && t.sessions[id].zone == s.sessions[id].zone
    && t.sessions[id].sender == s.sessions[id].sender
    && (Unready(t, id) ==> Unready(s, id))
  }

  predicate Stays(s: St, t: St, id: SessionId)
    requires id in s.sessions
  {
    StaysFit(s, t, id) && t.sessions[id].syncDelay == s.sessions[id].syncDelay
  }

  /** A room that is told to join was told so before. */
  predicate JoinsKept(a: Channel, b: Channel) {
    && (forall c :: c in b.unseen && c.Join? ==> c in a.unseen)
    && (b.running.Some? && b.running.value.Join? ==> b.running == a.running || b.running.value in a.unseen)
  }

  ghost predicate JoinsStay(s: St, t: St) {
    t.channels.Keys == s.channels.Keys && forall z :: z in s.channels ==> JoinsKept(s.channels[z], t.channels[z])
  }

  lemma SelfJoinsStay(s: St, t: St)
    requires NoSelfJoins(s) && JoinsStay(s, t)
    ensures NoSelfJoins(t)
  {
    forall z | z in t.channels ensures NoSelfJoin(z, t.channels[z]) {
      assert NoSelfJoin(z, s.channels[z]) && JoinsKept(s.channels[z], t.channels[z]);
    }
  }

  lemma SameJoins(s: St, t: St)
    requires t.channels == s.channels
    ensures JoinsStay(s, t)
  {
  }

  /** Every session in a group stays as it is there. The others may change in any way. */
  ghost predicate Steady(s: St, t: St) {
    forall id :: id in s.sessions && !Ungrouped(s, id) ==> Stays(s, t, id)
  }

  lemma ShapeFrame(e: Env, s: St, t: St)
    requires Shape(e, s) && t.groups == s.groups
    requires forall id :: id in s.sessions && !Ungrouped(s, id) ==> StaysFit(s, t, id)
    ensures Shape(e, t)
  {
    hide Unready;
    forall c | c in s.groups ensures Participant(e, t, c) && c in s.sessions
        && s.sessions[c].sender == t.sessions[c].sender {
      assert Participant(e, s, c) && !Ungrouped(s, c);
      assert StaysFit(s, t, c);
    }
    forall c, m | c in s.groups && m in s.groups[c]
      ensures MemberOk(e, t, c, m)
    {
      assert MemberOk(e, s, c, m) && Participant(e, s, c);
      assert IsMember(s.groups, m);
      assert StaysFit(s, t, m);
    }
    forall c, d | c in s.groups && d in s.groups && SharesSender(t, c, d) ensures c == d {
      assert SharesSender(s, c, d);
    }
  }

  lemma NotUngrouped(s: St, c: SessionId, m: SessionId)
    requires c in s.groups && m in s.groups[c]
    ensures !Ungrouped(s, c) && !Ungrouped(s, m)
  {
    assert IsMember(s.groups, m);
  }

  lemma ForestFrame(e: Env, s: St, t: St)
    requires Forest(e, s) && Steady(s, t) && t.groups == s.groups && JoinsStay(s, t)
    ensures Forest(e, t)
  {
    hide Shape, Unready, Ungrouped, NoSelfJoins, JoinsStay;
    SelfJoinsStay(s, t);
    forall id | id in s.sessions && !Ungrouped(s, id) ensures StaysFit(s, t, id) {
      assert Stays(s, t, id);
    }
    ShapeFrame(e, s, t);
    if e.wav {
      forall c, m | c in s.groups && m in s.groups[c] ensures SharesDelay(t, c, m) {
        assert SharesDelay(s, c, m);
        NotUngrouped(s, c, m);
        assert Stays(s, t, c) && Stays(s, t, m);
      }
    }
  }

  lemma SameReady(s: St, t: St, id: SessionId)
    requires t.sessions == s.sessions && t.channels == s.channels && t.cohorts == s.cohorts && id in s.sessions
    ensures Unready(t, id) == Unready(s, id)
  {
  }

  lemma SteadySame(s: St, t: St)
    requires t.sessions == s.sessions && t.channels == s.channels && t.cohorts == s.cohorts
    ensures Steady(s, t) && JoinsStay(s, t)
  {
    hide Unready;
    SameJoins(s, t);
    forall id | id in s.sessions ensures Stays(s, t, id) {
      SameReady(s, t, id);
    }
  }

  lemma ForgetForest(e: Env, s: St, id: SessionId)
    requires Forest(e, s)
    ensures Forest(e, s.(groups := ForgetMember(s.groups, id)))
  {
    hide Unready;
    var t := s.(groups := ForgetMember(s.groups, id));
    forall c | c in t.groups ensures Participant(e, t, c) && NoDuplicates(t.groups[c]) {
      WithoutNoDuplicates(s.groups[c], id);
      assert Participant(e, s, c);
      SameReady(s, t, c);
    }
    forall c, m | c in t.groups && m in t.groups[c]
      ensures MemberOk(e, t, c, m)
    {
      assert MemberOk(e, s, c, m);
      SameReady(s, t, m);
    }
  }

  lemma CoordinatorIsNoMember(e: Env, s: St, id: SessionId)
    requires Shape(e, s) && id in s.groups
    ensures !IsMember(s.groups, id)
  {
    forall c | c in s.groups ensures id !in s.groups[c] {
      assert id in s.groups[c] ==> MemberOk(e, s, c, id);
    }
  }

  lemma DropGroupForest(e: Env, s: St, id: SessionId)
    requires Forest(e, s)
    ensures Forest(e, s.(groups := s.groups - {id}))
  {
    hide Unready;
    var t := s.(groups := s.groups - {id});
    forall c | c in t.groups ensures Participant(e, t, c) {
      assert Participant(e, s, c);
      SameReady(s, t, c);
    }
    forall c, m | c in t.groups && m in t.groups[c] ensures MemberOk(e, t, c, m) {
      assert MemberOk(e, s, c, m);
      SameReady(s, t, m);
    }
  }

  lemma DetachForest(e: Env, s: St, id: SessionId)
    requires Forest(e, s)
    ensures Forest(e, Detach(s, id)) && Ungrouped(Detach(s, id), id)
    ensures forall j :: Ungrouped(s, j) ==> Ungrouped(Detach(s, id), j)
  {
    hide Forest;
    var t := s.(groups := ForgetMember(s.groups, id));
    ForgetForest(e, s, id);
    DropGroupForest(e, t, id);
    assert t.groups - {id} == Detach(s, id).groups;
  }

  // ---- A release adds groups ----

  /** Every pair of a group is an old one or a role, and every role is such a pair. */
  ghost predicate RolesFit(before: map<SessionId, seq<SessionId>>, g: Grouping) {
    && (forall c, m :: c in g.st.groups && m in g.st.groups[c] ==> OldPair(before, c, m) || PairRole(g.roles, c, m))
    && (forall m :: m in g.roles ==> g.roles[m] in g.st.groups && m in g.st.groups[g.roles[m]])
  }

  predicate OldPair(groups: map<SessionId, seq<SessionId>>, c: SessionId, m: SessionId) {
    c in groups && m in groups[c]
  }

  predicate PairRole(roles: map<SessionId, SessionId>, c: SessionId, m: SessionId) {
    m in roles && roles[m] == c
  }

  lemma AddToGroupRoles(before: map<SessionId, seq<SessionId>>, g: Grouping, c: SessionId, members: seq<SessionId>)
    requires RolesFit(before, g) && forall m :: m in members ==> Ungrouped(g.st, m)
    ensures RolesFit(before, AddToGroup(g, c, members))
  {
    var t := AddToGroup(g, c, members);
    forall d, m | d in t.st.groups && m in t.st.groups[d] ensures OldPair(before, d, m) || PairRole(t.roles, d, m) {
      if d in g.st.groups && m in g.st.groups[d] {
        assert IsMember(g.st.groups, m);
        assert m !in members;
      }
    }
    forall m | m in t.roles ensures t.roles[m] in t.st.groups && m in t.st.groups[t.roles[m]] {
    }
  }

  /** A released stream before its room is put into a group or starts on its own. */
  predicate Free(s: St, p: Stream) {
    && p.id in s.sessions && p.zone == s.sessions[p.id].zone
    && s.sessions[p.id].wanted && s.sessions[p.id].observed != Playing
    && !Unready(s, p.id) && Ungrouped(s, p.id)
  }

  /** A session that may become a member of a group of `sender`. */
  predicate Recruit(e: Env, s: St, sender: Sender, id: SessionId) {
    Participant(e, s, id) && s.sessions[id].sender == Some(sender) && s.sessions[id].observed != Playing
        && Ungrouped(s, id)
  }

  ghost predicate PlayingReady(s: St) {
    forall id :: id in s.sessions && s.sessions[id].observed == Playing ==> !Unready(s, id)
  }

  /** The sessions that stay out of a group which `members` join. */
  predicate Bystander(s: St, members: seq<SessionId>, id: SessionId) {
    Ungrouped(s, id) && id !in members && (id in s.sessions ==> s.sessions[id].observed != Playing)
  }

  lemma AddToGroupShape(e: Env, g: Grouping, c: SessionId, sender: Sender, members: seq<SessionId>)
    requires Shape(e, g.st) && NoDuplicates(members)
    requires Participant(e, g.st, c) && g.st.sessions[c].sender == Some(sender) && !IsMember(g.st.groups, c)
             && c !in members
    requires forall m :: m in members ==> Recruit(e, g.st, sender, m)
    requires forall d :: d in g.st.groups && SharesSender(g.st, c, d) ==> d == c
    ensures Shape(e, AddToGroup(g, c, members).st)
  {
    hide Unready;
    var s := g.st;
    var t := AddToGroup(g, c, members).st;
    forall d | d in t.groups ensures Participant(e, t, d) && NoDuplicates(t.groups[d]) {
      assert Participant(e, s, d);
      SameReady(s, t, d);
      if d == c {
        forall i | 0 <= i < |members| ensures members[i] !in MembersOf(s.groups, c) {
          assert Recruit(e, s, sender, members[i]);
        }
      }
    }
    forall d, m | d in t.groups && m in t.groups[d] ensures MemberOk(e, t, d, m) {
      if d == c && m in members {
        assert Recruit(e, s, sender, m);
      } else {
        assert MemberOk(e, s, d, m);
      }
      SameReady(s, t, m);
      assert m != c;
    }
    forall d, f, m | d in t.groups && f in t.groups && m in t.groups[d] && m in t.groups[f] ensures d == f {
      if m in members {
        assert Recruit(e, s, sender, m);
        assert !IsMember(s.groups, m);
      }
    }
  }

  lemma GroupSenderShape(e: Env, g: Grouping, sender: Sender, members: seq<SessionId>)
    requires ValidEnv(e) && Shape(e, g.st) && PlayingReady(g.st) && members != [] && NoDuplicates(members)
    requires forall m :: m in members ==> Recruit(e, g.st, sender, m)
    ensures var r := GroupSender(e, g, sender, members);
            && Shape(e, r.st)
            && r.st == g.st.(groups := r.st.groups, ticks := r.st.ticks)
            && (forall id :: Bystander(g.st, members, id) ==> Ungrouped(r.st, id))
  {
    hide Unready;
    var s := g.st;
    var preferred := Preferred(e, s, sender);
    var coordinators := Coordinators(e, s, sender);
    forall d | d in s.groups && d in s.sessions && s.sessions[d].sender == Some(sender) ensures d in coordinators {
      assert Participant(e, s, d);
      CoordinatorIsNoMember(e, s, d);
      assert Eligible(e, s, d, sender);
    }
    if preferred != {} {
      var c := e.choose(s.ticks, preferred);
      assert c in preferred;
      assert Eligible(e, s, c, sender);
      forall d | d in s.groups && SharesSender(s, c, d) ensures d == c {
        assert d in coordinators;
        assert preferred == coordinators;
        assert c in s.groups;
      }
      assert Participant(e, s, c);
      assert c in members ==> Recruit(e, s, sender, c);
      var g' := g.(st := Ticked(s));
      TickShape(e, s);
      forall m | m in members ensures Recruit(e, g'.st, sender, m) {
        SameReady(s, g'.st, m);
      }
      SameReady(s, g'.st, c);
      AddToGroupShape(e, g', c, sender, members);
      BystandersStay(g', c, members);
    } else if |members| > 1 {
      assert Recruit(e, s, sender, members[0]);
      forall m | m in members[1..] ensures Recruit(e, s, sender, m) && m != members[0] {
      }
      AddToGroupShape(e, g, members[0], sender, members[1..]);
      BystandersStay(g, members[0], members[1..]);
    }
  }

  lemma TickShape(e: Env, s: St)
    requires Shape(e, s)
    ensures Shape(e, Ticked(s))
  {
    SteadySame(s, Ticked(s));
    forall id | id in s.sessions && !Ungrouped(s, id) ensures StaysFit(s, Ticked(s), id) {
      assert Stays(s, Ticked(s), id);
    }
    ShapeFrame(e, s, Ticked(s));
  }

  lemma BystandersStay(g: Grouping, c: SessionId, members: seq<SessionId>)
    ensures var r := AddToGroup(g, c, members);
            forall id :: Ungrouped(g.st, id) && id !in members && id != c ==> Ungrouped(r.st, id)
  {
    var r := AddToGroup(g, c, members);
    forall id | Ungrouped(g.st, id) && id !in members && id != c ensures !IsMember(r.st.groups, id) {
      forall d | d in r.st.groups ensures id !in r.st.groups[d] {
        assert d in g.st.groups ==> id !in g.st.groups[d];
      }
    }
  }

  lemma GroupSenderRoles(e: Env, before: map<SessionId, seq<SessionId>>, g: Grouping, sender: Sender,
        members: seq<SessionId>)
    requires RolesFit(before, g) && members != [] && forall m :: m in members ==> Ungrouped(g.st, m)
    ensures var r := GroupSender(e, g, sender, members);
            RolesFit(before, r) && forall m :: m in r.roles ==> m in g.roles || m in members
  {
    hide Preferred, RolesFit, IsMember;
    var g' := g.(st := Ticked(g.st));
    var preferred := Preferred(e, g.st, sender);
    TickRoles(before, g);
    if preferred != {} {
      AddToGroupRoles(before, g', e.choose(g.st.ticks, preferred), members);
    } else {
      forall m | m in members[1..] ensures Ungrouped(g.st, m) {
        assert m in members;
      }
      AddToGroupRoles(before, g, members[0], members[1..]);
    }
  }

  lemma TickRoles(before: map<SessionId, seq<SessionId>>, g: Grouping)
    requires RolesFit(before, g)
    ensures RolesFit(before, g.(st := Ticked(g.st)))
  {
  }

  /** Distinct free streams of one sender are recruits. */
  lemma SameSenderRecruits(e: Env, s: St, list: seq<Stream>, sender: Sender)
    requires DistinctIds(list) && forall p :: p in list ==> Free(s, p)
    ensures NoDuplicates(SameSender(e, s, list, sender))
    ensures forall m :: m in SameSender(e, s, list, sender) ==> Recruit(e, s, sender, m)
  {
    hide Unready;
    SameSenderDistinct(e, s, list, sender);
    forall m | m in SameSender(e, s, list, sender) ensures Recruit(e, s, sender, m) {
      var p :| p in list && p.id == m && StreamSender(e, s, p) == Some(sender);
      assert Free(s, p);
    }
  }

  lemma {:induction false} SameSenderDistinct(e: Env, s: St, list: seq<Stream>, sender: Sender)
    requires DistinctIds(list)
    ensures NoDuplicates(SameSender(e, s, list, sender))
    decreases |list|
  {
    if list != [] {
      SameSenderDistinct(e, s, list[1..], sender);
      assert list[0].id !in SameSender(e, s, list[1..], sender) by {
        forall p | p in list[1..] ensures p.id != list[0].id {
        }
      }
    }
  }

  lemma {:induction false} OtherSendersDistinct(e: Env, s: St, list: seq<Stream>, sender: Sender)
    requires DistinctIds(list)
    ensures DistinctIds(OtherSenders(e, s, list, sender))
    decreases |list|
  {
    if list != [] {
      OtherSendersDistinct(e, s, list[1..], sender);
      var rest := OtherSenders(e, s, list[1..], sender);
      forall i | 0 <= i < |rest| ensures rest[i].id != list[0].id {
        assert rest[i] in rest;
      }
    }
  }

  lemma {:induction false} GroupAllShape(e: Env, before: map<SessionId, seq<SessionId>>, g: Grouping, list: seq<Stream>)
    requires ValidEnv(e) && Shape(e, g.st) && PlayingReady(g.st) && DistinctIds(list)
    requires forall p :: p in list ==> Free(g.st, p)
    requires RolesFit(before, g)
    ensures var r := GroupAll(e, g, list);
            && Shape(e, r.st) && RolesFit(before, r) && r.roles.Keys <= g.roles.Keys + Ids(list)
    decreases |list|
  {
    hide Shape, Unready, ValidEnv, PlayingReady, GroupSender, IsMember, RolesFit;
    if list != [] {
      var p := list[0];
      match StreamSender(e, g.st, p)
      case None =>
        GroupAllShape(e, before, g, list[1..]);
        assert Ids(list[1..]) <= Ids(list);
      case Some(sender) =>
        var members := SameSender(e, g.st, list, sender);
        var others := OtherSenders(e, g.st, list, sender);
        assert p.id in members;
        SameSenderRecruits(e, g.st, list, sender);
        OtherSendersDistinct(e, g.st, list, sender);
        GroupSenderShape(e, g, sender, members);
        GroupSenderRoles(e, before, g, sender, members);
        var r := GroupSender(e, g, sender, members);
        GroupPlayingReady(g.st, r.st);
        forall q | q in others ensures Free(r.st, q) {
          OthersFree(e, g.st, list, sender, q);
          SameReady(g.st, r.st, q.id);
        }
        assert Ids(others) <= Ids(list);
        assert forall m :: m in members ==> m in Ids(list);
        GroupAllShape(e, before, r, others);
    }
  }

  lemma OthersFree(e: Env, s: St, list: seq<Stream>, sender: Sender, q: Stream)
    requires DistinctIds(list) && q in OtherSenders(e, s, list, sender)
    requires forall p :: p in list ==> Free(s, p)
    ensures Free(s, q) && Bystander(s, SameSender(e, s, list, sender), q.id)
  {
    hide Unready;
    var members := SameSender(e, s, list, sender);
    forall p | p in list && StreamSender(e, s, p) == Some(sender) ensures p.id != q.id {
      var i :| 0 <= i < |list| && list[i] == p;
      var j :| 0 <= j < |list| && list[j] == q;
      assert i != j;
    }
  }

  lemma GroupPlayingReady(s: St, t: St)
    requires PlayingReady(s) && t.sessions == s.sessions && t.channels == s.channels && t.cohorts == s.cohorts
    ensures PlayingReady(t)
  {
    hide Unready;
    forall id | id in t.sessions && t.sessions[id].observed == Playing ensures !Unready(t, id) {
      SameReady(s, t, id);
    }
  }

  // ---- A release ----

  lemma StartOneElsewhere(e: Env, before: St, s: St, launch: Launch, p: Stream)
    ensures var t := StartOne(e, before, s, launch, p);
            && t.sessions.Keys == s.sessions.Keys
            && (forall id :: id in s.sessions && id != p.id ==> t.sessions[id] == s.sessions[id])
            && (forall id :: id in s.sessions ==> t.sessions[id].observed == s.sessions[id].observed)
  {
    hide DelayOf, StartCommand, Send;
  }

  /** Sessions outside the list keep everything. */
  lemma {:induction false} StartAllElsewhere(e: Env, before: St, s: St, launch: Launch, list: seq<Stream>)
    ensures var t := StartAll(e, before, s, launch, list);
            && (forall id :: id in s.sessions && id !in Ids(list) ==> t.sessions[id] == s.sessions[id])
            && (forall id :: id in s.sessions ==> t.sessions[id].observed == s.sessions[id].observed)
    decreases |list|
  {
    hide StartOne;
    if list != [] {
      assert list[0].id in Ids(list);
      assert Ids(list[1..]) <= Ids(list);
      StartOneElsewhere(e, before, s, launch, list[0]);
      StartAllElsewhere(e, before, StartOne(e, before, s, launch, list[0]), launch, list[1..]);
    }
  }

  lemma StartOneReady(e: Env, before: St, s: St, launch: Launch, p: Stream)
    requires Ready(s, p) && LaunchOk(launch)
    ensures var t := StartOne(e, before, s, launch, p); p.id in t.sessions && !Unready(t, p.id)
  {
    hide StartOne, StartCommand, DelayOf, StartedSession, SameElsewhere;
    StartOneRoom(e, before, s, launch, p);
    StartCommandOk(e, before, launch, p);
    var t := StartOne(e, before, s, launch, p);
    StartedShape(s.sessions[p.id], DelayOf(e, before, launch.delays, launch.roles, p),
        StartCommand(e, before, launch, p));
    SameSessions(s, t, p.id);
  }

  lemma StartedShape(x: Session, delay: Option<nat>, c: Command)
    ensures var y := StartedSession(x, delay, c);
            y.zone == x.zone && y.generation == x.generation && y.observed == x.observed
  {
  }

  lemma StartOneShape(e: Env, before: St, s: St, launch: Launch, p: Stream, exempt: set<SessionId>)
    requires Core(e, s, exempt) && Ready(s, p) && LaunchOk(launch) && Shape(e, s)
    ensures Shape(e, StartOne(e, before, s, launch, p))
  {
    hide Core, Ready, Shape, StartOne, Unready, StartCommand, DelayOf;
    var t := StartOne(e, before, s, launch, p);
    ReadySession(s, p);
    StartOneReady(e, before, s, launch, p);
    StartOneIntent(e, before, s, launch, p);
    forall id | id in s.sessions ensures StaysFit(s, t, id) {
      assert SameWish(s.sessions[id], t.sessions[id]);
      if id != p.id {
        StartOneOther(e, before, s, launch, p, exempt, id);
      }
    }
    ShapeFrame(e, s, t);
  }

  lemma StartOneOther(e: Env, before: St, s: St, launch: Launch, p: Stream, exempt: set<SessionId>, id: SessionId)
    requires Core(e, s, exempt) && Ready(s, p) && id in s.sessions && id != p.id
    ensures var t := StartOne(e, before, s, launch, p); id in t.sessions && Unready(t, id) == Unready(s, id)
  {
    hide Rooms, Streams, RoomOk, ChannelOk, Bounded, StartOne, Idle, StartCommand, DelayOf, StartedSession, HasEntry;
    StartOneRoom(e, before, s, launch, p);
  }

  lemma {:induction false} StartAllShape(e: Env, before: St, s: St, launch: Launch, list: seq<Stream>,
        after: set<SessionId>)
    requires Core(e, s, after + Ids(list)) && LaunchOk(launch) && DistinctIds(list)
    requires forall p :: p in list ==> Ready(s, p) && Startable(s, p, after)
    requires Shape(e, s)
    ensures Shape(e, StartAll(e, before, s, launch, list))
    decreases |list|
  {
    hide Core, SameElsewhere, Ready, StartOne, Shape;
    if list != [] {
      var p := list[0];
      var rest := list[1..];
      var t := StartOne(e, before, s, launch, p);
      assert p.id in Ids(list);
      assert Ids(list) == Ids(rest) + {p.id};
      ReadySession(s, p);
      StartOneRoom(e, before, s, launch, p);
      StartOneCore(e, before, s, launch, p, after + Ids(list), after + Ids(rest));
      StartOneShape(e, before, s, launch, p, after + Ids(list));
      SameSessions(s, t, p.id);
      forall q | q in rest ensures Ready(t, q) && Startable(t, q, after) {
        assert q.id != p.id;
        ReadyElsewhere(e, s, t, p, q, after + Ids(list));
        ReadySession(s, q);
      }
      StartAllShape(e, before, t, launch, rest, after);
    }
  }

  /** A session that plays has been released, and a released stream's room is not preparing. */
  lemma PlayingIsReady(e: Env, s: St, exempt: set<SessionId>)
    requires Core(e, s, exempt)
    ensures PlayingReady(s)
  {
    hide ChannelOk, Bounded, HasEntry, Streams;
    forall id | id in s.sessions && s.sessions[id].observed == Playing ensures !Unready(s, id) {
      assert Room(e, s, id, exempt);
    }
  }

  lemma ReadyIsFree(s: St, p: Stream)
    requires Ready(s, p) && Ungrouped(s, p.id)
    ensures Free(s, p)
  {
  }

  /** The groups that a release plans, and the roles of their new members. */
  lemma PlanShape(e: Env, s: St, list: seq<Stream>, exempt: set<SessionId>)
    requires ValidEnv(e) && Core(e, s, exempt) && DistinctIds(list)
    requires forall p :: p in list ==> Ready(s, p) && Ungrouped(s, p.id)
    requires Forest(e, s)
    ensures var (t, launch) := PrepareLaunch(e, s, list);
            && Shape(e, t)
            && RolesFit(s.groups, Grouping(t, launch.roles)) && launch.roles.Keys <= Ids(list)
  {
    hide Core, Shape, SameDelays, Ready, GroupAll, CohortDelays, IsMember, HasEntry, ValidEnv, PlayingReady, RolesFit;
    var (t, launch) := PrepareLaunch(e, s, list);
    forall p | p in list ensures Free(s, p) {
      ReadyIsFree(s, p);
    }
    PlayingIsReady(e, s, exempt);
    NoRoles(s);
    var planned := PlanNativeGroups(e, s, list);
    if e.nativeGroups {
      GroupAllKeeps(e, Grouping(s, map[]), list);
      GroupAllShape(e, s.groups, Grouping(s, map[]), list);
    }
    SteadySame(planned.st, t);
    forall id | id in planned.st.sessions && !Ungrouped(planned.st, id) ensures StaysFit(planned.st, t, id) {
      assert Stays(planned.st, t, id);
    }
    ShapeFrame(e, planned.st, t);
    SameRoles(s.groups, planned, t);
  }

  lemma NoRoles(s: St)
    ensures RolesFit(s.groups, Grouping(s, map[]))
  {
  }

  lemma SameRoles(before: map<SessionId, seq<SessionId>>, g: Grouping, t: St)
    requires RolesFit(before, g) && t.groups == g.st.groups
    ensures RolesFit(before, Grouping(t, g.roles))
  {
  }

  // ---- Delays of a release ----

  lemma {:induction false} StartAllDelays(e: Env, before: St, s: St, launch: Launch, list: seq<Stream>)
    requires DistinctIds(list) && e.wav && forall p :: p in list ==> p.id in s.sessions
    ensures var t := StartAll(e, before, s, launch, list);
            forall p :: p in list ==>
              t.sessions[p.id].syncDelay == DelayOf(e, before, launch.delays, launch.roles, p).value
    decreases |list|
  {
    hide StartOne, DelayOf;
    if list != [] {
      var p := list[0];
      var t := StartOne(e, before, s, launch, p);
      assert DelayOf(e, before, launch.delays, launch.roles, p).Some? by {
        StartOneDelay(e, before, s, launch, p);
      }
      StartOneDelay(e, before, s, launch, p);
      StartAllElsewhere(e, before, t, launch, list[1..]);
      assert p.id !in Ids(list[1..]);
      StartAllDelays(e, before, t, launch, list[1..]);
    }
  }

  lemma StartOneDelay(e: Env, before: St, s: St, launch: Launch, p: Stream)
    requires e.wav && p.id in s.sessions
    ensures var delay := DelayOf(e, before, launch.delays, launch.roles, p);
            delay.Some? && StartOne(e, before, s, launch, p).sessions[p.id].syncDelay == delay.value
  {
    hide StartCommand, Send;
  }

  /** The streams of a release, as `sync_delays` sees them. */
  ghost predicate Fits(e: Env, s: St, t: St, launch: Launch, list: seq<Stream>) {
    && t.sessions == s.sessions
    && (forall p :: p in list ==> p.id in s.sessions && p.zone == s.sessions[p.id].zone && Ungrouped(s, p.id))
    && (forall i, j :: i in s.sessions && j in s.sessions && s.sessions[i].zone == s.sessions[j].zone ==> i == j)
    && launch.delays == CohortDelays(e, list, launch.roles) && launch.roles.Keys <= Ids(list)
    && RolesFit(s.groups, Grouping(t, launch.roles)) && Shape(e, t)
  }

  /** A new member gets its coordinator's delay, whether the coordinator is released with it
      or plays already. */
  lemma RoleDelay(e: Env, s: St, t: St, launch: Launch, list: seq<Stream>, c: SessionId, m: SessionId)
    requires Fits(e, s, t, launch, list) && e.wav && DistinctIds(list)
    requires c in t.groups && m in t.groups[c] && PairRole(launch.roles, c, m)
    ensures SharesDelay(StartAll(e, t, t, launch, list), c, m)
  {
    hide StartAll, CohortDelays, Unready;
    var u := StartAll(e, t, t, launch, list);
    var delays := launch.delays;
    StartAllDelays(e, t, t, launch, list);
    StartAllElsewhere(e, t, t, launch, list);
    assert Participant(e, t, c) && MemberOk(e, t, c, m);
    var zone := t.sessions[c].zone;
    var p :| p in list && p.id == m;
    assert u.sessions[m].syncDelay == At(delays, zone, t.sessions[c].syncDelay);
    assert c in launch.roles ==> MemberOk(e, t, launch.roles[c], c);
    if c in Ids(list) {
      var q :| q in list && q.id == c;
      assert zone in delays by {
        OwnDelay(e, list, launch.roles, q);
      }
    } else {
      assert zone !in delays by {
        ForeignDelay(e, list, launch.roles, zone);
      }
    }
  }

  lemma OwnDelay(e: Env, list: seq<Stream>, roles: map<SessionId, SessionId>, q: Stream)
    requires q in list && q.id !in roles
    ensures q.zone in CohortDelays(e, list, roles)
  {
  }

  lemma ForeignDelay(e: Env, list: seq<Stream>, roles: map<SessionId, SessionId>, zone: ZoneId)
    requires forall q :: q in list ==> q.zone != zone
    ensures zone !in CohortDelays(e, list, roles)
  {
  }

  lemma OldDelay(e: Env, s: St, t: St, launch: Launch, list: seq<Stream>, c: SessionId, m: SessionId)
    requires Fits(e, s, t, launch, list) && SameDelays(s) && OldPair(s.groups, c, m)
    ensures SharesDelay(StartAll(e, t, t, launch, list), c, m)
  {
    hide StartAll, CohortDelays, Unready, Shape, RolesFit;
    StartAllElsewhere(e, t, t, launch, list);
    assert SharesDelay(s, c, m);
    assert IsMember(s.groups, m);
  }

  lemma ReleaseDelays(e: Env, s: St, t: St, launch: Launch, list: seq<Stream>)
    requires Fits(e, s, t, launch, list) && SameDelays(s) && e.wav && DistinctIds(list)
    ensures SameDelays(StartAll(e, t, t, launch, list))
  {
    hide StartAll, Shape, SharesDelay;
    var u := StartAll(e, t, t, launch, list);
    forall c, m | c in u.groups && m in u.groups[c] ensures SharesDelay(u, c, m) {
      if OldPair(s.groups, c, m) {
        OldDelay(e, s, t, launch, list, c, m);
      } else {
        RoleDelay(e, s, t, launch, list, c, m);
      }
    }
  }

  // ---- Commands of a release ----

  /** The room of `p` joins at `target`, where the coordinator of its group is. */
  ghost predicate JoinsAt(t: St, p: Stream, target: ZoneId) {
    && target != p.zone
    && exists c :: c in t.groups && p.id in t.groups[c] && c in t.sessions && t.sessions[c].zone == target
  }

  ghost predicate DistinctZones(list: seq<Stream>) {
    forall i, j :: 0 <= i < j < |list| ==> list[i].zone != list[j].zone
  }

  lemma StartOneSends(e: Env, before: St, s: St, launch: Launch, p: Stream)
    requires p.zone in s.channels && s.channels[p.zone].unseen == []
    ensures var t := StartOne(e, before, s, launch, p);
            && t.channels[p.zone] == s.channels[p.zone].(unseen := [StartCommand(e, before, launch, p)])
            && (forall z :: z in s.channels && z != p.zone ==> t.channels[z] == s.channels[z])
  {
    hide StartCommand, DelayOf;
  }

  lemma {:induction false} StartAllSends(e: Env, before: St, s: St, launch: Launch, list: seq<Stream>)
    requires DistinctZones(list)
    requires forall p :: p in list ==> p.zone in s.channels && s.channels[p.zone].unseen == []
    ensures var t := StartAll(e, before, s, launch, list);
            && (forall p :: p in list ==>
                  t.channels[p.zone] == s.channels[p.zone].(unseen := [StartCommand(e, before, launch, p)]))
            && (forall z :: z in s.channels && (forall p :: p in list ==> p.zone != z) ==>
               t.channels[z] == s.channels[z])
    decreases |list|
  {
    hide StartOne, StartCommand;
    if list != [] {
      StartOneSends(e, before, s, launch, list[0]);
      StartAllSends(e, before, StartOne(e, before, s, launch, list[0]), launch, list[1..]);
    }
  }

  /** What the plan of a release makes of one of its streams. */
  lemma PlannedCommand(e: Env, s: St, t: St, launch: Launch, p: Stream)
    requires Shape(e, t) && RolesFit(s.groups, Grouping(t, launch.roles)) && Ungrouped(s, p.id)
    requires p.id in t.sessions && t.sessions[p.id].zone == p.zone && (launch.roles != map[] ==> launch.joins.Some?)
    requires forall i, j :: i in t.sessions && j in t.sessions && t.sessions[i].zone == t.sessions[j].zone ==> i == j
    ensures var c := StartCommand(e, t, launch, p);
            Starts(c, p) && if c.Join? then JoinsAt(t, p, c.coordinator) else !IsMember(t.groups, p.id)
  {
    hide Unready;
    if p.id in launch.roles {
      var c := launch.roles[p.id];
      assert Participant(e, t, c) && MemberOk(e, t, c, p.id);
    } else {
      forall d | d in t.groups ensures p.id !in t.groups[d] {
        assert p.id in t.groups[d] ==> OldPair(s.groups, d, p.id) || PairRole(launch.roles, d, p.id);
        assert OldPair(s.groups, d, p.id) ==> IsMember(s.groups, p.id);
      }
    }
  }

  lemma RolesWait(e: Env, s: St, list: seq<Stream>)
    ensures var (t, launch) := PrepareLaunch(e, s, list); launch.roles != map[] ==> launch.joins.Some?
  {
    hide PlanNativeGroups, CohortDelays;
  }

  lemma ReadyRoom(s: St, p: Stream)
    requires Ready(s, p)
    ensures p.id in s.sessions && s.sessions[p.id].zone == p.zone && s.sessions[p.id].wanted
    ensures p.zone in s.channels && s.channels[p.zone].unseen == []
  {
  }

  /** The rooms of a release join where the coordinator of their group is. */
  lemma ReleaseJoins(e: Env, s: St, t: St, launch: Launch, list: seq<Stream>)
    requires Shape(e, t) && RolesFit(s.groups, Grouping(t, launch.roles))
             && (launch.roles != map[] ==> launch.joins.Some?)
    requires t.sessions == s.sessions && t.channels == s.channels && NoSelfJoins(s) && DistinctIds(list)
    requires forall p :: p in list ==> Ready(s, p) && Ungrouped(s, p.id)
    requires forall i, j :: i in s.sessions && j in s.sessions && s.sessions[i].zone == s.sessions[j].zone ==> i == j
    ensures NoSelfJoins(StartAll(e, t, t, launch, list))
  {
    hide Shape, RolesFit, StartAll, Ready, StartCommand, IsMember;
    var u := StartAll(e, t, t, launch, list);
    ReleaseZones(s, list);
    StartAllSends(e, t, t, launch, list);
    forall z | z in u.channels ensures NoSelfJoin(z, u.channels[z]) {
      assert NoSelfJoin(z, s.channels[z]);
      if p :| p in list && p.zone == z {
        ReadyRoom(s, p);
        PlannedCommand(e, s, t, launch, p);
      }
    }
  }

  lemma ReleaseZones(s: St, list: seq<Stream>)
    requires DistinctIds(list) && forall p :: p in list ==> Ready(s, p)
    requires forall i, j :: i in s.sessions && j in s.sessions && s.sessions[i].zone == s.sessions[j].zone ==> i == j
    ensures DistinctZones(list) && forall p :: p in list ==> p.zone in s.channels && s.channels[p.zone].unseen == []
  {
    hide Ready;
    forall p | p in list ensures p.zone in s.channels && s.channels[p.zone].unseen == [] {
      ReadyRoom(s, p);
    }
    forall i, j | 0 <= i < j < |list| ensures list[i].zone != list[j].zone {
      ReadyRoom(s, list[i]);
      ReadyRoom(s, list[j]);
    }
  }

  lemma PlayPreparedForest(e: Env, s: St, list: seq<Stream>, exempt: set<SessionId>)
    requires ValidEnv(e) && Core(e, s, exempt + Ids(list)) && DistinctIds(list)
    requires forall p :: p in list ==> Ready(s, p) && Startable(s, p, exempt) && Ungrouped(s, p.id)
    requires Forest(e, s)
    ensures Forest(e, PlayPrepared(e, s, list))
  {
    hide Core, Shape, SameDelays, NoSelfJoins, Ready, Startable, StartAll, CohortDelays, IsMember, HasEntry,
         ValidEnv, RolesFit, PlanNativeGroups;
    var (t, launch) := PrepareLaunch(e, s, list);
    PrepareLaunchKeeps(e, s, list);
    CoreSame(e, s, t, exempt + Ids(list));
    PlanShape(e, s, list, exempt + Ids(list));
    forall p | p in list ensures Ready(t, p) && Startable(t, p, exempt) {
      ReadySame(s, t, p, exempt);
    }
    StartAllShape(e, t, t, launch, list, exempt);
    StartAllElsewhere(e, t, t, launch, list);
    OneZoneEach(e, s, exempt + Ids(list));
    RolesWait(e, s, list);
    ReleaseJoins(e, s, t, launch, list);
    if e.wav {
      forall p | p in list ensures p.id in s.sessions && p.zone == s.sessions[p.id].zone {
        ReadyIsFree(s, p);
      }
      ReleaseDelays(e, s, t, launch, list);
    }
  }

  lemma OneZoneEach(e: Env, s: St, exempt: set<SessionId>)
    requires Core(e, s, exempt)
    ensures forall i, j :: i in s.sessions && j in s.sessions && s.sessions[i].zone == s.sessions[j].zone ==> i == j
  {
    hide Rooms, Channels, Streams;
  }

  lemma TickForest(e: Env, s: St)
    requires Forest(e, s)
    ensures Forest(e, Ticked(s))
  {
    SteadySame(s, Ticked(s));
    ForestFrame(e, s, Ticked(s));
  }

  lemma ReadySame(s: St, t: St, p: Stream, exempt: set<SessionId>)
    requires Ready(s, p) && Startable(s, p, exempt)
    requires t.sessions == s.sessions && t.channels == s.channels && t.cohorts == s.cohorts
    ensures Ready(t, p) && Startable(t, p, exempt)
  {
  }
}
