/** Which group a release puts the rooms of a sender into. */
module BridgeGrouping {
  import opened BridgeState
  import opened BridgeHandlers
  import opened BridgeCore
  import opened BridgeMembers

  /** `x` coordinates the group of `c`, or is a member of it. */
  predicate InTree(groups: map<SessionId, seq<SessionId>>, c: SessionId, x: SessionId) {
    x == c || (c in groups && x in groups[c])
  }

  /** A Sonos room of the sender that already plays, or coordinates a group, and is no member. */
  ghost predicate Plays(e: Env, s: St, c: SessionId, sender: Sender) {
    && c in s.sessions && s.sessions[c].sender == Some(sender) && s.sessions[c].wanted
    && (s.sessions[c].observed == Playing || c in s.groups)
    && s.sessions[c].zone in e.renderers && e.renderers[s.sessions[c].zone].Sonos?
    && forall d :: d in s.groups ==> c !in s.groups[d]
  }

  /** A Sonos room of the sender is to start with `p`. */
  predicate Sends(e: Env, s: St, p: Stream, sender: Sender) {
    && p.zone in e.renderers && e.renderers[p.zone].Sonos?
    && p.id in s.sessions && s.sessions[p.id].sender == Some(sender)
  }

  /** A coordinator goes before a room that plays alone. */
  ghost predicate Best(e: Env, s: St, c: SessionId, sender: Sender) {
    Plays(e, s, c, sender) && ((exists d :: Plays(e, s, d, sender) && d in s.groups) ==> c in s.groups)
  }

  /** Every room of the sender that is to start is in the group of `c`. */
  ghost predicate AllIn(e: Env, s: St, groups: map<SessionId, seq<SessionId>>, list: seq<Stream>, sender: Sender,
                        c: SessionId)
  {
    forall p :: p in list && Sends(e, s, p, sender) ==> c in groups && p.id in groups[c]
  }

  ghost predicate Around(e: Env, s: St, groups: map<SessionId, seq<SessionId>>, list: seq<Stream>, sender: Sender,
                         c: SessionId)
  {
    forall p :: p in list && Sends(e, s, p, sender) ==> InTree(groups, c, p.id)
  }

  /** The rooms of the sender all join one that plays, a coordinator if there is one. If none
      plays, they form a group of their own. */
  ghost predicate SharesGroup(e: Env, s: St, groups: map<SessionId, seq<SessionId>>, list: seq<Stream>,
                              sender: Sender)
  {
    if exists c :: Plays(e, s, c, sender) then
      exists c :: Best(e, s, c, sender) && AllIn(e, s, groups, list, sender, c)
    else
      (exists p :: p in list && Sends(e, s, p, sender)) ==>
        exists q :: q in list && Sends(e, s, q, sender) && Around(e, s, groups, list, sender, q.id)
  }

  lemma PlaysEligible(e: Env, s: St, c: SessionId, sender: Sender)
    ensures Plays(e, s, c, sender) <==> Eligible(e, s, c, sender)
  {
  }

  lemma SendsSame(e: Env, s: St, p: Stream, sender: Sender)
    ensures Sends(e, s, p, sender) <==> StreamSender(e, s, p) == Some(sender)
  {
  }

  /** What the group of the sender's rooms is chosen from. */
  lemma PreferredPlays(e: Env, s: St, sender: Sender)
    ensures Preferred(e, s, sender) != {} <==> exists c :: Plays(e, s, c, sender)
    ensures forall c :: c in Preferred(e, s, sender) ==> Best(e, s, c, sender)
  {
    hide Plays, Eligible;
    forall c ensures Plays(e, s, c, sender) <==> Eligible(e, s, c, sender) {
      PlaysEligible(e, s, c, sender);
    }
    forall c | Plays(e, s, c, sender) ensures c in s.sessions && c in Candidates(e, s, sender) {
      PlaysSession(e, s, c, sender);
      assert c in s.groups ==> c in Coordinators(e, s, sender);
    }
    forall c | c in Preferred(e, s, sender) ensures Best(e, s, c, sender) {
      assert Plays(e, s, c, sender) by {
        assert Eligible(e, s, c, sender);
      }
      if d :| Plays(e, s, d, sender) && d in s.groups {
        assert d in Coordinators(e, s, sender);
      }
    }
  }

  lemma PlaysSession(e: Env, s: St, c: SessionId, sender: Sender)
    requires Plays(e, s, c, sender)
    ensures c in s.sessions && s.sessions[c].sender == Some(sender) && IsSonos(e, s.sessions[c].zone)
  {
  }

  /** The step for the sender itself. */
  lemma SenderShares(e: Env, g: Grouping, list: seq<Stream>, sender: Sender)
    requires ValidEnv(e) && SameSender(e, g.st, list, sender) != []
    ensures SharesGroup(e, g.st, GroupSender(e, g, sender, SameSender(e, g.st, list, sender)).st.groups, list, sender)
  {
    hide ValidEnv, Plays, Best, Sends, Preferred, SameSender, AllIn, Around;
    var members := SameSender(e, g.st, list, sender);
    var preferred := Preferred(e, g.st, sender);
    var r := GroupSender(e, g, sender, members);
    PreferredPlays(e, g.st, sender);
    if preferred != {} {
      var c := e.choose(g.st.ticks, preferred);
      Chosen(e, g.st.ticks, preferred);
      BestPlays(e, g.st, c, sender);
      PlaysSession(e, g.st, c, sender);
      MembersIn(e, g.st, r.st.groups, list, sender, c);
    } else {
      var q := FirstSent(e, g.st, list, sender);
      MembersAround(e, g.st, r.st.groups, list, sender, members[0]);
    }
  }

  lemma BestPlays(e: Env, s: St, c: SessionId, sender: Sender)
    requires Best(e, s, c, sender)
    ensures Plays(e, s, c, sender)
  {
  }

  lemma FirstSent(e: Env, s: St, list: seq<Stream>, sender: Sender) returns (q: Stream)
    requires SameSender(e, s, list, sender) != []
    ensures q in list && Sends(e, s, q, sender) && q.id == SameSender(e, s, list, sender)[0]
  {
    hide Sends;
    assert SameSender(e, s, list, sender)[0] in SameSender(e, s, list, sender);
    q :| q in list && q.id == SameSender(e, s, list, sender)[0] && StreamSender(e, s, q) == Some(sender);
    SendsSame(e, s, q, sender);
  }

  lemma MembersIn(e: Env, s: St, groups: map<SessionId, seq<SessionId>>, list: seq<Stream>, sender: Sender,
                  c: SessionId)
    requires c in groups && forall m :: m in SameSender(e, s, list, sender) ==> m in groups[c]
    ensures AllIn(e, s, groups, list, sender, c)
  {
    hide Sends;
    forall p | p in list && Sends(e, s, p, sender) ensures p.id in groups[c] {
      SendsSame(e, s, p, sender);
      assert p.id in SameSender(e, s, list, sender);
    }
  }

  lemma MembersAround(e: Env, s: St, groups: map<SessionId, seq<SessionId>>, list: seq<Stream>, sender: Sender,
                      c: SessionId)
    requires var members := SameSender(e, s, list, sender);
             && members != [] && members[0] == c
             && (|members| > 1 ==> c in groups && forall m :: m in members[1..] ==> m in groups[c])
    ensures Around(e, s, groups, list, sender, c)
  {
    hide Sends;
    var members := SameSender(e, s, list, sender);
    assert forall m :: m in members ==> m == members[0] || m in members[1..];
    forall p | p in list && Sends(e, s, p, sender) ensures InTree(groups, c, p.id) {
      SendsSame(e, s, p, sender);
      assert p.id in members;
    }
  }

  lemma Chosen(e: Env, tick: nat, ids: set<SessionId>)
    requires ValidEnv(e) && ids != {}
    ensures e.choose(tick, ids) in ids
  {
  }

  /** Later groups leave it as it is. */
  lemma SharesStays(e: Env, s: St, a: map<SessionId, seq<SessionId>>, b: map<SessionId, seq<SessionId>>,
                    list: seq<Stream>, sender: Sender)
    requires SharesGroup(e, s, a, list, sender) && Regrouped(a, b)
    ensures SharesGroup(e, s, b, list, sender)
  {
    hide Plays, Best, Sends;
    forall c ensures AllIn(e, s, a, list, sender, c) ==> AllIn(e, s, b, list, sender, c) {
    }
    forall c ensures Around(e, s, a, list, sender, c) ==> Around(e, s, b, list, sender, c) {
    }
  }

  /** The groups of other senders do not matter. */
  ghost predicate SameFor(s: St, t: St, sender: Sender) {
    && t.sessions == s.sessions
    && forall x :: x in s.sessions && s.sessions[x].sender == Some(sender) ==>
         (x in t.groups <==> x in s.groups) && (IsMember(t.groups, x) <==> IsMember(s.groups, x))
  }

  lemma AddSameFor(g: Grouping, c: SessionId, members: seq<SessionId>, other: Sender, sender: Sender)
    requires other != sender && c in g.st.sessions && g.st.sessions[c].sender == Some(other)
    requires forall m :: m in members ==> m in g.st.sessions && g.st.sessions[m].sender == Some(other)
    ensures SameFor(g.st, AddToGroup(g, c, members).st, sender)
  {
    var r := AddToGroup(g, c, members).st;
    forall x | x in g.st.sessions && g.st.sessions[x].sender == Some(sender)
      ensures IsMember(r.groups, x) <==> IsMember(g.st.groups, x)
    {
      if d :| d in r.groups && x in r.groups[d] {
        assert d in g.st.groups && x in g.st.groups[d];
      }
      if d :| d in g.st.groups && x in g.st.groups[d] {
        assert d in r.groups && x in r.groups[d];
      }
    }
  }

  lemma OtherSameFor(e: Env, g: Grouping, list: seq<Stream>, other: Sender, sender: Sender)
    requires ValidEnv(e) && other != sender && SameSender(e, g.st, list, other) != []
    ensures SameFor(g.st, GroupSender(e, g, other, SameSender(e, g.st, list, other)).st, sender)
  {
    hide ValidEnv, Preferred, AddToGroup, StreamSender, Plays, SameSender;
    var members := SameSender(e, g.st, list, other);
    var preferred := Preferred(e, g.st, other);
    PreferredPlays(e, g.st, other);
    forall m | m in members ensures m in g.st.sessions && g.st.sessions[m].sender == Some(other) {
      var p :| p in list && p.id == m && StreamSender(e, g.st, p) == Some(other);
      SendsSame(e, g.st, p, other);
    }
    var g' := g.(st := Ticked(g.st));
    if preferred != {} {
      var c := e.choose(g.st.ticks, preferred);
      Chosen(e, g.st.ticks, preferred);
      PlaysSession(e, g.st, c, other);
      AddSameFor(g', c, members, other, sender);
    } else if |members| > 1 {
      AddSameFor(g, members[0], members[1..], other, sender);
    }
  }

  lemma SharesFrom(e: Env, s: St, t: St, groups: map<SessionId, seq<SessionId>>, list: seq<Stream>, rest: seq<Stream>,
                   sender: Sender)
    requires SameFor(s, t, sender) && SharesGroup(e, t, groups, rest, sender)
    requires forall p :: Sends(e, s, p, sender) ==> (p in rest <==> p in list)
    ensures SharesGroup(e, s, groups, list, sender)
  {
    hide Plays, Sends, Best, AllIn, Around;
    SamePlays(e, s, t, sender);
    forall c
      ensures AllIn(e, t, groups, rest, sender, c) ==> AllIn(e, s, groups, list, sender, c)
      ensures Around(e, t, groups, rest, sender, c) ==> Around(e, s, groups, list, sender, c)
    {
      SameIn(e, s, t, groups, list, rest, sender, c);
    }
  }

  lemma SamePlays(e: Env, s: St, t: St, sender: Sender)
    requires SameFor(s, t, sender)
    ensures forall c :: Plays(e, t, c, sender) <==> Plays(e, s, c, sender)
    ensures forall c :: Best(e, t, c, sender) <==> Best(e, s, c, sender)
    ensures forall p :: Sends(e, t, p, sender) <==> Sends(e, s, p, sender)
  {
    forall c ensures Plays(e, t, c, sender) <==> Plays(e, s, c, sender) {
      PlaysEligible(e, s, c, sender);
      PlaysEligible(e, t, c, sender);
    }
    forall c | Plays(e, s, c, sender) ensures c in t.groups <==> c in s.groups {
    }
    hide Plays, IsMember;
  }

  lemma SameIn(e: Env, s: St, t: St, groups: map<SessionId, seq<SessionId>>, list: seq<Stream>, rest: seq<Stream>,
               sender: Sender, c: SessionId)
    requires forall p :: Sends(e, t, p, sender) <==> Sends(e, s, p, sender)
    requires forall p :: Sends(e, s, p, sender) ==> (p in rest <==> p in list)
    ensures AllIn(e, t, groups, rest, sender, c) ==> AllIn(e, s, groups, list, sender, c)
    ensures Around(e, t, groups, rest, sender, c) ==> Around(e, s, groups, list, sender, c)
  {
    hide Sends, InTree;
  }

  lemma {:induction false} GroupAllShares(e: Env, g: Grouping, list: seq<Stream>, sender: Sender)
    requires ValidEnv(e)
    ensures SharesGroup(e, g.st, GroupAll(e, g, list).st.groups, list, sender)
    decreases |list|
  {
    hide ValidEnv, GroupSender, StreamSender, SharesGroup, SameFor, Regrouped, Sends;
    if list == [] {
      NothingShared(e, g.st, g.st.groups, sender);
    } else {
      forall p, x: nat ensures Sends(e, g.st, p, x) <==> StreamSender(e, g.st, p) == Some(x) {
        SendsSame(e, g.st, p, x);
      }
      match StreamSender(e, g.st, list[0])
      case None =>
        GroupAllShares(e, g, list[1..], sender);
        Untouched(g.st, sender);
        SharesFrom(e, g.st, g.st, GroupAll(e, g, list).st.groups, list, list[1..], sender);
      case Some(other) =>
        var members := SameSender(e, g.st, list, other);
        assert list[0].id in members;
        var r := GroupSender(e, g, other, members);
        var rest := OtherSenders(e, g.st, list, other);
        if other == sender {
          SenderShares(e, g, list, sender);
          GroupAllRegroups(e, r, rest);
          SharesStays(e, g.st, r.st.groups, GroupAll(e, r, rest).st.groups, list, sender);
        } else {
          OtherSameFor(e, g, list, other, sender);
          GroupAllShares(e, r, rest, sender);
          SharesFrom(e, g.st, r.st, GroupAll(e, r, rest).st.groups, list, rest, sender);
        }
    }
  }

  lemma Untouched(s: St, sender: Sender)
    ensures SameFor(s, s, sender)
  {
  }

  lemma NothingShared(e: Env, s: St, groups: map<SessionId, seq<SessionId>>, sender: Sender)
    ensures SharesGroup(e, s, groups, [], sender)
  {
    hide Plays, Best, Sends, Preferred;
    PreferredPlays(e, s, sender);
    if c :| Plays(e, s, c, sender) {
      var d :| d in Preferred(e, s, sender);
    }
  }

  /** With native groups, the Sonos rooms of each sender that a release starts share one group: that
      of a room that plays already, if there is one. */
  lemma SendersShareGroups(e: Env, s: St, list: seq<Stream>, sender: Sender)
    requires ValidEnv(e) && e.nativeGroups
    ensures SharesGroup(e, s, PlayPrepared(e, s, list).groups, list, sender)
  {
    hide ValidEnv, GroupAll, CohortDelays, StartAll, SharesGroup;
    GroupAllShares(e, Grouping(s, map[]), list, sender);
  }

  /** Without native groups a release leaves the groups alone. */
  lemma NoNativeGroups(e: Env, s: St, list: seq<Stream>)
    requires !e.nativeGroups
    ensures PlayPrepared(e, s, list).groups == s.groups
  {
    hide CohortDelays, StartAll;
  }
}
