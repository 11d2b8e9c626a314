/** `BridgeRuntime` as the source has it: one object whose handlers update its fields in place.
    Every method is proved to compute a function of BridgeHandlers, so what holds of runs of
    those functions holds of runs of this object. */
module BridgeRuntimeClass {
  import opened BridgeState
  import opened BridgeHandlers
  import opened BridgeSteps

  // ---- The senders of a release, in the order in which they first appear ----

  datatype Party = Party(sender: Sender, rooms: seq<SessionId>)

  function Parties(e: Env, s: St, list: seq<Stream>): (r: seq<Party>)
    ensures forall i :: 0 <= i < |r| ==> r[i].rooms != []
    decreases |list|
  {
    if list == [] then []
    else
      match StreamSender(e, s, list[0])
      case None => Parties(e, s, list[1..])
      case Some(sender) =>
        assert list[0].id in SameSender(e, s, list, sender);
        [Party(sender, SameSender(e, s, list, sender))] + Parties(e, s, OtherSenders(e, s, list, sender))
  }

  /** The parties once `id` of `sender` appears: in its party, or in a new one. */
  function WithRoom(parties: seq<Party>, sender: Sender, id: SessionId): seq<Party> {
    if parties == [] then [Party(sender, [id])]
    else if parties[0].sender == sender then [parties[0].(rooms := parties[0].rooms + [id])] + parties[1..]
    else [parties[0]] + WithRoom(parties[1..], sender, id)
  }

  lemma {:induction false} WithRoomAt(parties: seq<Party>, sender: Sender, id: SessionId, i: nat)
    requires i <= |parties| && forall k :: 0 <= k < i ==> parties[k].sender != sender
    requires i < |parties| ==> parties[i].sender == sender
    ensures WithRoom(parties, sender, id) ==
            if i == |parties| then parties + [Party(sender, [id])]
            else parties[i := parties[i].(rooms := parties[i].rooms + [id])]
    decreases |parties|
  {
    if parties != [] && i > 0 {
      WithRoomAt(parties[1..], sender, id, i - 1);
    }
  }

  lemma {:induction false} SameAppend(e: Env, s: St, list: seq<Stream>, p: Stream, sender: Sender)
    ensures SameSender(e, s, list + [p], sender) ==
            SameSender(e, s, list, sender) + (if StreamSender(e, s, p) == Some(sender) then [p.id] else [])
    decreases |list|
  {
    hide StreamSender;
    if list == [] {
      assert list + [p] == [p] && [p][1..] == [];
    } else {
      SameAppend(e, s, list[1..], p, sender);
      assert (list + [p])[1..] == list[1..] + [p];
    }
  }

  lemma {:induction false} OthersAppend(e: Env, s: St, list: seq<Stream>, p: Stream, sender: Sender)
    ensures OtherSenders(e, s, list + [p], sender) ==
            OtherSenders(e, s, list, sender) + (if StreamSender(e, s, p) == Some(sender) then [] else [p])
    decreases |list|
  {
    hide StreamSender;
    if list == [] {
      assert list + [p] == [p] && [p][1..] == [];
    } else {
      OthersAppend(e, s, list[1..], p, sender);
      assert (list + [p])[1..] == list[1..] + [p] && (list + [p])[0] == list[0];
      var rest := OtherSenders(e, s, list[1..], sender);
      var more := if StreamSender(e, s, p) == Some(sender) then [] else [p];
      assert ([list[0]] + rest) + more == [list[0]] + (rest + more);
    }
  }

  /** One pass over the streams finds the parties. */
  lemma {:induction false} PartiesAppend(e: Env, s: St, list: seq<Stream>, p: Stream)
    ensures Parties(e, s, list + [p]) ==
            match StreamSender(e, s, p)
            case None => Parties(e, s, list)
            case Some(sender) => WithRoom(Parties(e, s, list), sender, p.id)
    decreases |list|
  {
    hide StreamSender, SameSender, OtherSenders;
    if list == [] {
      assert list + [p] == [p] && [p][1..] == [];
      assert StreamSender(e, s, p).Some? ==> SameSender(e, s, [p], StreamSender(e, s, p).value) == [p.id] by {
        if StreamSender(e, s, p).Some? {
          SameAppend(e, s, [], p, StreamSender(e, s, p).value);
          NoSenders(e, s, StreamSender(e, s, p).value);
          assert [] + [p] == [p];
        }
      }
    } else {
      assert (list + [p])[1..] == list[1..] + [p] && (list + [p])[0] == list[0];
      match StreamSender(e, s, list[0])
      case None => PartiesAppend(e, s, list[1..], p);
      case Some(sender) =>
        SameAppend(e, s, list, p, sender);
        OthersAppend(e, s, list, p, sender);
        var others := OtherSenders(e, s, list, sender);
        assert list[0].id in SameSender(e, s, list, sender);
        PartiesAppend(e, s, others, p);
        PartiesStep(e, s, list, sender);
        PartiesStep(e, s, list + [p], sender);
        var same := SameSender(e, s, list, sender);
        assert others + [] == others && same + [] == same;
        assert Parties(e, s, list)[1..] == Parties(e, s, others);
    }
  }

  lemma PartiesStep(e: Env, s: St, list: seq<Stream>, sender: Sender)
    requires list != [] && StreamSender(e, s, list[0]) == Some(sender)
    ensures Parties(e, s, list) ==
            [Party(sender, SameSender(e, s, list, sender))] + Parties(e, s, OtherSenders(e, s, list, sender))
  {
    hide StreamSender;
    assert list[0].id in SameSender(e, s, list, sender);
  }

  lemma NoSenders(e: Env, s: St, sender: Sender)
    ensures SameSender(e, s, [], sender) == [] && OtherSenders(e, s, [], sender) == []
  {
  }

  lemma {:induction false} SameSplit(e: Env, s: St, t: St, list: seq<Stream>, sender: Sender)
    requires t.sessions == s.sessions
    ensures SameSender(e, t, list, sender) == SameSender(e, s, list, sender)
    ensures OtherSenders(e, t, list, sender) == OtherSenders(e, s, list, sender)
    decreases |list|
  {
    if list != [] {
      SameSplit(e, s, t, list[1..], sender);
    }
  }

  lemma {:induction false} SameParties(e: Env, s: St, t: St, list: seq<Stream>)
    requires t.sessions == s.sessions
    ensures Parties(e, t, list) == Parties(e, s, list)
    decreases |list|
  {
    if list != [] {
      match StreamSender(e, s, list[0])
      case None => SameParties(e, s, t, list[1..]);
      case Some(sender) =>
        SameSplit(e, s, t, list, sender);
        assert list[0].id in SameSender(e, s, list, sender);
        SameParties(e, s, t, OtherSenders(e, s, list, sender));
    }
  }

  /** Groups each party in turn. */
  function GroupEach(e: Env, g: Grouping, parties: seq<Party>): Grouping
    requires forall i :: 0 <= i < |parties| ==> parties[i].rooms != []
    decreases |parties|
  {
    if parties == [] then g
    else GroupEach(e, GroupSender(e, g, parties[0].sender, parties[0].rooms), parties[1..])
  }

  lemma {:induction false} GroupAllParties(e: Env, g: Grouping, list: seq<Stream>)
    ensures GroupAll(e, g, list) == GroupEach(e, g, Parties(e, g.st, list))
    decreases |list|
  {
    hide GroupSender;
    if list != [] {
      match StreamSender(e, g.st, list[0])
      case None => GroupAllParties(e, g, list[1..]);
      case Some(sender) =>
        var members := SameSender(e, g.st, list, sender);
        var others := OtherSenders(e, g.st, list, sender);
        assert list[0].id in members;
        var r := GroupSender(e, g, sender, members);
        GroupSenderKeeps(e, g, sender, members);
        SameParties(e, g.st, r.st, others);
        GroupAllParties(e, r, others);
        var parties := Parties(e, g.st, list);
        assert parties[0] == Party(sender, members) && parties[1..] == Parties(e, g.st, others);
    }
  }

  class BridgeRuntime {
    const env: Env
    var sessions: map<SessionId, Session>
    var nextGeneration: nat
    var syncCohort: Option<Cohort>
    var pendingCohorts: seq<Cohort>
    var nativeGroups: map<SessionId, seq<SessionId>>
    var channels: map<ZoneId, Channel>
    var plans: map<nat, Plan>
    var joins: nat
    var ticks: nat
    ghost var issued: seq<Owner>
    ghost var wakes: set<nat>
    ghost var released: map<nat, nat>

    /** Between handlers, a cohort is pending only behind an active one. */
    ghost predicate Valid()
      reads this
    {
      nextGeneration == |issued| && (syncCohort.None? ==> pendingCohorts == [])
    }

    ghost function Cohorts(): seq<Cohort>
      reads this
    {
      (if syncCohort.Some? then [syncCohort.value] else []) + pendingCohorts
    }

    ghost function State(): St
      reads this
    {
      St(sessions, issued, Cohorts(), nativeGroups, channels, plans, joins, released, wakes, ticks)
    }

    constructor (env: Env)
      ensures Valid() && this.env == env
      ensures State() == St(map[], [], [], map[],
              map z | z in env.renderers :: Channel([], None, None, false, false, multiset{}),
                            map[], 0, map[], {}, 0)
    {
      this.env := env;
      sessions, nextGeneration, syncCohort, pendingCohorts, nativeGroups := map[], 0, None, [], map[];
      channels := map z | z in env.renderers :: Channel([], None, None, false, false, multiset{});
      plans, joins, ticks := map[], 0, 0;
      issued, wakes, released := [], {}, map[];
    }

    method Instant() returns (now: nat)
      modifies this`ticks
      ensures now == Now(env, old(State())) && State() == Ticked(old(State()))
    {
      now := env.clock(ticks);
      ticks := ticks + 1;
    }

    method Command(zone: ZoneId, command: Command)
      modifies this`channels
      ensures State() == Send(old(State()), zone, command)
    {
      if zone in channels {
        var ch := channels[zone];
        channels := channels[zone := ch.(unseen := ch.unseen + [command])];
      }
    }

    method CancelDownstreamRetry(id: SessionId)
      modifies this`sessions
      ensures State() == CancelRetry(old(State()), id)
    {
      if id in sessions {
        sessions := sessions[id := sessions[id].(timer := None)];
      }
    }

    method ScheduleDownstreamRetry(id: SessionId) returns (armed: bool)
      modifies this`sessions
      ensures State() == ScheduleRetry(old(State()), id)
      ensures armed == (id in old(sessions) && old(sessions)[id].attempts < RETRY_BUDGET)
    {
      CancelDownstreamRetry(id);
      if id !in sessions {
        return false;
      }
      var x := sessions[id];
      if x.attempts >= RETRY_BUDGET {
        sessions := sessions[id := x.(resetNeeded := true)];
        return false;
      }
      sessions := sessions[id := x.(attempts := x.attempts + 1, timer := Some(x.generation))];
      return true;
    }

    method NextDownstreamGeneration(id: SessionId) returns (generation: nat)
      requires nextGeneration == |issued| && id in sessions
      modifies this`sessions, this`nextGeneration, this`issued
      ensures nextGeneration == |issued| && State() == NextGeneration(old(State()), id) && generation == |issued|
    {
      nextGeneration := nextGeneration + 1;
      issued := issued + [Owner(id, sessions[id].zone)];
      sessions := sessions[id := sessions[id].(generation := nextGeneration)];
      generation := nextGeneration;
    }

    method ForgetNativeMember(id: SessionId)
      modifies this`nativeGroups
      ensures State() == old(State()).(groups := ForgetMember(old(nativeGroups), id))
    {
      var rest := nativeGroups.Keys;
      while rest != {}
        invariant nativeGroups.Keys == old(nativeGroups).Keys && rest <= nativeGroups.Keys
        invariant forall c :: c in nativeGroups ==>
          nativeGroups[c] == if c in rest then old(nativeGroups)[c] else Without(old(nativeGroups)[c], id)
        decreases |rest|
      {
        var c :| c in rest;
        nativeGroups := nativeGroups[c := Without(nativeGroups[c], id)];
        rest := rest - {c};
      }
      assert nativeGroups == ForgetMember(old(nativeGroups), id);
    }

    // ---- Cohorts ----

    /** Takes a prior generation of `id` out of every cohort. */
    method RemoveFromCohorts(id: SessionId)
      modifies this`syncCohort, this`pendingCohorts
      ensures Cohorts() == RemoveFromAll(old(Cohorts()), id) && syncCohort.Some? == old(syncCohort).Some?
    {
      if syncCohort.Some? {
        syncCohort := Some(RemoveFrom(syncCohort.value, id));
      }
      ghost var active := syncCohort;
      var i := 0;
      while i < |pendingCohorts|
        invariant i <= |pendingCohorts| == |old(pendingCohorts)| && syncCohort == active
        invariant forall k :: 0 <= k < |pendingCohorts| ==>
          pendingCohorts[k] == if k < i then RemoveFrom(old(pendingCohorts)[k], id) else old(pendingCohorts)[k]
      {
        pendingCohorts := pendingCohorts[i := RemoveFrom(pendingCohorts[i], id)];
        i := i + 1;
      }
      ghost var q := old(Cohorts());
      forall k | 0 <= k < |q| ensures Cohorts()[k] == RemoveFrom(q[k], id) {
      }
      assert Cohorts() == RemoveFromAll(q, id);
    }

    method AddSessionToSyncCohort(id: SessionId)
      requires Valid()
      modifies this`syncCohort, this`pendingCohorts, this`ticks, this`wakes
      ensures Valid() && State() == AddToCohort(env, old(State()), id)
    {
      hide RemoveFromAll, RemoveFrom;
      RemoveFromCohorts(id);
      ghost var q := Cohorts();
      var now := Instant();
      if pendingCohorts != [] && now < pendingCohorts[|pendingCohorts| - 1].windowDeadline
         && now < pendingCohorts[|pendingCohorts| - 1].startDeadline {
        var last := pendingCohorts[|pendingCohorts| - 1];
        pendingCohorts := pendingCohorts[..|pendingCohorts| - 1] + [last.(sessions := last.sessions + [id])];
        assert Cohorts() == q[|q| - 1 := last.(sessions := last.sessions + [id])];
      } else if pendingCohorts == [] && syncCohort.Some? && now < syncCohort.value.windowDeadline
                && now < syncCohort.value.startDeadline {
        syncCohort := Some(syncCohort.value.(sessions := syncCohort.value.sessions + [id]));
        assert Cohorts() == q[|q| - 1 := syncCohort.value];
      } else {
        var cohort := Cohort(now + env.window, now + env.deadline, [id], map[]);
        if syncCohort.None? {
          syncCohort := Some(cohort);
        } else {
          pendingCohorts := pendingCohorts + [cohort];
        }
        wakes := wakes + {now + env.window, now + env.deadline};
        assert Cohorts() == q + [cohort];
      }
    }

    method RetainWanted(ids: seq<SessionId>) returns (kept: seq<SessionId>)
      ensures kept == Keep(ids, WantedIds(State()))
    {
      kept := [];
      var i := |ids|;
      while i > 0
        invariant 0 <= i <= |ids| && kept == Keep(ids[i..], WantedIds(State()))
      {
        i := i - 1;
        assert ids[i..][1..] == ids[i + 1..];
        if ids[i] in sessions && sessions[ids[i]].wanted {
          kept := [ids[i]] + kept;
        }
      }
    }

    method CollectPrepared(cohort: Cohort) returns (list: seq<Stream>)
      ensures list == StreamsOf(cohort.sessions, cohort.prepared)
    {
      list := [];
      var i := |cohort.sessions|;
      while i > 0
        invariant 0 <= i <= |cohort.sessions| && list == StreamsOf(cohort.sessions[i..], cohort.prepared)
      {
        i := i - 1;
        assert cohort.sessions[i..][1..] == cohort.sessions[i + 1..];
        if cohort.sessions[i] in cohort.prepared {
          list := [cohort.prepared[cohort.sessions[i]]] + list;
        }
      }
    }

    method MaybeStartSyncCohort(force: bool)
      requires Valid()
      modifies this`sessions, this`syncCohort, this`pendingCohorts, this`nativeGroups, this`channels, this`plans,
               this`joins, this`ticks
      ensures Valid() && State() == MaybeStart(env, old(State()), force)
    {
      hide MaybeStart;
      var more := true;
      while more
        invariant nextGeneration == |issued|
        invariant if more then MaybeStart(env, State(), force) == MaybeStart(env, old(State()), force)
                  else Valid() && State() == MaybeStart(env, old(State()), force)
        decreases more, |Cohorts()|
      {
        more := StartFront(force);
      }
    }

    /** One turn of the queue: whether a further cohort may be due. */
    method StartFront(force: bool) returns (more: bool)
      requires nextGeneration == |issued|
      modifies this`sessions, this`syncCohort, this`pendingCohorts, this`nativeGroups, this`channels, this`plans,
               this`joins, this`ticks
      ensures if more then |Cohorts()| < |old(Cohorts())|
              && MaybeStart(env, State(), force) == MaybeStart(env, old(State()), force)
              else Valid() && State() == MaybeStart(env, old(State()), force)
    {
      hide PlayPrepared, Keep, StreamsOf, WantedIds, ShouldStart, MaybeStart, Pruned;
      ghost var s := State();
      MaybeStartBy(env, s, force);
      if syncCohort.None? {
        if pendingCohorts == [] {
          return false;
        }
        syncCohort, pendingCohorts := Some(pendingCohorts[0]), pendingCohorts[1..];
      }
      assert Cohorts() == s.cohorts && s.cohorts[1..] == pendingCohorts && s.cohorts[0] == syncCohort.value;
      assert State() == s;
      var cohort := Prune(syncCohort.value);
      syncCohort := Some(cohort);
      if cohort.sessions == [] {
        syncCohort := None;
        assert State() == s.(cohorts := s.cohorts[1..]);
        return true;
      }
      var now := Instant();
      if !ShouldStart(cohort, now, force) {
        assert State() == Ticked(s).(cohorts := [cohort] + s.cohorts[1..]);
        return false;
      }
      var list := CollectPrepared(cohort);
      syncCohort := None;
      assert State() == Ticked(s).(cohorts := s.cohorts[1..]);
      PlayPreparedDownstreams(list);
      return true;
    }

    method Prune(cohort: Cohort) returns (r: Cohort)
      ensures r == Pruned(State(), cohort)
    {
      hide Keep, WantedIds;
      var kept := RetainWanted(cohort.sessions);
      var prepared := map id | id in cohort.prepared && id in kept && id in sessions
                               && sessions[id].generation == cohort.prepared[id].generation :: cohort.prepared[id];
      r := cohort.(sessions := kept, prepared := prepared);
    }

    // ---- Native groups ----

    method FindParties(list: seq<Stream>) returns (parties: seq<Party>)
      ensures parties == Parties(env, State(), list)
    {
      hide StreamSender, SameSender, OtherSenders, Parties;
      parties := [];
      var i := 0;
      NoParties(env, State());
      while i < |list|
        invariant i <= |list| && parties == Parties(env, State(), list[..i])
      {
        var p := list[i];
        assert list[..i + 1] == list[..i] + [p];
        PartiesAppend(env, State(), list[..i], p);
        match SenderOf(p) {
          case None =>
          case Some(sender) => parties := AddToParty(parties, sender, p.id);
        }
        i := i + 1;
      }
      assert list[..i] == list;
    }

    static method AddToParty(parties: seq<Party>, sender: Sender, id: SessionId) returns (r: seq<Party>)
      ensures r == WithRoom(parties, sender, id)
    {
      var i := 0;
      while i < |parties| && parties[i].sender != sender
        invariant i <= |parties| && forall k :: 0 <= k < i ==> parties[k].sender != sender
      {
        i := i + 1;
      }
      WithRoomAt(parties, sender, id, i);
      if i == |parties| {
        r := parties + [Party(sender, [id])];
      } else {
        r := parties[i := parties[i].(rooms := parties[i].rooms + [id])];
      }
    }

    function SenderOf(p: Stream): (r: Option<Sender>)
      reads this
      ensures r == StreamSender(env, State(), p)
    {
      if IsSonos(env, p.zone) && p.id in sessions then sessions[p.id].sender else None
    }

    method PlanGroups(list: seq<Stream>) returns (roles: map<SessionId, SessionId>)
      modifies this`nativeGroups, this`ticks
      ensures Grouping(State(), roles) == PlanNativeGroups(env, old(State()), list)
    {
      hide StreamSender, Preferred, AddToGroup;
      roles := map[];
      if !env.nativeGroups {
        return;
      }
      var parties := FindParties(list);
      GroupAllParties(env, Grouping(State(), map[]), list);
      ghost var result := GroupAll(env, Grouping(State(), map[]), list);
      var i := 0;
      while i < |parties|
        invariant i <= |parties| && parties == Parties(env, old(State()), list)
        invariant GroupEach(env, Grouping(State(), roles), parties[i..]) == result
      {
        var party := parties[i];
        assert parties[i..][0] == party && parties[i..][1..] == parties[i + 1..];
        roles := PlanParty(party, roles);
        i := i + 1;
      }
    }

    method PlanParty(party: Party, roles: map<SessionId, SessionId>) returns (r: map<SessionId, SessionId>)
      requires party.rooms != []
      modifies this`nativeGroups, this`ticks
      ensures Grouping(State(), r) == GroupSender(env, Grouping(old(State()), roles), party.sender, party.rooms)
    {
      var members := party.rooms;
      var coordinator: SessionId;
      var playing := PlayingSonosSession(party.sender);
      match playing {
        case Some(c) => coordinator := c;
        case None =>
          if |members| <= 1 {
            return roles;
          }
          coordinator, members := members[0], members[1..];
      }
      if playing.Some? && !(coordinator in sessions && IsSonos(env, sessions[coordinator].zone)) {
        return roles;
      }
      nativeGroups := nativeGroups[coordinator := MembersOf(nativeGroups, coordinator) + members];
      r := roles + map m | m in members :: coordinator;
    }

    method PlayingSonosSession(sender: Sender) returns (r: Option<SessionId>)
      modifies this`ticks
      ensures var preferred := Preferred(env, old(State()), sender);
              if preferred == {} then r == None && State() == old(State())
              else r == Some(env.choose(old(ticks), preferred)) && State() == Ticked(old(State()))
    {
      ghost var s := State();
      var rooms := set id | id in sessions && MayLead(id, sender);
      var leaders := set id | id in rooms && id in nativeGroups;
      assert rooms == Candidates(env, s, sender) && leaders == Coordinators(env, s, sender);
      var preferred := if leaders != {} then leaders else rooms;
      if preferred == {} {
        return None;
      }
      r := Some(env.choose(ticks, preferred));
      ticks := ticks + 1;
    }

    predicate MayLead(id: SessionId, sender: Sender)
      reads this
      ensures MayLead(id, sender) == Eligible(env, State(), id, sender)
    {
      && id in sessions && sessions[id].sender == Some(sender) && sessions[id].wanted
      && (sessions[id].observed == Playing || id in nativeGroups)
      && IsSonos(env, sessions[id].zone)
      && !IsMember(nativeGroups, id)
    }

    // ---- Release ----

    /** The delay of every stream, before any session records its own. */
    method SyncDelays(list: seq<Stream>, roles: map<SessionId, SessionId>) returns (delays: seq<Option<nat>>)
      ensures |delays| == |list|
      ensures forall i :: 0 <= i < |list| ==>
                delays[i] == DelayOf(env, State(), CohortDelays(env, list, roles), roles, list[i])
    {
      hide CohortDelays;
      var cohortDelays := CohortDelays(env, list, roles);
      delays := [];
      while |delays| < |list|
        invariant |delays| <= |list|
        invariant forall i :: 0 <= i < |delays| ==> delays[i] == DelayOf(env, State(), cohortDelays, roles, list[i])
      {
        var p := list[|delays|];
        var delay := None;
        if env.wav {
          if p.id !in roles {
            delay := Some(At(cohortDelays, p.zone, 0));
          } else if roles[p.id] in sessions {
            var coordinator := sessions[roles[p.id]];
            delay := Some(At(cohortDelays, coordinator.zone, coordinator.syncDelay));
          } else {
            delay := Some(0);
          }
        }
        delays := delays + [delay];
      }
    }

    method PlayPreparedDownstreams(list: seq<Stream>)
      modifies this`sessions, this`nativeGroups, this`channels, this`plans, this`joins, this`ticks
      ensures State() == PlayPrepared(env, old(State()), list)
    {
      hide DelayOf, StartCommand, CohortDelays, PlanNativeGroups, StartOne;
      ghost var s := State();
      var roles := PlanGroups(list);
      var delays := SyncDelays(list, roles);
      ghost var planned := State();
      var now := Instant();
      var cutoff := now + SYNC_START_LEAD;
      var group := if roles != map[] then Some(joins) else None;
      joins := if roles != map[] then joins + 1 else joins;
      ghost var before := State();
      var roomsAtRelease := sessions;
      ghost var launch := Launch(CohortDelays(env, list, roles), roles, group, cutoff);
      assert PrepareLaunch(env, s, list) == (before, launch);
      forall k | 0 <= k < |list| ensures delays[k] == DelayOf(env, before, launch.delays, roles, list[k]) {
        SameDelay(env, planned, before, launch.delays, roles, list[k]);
      }
      var i := 0;
      while i < |list|
        invariant i <= |list|
        invariant StartAll(env, before, State(), launch, list[i..]) == StartAll(env, before, before, launch, list)
      {
        assert list[i..][0] == list[i] && list[i..][1..] == list[i + 1..];
        StartStream(list[i], delays[i], roles, roomsAtRelease, group, cutoff, before, launch);
        i := i + 1;
      }
    }

    method StartStream(p: Stream, delay: Option<nat>, roles: map<SessionId, SessionId>, rooms: map<SessionId, Session>,
                       group: Option<nat>, cutoff: nat, ghost before: St, ghost launch: Launch)
      requires launch == Launch(launch.delays, roles, group, cutoff) && before.sessions == rooms
      requires delay == DelayOf(env, before, launch.delays, roles, p)
      modifies this`sessions, this`channels, this`plans
      ensures State() == StartOne(env, before, old(State()), launch, p)
    {
      hide DelayOf, Send;
      if delay.Some? && p.id in sessions {
        sessions := sessions[p.id := sessions[p.id].(syncDelay := delay.value)];
      }
      var command;
      if p.id in roles && IsSonos(env, p.zone) && group.Some? {
        if p.id in sessions && sessions[p.id].prepared.Some? {
          sessions := sessions[p.id := sessions[p.id].(held := delay)];
        }
        var coordinator := roles[p.id];
        var target := if coordinator in rooms then rooms[coordinator].zone else p.zone;
        command := Join(p.id, p.generation, group.value, target);
      } else if group.Some? {
        command := PlayGroup(p.id, p.generation, group.value, delay);
      } else {
        if delay.Some? {
          plans := plans[p.generation := Plan(cutoff, delay.value, None)];
        }
        command := Play(p.id, p.generation);
      }
      assert command == StartCommand(env, before, launch, p);
      if p.id in sessions {
        assert sessions == old(sessions)[p.id := StartedSession(old(sessions)[p.id], delay, command)];
      }
      Command(p.zone, command);
    }

    // ---- Restart ----

    method LeaveNativeGroup(id: SessionId)
      requires Valid()
      modifies this
      ensures Valid() && State() == LeaveGroup(env, old(State()), id)
      decreases Load(State()), 1
    {
      hide Load, Restart, RestartMembers, Detach, Detached;
      ghost var s := State();
      ForgetNativeMember(id);
      var members := MembersOf(nativeGroups, id);
      nativeGroups := nativeGroups - {id};
      assert State() == Detach(s, id) && members == Detached(s, id) by {
        Detaching(s, id);
      }
      DetachLoad(s, id);
      var i := 0;
      while i < |members|
        invariant i <= |members| && Valid()
        invariant RestartMembers(env, State(), members[i..]) == LeaveGroup(env, s, id)
        invariant Load(State()) + |members| - i <= Load(s)
      {
        RestartFirst(env, State(), members[i..]);
        assert members[i..][0] == members[i] && members[i..][1..] == members[i + 1..];
        if members[i] in sessions && sessions[members[i]].wanted {
          RestartDownstreamForPlay(members[i]);
        }
        i := i + 1;
      }
      NothingToRestart(env, State(), members[i..]);
    }

    method RestartDownstreamForPlay(id: SessionId)
      requires Valid()
      modifies this
      ensures Valid() && State() == Restart(env, old(State()), id)
      decreases Load(State()), 2
    {
      hide LeaveGroup, Rebuild, MaybeStart, Members, Waiting, Rebuilds;
      ghost var s := State();
      CancelDownstreamRetry(id);
      if env.clearFirst && id in sessions {
        sessions := sessions[id := sessions[id].(observed := Unknown)];
      }
      assert State() == BeforeLeave(env, s, id);
      LeaveNativeGroup(id);
      if id !in sessions {
        return;
      }
      var preparing := ReplaceDownstream(id);
      if preparing {
        MaybeStartSyncCohort(false);
      }
    }

    /** A new generation, its encoder, and the commands that prepare it. */
    method ReplaceDownstream(id: SessionId) returns (preparing: bool)
      requires Valid() && id in sessions
      modifies this`sessions, this`nextGeneration, this`issued, this`channels, this`syncCohort, this`pendingCohorts,
               this`ticks, this`wakes
      ensures Valid() && State() == Rebuild(env, old(State()), id) && preparing == Rebuilds(env, old(State()), id)
    {
      hide AddToCohort, Send, ScheduleRetry;
      ghost var s := State();
      var zone := sessions[id].zone;
      sessions := sessions[id := sessions[id].(resetNeeded := true, observed := Unknown, prepared := None, held := None,
                                               encoder := None)];
      var generation := NextDownstreamGeneration(id);
      assert State() == Invalidate(s, id);
      if zone !in env.renderers {
        return false;
      }
      Command(zone, Stop(id, generation));
      if !env.spawnOk(generation) {
        var armed := ScheduleDownstreamRetry(id);
        return false;
      }
      sessions := sessions[id := sessions[id].(encoder := Some(Encoder(generation, sessions[id].epoch, [])))];
      AddSessionToSyncCohort(id);
      Command(zone, Prepare(id, generation));
      return true;
    }

    // ---- Messages ----

    /** The position of the first cohort of `id`, counting the active one first. */
    method FindCohort(id: SessionId) returns (r: Option<nat>)
      requires Valid()
      ensures r == CohortOf(Cohorts(), id)
    {
      ghost var q := Cohorts();
      if syncCohort.Some? && id in syncCohort.value.sessions {
        FirstCohort(q, id, 0);
        return Some(0);
      }
      var i := 0;
      while i < |pendingCohorts| && id !in pendingCohorts[i].sessions
        invariant i <= |pendingCohorts| && forall k :: 0 <= k < i ==> id !in pendingCohorts[k].sessions
      {
        i := i + 1;
      }
      if i == |pendingCohorts| {
        FirstCohort(q, id, |q|);
        return None;
      }
      assert q[i + 1] == pendingCohorts[i];
      FirstCohort(q, id, i + 1);
      return Some(i + 1);
    }

    method HandlePreparedDownstream(id: SessionId, generation: nat)
      requires Valid()
      modifies this
      ensures Valid() && State() == HandlePrepared(env, old(State()), id, generation)
    {
      hide MaybeStart, PlayPrepared, CohortOf;
      ghost var s := State();
      if id !in sessions || sessions[id].generation != generation || !sessions[id].wanted {
        return;
      }
      var stream := Stream(id, sessions[id].zone, generation);
      sessions := sessions[id := sessions[id].(prepared := Some(stream), held := None)];
      var found := FindCohort(id);
      match found {
        case None => PlayPreparedDownstreams([stream]);
        case Some(i) =>
          KeepInCohort(i, id, stream);
          MaybeStartSyncCohort(false);
      }
    }

    /** The stream waits in its cohort. */
    method KeepInCohort(i: nat, id: SessionId, stream: Stream)
      requires Valid() && i < |Cohorts()|
      modifies this`syncCohort, this`pendingCohorts
      ensures Valid()
      ensures var q := old(Cohorts());
              State() == old(State()).(cohorts := q[i := q[i].(prepared := q[i].prepared[id := stream])])
    {
      ghost var q := Cohorts();
      if i == 0 {
        syncCohort := Some(syncCohort.value.(prepared := syncCohort.value.prepared[id := stream]));
      } else {
        var cohort := pendingCohorts[i - 1];
        pendingCohorts := pendingCohorts[i - 1 := cohort.(prepared := cohort.prepared[id := stream])];
      }
      assert Cohorts() == q[i := q[i].(prepared := q[i].prepared[id := stream])];
    }

    method HandleDownstreamStartResult(id: SessionId, generation: nat, outcome: Outcome)
      requires Valid()
      modifies this
      ensures Valid() && State() == HandleResult(env, old(State()), id, generation, outcome)
    {
      hide LeaveGroup, ForgetMember, ResultSession;
      if id !in sessions || sessions[id].generation != generation {
        return;
      }
      var x := sessions[id];
      if !x.wanted {
        sessions := sessions[id := x.(observed := if outcome == Halted then Stopped else Unknown)];
        return;
      }
      if outcome != Halted && outcome != HaltUnknown {
        var gaveUp := RecordResult(id, outcome);
        if gaveUp {
          LeaveNativeGroup(id);
        }
      }
    }

    /** What a start result makes of its session. Returns whether no retry follows it. */
    method RecordResult(id: SessionId, outcome: Outcome) returns (gaveUp: bool)
      requires id in sessions && outcome != Halted && outcome != HaltUnknown
      modifies this`sessions, this`nativeGroups
      ensures var s := old(State());
              State() == s.(sessions := s.sessions[id := ResultSession(s.sessions[id], outcome)],
                            groups := if outcome == Started || outcome == Failed then ForgetMember(s.groups, id)
                                else s.groups)
      ensures gaveUp == GivesUp(old(sessions)[id], outcome)
    {
      hide ForgetMember, ResultSession;
      gaveUp := RecordOutcome(id, outcome);
      if outcome == Started || outcome == Failed {
        ForgetNativeMember(id);
      }
    }

    method RecordOutcome(id: SessionId, outcome: Outcome) returns (gaveUp: bool)
      requires id in sessions && outcome != Halted && outcome != HaltUnknown
      modifies this`sessions
      ensures sessions == old(sessions)[id := ResultSession(old(sessions)[id], outcome)]
      ensures gaveUp == GivesUp(old(sessions)[id], outcome)
    {
      var x := sessions[id];
      gaveUp := false;
      if outcome == Started || outcome == Joined {
        sessions := sessions[id := x.(observed := Playing, resetNeeded := false, attempts := 0)];
        CancelDownstreamRetry(id);
      } else if outcome == PermanentFailure {
        sessions := sessions[id := x.(observed := Unknown, resetNeeded := true, attempts := RETRY_BUDGET)];
        CancelDownstreamRetry(id);
        gaveUp := true;
      } else {
        sessions := sessions[id := x.(observed := Unknown, resetNeeded := x.prepared.None?)];
        var armed := ScheduleDownstreamRetry(id);
        gaveUp := !armed;
      }
      assert sessions == old(sessions)[id := ResultSession(x, outcome)];
    }

    method HandleDownstreamRetry(id: SessionId, generation: nat)
      requires Valid()
      modifies this
      ensures Valid() && State() == HandleRetry(env, old(State()), id, generation)
    {
      hide Restart, Send;
      if id !in sessions || sessions[id].generation != generation || !sessions[id].wanted {
        return;
      }
      ghost var was := sessions;
      CancelDownstreamRetry(id);
      var x := sessions[id];
      if x.prepared.Some? {
        if x.held.Some? {
          sessions := sessions[id := x.(held := None)];
          var now := Instant();
          plans := plans[generation := Plan(now + SYNC_START_LEAD, x.held.value, None)];
        }
        assert sessions == was[id := was[id].(timer := None, held := None)];
        Command(x.zone, Play(id, generation));
      } else {
        RestartDownstreamForPlay(id);
      }
    }

    // ---- Events ----

    /** The encoder refused a frame because its input has closed. */
    method EncoderInputClosed(id: SessionId)
      requires Valid()
      modifies this
      ensures Valid() && State() == HandleEncoderClosed(env, old(State()), id)
    {
      if id !in sessions || sessions[id].encoder.None? {
        return;
      }
      var x := sessions[id];
      sessions := sessions[id := x.(prepared := None, held := None, resetNeeded := true, encoder := None)];
      var generation := NextDownstreamGeneration(id);
      Command(x.zone, Stop(id, generation));
      if x.wanted {
        var armed := ScheduleDownstreamRetry(id);
      }
    }

    /** A notification of the adapter's queue: the frames of one batch go to the encoder. */
    method HandlePcm(id: SessionId, frames: seq<Arrival>)
      requires Valid()
      modifies this
      ensures Valid() && State() == HandleFrames(env, old(State()), id, frames)
    {
      hide HandleEncoderClosed;
      var i := 0;
      while i < |frames|
        invariant i <= |frames| && Valid()
        invariant State() == HandleFrames(env, old(State()), id, frames[..i])
      {
        assert frames[..i + 1][..i] == frames[..i];
        if id in sessions && frames[i].epoch == sessions[id].epoch && sessions[id].encoder.Some? {
          match frames[i].write {
            case Taken => sessions := sessions[id := Feed(sessions[id], frames[i].epoch)];
            case Full =>
            case InputClosed => EncoderInputClosed(id);
          }
        }
        i := i + 1;
      }
      assert frames[..i] == frames;
    }

    method SetPlaybackState(id: SessionId, playing: bool)
      requires Valid()
      modifies this
      ensures Valid() && State() == SetPlayback(env, old(State()), id, playing)
    {
      hide Restart, LeaveGroup, MaybeStart, Send;
      if id !in sessions {
        return;
      }
      ghost var was := sessions;
      var x := sessions[id];
      if playing {
        sessions := sessions[id := x.(wanted := true, attempts := 0)];
        if !x.wanted || x.resetNeeded {
          RestartDownstreamForPlay(id);
        }
      } else {
        sessions := sessions[id := x.(wanted := false, resetNeeded := true, observed := Unknown, prepared := None,
            held := None)];
        CancelDownstreamRetry(id);
        assert sessions == was[id := x.(wanted := false, resetNeeded := true, observed := Unknown, prepared := None,
                                        held := None, timer := None)];
        LeaveNativeGroup(id);
        var generation := NextDownstreamGeneration(id);
        Command(x.zone, Stop(id, generation));
        MaybeStartSyncCohort(false);
      }
    }

    method Flushed(id: SessionId, epoch: nat)
      requires Valid()
      modifies this
      ensures Valid() && State() == HandleFlush(env, old(State()), id, epoch)
    {
      hide Restart, SetPlayback;
      if id !in sessions || epoch <= sessions[id].epoch {
        return;
      }
      ghost var was := sessions;
      sessions := sessions[id := sessions[id].(epoch := epoch)];
      if sessions[id].wanted {
        RestartDownstreamForPlay(id);
      } else {
        sessions := sessions[id := sessions[id].(encoder := None)];
        assert sessions == was[id := was[id].(epoch := epoch, encoder := None)];
        SetPlaybackState(id, false);
      }
    }

    method EndSession(id: SessionId)
      requires Valid()
      modifies this
      ensures Valid() && State() == StopSession(env, old(State()), id)
    {
      hide LeaveGroup, MaybeStart, Send;
      if id !in sessions {
        return;
      }
      var x := sessions[id];
      sessions := sessions - {id};
      LeaveNativeGroup(id);
      Command(x.zone, Stop(id, x.generation));
      MaybeStartSyncCohort(false);
    }

    method BeginSession(id: SessionId, zone: ZoneId, sender: Option<Sender>)
      requires Valid()
      modifies this
      ensures Valid() && State() == StartSession(env, old(State()), id, zone, sender)
    {
      hide StopSession, Restart, StopEach;
      ghost var s := State();
      var stale := set other | other in sessions && sessions[other].zone == zone;
      assert stale == SessionsIn(s, zone);
      while env.choose(ticks, stale) in stale
        invariant Valid() && StopEach(env, State(), stale) == StopEach(env, s, SessionsIn(s, zone))
        decreases |stale|
      {
        StopFirst(env, State(), stale);
        var first := env.choose(ticks, stale);
        ticks := ticks + 1;
        EndSession(first);
        stale := stale - {first};
      }
      StopFirst(env, State(), stale);
      if zone !in env.renderers {
        return;
      }
      sessions := sessions[id := NewSession(zone, sender)];
      RestartDownstreamForPlay(id);
    }

    /** A cohort's window or deadline has passed. */
    method CohortWake(due: nat)
      requires Valid()
      modifies this
      ensures Valid() && State() == HandleWake(env, old(State()), due)
    {
      hide MaybeStart;
      MaybeStartSyncCohort(false);
      wakes := wakes - {due};
    }
  }

  lemma SameDelay(e: Env, s: St, t: St, delays: map<ZoneId, nat>, roles: map<SessionId, SessionId>, p: Stream)
    requires t.sessions == s.sessions
    ensures DelayOf(e, t, delays, roles, p) == DelayOf(e, s, delays, roles, p)
  {
  }

  lemma MaybeStartBy(e: Env, s: St, force: bool)
    ensures if s.cohorts == [] then MaybeStart(e, s, force) == s else
              var head := Pruned(s, s.cohorts[0]);
              var list := StreamsOf(head.sessions, head.prepared);
              var rest := Ticked(s).(cohorts := s.cohorts[1..]);
              if head.sessions == [] then MaybeStart(e, s, force) == MaybeStart(e, s.(cohorts := s.cohorts[1..]), force)
              else if !ShouldStart(head, Now(e, s), force) then
                MaybeStart(e, s, force) == Ticked(s).(cohorts := [head] + s.cohorts[1..])
              else
                MaybeStart(e, s, force) == MaybeStart(e, PlayPrepared(e, rest, list), force)
                && PlayPrepared(e, rest, list).cohorts == rest.cohorts
  {
    hide PlayPrepared, Pruned, ShouldStart;
    if s.cohorts != [] {
      var head := Pruned(s, s.cohorts[0]);
      PlayPreparedKeeps(e, Ticked(s).(cohorts := s.cohorts[1..]), StreamsOf(head.sessions, head.prepared));
    }
  }

  lemma {:induction false} FirstCohort(q: seq<Cohort>, id: SessionId, i: nat)
    requires i <= |q| && forall k :: 0 <= k < i ==> id !in q[k].sessions
    requires i < |q| ==> id in q[i].sessions
    ensures CohortOf(q, id) == if i == |q| then None else Some(i)
    decreases |q|
  {
    if q != [] && i > 0 {
      FirstCohort(q[1..], id, i - 1);
    }
  }

  lemma StopFirst(e: Env, s: St, ids: set<SessionId>)
    ensures var id := e.choose(s.ticks, ids);
            StopEach(e, s, ids) == if id in ids then StopEach(e, StopSession(e, Ticked(s), id), ids - {id}) else s
  {
    hide StopSession;
  }

  lemma NoParties(e: Env, s: St)
    ensures Parties(e, s, []) == []
  {
  }

  lemma Detaching(s: St, id: SessionId)
    ensures Detach(s, id) == s.(groups := ForgetMember(s.groups, id) - {id})
    ensures Detached(s, id) == MembersOf(ForgetMember(s.groups, id), id)
  {
  }

  lemma RestartFirst(e: Env, s: St, list: seq<SessionId>)
    requires list != []
    ensures RestartMembers(e, s, list) ==
            RestartMembers(e, if list[0] in s.sessions && s.sessions[list[0]].wanted then Restart(e, s, list[0]) else s,
                           list[1..])
  {
    hide Restart, Load;
  }

  lemma NothingToRestart(e: Env, s: St, list: seq<SessionId>)
    requires list == []
    ensures RestartMembers(e, s, list) == s
  {
  }
}
