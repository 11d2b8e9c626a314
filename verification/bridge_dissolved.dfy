/** Whatever breaks up a native group restarts its members: through every handler and every step. */
module BridgeDissolved {
  import opened BridgeState
  import opened BridgeHandlers
  import opened BridgeRooms
  import opened BridgeCore
  import opened BridgeOut
  import opened BridgeHistory
  import opened BridgeSteps
  import opened BridgeWorker
  import opened BridgeSystem
  import opened BridgeRuns
  import opened BridgeMembers

  /** `id` left all groups: every wanted member of the group it coordinated restarted, if it is
      still there, and no other member was forgotten. */
  ghost predicate Dissolves(s: St, t: St, id: SessionId) {
    && Onward(s, t) && KeepsMembers(s, t, {id}) && (forall j :: WantedIn(t, j) && j != id ==> WantedIn(s, j))
    && forall m :: id in s.groups && m in s.groups[id] && m != id && WantedIn(s, m) && m in t.sessions ==>
         Renewed(s, t, m)
  }

  /** Only `id` changes or goes, and only `id` leaves groups. */
  ghost predicate Touches(s: St, t: St, id: SessionId) {
    && t.issued == s.issued && t.channels.Keys == s.channels.Keys
    && (forall z :: z in s.channels ==> t.channels[z].unseen == s.channels[z].unseen)
    && (forall c, m :: c in s.groups && m in s.groups[c] && m != id ==> c in t.groups && m in t.groups[c])
    && t.sessions.Keys <= s.sessions.Keys <= t.sessions.Keys + {id}
    && (forall j :: j in t.sessions && j != id ==> t.sessions[j] == s.sessions[j])
    && (id in t.sessions ==> GoesOn(s, t, id))
  }

  /** What a session left, after it changed itself. */
  ghost predicate Leaves(s: St, t: St, id: SessionId) {
    && Onward(s, t) && Thinner(s, t) && KeepsMembers(s, t, {id})
    && forall m :: m in MembersOf(s.groups, id) && m != id && WantedIn(s, m) ==> Renewed(s, t, m)
  }

  lemma TouchedDissolves(s: St, t: St, u: St, id: SessionId)
    requires Touches(s, t, id) && Leaves(t, u, id)
    ensures Dissolves(s, u, id) && Onward(s, t)
    ensures id in s.sessions && Renewed(t, u, id) ==> KeepsMembers(s, u, {})
  {
    hide Thinner, Renewed, KeepsMembers;
    assert Onward(s, t) by {
      forall j | j in s.sessions && j in t.sessions ensures GoesOn(s, t, j) {
      }
    }
    TouchedKeeps(s, t, id);
    ThinOnward(t, u);
    TouchedBy(s, t, u, id);
    forall j | WantedIn(u, j) && j != id ensures WantedIn(s, j) {
      SameWanted(t, u, j);
    }
    forall m | id in s.groups && m in s.groups[id] && m != id && WantedIn(s, m) && m in u.sessions
      ensures Renewed(s, u, m)
    {
      assert m in MembersOf(t.groups, id) && WantedIn(t, m);
      RenewedFrom(s, t, u, m);
    }
    if id in s.sessions && Renewed(t, u, id) {
      RenewedFrom(s, t, u, id);
      RenewedLeaver(s, u, id);
    }
  }

  lemma ThinOnward(t: St, u: St)
    requires Thinner(t, u)
    ensures u.sessions.Keys == t.sessions.Keys
  {
  }

  // ---- What retries cost ----

  /** Sessions, but for those in `free`, pay with an attempt for every retry that is armed anew. */
  ghost predicate AllPay(s: St, t: St, free: set<SessionId>) {
    forall j :: j in s.sessions && j in t.sessions && j !in free ==> Pays(s.sessions[j], t.sessions[j])
  }

  lemma ThinPays(s: St, t: St)
    requires Thinner(s, t)
    ensures AllPay(s, t, {}) && t.sessions.Keys == s.sessions.Keys
  {
    hide HasEntry, Renews;
    forall j | j in s.sessions ensures Pays(s.sessions[j], t.sessions[j]) {
      assert Thins(s, t, j);
    }
  }

  lemma PayBy(s: St, t: St, u: St, free: set<SessionId>)
    requires AllPay(s, t, free) && AllPay(t, u, free)
    requires forall j :: j in s.sessions && j in u.sessions ==> j in t.sessions
    ensures AllPay(s, u, free)
  {
    forall j | j in s.sessions && j in u.sessions && j !in free ensures Pays(s.sessions[j], u.sessions[j]) {
      assert Pays(s.sessions[j], t.sessions[j]) && Pays(t.sessions[j], u.sessions[j]);
    }
  }

  /** A session changes, and restarts and releases follow. */
  lemma PayThin(s: St, t: St, u: St, id: SessionId, free: set<SessionId>)
    requires Touches(s, t, id) && Thinner(t, u)
    requires id in s.sessions && id in t.sessions && id !in free ==> Pays(s.sessions[id], t.sessions[id])
    ensures AllPay(s, u, free)
  {
    hide Thinner;
    ThinPays(t, u);
    PayBy(s, t, u, free);
  }

  lemma PayStep(s: St, t: St, u: St, id: SessionId)
    requires AllPay(s, t, {}) && t.sessions.Keys == u.sessions.Keys
    requires forall j :: j in t.sessions && j != id ==> u.sessions[j] == t.sessions[j]
    requires id in t.sessions ==> Pays(t.sessions[id], u.sessions[id])
    ensures AllPay(s, u, {})
  {
    PayBy(s, t, u, {});
  }

  lemma TouchedKeeps(s: St, t: St, id: SessionId)
    requires Touches(s, t, id)
    ensures KeepsMembers(s, t, {id})
  {
    hide Renewed, GoesOn;
  }

  lemma TouchedBy(s: St, t: St, u: St, id: SessionId)
    requires Touches(s, t, id) && Onward(s, t) && Onward(t, u) && Thinner(t, u)
    requires KeepsMembers(s, t, {id}) && KeepsMembers(t, u, {id})
    ensures Onward(s, u) && KeepsMembers(s, u, {id})
  {
    hide Onward, KeepsMembers, Thinner, GoesOn;
    ThinOnward(t, u);
    OnwardBy(s, t, u);
    forall j | WantedIn(s, j) && WantedIn(u, j) ensures WantedIn(t, j) {
      SameWanted(t, u, j);
    }
    KeepsBy(s, t, u, {id}, {id});
    assert {id} + {id} == {id};
  }

  /** What follows forgets no member. */
  lemma DissolvedStays(s: St, t: St, u: St, id: SessionId)
    requires Dissolves(s, t, id) && Onward(t, u) && KeepsMembers(t, u, {}) && u.sessions.Keys <= t.sessions.Keys
    requires forall j :: WantedIn(u, j) ==> WantedIn(t, j)
    requires forall j :: j in s.sessions && j in u.sessions ==> j in t.sessions
    ensures Dissolves(s, u, id)
  {
    hide Onward, KeepsMembers, Renewed, WantedIn;
    OnwardBy(s, t, u);
    KeepsBy(s, t, u, {id}, {});
    assert {id} + {} == {id};
    forall m | id in s.groups && m in s.groups[id] && m != id && WantedIn(s, m) && m in u.sessions
      ensures Renewed(s, u, m)
    {
      RenewedStays(s, t, u, m);
    }
  }

  /** A command goes out, or a session that is not wanted gets a new generation. */
  lemma StepOnward(s: St, t: St, id: SessionId)
    requires t.groups == s.groups && t.sessions.Keys == s.sessions.Keys && t.channels.Keys == s.channels.Keys
    requires |s.issued| <= |t.issued|
    requires forall z :: z in s.channels ==> s.channels[z].unseen <= t.channels[z].unseen
    requires forall j :: j in s.sessions && j != id ==> t.sessions[j] == s.sessions[j]
    requires id in s.sessions ==> GoesOn(s, t, id) && t.sessions[id].wanted == s.sessions[id].wanted
    ensures Onward(s, t) && KeepsMembers(s, t, {}) && forall j :: WantedIn(t, j) == WantedIn(s, j)
  {
    hide Renewed, GoesOn;
    forall j | j in s.sessions && j in t.sessions ensures GoesOn(s, t, j) {
      SameGoesOn(s, t, j);
    }
  }

  lemma SameGoesOn(s: St, t: St, j: SessionId)
    requires j in s.sessions && j in t.sessions
    ensures t.sessions[j] == s.sessions[j] ==> GoesOn(s, t, j)
  {
  }

  lemma SendUnseen(s: St, zone: ZoneId, c: Command)
    ensures var t := Send(s, zone, c);
            forall z :: z in s.channels ==> s.channels[z].unseen <= t.channels[z].unseen
  {
  }

  lemma ReleaseDissolved(e: Env, s: St, t: St, id: SessionId)
    requires ValidEnv(e) && Core(e, t, {}) && Queue(e, t) && Dissolves(s, t, id) && AllPay(s, t, {})
    ensures Dissolves(s, MaybeStart(e, t, false), id) && AllPay(s, MaybeStart(e, t, false), {})
  {
    hide ValidEnv, Core, Queue, MaybeStart, Dissolves, Thinner, Onward, KeepsMembers, WantedIn, Pays;
    var u := MaybeStart(e, t, false);
    QueueDistinct(e, t);
    MaybeStartMembers(e, t, false, {});
    ThinPays(t, u);
    PayBy(s, t, u, {});
    forall j | WantedIn(u, j) ensures WantedIn(t, j) {
      SameWanted(t, u, j);
    }
    DissolvedStays(s, t, u, id);
  }

  // ---- Restarts ----

  /** A restart, of a session that just changed. */
  lemma RestartDissolves(e: Env, s: St, t: St, id: SessionId, exempt: set<SessionId>)
    requires ValidEnv(e) && Core(e, t, exempt) && Queue(e, t) && id in t.sessions && t.sessions[id].wanted
    requires Touches(s, t, id)
    ensures var u := Restart(e, t, id); Dissolves(s, u, id) && KeepsMembers(s, u, {}) && Thinner(t, u)
  {
    hide ValidEnv, Core, Queue, Restart, Touches, Thinner, Onward, Renewed, Dissolves;
    RestartMembersOf(e, t, id, exempt);
    var u := Restart(e, t, id);
    KeepsMore(t, u, id);
    KeyOf(s, t, id);
    TouchedDissolves(s, t, u, id);
  }

  lemma KeepsMore(s: St, t: St, id: SessionId)
    requires KeepsMembers(s, t, {})
    ensures KeepsMembers(s, t, {id})
  {
    hide MemberKept;
  }

  lemma KeyOf(s: St, t: St, id: SessionId)
    requires Touches(s, t, id) && id in t.sessions
    ensures id in s.sessions
  {
  }

  lemma LeaveDissolves(e: Env, s: St, t: St, id: SessionId, exempt: set<SessionId>)
    requires ValidEnv(e) && Core(e, t, exempt) && Queue(e, t) && Touches(s, t, id)
    ensures Dissolves(s, LeaveGroup(e, t, id), id) && Thinner(t, LeaveGroup(e, t, id))
  {
    hide ValidEnv, Core, Queue, LeaveGroup, Touches, Thinner, Onward, Renewed, Dissolves, KeepsMembers;
    LeavingMembers(e, t, id, exempt);
    TouchedDissolves(s, t, LeaveGroup(e, t, id), id);
  }

  /** A change of the session's own fields. */
  lemma OwnTouch(s: St, id: SessionId, y: Session)
    requires id in s.sessions
    requires var x := s.sessions[id];
             y.zone == x.zone && y.generation == x.generation && (y.observed == Playing ==> x.observed == Playing)
    ensures Touches(s, WithSession(s, id, y), id)
  {
  }

  /** Play of a session that was paused or lost its stream. */
  lemma PlayDissolves(e: Env, s: St, id: SessionId)
    requires ValidEnv(e) && Core(e, s, {}) && Queue(e, s) && id in s.sessions
    requires !s.sessions[id].wanted || s.sessions[id].resetNeeded
    ensures var t := SetPlayback(e, s, id, true); Dissolves(s, t, id) && KeepsMembers(s, t, {}) && AllPay(s, t, {id})
  {
    hide ValidEnv, Core, Queue, RoomOk, Restart, HasEntry, ChannelOk, Bounded;
    hide Dissolves, KeepsMembers, Touches, Thinner, AllPay;
    var x := s.sessions[id];
    var y := x.(wanted := true, attempts := 0);
    var t := WithSession(s, id, y);
    CoreAt(e, s, id, {});
    PlayAgainRoom(e.wav, id, x, s.channels[x.zone], Entry(s, id), x.generation in s.plans);
    QueueSame(e, s, t);
    WithSessionCore(e, s, id, y, {}, {id});
    OwnTouch(s, id, y);
    RestartDissolves(e, s, t, id, {id});
    PayThin(s, t, Restart(e, t, id), id, {id});
  }

  /** A pause. */
  lemma PauseDissolves(e: Env, s: St, id: SessionId, exempt: set<SessionId>)
    requires ValidEnv(e) && Core(e, s, exempt) && exempt <= {id} && Queue(e, s)
    requires id in s.sessions
             && (s.sessions[id].encoder.Some? ==> s.sessions[id].encoder.value.epoch == s.sessions[id].epoch)
    ensures Dissolves(s, SetPlayback(e, s, id, false), id) && AllPay(s, SetPlayback(e, s, id, false), {})
  {
    hide ValidEnv, Core, Queue, RoomOk, HasEntry, Halting, ChannelOk, Bounded, LeaveGroup, MaybeStart, Send,
         NextGeneration, Dissolves, Touches, Thinner, AllPay;
    var x := s.sessions[id];
    var y := PausedSession(x);
    CoreAt(e, s, id, exempt);
    PausedRoom(e.wav, id, x, s.channels[x.zone], Entry(s, id), x.generation in s.plans, id !in exempt);
    WithSessionCore(e, s, id, y, exempt, {id});
    var s1 := WithSession(s, id, y);
    QueueSame(e, s, s1);
    OwnTouch(s, id, y);
    LeaveGroupCore(e, s1, id, {id});
    LeaveDissolves(e, s, s1, id, {id});
    var s2 := LeaveGroup(e, s1, id);
    PayThin(s, s1, s2, id, {});
    assert SameWish(s1.sessions[id], s2.sessions[id]);
    assert s2.sessions[id] == y;
    HaltDissolved(e, s, s2, id);
  }

  lemma HaltDissolved(e: Env, s0: St, s: St, id: SessionId)
    requires ValidEnv(e) && Core(e, s, {id}) && Queue(e, s) && id in s.sessions && Dissolves(s0, s, id)
             && AllPay(s0, s, {})
    requires var x := s.sessions[id];
             && !x.wanted && x.observed == Unknown && x.prepared.None? && x.held.None? && x.timer.None?
             && (x.encoder.Some? ==> x.encoder.value.epoch == x.epoch)
    ensures Dissolves(s0, AfterPause(e, s, id), id) && AllPay(s0, AfterPause(e, s, id), {})
  {
    hide ValidEnv, Core, Queue, RoomOk, HasEntry, Halting, ChannelOk, Bounded, MaybeStart, Send, NextGeneration,
         Dissolves, Onward, KeepsMembers, WantedIn, AllPay;
    var zone := s.sessions[id].zone;
    CoreAt(e, s, id, {id});
    PauseShape(s, id);
    var t := NextGeneration(s, id);
    var u := Send(t, zone, Stop(id, |t.issued|));
    HaltOnward(s, id, zone);
    HaltPays(s, id, zone);
    PayStep(s0, s, u, id);
    DissolvedStays(s0, s, u, id);
    HaltingCore(e, s, u, id, {id});
    assert {id} - {id} == {};
    HaltingQueue(e, s, u, id);
    ReleaseDissolved(e, s0, u, id);
  }

  lemma HaltPays(s: St, id: SessionId, zone: ZoneId)
    requires id in s.sessions && s.sessions[id].timer.None?
    ensures var t := NextGeneration(s, id);
            var u := Send(t, zone, Stop(id, |t.issued|));
            && u.sessions.Keys == s.sessions.Keys && Pays(s.sessions[id], u.sessions[id])
            && forall j :: j in s.sessions && j != id ==> u.sessions[j] == s.sessions[j]
  {
    hide Send;
  }

  lemma HaltOnward(s: St, id: SessionId, zone: ZoneId)
    requires id in s.sessions && s.sessions[id].observed != Playing
    ensures var t := NextGeneration(s, id);
            var u := Send(t, zone, Stop(id, |t.issued|));
            && Onward(s, u) && KeepsMembers(s, u, {}) && (forall j :: WantedIn(u, j) == WantedIn(s, j))
            && u.sessions.Keys == s.sessions.Keys
  {
    hide Onward, KeepsMembers, Send;
    var t := NextGeneration(s, id);
    SendUnseen(t, zone, Stop(id, |t.issued|));
    StepOnward(s, Send(t, zone, Stop(id, |t.issued|)), id);
  }

  lemma FlushDissolves(e: Env, s: St, id: SessionId, epoch: nat)
    requires ValidEnv(e) && Core(e, s, {}) && Queue(e, s) && id in s.sessions && epoch > s.sessions[id].epoch
    ensures var t := HandleFlush(e, s, id, epoch);
            Dissolves(s, t, id) && (s.sessions[id].wanted ==> KeepsMembers(s, t, {})) && AllPay(s, t, {})
  {
    hide ValidEnv, Core, Queue, Restart, SetPlayback, HasEntry, Dissolves, KeepsMembers, Touches, Thinner, AllPay;
    FlushedCore(e, s, id, epoch);
    var y := FlushedSession(s.sessions[id], epoch);
    var t := WithSession(s, id, y);
    OwnTouch(s, id, y);
    if s.sessions[id].wanted {
      RestartDissolves(e, s, t, id, {id});
      PayThin(s, t, Restart(e, t, id), id, {});
    } else {
      PauseDissolves(e, t, id, {id});
      FlushPays(s, t, id);
      PayBy(s, t, SetPlayback(e, t, id, false), {});
      DissolvesFrom(s, t, SetPlayback(e, t, id, false), id);
    }
  }

  lemma FlushPays(s: St, t: St, id: SessionId)
    requires id in s.sessions && id in t.sessions && t == WithSession(s, id, t.sessions[id])
    requires t.sessions[id].attempts == s.sessions[id].attempts && t.sessions[id].timer == s.sessions[id].timer
    ensures AllPay(s, t, {})
  {
  }

  lemma DissolvesFrom(s: St, t: St, u: St, id: SessionId)
    requires Touches(s, t, id) && t.groups == s.groups && id in t.sessions && Dissolves(t, u, id)
    requires t.sessions.Keys == s.sessions.Keys
    requires forall j :: j in s.sessions ==> t.sessions[j].wanted == s.sessions[j].wanted
    ensures Dissolves(s, u, id)
  {
    hide Renewed, KeepsMembers;
    assert Onward(s, t) by {
      forall j | j in s.sessions && j in t.sessions ensures GoesOn(s, t, j) {
      }
    }
    TouchedKeeps(s, t, id);
    OnwardBy(s, t, u);
    KeepsBy(s, t, u, {id}, {id});
    assert {id} + {id} == {id};
    forall m | id in s.groups && m in s.groups[id] && m != id && WantedIn(s, m) && m in u.sessions
      ensures Renewed(s, u, m)
    {
      RenewedFrom(s, t, u, m);
    }
  }

  /** A permanent failure, or a failure with the budget spent. */
  lemma ResultDissolves(e: Env, s: St, id: SessionId, outcome: Outcome)
    requires ValidEnv(e) && Core(e, s, {}) && Queue(e, s) && id in s.sessions && s.sessions[id].wanted
    requires s.sessions[id].zone in s.channels && GivesUp(s.sessions[id], outcome)
    requires Result(id, s.sessions[id].generation, outcome) in s.channels[s.sessions[id].zone].bag
    ensures var m := Result(id, s.sessions[id].generation, outcome);
            var t := HandleResult(e, Take(s, s.sessions[id].zone, m), id, m.generation, outcome);
            Dissolves(s, t, id) && AllPay(s, t, {})
  {
    hide ValidEnv, Core, Queue, LeaveGroup, ResultSession, ForgetMember, HasEntry, Restart, Dissolves, Touches, Thinner,
         AllPay;
    var x := s.sessions[id];
    var m := Result(id, x.generation, outcome);
    TakeResultCore(e, s, id, outcome);
    CoreAt(e, s, id, {});
    var t := TakeWith(s, id, m, ResultSession(x, outcome));
    var u := if outcome == Started || outcome == Failed then t.(groups := ForgetMember(t.groups, id)) else t;
    CoreSame(e, t, u, {});
    QueueSame(e, s, u);
    GivingUp(x, outcome);
    TakeTouch(s, u, id, m, ResultSession(x, outcome));
    LeaveDissolves(e, s, u, id, {});
    PayThin(s, u, LeaveGroup(e, u, id), id, {});
  }

  lemma GivingUp(x: Session, outcome: Outcome)
    requires GivesUp(x, outcome)
    ensures var y := ResultSession(x, outcome);
            y.zone == x.zone && y.generation == x.generation && y.observed != Playing
            && (x.attempts <= RETRY_BUDGET ==> Pays(x, y))
    ensures outcome != Started && outcome != Joined && outcome != Halted && outcome != HaltUnknown
  {
  }

  lemma TakeTouch(s: St, u: St, id: SessionId, m: Message, y: Session)
    requires id in s.sessions && s.sessions[id].zone in s.channels
    requires var x := s.sessions[id];
             y.zone == x.zone && y.generation == x.generation && (y.observed == Playing ==> x.observed == Playing)
    requires var t := TakeWith(s, id, m, y); u == t || u == t.(groups := ForgetMember(t.groups, id))
    ensures Touches(s, u, id)
  {
  }

  /** A retry that lost its stream. */
  lemma RetryDissolves(e: Env, s: St, id: SessionId)
    requires ValidEnv(e) && Core(e, s, {}) && Queue(e, s) && id in s.sessions && s.sessions[id].wanted
    requires s.sessions[id].zone in s.channels && s.sessions[id].prepared.None?
    requires Retry(id, s.sessions[id].generation) in s.channels[s.sessions[id].zone].bag
    ensures var g := s.sessions[id].generation;
            var t := HandleRetry(e, Take(s, s.sessions[id].zone, Retry(id, g)), id, g);
            Dissolves(s, t, id) && KeepsMembers(s, t, {}) && AllPay(s, t, {})
  {
    hide ValidEnv, Core, Queue, Restart, RoomOk, Bounded, HasEntry, Idle, HandleRetry, Dissolves, Touches, KeepsMembers,
         Thinner, AllPay;
    var x := s.sessions[id];
    var m := Retry(id, x.generation);
    CoreAt(e, s, id, {});
    TakeRetryRoom(e.wav, id, x, s.channels[x.zone], Entry(s, id), x.generation in s.plans);
    TakeWithCore(e, s, id, m, x.(timer := None), {id});
    var t := TakeWith(s, id, m, x.(timer := None));
    QueueSame(e, s, t);
    TakeTouch(s, t, id, m, x.(timer := None));
    RestartDissolves(e, s, t, id, {id});
    PayThin(s, t, Restart(e, t, id), id, {});
    RetryRestarts(e, s, id);
  }

  // ---- Sessions that stop ----

  lemma StopDissolves(e: Env, s: St, id: SessionId)
    requires ValidEnv(e) && Core(e, s, {}) && Queue(e, s) && id in s.sessions
    ensures Dissolves(s, StopSession(e, s, id), id) && AllPay(s, StopSession(e, s, id), {})
  {
    hide Core, Queue, ValidEnv, RoomOk, HasEntry, LeaveGroup, MaybeStart, Bounded, ChannelOk, Send, Dissolves, Touches,
         Onward, KeepsMembers, WantedIn, Thinner, AllPay, Pays;
    var x := s.sessions[id];
    CoreAt(e, s, id, {});
    ZoneLeft(e, s, id);
    SettledGeneration(e, s, id);
    var s1 := s.(sessions := s.sessions - {id});
    RemoveTouch(s, id);
    RemoveCore(e, s, id);
    QueueSame(e, s, s1);
    LeaveGroupCore(e, s1, id, {});
    LeaveDissolves(e, s, s1, id, {});
    var s2 := LeaveGroup(e, s1, id);
    PayThin(s, s1, s2, id, {});
    forall j | j in s2.sessions ensures s2.sessions[j].zone != x.zone {
      assert SameWish(s1.sessions[j], s2.sessions[j]);
    }
    IssuedPrefix(s1.issued, s2.issued, x.zone, id, x.generation);
    StopEmptyZoneCore(e, s2, x.zone, id, x.generation);
    var s3 := Send(s2, x.zone, Stop(id, x.generation));
    SendUnseen(s2, x.zone, Stop(id, x.generation));
    StepOnward(s2, s3, id);
    DissolvedStays(s, s2, s3, id);
    PaySame(s, s2, s3);
    QueueSame(e, s2, s3);
    ReleaseDissolved(e, s, s3, id);
  }

  lemma PaySame(s: St, t: St, u: St)
    requires AllPay(s, t, {}) && u.sessions == t.sessions
    ensures AllPay(s, u, {})
  {
  }

  lemma RemoveTouch(s: St, id: SessionId)
    ensures Touches(s, s.(sessions := s.sessions - {id}), id)
  {
  }

  /** The members of every group that a session of `ids` coordinates restart, as far as they still
      want playback. */
  ghost predicate GroupsRestart(s: St, t: St, ids: set<SessionId>) {
    forall c, m :: c in ids && c in s.groups && m in s.groups[c] && m != c && WantedIn(s, m) && WantedIn(t, m) ==>
      Renewed(s, t, m)
  }

  /** Every session of `ids` stopped: the members of their groups restarted, unless they stopped too. */
  ghost predicate AllDissolve(s: St, t: St, ids: set<SessionId>) {
    && Onward(s, t) && KeepsMembers(s, t, ids) && t.sessions.Keys <= s.sessions.Keys
    && (forall j :: WantedIn(t, j) ==> WantedIn(s, j)) && GroupsRestart(s, t, ids) && AllPay(s, t, {})
  }

  lemma {:induction false} StopEachDissolves(e: Env, s: St, ids: set<SessionId>)
    requires ValidEnv(e) && Core(e, s, {}) && Queue(e, s) && ids <= s.sessions.Keys
    ensures AllDissolve(s, StopEach(e, s, ids), ids)
    decreases ids
  {
    hide Core, Queue, ValidEnv, StopSession, AllDissolve, Dissolves, AllPay;
    var id := e.choose(s.ticks, ids);
    if id in ids {
      var s1 := Ticked(s);
      CoreSame(e, s, s1, {});
      QueueLater(e, s, s1);
      StopCore(e, s1, id);
      StopDissolves(e, s1, id);
      var t := StopSession(e, s1, id);
      StopEachDissolves(e, t, ids - {id});
      OneThenRest(s, t, StopEach(e, t, ids - {id}), id, ids);
    } else {
      assert ids == {} || !ValidEnv(e) by {
        ChoiceMade(e, s.ticks, ids);
      }
      NothingStops(s);
    }
  }

  lemma ChoiceMade(e: Env, tick: nat, ids: set<SessionId>)
    requires ValidEnv(e)
    ensures ids != {} ==> e.choose(tick, ids) in ids
  {
  }

  lemma NothingStops(s: St)
    ensures AllDissolve(s, s, {})
  {
    hide Renewed, HasEntry;
  }

  lemma OneThenRest(s: St, t: St, u: St, id: SessionId, ids: set<SessionId>)
    requires id in ids && Dissolves(Ticked(s), t, id) && AllPay(Ticked(s), t, {}) && AllDissolve(t, u, ids - {id})
    requires t.sessions.Keys == s.sessions.Keys - {id}
    ensures AllDissolve(s, u, ids)
  {
    hide Renewed, Onward, KeepsMembers, Pays;
    TickedDissolves(s, t, id);
    PayBy(s, t, u, {});
    OnwardBy(s, t, u);
    KeepsBy(s, t, u, {id}, ids - {id});
    assert {id} + (ids - {id}) == ids;
    forall c, m | c in ids && c in s.groups && m in s.groups[c] && m != c && WantedIn(s, m) && WantedIn(u, m)
      ensures Renewed(s, u, m)
    {
      RenewedOne(s, t, u, id, ids, c, m);
    }
  }

  lemma RenewedOne(s: St, t: St, u: St, id: SessionId, ids: set<SessionId>, c: SessionId, m: SessionId)
    requires Dissolves(s, t, id) && AllDissolve(t, u, ids - {id}) && c in ids && c in s.groups && m in s.groups[c]
    requires m != c && WantedIn(s, m) && WantedIn(u, m) && id !in t.sessions
    ensures Renewed(s, u, m)
  {
    hide Renewed, Onward, KeepsMembers;
    if !Renewed(s, t, m) {
      MemberAt(s, t, id, c, m);
      RenewedFrom(s, t, u, m);
    } else {
      RenewedStays(s, t, u, m);
    }
  }

  lemma MemberAt(s: St, t: St, id: SessionId, c: SessionId, m: SessionId)
    requires Dissolves(s, t, id) && c in s.groups && m in s.groups[c] && m != c && WantedIn(s, m) && WantedIn(t, m)
    requires m != id && !Renewed(s, t, m)
    ensures c != id && c in t.groups && m in t.groups[c]
  {
    hide Renewed, Onward;
    assert MemberKept(s, t, c, m);
  }

  lemma TickedDissolves(s: St, t: St, id: SessionId)
    requires Dissolves(Ticked(s), t, id)
    ensures Dissolves(s, t, id)
  {
    var s1 := Ticked(s);
    forall m ensures Renewed(s, t, m) == Renewed(s1, t, m) {
      assert forall z, c :: SentNew(s1, t, z, c) == SentNew(s, t, z, c);
    }
    forall c, m | c in s.groups && m in s.groups[c] && m != id && WantedIn(s, m) && WantedIn(t, m)
      ensures MemberKept(s, t, c, m)
    {
      assert MemberKept(s1, t, c, m);
    }
    forall j | j in s.sessions && j in t.sessions ensures GoesOn(s, t, j) {
      assert GoesOn(s1, t, j);
    }
  }

  /** A session starts in a room: the sessions that were there stop. */
  lemma StartDissolves(e: Env, s: St, id: SessionId, zone: ZoneId, sender: Option<Sender>)
    requires ValidEnv(e) && Core(e, s, {}) && Queue(e, s) && id !in s.sessions
    ensures var t := StartSession(e, s, id, zone, sender);
            KeepsMembers(s, t, {}) && GroupsRestart(s, t, SessionsIn(s, zone)) && AllPay(s, t, {})
  {
    hide ValidEnv, Core, Queue, StopEach, Restart, AllDissolve, AllPay, Onward, Thinner, Renewed;
    var ids := SessionsIn(s, zone);
    var s1 := StopEach(e, s, ids);
    StopEachCore(e, s, ids);
    StopEachDissolves(e, s, ids);
    if zone in e.renderers {
      InsertCore(e, s1, id, zone, sender);
      var s2 := s1.(sessions := s1.sessions[id := NewSession(zone, sender)]);
      QueueSame(e, s1, s2);
      RestartMembersOf(e, s2, id, {id});
      StartedDissolves(s, s1, s2, Restart(e, s2, id), id, ids);
    } else {
      StoppedKeeps(s, s1, ids);
    }
  }

  lemma StoppedKeeps(s: St, t: St, ids: set<SessionId>)
    requires AllDissolve(s, t, ids) && forall j :: j in t.sessions ==> j !in ids
    ensures KeepsMembers(s, t, {}) && GroupsRestart(s, t, ids) && AllPay(s, t, {})
  {
    hide Renewed, Onward;
  }

  lemma StartedDissolves(s: St, s1: St, s2: St, t: St, id: SessionId, ids: set<SessionId>)
    requires AllDissolve(s, s1, ids) && id !in s.sessions && (forall j :: j in s1.sessions ==> j !in ids)
    requires id in s2.sessions && s2 == s1.(sessions := s1.sessions[id := s2.sessions[id]])
    requires Onward(s2, t) && Thinner(s2, t) && KeepsMembers(s2, t, {})
    ensures KeepsMembers(s, t, {}) && GroupsRestart(s, t, ids) && AllPay(s, t, {})
  {
    hide Renewed, Pays;
    InsertOnward(s, s1, s2, id, ids);
    ThinOnward(s2, t);
    ThinPays(s2, t);
    PayBy(s, s2, t, {});
    hide Onward, Thinner, KeepsMembers;
    forall j | WantedIn(s, j) && WantedIn(t, j) ensures WantedIn(s2, j) {
      SameWanted(s2, t, j);
    }
    OnwardBy(s, s2, t);
    KeepsBy(s, s2, t, ids, {});
    assert ids + {} == ids;
    forall c, m | c in ids && c in s.groups && m in s.groups[c] && m != c && WantedIn(s, m) && WantedIn(t, m)
      ensures Renewed(s, t, m)
    {
      SameWanted(s2, t, m);
      RenewedStays(s, s2, t, m);
    }
    forall j | WantedIn(t, j) && WantedIn(s, j) ensures j !in ids {
      SameWanted(s2, t, j);
      Known(t, j);
    }
    GoneKeeps(s, t, ids);
  }

  /** A session that joins disturbs none of this. */
  lemma InsertOnward(s: St, s1: St, s2: St, id: SessionId, ids: set<SessionId>)
    requires AllDissolve(s, s1, ids) && id !in s.sessions
    requires id in s2.sessions && s2 == s1.(sessions := s1.sessions[id := s2.sessions[id]])
    ensures Onward(s, s2) && KeepsMembers(s, s2, ids)
    ensures GroupsRestart(s, s2, ids)
  {
    forall m | m in s.sessions ensures Renewed(s, s2, m) == Renewed(s, s1, m) && WantedIn(s2, m) == WantedIn(s1, m) {
      assert forall z, c :: SentNew(s, s2, z, c) == SentNew(s, s1, z, c);
    }
    forall c, m | c in s.groups && m in s.groups[c] && m !in ids && WantedIn(s, m) && WantedIn(s2, m)
      ensures MemberKept(s, s2, c, m)
    {
      assert MemberKept(s, s1, c, m);
    }
    forall j | j in s.sessions && j in s2.sessions ensures GoesOn(s, s2, j) {
      assert GoesOn(s, s1, j);
    }
  }

  lemma GoneKeeps(s: St, t: St, ids: set<SessionId>)
    requires KeepsMembers(s, t, ids) && forall j :: WantedIn(t, j) && WantedIn(s, j) ==> j !in ids
    ensures KeepsMembers(s, t, {})
  {
    hide Renewed;
  }

  // ---- Every step ----

  /** The step takes the session out of every group, and breaks up the one that it coordinates:
      play after a pause or a loss, pause, flush, a failure without another retry, a retry without
      a stream, the end of the session, another session in its room. */
  predicate BreaksUp(s: St, step: Step, c: SessionId) {
    && c in s.sessions
    && var x := s.sessions[c];
       match step
       case SessionStarts(_, zone, _) => zone == x.zone
       case SessionStops(id) => id == c
       case PlaybackChanges(id, playing) => id == c && (playing ==> !x.wanted || x.resetNeeded)
       case Flushed(id, epoch) => id == c && epoch > x.epoch
       case ResultArrives(_, id, g, outcome) =>
         id == c && g == x.generation && x.wanted
         && (outcome == PermanentFailure || (outcome in {TimedOut, Failed} && x.attempts >= 6))
       case RetryArrives(_, id, g) => id == c && g == x.generation && x.wanted && x.prepared.None?
       case _ => false
  }

  /** The session that a step may take out of a group without a restart: it pauses or stops, plays
      a stream of its own, or gave up. */
  function Leavers(s: St, step: Step): set<SessionId> {
    match step
    case SessionStops(id) => {id}
    case PlaybackChanges(id, playing) => if playing then {} else {id}
    case Flushed(id, _) => if WantedIn(s, id) then {} else {id}
    case ResultArrives(_, id, _, outcome) =>
      if outcome == Started || outcome == Failed || BreaksUp(s, step, id) then {id} else {}
    case _ => {}
  }

  lemma OneGroup(s: St, t: St, id: SessionId)
    requires Dissolves(s, t, id)
    ensures GroupsRestart(s, t, {id}) && KeepsMembers(s, t, {id})
  {
    hide Renewed, Onward, KeepsMembers;
  }

  lemma EachGroup(s: St, t: St, ids: set<SessionId>, c: SessionId)
    requires GroupsRestart(s, t, ids) && c in ids
    ensures GroupsRestart(s, t, {c})
  {
    hide Renewed;
  }

  lemma SameMembers(s: St, t: St)
    requires Regrouped(s.groups, t.groups)
    ensures KeepsMembers(s, t, {})
  {
    RegroupedKeeps(s, t);
  }

  lemma PlaybackMembers(e: Env, s: St, id: SessionId, playing: bool)
    requires ValidEnv(e) && Core(e, s, {}) && Queue(e, s)
    ensures var t := SetPlayback(e, s, id, playing);
            && KeepsMembers(s, t, if playing then {} else {id})
            && (BreaksUp(s, PlaybackChanges(id, playing), id) ==> GroupsRestart(s, t, {id}))
  {
    hide Core, Queue, ValidEnv, SetPlayback, KeepsMembers, GroupsRestart, Dissolves;
    var t := SetPlayback(e, s, id, playing);
    if BreaksUp(s, PlaybackChanges(id, playing), id) {
      if playing {
        PlayDissolves(e, s, id);
      } else {
        SettledEncoder(e, s, id);
        PauseDissolves(e, s, id, {});
      }
      OneGroup(s, t, id);
    } else {
      QuietPlayback(e, s, id, playing);
      SameGroups(s.groups);
      SameMembers(s, t);
      KeepsMore(s, t, id);
    }
  }

  lemma QuietPlayback(e: Env, s: St, id: SessionId, playing: bool)
    requires !BreaksUp(s, PlaybackChanges(id, playing), id)
    ensures SetPlayback(e, s, id, playing).groups == s.groups
  {
    hide Restart, LeaveGroup;
  }

  lemma FlushMembers(e: Env, s: St, id: SessionId, epoch: nat)
    requires ValidEnv(e) && Core(e, s, {}) && Queue(e, s)
    ensures var t := HandleFlush(e, s, id, epoch);
            && KeepsMembers(s, t, if WantedIn(s, id) then {} else {id})
            && (BreaksUp(s, Flushed(id, epoch), id) ==> GroupsRestart(s, t, {id}))
  {
    hide Core, Queue, ValidEnv, Restart, SetPlayback, KeepsMembers, GroupsRestart, Dissolves;
    var t := HandleFlush(e, s, id, epoch);
    if id in s.sessions && epoch > s.sessions[id].epoch {
      FlushDissolves(e, s, id, epoch);
      OneGroup(s, t, id);
    } else {
      SameGroups(s.groups);
      SameMembers(s, t);
      KeepsMore(s, t, id);
    }
  }

  lemma FrameMembers(e: Env, s: St, id: SessionId, epoch: nat, write: Write)
    ensures KeepsMembers(s, HandleFrame(e, s, id, epoch, write), {})
  {
    hide KeepsMembers;
    SameGroups(s.groups);
    SameMembers(s, HandleFrame(e, s, id, epoch, write));
  }

  lemma PreparedMembers(e: Env, s: St, zone: ZoneId, id: SessionId, generation: nat)
    requires zone in s.channels
    ensures KeepsMembers(s, HandlePrepared(e, Take(s, zone, Prepared(id, generation)), id, generation), {})
  {
    hide KeepsMembers, PlayPrepared, MaybeStart, CohortOf, Regrouped;
    var s1 := Take(s, zone, Prepared(id, generation));
    SameGroups(s.groups);
    if id in s.sessions && s.sessions[id].generation == generation && s.sessions[id].wanted {
      var stream := Stream(id, s.sessions[id].zone, generation);
      var s2 := s1.(sessions := s1.sessions[id := s1.sessions[id].(prepared := Some(stream), held := None)]);
      match CohortOf(s2.cohorts, id)
      case None => PlayPreparedRegroups(e, s2, [stream]);
      case Some(i) =>
        var c := s2.cohorts[i];
        MaybeStartRegroups(e, s2.(cohorts := s2.cohorts[i := c.(prepared := c.prepared[id := stream])]), false);
    }
    SameMembers(s, HandlePrepared(e, s1, id, generation));
  }

  lemma ResultMembers(e: Env, s: St, zone: ZoneId, id: SessionId, generation: nat, outcome: Outcome)
    requires ValidEnv(e) && Core(e, s, {}) && Queue(e, s) && zone in s.channels
    requires Result(id, generation, outcome) in s.channels[zone].bag
    ensures var t := HandleResult(e, Take(s, zone, Result(id, generation, outcome)), id, generation, outcome);
            var step := ResultArrives(zone, id, generation, outcome);
            && KeepsMembers(s, t, Leavers(s, step)) && (BreaksUp(s, step, id) ==> GroupsRestart(s, t, {id}))
  {
    hide ValidEnv, Core, Queue, HandleResult, KeepsMembers, GroupsRestart, Dissolves;
    var m := Result(id, generation, outcome);
    var t := HandleResult(e, Take(s, zone, m), id, generation, outcome);
    TagZone(e, s, zone, m);
    if BreaksUp(s, ResultArrives(zone, id, generation, outcome), id) {
      ResultDissolves(e, s, id, outcome);
      OneGroup(s, t, id);
    } else {
      QuietResult(e, s, zone, id, generation, outcome);
    }
  }

  /** A result that does not break up a group takes at most its own session out of one. */
  lemma QuietResult(e: Env, s: St, zone: ZoneId, id: SessionId, generation: nat, outcome: Outcome)
    requires zone in s.channels && !BreaksUp(s, ResultArrives(zone, id, generation, outcome), id)
    ensures var t := HandleResult(e, Take(s, zone, Result(id, generation, outcome)), id, generation, outcome);
            KeepsMembers(s, t, if outcome == Started || outcome == Failed then {id} else {})
  {
    hide LeaveGroup, ResultSession, Renewed;
  }

  lemma RetryMembers(e: Env, s: St, zone: ZoneId, id: SessionId, generation: nat)
    requires ValidEnv(e) && Core(e, s, {}) && Queue(e, s) && zone in s.channels
    requires Retry(id, generation) in s.channels[zone].bag
    ensures var t := HandleRetry(e, Take(s, zone, Retry(id, generation)), id, generation);
            && KeepsMembers(s, t, {})
            && (BreaksUp(s, RetryArrives(zone, id, generation), id) ==> GroupsRestart(s, t, {id}))
  {
    hide ValidEnv, Core, Queue, HandleRetry, KeepsMembers, GroupsRestart, Dissolves;
    var m := Retry(id, generation);
    var t := HandleRetry(e, Take(s, zone, m), id, generation);
    TagZone(e, s, zone, m);
    if BreaksUp(s, RetryArrives(zone, id, generation), id) {
      RetryDissolves(e, s, id);
      OneGroup(s, t, id);
    } else {
      QuietRetry(e, s, zone, id, generation);
      SameGroups(s.groups);
      SameMembers(s, t);
    }
  }

  lemma QuietRetry(e: Env, s: St, zone: ZoneId, id: SessionId, generation: nat)
    requires zone in s.channels && !BreaksUp(s, RetryArrives(zone, id, generation), id)
    ensures HandleRetry(e, Take(s, zone, Retry(id, generation)), id, generation).groups == s.groups
  {
    hide Restart;
  }

  lemma WakeMembers(e: Env, s: St, due: nat)
    ensures KeepsMembers(s, HandleWake(e, s, due), {})
  {
    hide KeepsMembers, MaybeStart;
    MaybeStartRegroups(e, s, false);
    SameMembers(s, HandleWake(e, s, due));
  }

  /** A worker, or a timer that fires, leaves groups alone. */
  lemma WorkerMembers(e: Env, s: St, step: Step)
    requires Enabled(e, s, step) && (OfWorker(step) || step.RetryTimerFires?)
    ensures KeepsMembers(s, Next(e, s, step), {})
  {
    hide KeepsMembers, CanMove, Moved;
    SameGroups(s.groups);
    SameMembers(s, Next(e, s, step));
  }

  /** Every step keeps each member in its group or restarts it, but for the session that leaves,
      and the groups that it breaks up restart. */
  lemma StepMembers(e: Env, s: St, step: Step)
    requires ValidEnv(e) && Sound(e, s) && Enabled(e, s, step)
    ensures KeepsMembers(s, Next(e, s, step), Leavers(s, step))
    ensures forall c :: BreaksUp(s, step, c) ==> GroupsRestart(s, Next(e, s, step), {c})
  {
    hide Core, Queue, ValidEnv, SharedCutoffs, KeepsMembers, GroupsRestart, Dissolves;
    hide StartSession, StopSession, SetPlayback, HandleFlush, HandleFrame, HandlePrepared, HandleResult, HandleRetry,
         FireRetry, HandleWake, FinishGroup;
    var t := Next(e, s, step);
    match step
    case SessionStarts(id, zone, sender) =>
      StartDissolves(e, s, id, zone, sender);
      forall c | BreaksUp(s, step, c) ensures GroupsRestart(s, t, {c}) {
        EachGroup(s, t, SessionsIn(s, zone), c);
      }
    case SessionStops(id) => StopMembers(e, s, id);
    case PlaybackChanges(id, playing) => PlaybackMembers(e, s, id, playing);
    case Flushed(id, epoch) => FlushMembers(e, s, id, epoch);
    case FrameArrives(id, epoch, write) => FrameMembers(e, s, id, epoch, write);
    case PreparedArrives(zone, id, g) => PreparedMembers(e, s, zone, id, g);
    case ResultArrives(zone, id, g, outcome) => ResultMembers(e, s, zone, id, g, outcome);
    case RetryArrives(zone, id, g) => RetryMembers(e, s, zone, id, g);
    case RetryTimerFires(id) => WorkerMembers(e, s, step);
    case WakeFires(due) => WakeMembers(e, s, due);
    case WorkerMoves(zone, move) => WorkerMembers(e, s, step);
    case GroupPlayEnds(zone, outcome) => WorkerMembers(e, s, step);
  }

  lemma StopMembers(e: Env, s: St, id: SessionId)
    requires ValidEnv(e) && Core(e, s, {}) && Queue(e, s)
    ensures KeepsMembers(s, StopSession(e, s, id), {id})
    ensures id in s.sessions ==> GroupsRestart(s, StopSession(e, s, id), {id})
  {
    hide ValidEnv, Core, Queue, StopSession, KeepsMembers, GroupsRestart, Dissolves;
    if id in s.sessions {
      StopDissolves(e, s, id);
      OneGroup(s, StopSession(e, s, id), id);
    } else {
      NoStop(e, s, id);
      SameGroups(s.groups);
      SameMembers(s, s);
      KeepsMore(s, s, id);
    }
  }

  lemma NoStop(e: Env, s: St, id: SessionId)
    requires id !in s.sessions
    ensures StopSession(e, s, id) == s
  {
  }

  /** Whatever happens, no wanted member of a group is forgotten: after the step it is still in its
      group, or it restarted, in a generation of its own, with a Stop to its room and something
      that drives it on. Only a session that pauses, stops, plays its own stream or gives up leaves
      its group without a restart. */
  lemma NoMemberIsForgotten(e: Env, s: St, step: Step, c: SessionId, m: SessionId)
    requires ValidEnv(e) && Sound(e, s) && Enabled(e, s, step)
    requires c in s.groups && m in s.groups[c] && m !in Leavers(s, step)
    requires m in s.sessions && s.sessions[m].wanted
    ensures var t := Next(e, s, step);
            m in t.sessions && t.sessions[m].wanted ==>
              (c in t.groups && m in t.groups[c]) || RestartsAlone(e, s, t, m)
  {
    hide Sound, ValidEnv, Enabled, Next, Leavers, Renewed, RestartsAlone;
    var t := Next(e, s, step);
    StepMembers(e, s, step);
    if m in t.sessions && t.sessions[m].wanted && !(c in t.groups && m in t.groups[c]) {
      assert MemberKept(s, t, c, m);
      StepSound(e, s, step);
      Driven(e, s, t, m);
    }
  }

  /** A group that a step breaks up: each of its members that wants playback restarts. */
  lemma BrokenGroupRestarts(e: Env, s: St, step: Step, c: SessionId, m: SessionId)
    requires ValidEnv(e) && Sound(e, s) && Enabled(e, s, step) && BreaksUp(s, step, c)
    requires c in s.groups && m in s.groups[c] && m != c && m in s.sessions && s.sessions[m].wanted
    ensures var t := Next(e, s, step);
            m in t.sessions && t.sessions[m].wanted ==> RestartsAlone(e, s, t, m)
  {
    hide Sound, ValidEnv, Enabled, Next, BreaksUp, Renewed, RestartsAlone;
    var t := Next(e, s, step);
    StepMembers(e, s, step);
    if m in t.sessions && t.sessions[m].wanted {
      assert GroupsRestart(s, t, {c});
      StepSound(e, s, step);
      Driven(e, s, t, m);
    }
  }

  /** The session is in a generation that was issued since `s`, is not seen to play, its room was
      told to stop for such a generation, and exactly one thing drives it, unless its retries are
      spent. */
  ghost predicate RestartsAlone(e: Env, s: St, t: St, m: SessionId)
    requires m in s.sessions && m in t.sessions
  {
    var x, zone := t.sessions[m], s.sessions[m].zone;
    && x.generation > |s.issued| && x.observed != Playing
    && zone in s.channels && zone in t.channels && s.channels[zone].unseen <= t.channels[zone].unseen
    && (exists g: nat :: g > |s.issued| && Stop(m, g) in t.channels[zone].unseen[|s.channels[zone].unseen|..])
    && x.zone in t.channels && (Tokens(m, x, t.channels[x.zone], Entry(t, m)) == 1 || Spent(x))
  }

  lemma Driven(e: Env, s: St, t: St, m: SessionId)
    requires Renewed(s, t, m) && Sound(e, t) && t.sessions[m].wanted
    ensures RestartsAlone(e, s, t, m)
  {
    hide Core, Queue, SharedCutoffs, Tokens, Spent, HasEntry;
    CoreAt(e, t, m, {});
    var x := t.sessions[m];
    NotPlaying(e.wav, m, x, t.channels[x.zone], Entry(t, m), x.generation in t.plans);
    var zone := s.sessions[m].zone;
    var g: nat :| g > |s.issued| && SentNew(s, t, zone, Stop(m, g));
    assert Stop(m, g) in t.channels[zone].unseen[|s.channels[zone].unseen|..];
  }

  lemma NotPlaying(wav: bool, id: SessionId, x: Session, ch: Channel, entry: bool, planned: bool)
    requires RoomOk(wav, id, x, ch, entry, planned, true) && x.wanted && x.observed != Playing
    ensures Tokens(id, x, ch, entry) == 1 || Spent(x)
  {
    hide Tokens, Spent;
  }
}
