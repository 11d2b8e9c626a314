/** What an exposed restart leads to. The bridge goes on without breaking up another group, and
    the room whose session restarted becomes a member of the group that it coordinates, and is
    told to join itself. */
module BridgeSelfJoin {
  import opened BridgeState
  import opened BridgeHandlers
  import opened BridgeRooms
  import opened BridgeCore
  import opened BridgeForest
  import opened BridgeOut
  import opened BridgeRegroup
  import opened BridgeExposure
  import opened BridgeSteps
  import opened BridgeWorker
  import opened BridgeSystem
  import opened BridgeGroups

  /** The room of `c` is to prepare its stream, nothing waits, and a release of that stream would
      pick `c` for its own group. */
  ghost predicate Doomed(e: Env, s: St, c: SessionId, sender: Sender) {
    && c in s.sessions && s.cohorts == [] && c in s.groups && !IsMember(s.groups, c)
    && s.sessions[c].wanted && s.sessions[c].sender == Some(sender) && IsSonos(e, s.sessions[c].zone)
    && s.sessions[c].zone in s.channels && e.nativeGroups
    && (forall t, ids: set<SessionId> :: s.ticks <= t && c in ids ==> e.choose(t, ids) == c)
  }

  lemma DoomedFrame(e: Env, s: St, t: St, c: SessionId, sender: Sender)
    requires Doomed(e, s, c, sender) && t.sessions == s.sessions && t.cohorts == s.cohorts && t.groups == s.groups
    requires t.channels.Keys == s.channels.Keys && s.ticks <= t.ticks
    ensures Doomed(e, t, c, sender)
  {
    hide IsMember;
  }

  lemma DoomedZone(e: Env, s: St, c: SessionId, sender: Sender)
    requires Doomed(e, s, c, sender)
    ensures c in s.sessions && s.sessions[c].zone in s.channels
  {
  }

  /** The room is a member of its own group, and the command to join itself is under way. */
  ghost predicate SelfJoined(s: St, c: SessionId) {
    && c in s.groups && c in s.groups[c]
    && c in s.sessions && s.sessions[c].zone in s.channels
    && exists j :: Join(c, s.sessions[c].generation, j, s.sessions[c].zone) in s.channels[s.sessions[c].zone].unseen
  }

  lemma SelfJoinedIsNoForest(e: Env, s: St, c: SessionId)
    requires SelfJoined(s, c)
    ensures !DepthOne(e, s) && !NoSelfJoins(s)
  {
    assert DepthOne(e, s) ==> TreePair(e, s, c, c);
    assert NoSelfJoins(s) ==> NoSelfJoin(s.sessions[c].zone, s.channels[s.sessions[c].zone]);
  }

  // ---- The release picks the room for its own group ----

  lemma PicksItself(e: Env, s: St, c: SessionId, sender: Sender)
    requires Doomed(e, s, c, sender)
    ensures GroupSender(e, Grouping(s, map[]), sender, [c]) == AddToGroup(Grouping(Ticked(s), map[]), c, [c])
  {
    hide IsMember, AddToGroup;
    assert Eligible(e, s, c, sender);
    assert c in Coordinators(e, s, sender);
    assert c in Preferred(e, s, sender);
  }

  lemma GroupsItself(e: Env, s: St, p: Stream, sender: Sender)
    requires Doomed(e, s, p.id, sender) && p.zone == s.sessions[p.id].zone
    ensures var g := GroupAll(e, Grouping(s, map[]), [p]);
            && p.id in g.st.groups && p.id in g.st.groups[p.id] && g.roles == map[p.id := p.id]
            && g.st == s.(groups := g.st.groups, ticks := g.st.ticks)
  {
    hide GroupSender, IsMember;
    var g := Grouping(s, map[]);
    assert [p][1..] == [];
    assert StreamSender(e, s, p) == Some(sender);
    assert SameSender(e, s, [p], sender) == [p.id];
    assert OtherSenders(e, s, [p], sender) == [];
    PicksItself(e, s, p.id, sender);
    var r := AddToGroup(Grouping(Ticked(s), map[]), p.id, [p.id]);
    assert r.roles == map[p.id := p.id];
    assert GroupAll(e, g, [p]) == GroupAll(e, r, []);
  }

  lemma ReleasesItself(e: Env, s: St, p: Stream, sender: Sender)
    requires Doomed(e, s, p.id, sender) && p.zone == s.sessions[p.id].zone
    requires p.generation == s.sessions[p.id].generation
    ensures SelfJoined(PlayPrepared(e, s, [p]), p.id)
  {
    hide GroupAll, IsMember, CohortDelays, DelayOf;
    GroupsItself(e, s, p, sender);
    var (t, launch) := PrepareLaunch(e, s, [p]);
    assert launch.roles == map[p.id := p.id];
    assert p.id in launch.roles;
    assert launch.joins.Some?;
    var c := StartCommand(e, t, launch, p);
    assert c == Join(p.id, p.generation, launch.joins.value, p.zone);
    assert [p][1..] == [];
    var u := StartOne(e, t, t, launch, p);
    assert StartAll(e, t, u, launch, []) == u;
    assert PlayPrepared(e, s, [p]) == u;
    assert c in u.channels[p.zone].unseen;
  }

  // ---- The way there ----

  lemma MoveOn(e: Env, s: St, zone: ZoneId, move: Move, rest: seq<Step>)
    requires zone in s.channels && CanMove(s.channels[zone], move)
    requires var t := WithChannel(s, zone, Moved(s.channels[zone], zone, move));
             Possible(e, t, rest) && CalmRun(e, t, rest)
    ensures var t := WithChannel(s, zone, Moved(s.channels[zone], zone, move));
            var steps := [WorkerMoves(zone, move)] + rest;
            Possible(e, s, steps) && CalmRun(e, s, steps) && Run(e, s, steps) == Run(e, t, rest)
  {
    hide CanMove, Moved, Safe;
    var steps := [WorkerMoves(zone, move)] + rest;
    assert steps[1..] == rest;
  }

  /** The stream is prepared, belongs to no cohort, and plays at once. */
  lemma ArrivesToItself(e: Env, s: St, c: SessionId, sender: Sender) returns (after: seq<Step>)
    requires Doomed(e, s, c, sender)
    requires Prepared(c, s.sessions[c].generation) in s.channels[s.sessions[c].zone].bag
    ensures Possible(e, s, after) && CalmRun(e, s, after) && SelfJoined(Run(e, s, after), c)
  {
    hide IsMember, PlayPrepared, SelfJoined, Safe, MaybeStart;
    var x := s.sessions[c];
    var step := PreparedArrives(x.zone, c, x.generation);
    after := [step];
    assert after[1..] == [];
    var p := Stream(c, x.zone, x.generation);
    var t := Take(s, x.zone, Prepared(c, x.generation));
    var u := t.(sessions := t.sessions[c := x.(prepared := Some(p), held := None)]);
    ReleasesItself(e, u, p, sender);
    assert Next(e, s, step) == PlayPrepared(e, u, [p]);
  }

  lemma PreparesItself(e: Env, s: St, c: SessionId, sender: Sender) returns (after: seq<Step>)
    requires Doomed(e, s, c, sender)
    requires s.channels[s.sessions[c].zone].running == Some(Prepare(c, s.sessions[c].generation))
    ensures Possible(e, s, after) && CalmRun(e, s, after) && SelfJoined(Run(e, s, after), c)
  {
    hide Doomed, SelfJoined, Possible, CalmRun, Run;
    DoomedZone(e, s, c, sender);
    var zone := s.sessions[c].zone;
    var move := PrepareEnds(Left, true, Loaded);
    var t := WithChannel(s, zone, Moved(s.channels[zone], zone, move));
    DoomedFrame(e, s, t, c, sender);
    var rest := ArrivesToItself(e, t, c, sender);
    MoveOn(e, s, zone, move, rest);
    after := [WorkerMoves(zone, move)] + rest;
  }

  lemma LooksUp(e: Env, s: St, c: SessionId, sender: Sender) returns (after: seq<Step>)
    requires Doomed(e, s, c, sender) && Coming(s, c) && s.channels[s.sessions[c].zone].running.None?
    ensures Possible(e, s, after) && CalmRun(e, s, after) && SelfJoined(Run(e, s, after), c)
  {
    hide Doomed, SelfJoined, Possible, CalmRun, Run, HasEntry;
    var zone := s.sessions[c].zone;
    var move := Looks(|s.channels[zone].unseen| - 1);
    var t := WithChannel(s, zone, Moved(s.channels[zone], zone, move));
    DoomedFrame(e, s, t, c, sender);
    var rest := PreparesItself(e, t, c, sender);
    MoveOn(e, s, zone, move, rest);
    after := [WorkerMoves(zone, move)] + rest;
  }

  /** From there the room ends up as a member of its own group, and no group breaks up. */
  lemma Dooms(e: Env, s: St, c: SessionId, sender: Sender) returns (after: seq<Step>)
    requires Doomed(e, s, c, sender) && Coming(s, c)
    ensures Possible(e, s, after) && CalmRun(e, s, after) && SelfJoined(Run(e, s, after), c)
  {
    hide Doomed, SelfJoined, Possible, CalmRun, Run, HasEntry, Ending, Moved, CanMove;
    var zone := s.sessions[c].zone;
    var ch := s.channels[zone];
    if ch.running.None? {
      after := LooksUp(e, s, c, sender);
    } else {
      RunningEnds(ch, zone);
      var t := WithChannel(s, zone, Moved(ch, zone, Ending(ch)));
      DoomedFrame(e, s, t, c, sender);
      var rest := LooksUp(e, t, c, sender);
      MoveOn(e, s, zone, Ending(ch), rest);
      after := [WorkerMoves(zone, Ending(ch))] + rest;
    }
  }

  // ---- Exactly when ----

  /** When time flies, an exposed session ends its restart doomed. */
  lemma ExposedDooms(e: Env, s: St, c: SessionId) returns (f: Env, after: seq<Step>)
    requires ValidEnv(e) && Core(e, s, {}) && Queue(e, s) && Forest(e, s) && c in s.sessions && s.sessions[c].wanted
    requires !e.clearFirst && Exposed(e, s, c)
    ensures GoesOn(e, s, c, f, after) && SelfJoined(Run(f, Restart(f, s, c), after), c)
  {
    hide ValidEnv, Core, Queue, Forest, Restart, Coming, Exposed, Possible, CalmRun, Run, SelfJoined, IsMember,
         HasEntry, Flies, Ungrouped;
    f := Hasty(e, s, c);
    ExposedFails(e, s, c);
    CoreCourse(e, s, f, {});
    HastyFlies(e, s, c);
    RestartPrepares(f, s, c, {});
    RestartCore(f, s, c, {});
    var sender := ExposedSender(e, s, c);
    var t := Restart(f, s, c);
    assert SameWish(s.sessions[c], t.sessions[c]);
    ComingZone(t, c);
    after := Dooms(f, t, c, sender);
  }

  lemma ComingZone(s: St, c: SessionId)
    requires Coming(s, c)
    ensures c in s.sessions && s.sessions[c].zone in s.channels
  {
  }

  lemma ExposedSender(e: Env, s: St, c: SessionId) returns (sender: Sender)
    requires Forest(e, s) && c in s.sessions && Exposed(e, s, c)
    ensures s.sessions[c].sender == Some(sender) && IsSonos(e, s.sessions[c].zone) && e.nativeGroups
  {
    hide Unready, SameDelays, NoSelfJoins, SomeoneWaits;
    assert Participant(e, s, c);
    sender := s.sessions[c].sender.value;
  }

  lemma UnexposedIsSafe(e: Env, s: St, c: SessionId)
    requires Forest(e, s) && c in s.sessions && s.sessions[c].observed == Playing && !Exposed(e, s, c)
    ensures RestartSafe(e, s, c)
  {
    hide SomeoneWaits, Unready, SameDelays;
    forall m | m in Detached(s, c) ensures Quiet(e, s, m) {
      assert c in s.groups && m in s.groups[c];
      assert MemberOk(e, s, c, m);
    }
  }

  /** In the course `f`, `after` is a calm continuation of the restart of `c`. */
  ghost predicate GoesOn(e: Env, s: St, c: SessionId, f: Env, after: seq<Step>) {
    Course(e, s, f) && Possible(f, Restart(f, s, c), after) && CalmRun(f, Restart(f, s, c), after)
  }

  /** What holds in every state that can follow the restart of `c`, whatever the timing and however
      the bridge goes on, as long as it breaks up no other group while a stream of its sender waits. */
  ghost predicate StaysForest(e: Env, s: St, c: SessionId) {
    forall f, after :: GoesOn(e, s, c, f, after) ==> DepthOne(f, Run(f, Restart(f, s, c), after))
  }

  ghost predicate StaysApart(e: Env, s: St, c: SessionId) {
    forall f, after :: GoesOn(e, s, c, f, after) ==> NoSelfJoins(Run(f, Restart(f, s, c), after))
  }

  lemma UnexposedStays(e: Env, s: St, f: Env, c: SessionId, after: seq<Step>)
    requires ValidEnv(e) && Sound(e, s) && Forest(e, s) && c in s.sessions && s.sessions[c].wanted
    requires s.sessions[c].observed == Playing && !Exposed(e, s, c)
    requires GoesOn(e, s, c, f, after)
    ensures DepthOne(f, Run(f, Restart(f, s, c), after)) && NoSelfJoins(Run(f, Restart(f, s, c), after))
  {
    hide ValidEnv, Core, Queue, Forest, Restart, Exposed, Unready, Safe, Possible, CalmRun, Run, SharedCutoffs,
         DepthOne, NoSelfJoins;
    CoreCourse(e, s, f, {});
    ForestCourse(e, s, f);
    ExposedCourse(e, s, f, c);
    UnexposedIsSafe(f, s, c);
    RestartForest(f, s, c, {});
    RestartCore(f, s, c, {});
    var t := Restart(f, s, c);
    CutoffsStay(s, t);
    assert {} - {c} == {};
    RunForest(f, t, after);
    ForestIsDepthOne(f, Run(f, t, after));
    ForestJoins(f, Run(f, t, after));
  }

  lemma ForestJoins(e: Env, s: St)
    requires Forest(e, s)
    ensures NoSelfJoins(s)
  {
  }

  lemma UnexposedKeeps(e: Env, s: St, c: SessionId)
    requires ValidEnv(e) && Sound(e, s) && Forest(e, s) && c in s.sessions && s.sessions[c].wanted
    requires s.sessions[c].observed == Playing && !Exposed(e, s, c)
    ensures StaysForest(e, s, c) && StaysApart(e, s, c)
  {
    hide ValidEnv, Sound, Forest, Restart, Exposed, Possible, CalmRun, Run, Course, DepthOne, NoSelfJoins;
    forall f, after | GoesOn(e, s, c, f, after)
      ensures DepthOne(f, Run(f, Restart(f, s, c), after)) && NoSelfJoins(Run(f, Restart(f, s, c), after))
    {
      UnexposedStays(e, s, f, c, after);
    }
  }

  lemma ExposedBreaks(e: Env, s: St, c: SessionId)
    requires ValidEnv(e) && Sound(e, s) && Forest(e, s) && c in s.sessions && s.sessions[c].wanted
    requires !e.clearFirst && Exposed(e, s, c)
    ensures !StaysForest(e, s, c) && !StaysApart(e, s, c)
  {
    hide ValidEnv, Sound, Forest, Restart, Exposed, Possible, CalmRun, Run, Course, SelfJoined, DepthOne, NoSelfJoins;
    SoundState(e, s);
    var f, after := ExposedDooms(e, s, c);
    SelfJoinedIsNoForest(f, Run(f, Restart(f, s, c), after), c);
  }

  /** After the restart of a session that plays, the groups stay a forest of depth one and no room
      is told to join itself, under every timing and however a calm run goes on, exactly when the
      session is not exposed. */
  lemma KeepsForestExactly(e: Env, s: St, c: SessionId)
    requires ValidEnv(e) && Sound(e, s) && Forest(e, s) && c in s.sessions && s.sessions[c].wanted
    requires !e.clearFirst && s.sessions[c].observed == Playing
    ensures StaysForest(e, s, c) <==> !Exposed(e, s, c)
    ensures StaysApart(e, s, c) <==> !Exposed(e, s, c)
  {
    hide ValidEnv, Sound, Forest, Exposed, StaysForest, StaysApart;
    if Exposed(e, s, c) {
      ExposedBreaks(e, s, c);
    } else {
      UnexposedKeeps(e, s, c);
    }
  }

  lemma SoundState(e: Env, s: St)
    requires Sound(e, s)
    ensures Core(e, s, {}) && Queue(e, s)
  {
  }
}
