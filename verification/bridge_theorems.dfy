/** What the invariants say about every state that a run of the bridge reaches. */
module BridgeTheorems {
  import opened BridgeState
  import opened BridgeHandlers
  import opened BridgeRooms
  import opened BridgeCore
  import opened BridgeForest
  import opened BridgeGroups
  import opened BridgeSteps
  import opened BridgeSystem
  import opened BridgeRuns

  lemma Reached(e: Env, steps: seq<Step>)
    requires ValidEnv(e) && Possible(e, Init(e), steps)
    ensures Sound(e, Run(e, Init(e), steps))
  {
    hide Sound, Run, Possible, ValidEnv;
    InitSound(e);
    RunSound(e, Init(e), steps);
  }

  /** No session is stuck, and none is driven twice: one that wants playback has exactly one
      thing under way, or plays, or spent its retries. Nothing is under way for one that does
      not. A session that plays while something is under way lost its stream and waits for a
      retry. */
  lemma OneDriver(e: Env, steps: seq<Step>, id: SessionId)
    requires ValidEnv(e) && Possible(e, Init(e), steps) && id in Run(e, Init(e), steps).sessions
    ensures var s := Run(e, Init(e), steps);
            var x := s.sessions[id];
            && x.zone in s.channels && x.attempts <= RETRY_BUDGET
            && var under := Tokens(id, x, s.channels[x.zone], Entry(s, id));
               && under <= 1
               && (x.wanted ==> under == 1 || x.observed == Playing || Spent(x))
               && (!x.wanted ==> under == 0 && x.observed != Playing)
               && (x.observed == Playing && under == 1 ==>
                     x.timer == Some(x.generation) || Retry(id, x.generation) in s.channels[x.zone].bag)
  {
    hide Run, Possible, ValidEnv, Core, Tokens;
    Reached(e, steps);
    CoreAt(e, Run(e, Init(e), steps), id, {});
  }

  /** No other session, and nothing in another room, carries the generation of `id`. */
  ghost predicate OwnsItsTags(s: St, id: SessionId)
    requires id in s.sessions
  {
    var x := s.sessions[id];
    && 1 <= x.generation <= |s.issued|
    && (forall j :: j in s.sessions && (s.sessions[j].generation == x.generation || s.sessions[j].zone == x.zone) ==>
       j == id)
    && (forall z :: z in s.channels ==>
          && (forall m :: m in s.channels[z].bag && m.generation == x.generation ==> m.id == id && z == x.zone)
          && (forall c :: c in s.channels[z].unseen && c.generation == x.generation ==> c.id == id && z == x.zone)
          && (forall c :: s.channels[z].running == Some(c) && c.generation == x.generation ==>
                c.id == id && z == x.zone))
    && (forall i :: 0 <= i < |s.cohorts| ==>
          forall j :: j in s.cohorts[i].prepared && s.cohorts[i].prepared[j].generation == x.generation ==> j == id)
  }

  /** Generations are never shared, zones have one session each, and whatever a room holds that
      carries a live session's generation belongs to that session, in its own room. */
  lemma TagsAreOwned(e: Env, steps: seq<Step>, id: SessionId)
    requires ValidEnv(e) && Possible(e, Init(e), steps) && id in Run(e, Init(e), steps).sessions
    ensures OwnsItsTags(Run(e, Init(e), steps), id)
  {
    hide Run, Possible, ValidEnv, RoomOk, ChannelOk, HasEntry;
    Reached(e, steps);
    var s := Run(e, Init(e), steps);
    CoreAt(e, s, id, {});
    SettledGeneration(e, s, id);
    Owned(e, s, id);
  }

  lemma Owned(e: Env, s: St, id: SessionId)
    requires Core(e, s, {}) && id in s.sessions && s.sessions[id].generation > 0
    ensures OwnsItsTags(s, id)
  {
    hide Rooms, RoomOk, ChannelOk, HasEntry, Bounded, Core, Issued;
    var x := s.sessions[id];
    OwnedZones(e, s, id);
    CoreAt(e, s, id, {});
    forall z | z in s.channels
      ensures forall m :: m in s.channels[z].bag && m.generation == x.generation ==> m.id == id && z == x.zone
      ensures forall c :: c in s.channels[z].unseen && c.generation == x.generation ==> c.id == id && z == x.zone
      ensures forall c :: s.channels[z].running == Some(c) && c.generation == x.generation ==> c.id == id && z == x.zone
    {
      OwnedChannel(e, s, id, z);
    }
    forall i, j | 0 <= i < |s.cohorts| && j in s.cohorts[i].prepared
        && s.cohorts[i].prepared[j].generation == x.generation
      ensures j == id
    {
      OwnedEntry(e, s, id, i, j);
    }
  }

  lemma OwnedZones(e: Env, s: St, id: SessionId)
    requires Core(e, s, {}) && id in s.sessions && s.sessions[id].generation > 0
    ensures forall j :: j in s.sessions && s.sessions[j].generation == s.sessions[id].generation ==> j == id
    ensures forall j :: j in s.sessions && s.sessions[j].zone == s.sessions[id].zone ==> j == id
    ensures 1 <= s.sessions[id].generation <= |s.issued|
  {
    hide Rooms, Channels, Streams;
  }

  lemma OwnedChannel(e: Env, s: St, id: SessionId, z: ZoneId)
    requires Core(e, s, {}) && id in s.sessions && s.sessions[id].generation > 0 && z in s.channels
    ensures var x := s.sessions[id];
            && (forall m :: m in s.channels[z].bag && m.generation == x.generation ==> m.id == id && z == x.zone)
            && (forall c :: c in s.channels[z].unseen && c.generation == x.generation ==> c.id == id && z == x.zone)
            && (forall c :: s.channels[z].running == Some(c) && c.generation == x.generation ==>
                  c.id == id && z == x.zone)
  {
    hide Rooms, ChannelOk, Streams;
    var x := s.sessions[id];
    assert Issued(s.issued, x.zone, id, x.generation);
    forall m | m in s.channels[z].bag && m.generation == x.generation ensures m.id == id && z == x.zone {
      assert Issued(s.issued, z, m.id, m.generation);
    }
  }

  lemma OwnedEntry(e: Env, s: St, id: SessionId, i: nat, j: SessionId)
    requires Core(e, s, {}) && id in s.sessions && s.sessions[id].generation > 0
    requires i < |s.cohorts| && j in s.cohorts[i].prepared
             && s.cohorts[i].prepared[j].generation == s.sessions[id].generation
    ensures j == id
  {
    hide Rooms, Channels;
    assert Issued(s.issued, s.sessions[id].zone, id, s.sessions[id].generation);
    StreamAt(s, i, j);
  }

  // ---- Generations ----

  predicate Holds(s: St, id: SessionId, g: nat) {
    id in s.sessions && s.sessions[id].generation == g
  }

  /** A step hands out no generation that was issued before. */
  lemma StepKeepsLeft(e: Env, s: St, step: Step, id: SessionId, g: nat)
    requires ValidEnv(e) && Sound(e, s) && Enabled(e, s, step) && 1 <= g <= |s.issued| && !Holds(s, id, g)
    ensures !Holds(Next(e, s, step), id, g)
  {
    hide ValidEnv, Sound, Next, Enabled, Sends;
    var t := Next(e, s, step);
    if OfWorker(step) {
      WorkerTurns(e, s, step);
    } else {
      HandlerTurns(e, s, step);
      assert id in t.sessions ==> Turns(s, t, id);
    }
  }

  lemma {:induction false} RunKeepsLeft(e: Env, s: St, steps: seq<Step>, id: SessionId, g: nat)
    requires ValidEnv(e) && Sound(e, s) && Possible(e, s, steps) && 1 <= g <= |s.issued| && !Holds(s, id, g)
    ensures !Holds(Run(e, s, steps), id, g)
    decreases |steps|
  {
    hide ValidEnv, Sound, Next, Enabled, Holds;
    if steps != [] {
      StepSound(e, s, steps[0]);
      StepKeepsLeft(e, s, steps[0], id, g);
      RunKeepsLeft(e, Next(e, s, steps[0]), steps[1..], id, g);
    }
  }

  /** Between `s` and `t` no start of stream `g` of session `id` is sent. */
  ghost predicate StartsNothing(s: St, t: St, id: SessionId, g: nat) {
    forall z, k :: z in s.channels && z in t.channels && |s.channels[z].unseen| <= k < |t.channels[z].unseen| ==>
      !(IsStart(t.channels[z].unseen[k]) && t.channels[z].unseen[k].id == id && t.channels[z].unseen[k].generation == g)
  }

  /** Once a session has moved past a generation, or ended, it never has that generation again,
      not even if the session id starts again. From then on messages with it change nothing, and
      nothing that waits with it is started. */
  lemma StaleForever(e: Env, before: seq<Step>, after: seq<Step>, id: SessionId, g: nat)
    requires ValidEnv(e) && Possible(e, Init(e), before) && Possible(e, Run(e, Init(e), before), after)
    requires var s := Run(e, Init(e), before); 1 <= g <= |s.issued| && !Holds(s, id, g)
    ensures var t := Run(e, Run(e, Init(e), before), after);
            && !Holds(t, id, g)
            && HandlePrepared(e, t, id, g) == t && HandleRetry(e, t, id, g) == t
            && (forall outcome :: HandleResult(e, t, id, g, outcome) == t)
            && (forall step :: Enabled(e, t, step) ==> StartsNothing(t, Next(e, t, step), id, g))
  {
    hide Run, Possible, ValidEnv, Sound, Holds, StartsNothing, Next, Enabled;
    Reached(e, before);
    var s := Run(e, Init(e), before);
    SoundIf(e, s);
    RunSound(e, s, after);
    RunKeepsLeft(e, s, after, id, g);
    var t := Run(e, s, after);
    StaleIsInert(e, t, id, g);
    forall step | Enabled(e, t, step) ensures StartsNothing(t, Next(e, t, step), id, g) {
      StepStarts(e, t, step, id, g);
    }
  }

  lemma SoundIf(e: Env, s: St)
    requires Sound(e, s)
    ensures Core(e, s, {}) && Queue(e, s)
  {
  }

  lemma StaleIsInert(e: Env, s: St, id: SessionId, g: nat)
    requires !Holds(s, id, g)
    ensures HandlePrepared(e, s, id, g) == s && HandleRetry(e, s, id, g) == s
    ensures forall outcome :: HandleResult(e, s, id, g, outcome) == s
  {
    hide Restart, LeaveGroup, MaybeStart, PlayPrepared;
  }

  lemma StepStarts(e: Env, s: St, step: Step, id: SessionId, g: nat)
    requires ValidEnv(e) && Sound(e, s) && Enabled(e, s, step) && !Holds(s, id, g)
    ensures StartsNothing(s, Next(e, s, step), id, g)
  {
    hide ValidEnv, Sound, Next, Enabled, AllTurn;
    var t := Next(e, s, step);
    if OfWorker(step) {
      WorkerTurns(e, s, step);
      LookFits(e, s, step);
      assert forall z :: z in s.channels ==> |t.channels[z].unseen| <= |s.channels[z].unseen|;
    } else {
      HandlerTurns(e, s, step);
      forall z, k | z in s.channels && z in t.channels && |s.channels[z].unseen| <= k < |t.channels[z].unseen|
        ensures IsStart(t.channels[z].unseen[k]) ==> FreshStart(s, z, t.channels[z].unseen[k])
      {
        SentAt(s, z, s.channels[z], t.channels[z], k);
      }
    }
  }

  lemma LookFits(e: Env, s: St, step: Step)
    requires Enabled(e, s, step)
    ensures step.WorkerMoves? && step.move.Looks? ==>
              step.zone in s.channels && step.move.index < |s.channels[step.zone].unseen|
  {
  }

  lemma SentAt(s: St, zone: ZoneId, a: Channel, b: Channel, k: nat)
    requires SentIn(s, zone, a, b) && |a.unseen| <= k < |b.unseen|
    ensures IsStart(b.unseen[k]) ==> FreshStart(s, zone, b.unseen[k])
  {
    assert Sendable(s, zone, b.unseen[|a.unseen|..][k - |a.unseen|]);
  }

  /** Every start that a handler sends, also from within restarts and for later cohorts, is for the
      current stream of a session that wants playback. Its room loaded that stream, is idle, and
      is in no group, unless the stream plays by itself after a failed join. What was sent before
      stays. */
  lemma StartsAreCurrent(e: Env, steps: seq<Step>, step: Step, zone: ZoneId, k: nat)
    requires ValidEnv(e) && Possible(e, Init(e), steps) && Enabled(e, Run(e, Init(e), steps), step) && !OfWorker(step)
    requires zone in Run(e, Init(e), steps).channels
    ensures var s := Run(e, Init(e), steps);
            var t := Next(e, s, step);
            && zone in t.channels && s.channels[zone].unseen <= t.channels[zone].unseen
            && (|s.channels[zone].unseen| <= k < |t.channels[zone].unseen| && IsStart(t.channels[zone].unseen[k]) ==>
                  FreshStart(s, zone, t.channels[zone].unseen[k]))
  {
    hide Run, Possible, ValidEnv, Sound, Next, Enabled, AllTurn, FreshStart;
    Reached(e, steps);
    var s := Run(e, Init(e), steps);
    var t := Next(e, s, step);
    HandlerTurns(e, s, step);
    assert SentIn(s, zone, s.channels[zone], t.channels[zone]);
    if |s.channels[zone].unseen| <= k < |t.channels[zone].unseen| {
      SentAt(s, zone, s.channels[zone], t.channels[zone], k);
    }
  }

  /** A worker that runs a start loaded that very stream last. It starts a WAV stream only with
      a plan, sends no first start to a room that is in a group, and knows when its room may
      be in one. */
  lemma WorkersAreCoherent(e: Env, steps: seq<Step>, zone: ZoneId)
    requires ValidEnv(e) && Possible(e, Init(e), steps) && zone in Run(e, Init(e), steps).channels
    ensures var s := Run(e, Init(e), steps);
            var ch := s.channels[zone];
            && (ch.running.Some? && IsStart(ch.running.value) ==>
                  var c := ch.running.value;
                  && ch.loaded.Some? && ch.loaded.value.id == c.id && ch.loaded.value.generation == c.generation
                  && (e.wav && c.Play? ==> c.generation in s.plans)
                  && (e.wav && c.PlayGroup? ==> c.delay.Some?)
                  && (c.PlayGroup? || c.Join? ==> !ch.member))
            && (forall k :: 0 <= k < |ch.unseen| && IsStart(ch.unseen[k]) ==> k == 0 && ch.running.None?)
            && (ch.member ==> ch.joined)
  {
    hide Run, Possible, ValidEnv, Rooms, Sessions, Streams;
    Reached(e, steps);
    assert ChannelOk(IsSonos(e, zone), e.wav, Run(e, Init(e), steps).channels[zone], Run(e, Init(e), steps).plans);
  }

  /** Streams whose start one shared wait released begin at one source sample, whichever room
      finished waiting first. */
  lemma GroupsStartTogether(e: Env, steps: seq<Step>, g: nat, h: nat)
    requires ValidEnv(e) && Possible(e, Init(e), steps)
    requires var s := Run(e, Init(e), steps);
             g in s.plans && h in s.plans && s.plans[g].group.Some? && s.plans[g].group == s.plans[h].group
    ensures var s := Run(e, Init(e), steps); s.plans[g].cutoff == s.plans[h].cutoff
  {
    hide Run, Possible, ValidEnv, Core, Queue;
    Reached(e, steps);
  }

  function Elements(ids: seq<SessionId>): set<SessionId> {
    set id | id in ids
  }

  lemma {:induction false} ElementsSize(ids: seq<SessionId>)
    requires NoDuplicates(ids)
    ensures |Elements(ids)| == |ids|
  {
    if ids == [] {
      assert Elements(ids) == {};
    } else {
      ElementsSize(ids[1..]);
      assert Elements(ids) == {ids[0]} + Elements(ids[1..]);
      assert ids[0] !in Elements(ids[1..]);
    }
  }

  lemma FullCohort(ids: seq<SessionId>, keys: set<SessionId>)
    requires NoDuplicates(ids) && forall k :: k in keys ==> k in ids
    ensures |keys| <= |ids|
    ensures |keys| == |ids| <==> forall k :: k in ids ==> k in keys
  {
    var all := Elements(ids);
    ElementsSize(ids);
    assert all == keys + (all - keys);
    if |keys| == |ids| {
      assert all - keys == {};
      assert forall k :: k in ids ==> k in all;
    }
    assert (forall k :: k in ids ==> k in keys) ==> all == keys;
  }

  /** Comparing the two sizes of a cohort tells whether every stream in it is prepared, and a
      session waits in one cohort at most. Every deadline has a wake that is still to come. */
  lemma CohortsAreSafe(e: Env, steps: seq<Step>, i: nat)
    requires ValidEnv(e) && Possible(e, Init(e), steps) && i < |Run(e, Init(e), steps).cohorts|
    ensures var s := Run(e, Init(e), steps);
            var c := s.cohorts[i];
            && (|c.sessions| == |c.prepared| <==> forall id :: id in c.sessions ==> id in c.prepared)
            && (forall j, id :: 0 <= j < |s.cohorts| && id in c.sessions && id in s.cohorts[j].sessions ==> i == j)
            && c.startDeadline in s.wakes
            && (i + 1 < |s.cohorts| ==> c.startDeadline <= s.cohorts[i + 1].startDeadline)
  {
    hide Run, Possible, ValidEnv, Core;
    Reached(e, steps);
    var c := Run(e, Init(e), steps).cohorts[i];
    FullCohort(c.sessions, c.prepared.Keys);
    assert |c.prepared| == |c.prepared.Keys|;
  }

  /** One turn of the queue at time t releases or discards every cohort that is due by t, so no
      cohort waits behind another beyond its own deadline. */
  lemma NoCohortIsLate(e: Env, steps: seq<Step>, due: nat)
    requires ValidEnv(e) && Possible(e, Init(e), steps)
    ensures var s := Run(e, Init(e), steps);
            var t := HandleWake(e, s, due);
            forall i :: 0 <= i < |t.cohorts| ==> t.cohorts[i].startDeadline > Now(e, s)
  {
    hide Run, Possible, ValidEnv, Core, MaybeStart;
    Reached(e, steps);
    MaybeStartQueue(e, Run(e, Init(e), steps));
  }

  /** Native groups are a forest of depth one, as long as no group breaks up while a stream of its
      sender waits, and always with the order that clears first. */
  lemma GroupsAreAForest(e: Env, steps: seq<Step>)
    requires ValidEnv(e) && Possible(e, Init(e), steps) && (e.clearFirst || CalmRun(e, Init(e), steps))
    ensures DepthOne(e, Run(e, Init(e), steps))
  {
    hide Run, Possible, ValidEnv, Sound, Forest, CalmRun;
    InitSound(e);
    InitForest(e);
    if e.clearFirst {
      ClearFirstIsCalm(e, Init(e), steps);
    }
    RunForest(e, Init(e), steps);
    ForestIsDepthOne(e, Run(e, Init(e), steps));
  }

  /** In a calm run, and in every run of the order that clears first, no room is ever told to join
      itself: neither a command under way nor one that runs does so. */
  lemma NoRoomJoinsItself(e: Env, steps: seq<Step>, zone: ZoneId)
    requires ValidEnv(e) && Possible(e, Init(e), steps) && (e.clearFirst || CalmRun(e, Init(e), steps))
    requires zone in Run(e, Init(e), steps).channels
    ensures var ch := Run(e, Init(e), steps).channels[zone];
            && (forall c :: c in ch.unseen && c.Join? ==> c.coordinator != zone)
            && (ch.running.Some? && ch.running.value.Join? ==> ch.running.value.coordinator != zone)
  {
    hide Run, Possible, ValidEnv, Sound, Shape, SameDelays, CalmRun;
    InitSound(e);
    InitForest(e);
    if e.clearFirst {
      ClearFirstIsCalm(e, Init(e), steps);
    }
    RunForest(e, Init(e), steps);
    assert NoSelfJoin(zone, Run(e, Init(e), steps).channels[zone]);
  }

  /** The WAV rooms of a release that waits for no joins all get its one cutoff. */
  lemma {:induction false} SoloStartsTogether(e: Env, before: St, s: St, launch: Launch, list: seq<Stream>)
    requires e.wav && launch.joins.None?
    ensures var t := StartAll(e, before, s, launch, list);
            && s.plans.Keys <= t.plans.Keys
            && (forall g :: g in t.plans && (g !in s.plans || s.plans[g].cutoff == launch.cutoff) ==>
                  t.plans[g].cutoff == launch.cutoff)
            && (forall p :: p in list ==> p.generation in t.plans && t.plans[p.generation].cutoff == launch.cutoff)
    decreases |list|
  {
    hide StartOne;
    if list != [] {
      SoloStart(e, before, s, launch, list[0]);
      SoloStartsTogether(e, before, StartOne(e, before, s, launch, list[0]), launch, list[1..]);
    }
  }

  lemma SoloStart(e: Env, before: St, s: St, launch: Launch, p: Stream)
    requires e.wav && launch.joins.None?
    ensures var t := StartOne(e, before, s, launch, p);
            && s.plans.Keys <= t.plans.Keys && p.generation in t.plans && t.plans[p.generation].cutoff == launch.cutoff
            && (forall g :: g in t.plans && g != p.generation ==> g in s.plans && t.plans[g] == s.plans[g])
  {
    hide DelayOf, Send;
    assert DelayOf(e, before, launch.delays, launch.roles, p).Some? by {
      WavDelay(e, before, launch.delays, launch.roles, p);
    }
  }

  lemma WavDelay(e: Env, s: St, delays: map<ZoneId, nat>, roles: map<SessionId, SessionId>, p: Stream)
    requires e.wav
    ensures DelayOf(e, s, delays, roles, p).Some?
  {
  }
}
