/** Nobody is stuck: in every reachable state what drives a session can take its next step, and
    there is a course in which the session comes to play without any further event. */
module BridgeProgress {
  import opened BridgeState
  import opened BridgeHandlers
  import opened BridgeRooms
  import opened BridgeCore
  import opened BridgeForest
  import opened BridgeOut
  import opened BridgeExposure
  import opened BridgeHistory
  import opened BridgeSteps
  import opened BridgeWorker
  import opened BridgeSystem

  /** What drives a session, from the last step before it plays to the first. */
  datatype Driver =
    | SuccessComes
    | StartRuns
    | StartUnseen
    | StreamWaits
    | StreamComes
    | PrepareRuns
    | PrepareUnseen
    | PrepareBehind    // an earlier command still runs
    | RetryComes
    | RetryArmed
    | FailureComes

  function Rank(d: Driver): nat {
    match d
    case SuccessComes => 0
    case StartRuns => 1
    case StartUnseen => 2
    case StreamWaits => 3
    case StreamComes => 4
    case PrepareRuns => 5
    case PrepareUnseen => 6
    case PrepareBehind => 7
    case RetryComes => 8
    case RetryArmed => 9
    case FailureComes => 10
  }

  /** The session lives in a room of the bridge. */
  predicate Lives(s: St, id: SessionId) {
    id in s.sessions && s.sessions[id].zone in s.channels
  }

  function RoomOf(s: St, id: SessionId): Channel
    requires Lives(s, id)
  {
    s.channels[s.sessions[id].zone]
  }

  /** `d` drives the current generation of the session `x`, with its room and its place in the queue. */
  predicate Driven(id: SessionId, x: Session, ch: Channel, entry: bool, d: Driver) {
    var g := x.generation;
    match d
    case SuccessComes => Result(id, g, Started) in ch.bag || Result(id, g, Joined) in ch.bag
    case StartRuns => DrivenByRunning(ch, id, g) && IsStart(ch.running.value)
    case StartUnseen => DrivenByUnseen(ch, id, g) && IsStart(Last(ch.unseen))
    case StreamWaits => entry
    case StreamComes => Prepared(id, g) in ch.bag
    case PrepareRuns => ch.running == Some(Prepare(id, g))
    case PrepareUnseen => ch.unseen != [] && Last(ch.unseen) == Prepare(id, g) && ch.running.None?
    case PrepareBehind => ch.unseen != [] && Last(ch.unseen) == Prepare(id, g) && ch.running.Some?
    case RetryComes => Retry(id, g) in ch.bag
    case RetryArmed => x.timer == Some(g)
    case FailureComes =>
      Result(id, g, TimedOut) in ch.bag || Result(id, g, Failed) in ch.bag || Result(id, g, PermanentFailure) in ch.bag
  }

  predicate By(s: St, id: SessionId, d: Driver)
    requires Lives(s, id)
  {
    Driven(id, s.sessions[id], RoomOf(s, id), Entry(s, id), d)
  }

  /** The step in which the driver moves on. Renderers answer as well as they can. */
  function Turn(s: St, id: SessionId, d: Driver): Step
    requires Lives(s, id) && By(s, id, d)
  {
    var x, ch := s.sessions[id], RoomOf(s, id);
    var g := x.generation;
    match d
    case SuccessComes => ResultArrives(x.zone, id, g, if Result(id, g, Started) in ch.bag then Started else Joined)
    case StartRuns =>
      if ch.running.value.Play? then WorkerMoves(x.zone, PlayEnds(Left, Started))
      else if ch.running.value.Join? then WorkerMoves(x.zone, JoinEnds(Joined, false))
      else GroupPlayEnds(x.zone, Started)
    case StartUnseen => WorkerMoves(x.zone, Looks(|ch.unseen| - 1))
    case StreamWaits =>
      var i := CohortOf(s.cohorts, id);
      WakeFires(if i.Some? then s.cohorts[i.value].startDeadline else 0)
    case StreamComes => PreparedArrives(x.zone, id, g)
    case PrepareRuns => WorkerMoves(x.zone, PrepareEnds(Left, true, Loaded))
    case PrepareUnseen => WorkerMoves(x.zone, Looks(|ch.unseen| - 1))
    case PrepareBehind => WorkerMoves(x.zone, Ending(ch))
    case RetryComes => RetryArrives(x.zone, id, g)
    case RetryArmed => RetryTimerFires(id)
    case FailureComes =>
      ResultArrives(x.zone, id, g, if Result(id, g, TimedOut) in ch.bag then TimedOut
                                   else if Result(id, g, Failed) in ch.bag then Failed else PermanentFailure)
  }

  /** The step is possible now, or is a wake that becomes possible at its deadline. */
  ghost predicate InTime(e: Env, s: St, step: Step) {
    || Enabled(e, s, step)
    || (step.WakeFires? && step.due in s.wakes && Now(e, s) < step.due <= Now(e, s) + e.deadline)
  }

  /** How many things drive the session, as `OneDriver` counts them. */
  function UnderWay(s: St, id: SessionId): nat
    requires Lives(s, id)
  {
    Tokens(id, s.sessions[id], RoomOf(s, id), Entry(s, id))
  }

  lemma SomeDriver(s: St, id: SessionId) returns (d: Driver)
    requires Lives(s, id) && UnderWay(s, id) > 0
    ensures By(s, id, d)
  {
    hide HasEntry;
    var x, ch := s.sessions[id], RoomOf(s, id);
    if Entry(s, id) {
      d := StreamWaits;
    } else if x.timer == Some(x.generation) {
      d := RetryArmed;
    } else if DrivenByRunning(ch, id, x.generation) {
      d := if IsStart(ch.running.value) then StartRuns else PrepareRuns;
    } else if DrivenByUnseen(ch, id, x.generation) {
      d := if IsStart(Last(ch.unseen)) then StartUnseen else if ch.running.None? then PrepareUnseen else PrepareBehind;
    } else if ch.bag[Prepared(id, x.generation)] > 0 {
      d := StreamComes;
    } else if ch.bag[Retry(id, x.generation)] > 0 {
      d := RetryComes;
    } else if ch.bag[Result(id, x.generation, Started)] + ch.bag[Result(id, x.generation, Joined)] > 0 {
      d := SuccessComes;
    } else {
      d := FailureComes;
    }
  }

  /** A worker can end what it runs, and look when it runs nothing. */
  lemma WorkerReady(sonos: bool, wav: bool, ch: Channel, plans: map<nat, Plan>)
    requires ChannelOk(sonos, wav, ch, plans)
    ensures ch.unseen != [] && IsStart(Last(ch.unseen)) ==> |ch.unseen| == 1 && ch.running.None?
    ensures ch.running.Some? && ch.running.value.Play? ==> CanMove(ch, PlayEnds(Left, Started))
    ensures ch.running.Some? && ch.running.value.Join? ==> CanMove(ch, JoinEnds(Joined, false))
    ensures ch.running.Some? && ch.running.value.PlayGroup? ==> CanFinishGroup(ch, Started)
    ensures ch.running.Some? && ch.running.value.Prepare? ==> CanMove(ch, PrepareEnds(Left, true, Loaded))
  {
  }

  /** The cohort of a stream that waits has a wake at its deadline. */
  lemma WakeComes(e: Env, s: St, id: SessionId)
    requires Queue(e, s) && Lives(s, id) && Entry(s, id)
    ensures var step := Turn(s, id, StreamWaits);
            step.WakeFires? && step.due in s.wakes && step.due <= Now(e, s) + e.deadline
  {
    var i :| 0 <= i < |s.cohorts| && id in s.cohorts[i].prepared
             && s.cohorts[i].prepared[id].generation == s.sessions[id].generation;
    assert id in s.cohorts[i].sessions;
  }

  /** What drives a session is never blocked. */
  lemma TurnComes(e: Env, s: St, id: SessionId, d: Driver)
    requires Core(e, s, {}) && Queue(e, s) && Lives(s, id) && By(s, id, d)
    ensures InTime(e, s, Turn(s, id, d))
  {
    hide Core, Queue, RoomOk, ChannelOk, Bounded, HasEntry, CanMove, CanFinishGroup;
    CoreAt(e, s, id, {});
    var x, ch := s.sessions[id], RoomOf(s, id);
    WorkerReady(IsSonos(e, x.zone), e.wav, ch, s.plans);
    match d
    case StreamWaits => WakeComes(e, s, id);
    case PrepareBehind => RunningEnds(ch, x.zone);
    case PrepareUnseen => CanLook(ch);
    case StartUnseen => CanLook(ch);
    case _ =>
  }

  lemma CanLook(ch: Channel)
    requires ch.running.None? && ch.unseen != []
    ensures CanMove(ch, Looks(|ch.unseen| - 1))
  {
  }

  /** In every reachable state, whatever drives a session has a next step that is possible, or will
      be when its deadline comes. */
  lemma NobodyIsStuck(e: Env, steps: seq<Step>, id: SessionId)
    requires ValidEnv(e) && Possible(e, Init(e), steps)
    requires var s := Run(e, Init(e), steps); Lives(s, id) && UnderWay(s, id) > 0
    ensures var s := Run(e, Init(e), steps); exists d :: By(s, id, d) && InTime(e, s, Turn(s, id, d))
  {
    hide Run, Possible, ValidEnv, Core, Queue, By, InTime, Turn, UnderWay;
    InitSound(e);
    RunSound(e, Init(e), steps);
    var s := Run(e, Init(e), steps);
    var d := SomeDriver(s, id);
    TurnComes(e, s, id, d);
  }

  // ---- A release starts what waits ----

  /** The start of `j`'s stream is under way. */
  predicate StartGoes(s: St, t: St, j: SessionId)
    requires Lives(s, j)
  {
    && Lives(t, j) && t.sessions[j].wanted == s.sessions[j].wanted
    && t.sessions[j].generation == s.sessions[j].generation && t.sessions[j].zone == s.sessions[j].zone
    && By(t, j, StartUnseen)
  }

  lemma ReleaseStarts(e: Env, s: St, t: St, launch: Launch, list: seq<Stream>, p: Stream)
    requires LaunchOk(launch) && DistinctZones(list) && p in list
    requires t.sessions == s.sessions && t.channels == s.channels
    requires forall q :: q in list ==> q.zone in s.channels && s.channels[q.zone].unseen == []
    requires Lives(s, p.id) && s.sessions[p.id].generation == p.generation && s.sessions[p.id].zone == p.zone
    requires forall q :: q in list ==> Wished(t, q)
    ensures StartGoes(s, StartAll(e, t, t, launch, list), p.id)
  {
    hide StartAll, StartCommand, HasEntry;
    StartAllSends(e, t, t, launch, list);
    StartCommandOk(e, t, launch, p);
    StartAllGenerations(e, t, t, launch, list);
    StartAllIntent(e, t, t, launch, list);
    var u := StartAll(e, t, t, launch, list);
    assert SameWish(t.sessions[p.id], u.sessions[p.id]);
    assert u.channels[p.zone].unseen == [StartCommand(e, t, launch, p)];
  }

  /** The front cohort starts each of its streams. */
  lemma HeadStarts(e: Env, s: St, exempt: set<SessionId>, p: Stream)
    requires ValidEnv(e) && Core(e, s, exempt) && Distinct(s.cohorts) && s.cohorts != []
    requires var head := Pruned(s, s.cohorts[0]); p in StreamsOf(head.sessions, head.prepared)
    ensures var head := Pruned(s, s.cohorts[0]);
            var rest := Ticked(s).(cohorts := s.cohorts[1..]);
            var t := PlayPrepared(e, rest, StreamsOf(head.sessions, head.prepared));
            Lives(s, p.id) && StartGoes(s, t, p.id) && !Entry(t, p.id)
  {
    hide ValidEnv, Core, Distinct, HasEntry, StartAll, PrepareLaunch, Pruned, Idle;
    var head := Pruned(s, s.cohorts[0]);
    var rest := Ticked(s).(cohorts := s.cohorts[1..]);
    var list := StreamsOf(head.sessions, head.prepared);
    var (t, launch) := PrepareLaunch(e, rest, list);
    PrepareLaunchKeeps(e, rest, list);
    CoreStreams(e, s, exempt);
    HeadDistinct(s);
    OneZoneEach(e, s, exempt);
    forall q | q in list ensures Ready(rest, q) && Wished(t, q) {
      HeadReady(e, s, exempt, q);
      HeadWaits(e, s, exempt, q);
    }
    ReleaseZones(rest, list);
    ReadyGeneration(rest, p);
    ReleaseStarts(e, rest, t, launch, list, p);
    StartAllGenerations(e, t, t, launch, list);
  }

  /** A session without a stream in the queue keeps its room while the queue moves on. */
  lemma {:induction false} MaybeStartElsewhere(e: Env, s: St, force: bool, exempt: set<SessionId>, c: SessionId)
    requires Core(e, s, exempt) && Distinct(s.cohorts) && Lives(s, c) && !Entry(s, c)
    ensures var t := MaybeStart(e, s, force);
            Lives(t, c) && t.sessions[c] == s.sessions[c] && RoomOf(t, c) == RoomOf(s, c)
    decreases |s.cohorts|
  {
    hide Core, PlayPrepared, Pruned, ShouldStart, HasEntry, Distinct;
    if s.cohorts != [] {
      PrunedEntries(e, s, exempt, c);
      var head := Pruned(s, s.cohorts[0]);
      var list := StreamsOf(head.sessions, head.prepared);
      TailDistinct(s.cohorts);
      if head.sessions == [] {
        var rest := s.(cohorts := s.cohorts[1..]);
        DropHead(e, s, rest, exempt);
        assert exempt + Ids(list) == exempt;
        MaybeStartElsewhere(e, rest, force, exempt, c);
      } else if ShouldStart(head, Now(e, s), force) {
        var rest := Ticked(s).(cohorts := s.cohorts[1..]);
        PlayPreparedKeeps(e, rest, list);
        ReleaseHead(e, s, exempt);
        ReleaseElsewhere(e, s, exempt, c);
        MaybeStartElsewhere(e, PlayPrepared(e, rest, list), force, exempt, c);
      }
    }
  }

  lemma TailDistinct(q: seq<Cohort>)
    requires Distinct(q) && q != []
    ensures Distinct(q[1..])
  {
  }

  /** The release of the front cohort leaves the rooms alone whose streams it does not hold. */
  lemma ReleaseElsewhere(e: Env, s: St, exempt: set<SessionId>, c: SessionId)
    requires Core(e, s, exempt) && Distinct(s.cohorts) && s.cohorts != [] && Lives(s, c)
    requires c !in Pruned(s, s.cohorts[0]).prepared
    ensures var head := Pruned(s, s.cohorts[0]);
            var rest := Ticked(s).(cohorts := s.cohorts[1..]);
            var t := PlayPrepared(e, rest, StreamsOf(head.sessions, head.prepared));
            && Lives(t, c) && t.sessions[c] == s.sessions[c] && RoomOf(t, c) == RoomOf(s, c)
            && t.cohorts == s.cohorts[1..]
  {
    hide Core, Distinct, HasEntry, Pruned, StartAll, PrepareLaunch;
    var head := Pruned(s, s.cohorts[0]);
    var rest := Ticked(s).(cohorts := s.cohorts[1..]);
    var list := StreamsOf(head.sessions, head.prepared);
    var (t, launch) := PrepareLaunch(e, rest, list);
    PrepareLaunchKeeps(e, rest, list);
    OneZoneEach(e, s, exempt);
    CoreStreams(e, s, exempt);
    HeadDistinct(s);
    forall p | p in list ensures Ready(rest, p) && p.id != c && p.zone != s.sessions[c].zone {
      HeadReady(e, s, exempt, p);
      HeadWaits(e, s, exempt, p);
    }
    ReleaseZones(rest, list);
    StartAllSends(e, t, t, launch, list);
    StartAllElsewhere(e, t, t, launch, list);
  }

  /** When every deadline has passed, a stream that waits is started. */
  lemma {:induction false} DueStarts(e: Env, s: St, exempt: set<SessionId>, j: SessionId)
    requires ValidEnv(e) && Core(e, s, exempt) && Distinct(s.cohorts) && AllDue(e, s)
    requires Lives(s, j) && j !in exempt && Entry(s, j)
    ensures StartGoes(s, MaybeStart(e, s, false), j)
    decreases |s.cohorts|
  {
    hide ValidEnv, Core, PlayPrepared, Pruned, ShouldStart, HasEntry, Distinct, AllDue;
    NoCohorts(s.cohorts, j, s.sessions[j].generation);
    PrunedEntries(e, s, exempt, j);
    DueHead(e, s);
    var head := Pruned(s, s.cohorts[0]);
    var list := StreamsOf(head.sessions, head.prepared);
    TailDistinct(s.cohorts);
    if head.sessions == [] {
      var rest := s.(cohorts := s.cohorts[1..]);
      DropHead(e, s, rest, exempt);
      assert exempt + Ids(list) == exempt;
      DueStarts(e, rest, exempt, j);
    } else {
      var rest := Ticked(s).(cohorts := s.cohorts[1..]);
      var next := PlayPrepared(e, rest, list);
      PlayPreparedKeeps(e, rest, list);
      PlayPreparedTicks(e, rest, list);
      ReleaseHead(e, s, exempt);
      if j in head.prepared {
        HeadHolds(e, s, exempt, j);
        HeadStarts(e, s, exempt, head.prepared[j]);
        MaybeStartElsewhere(e, next, false, exempt, j);
      } else {
        ReleaseElsewhere(e, s, exempt, j);
        DueLater(e, s, next);
        DueStarts(e, next, exempt, j);
      }
    }
  }

  lemma HeadHolds(e: Env, s: St, exempt: set<SessionId>, j: SessionId)
    requires Core(e, s, exempt) && s.cohorts != [] && j in Pruned(s, s.cohorts[0]).prepared
    ensures var head := Pruned(s, s.cohorts[0]);
            head.prepared[j].id == j && head.prepared[j] in StreamsOf(head.sessions, head.prepared)
  {
    hide Core;
    CoreStreams(e, s, exempt);
    StreamAt(s, 0, j);
  }

  // ---- A course in which it plays ----

  /** A course in which time flies, and no encoder fails. */
  function Kind(e: Env, s: St): Env {
    e.(clock := t => FastClock(e, s.ticks - 1, t), spawnOk := (g: nat) => g > |s.issued| || e.spawnOk(g))
  }

  /** The session is on its way: time flies, every deadline has passed, and no encoder fails. */
  ghost predicate Going(e: Env, s: St, id: SessionId) {
    && ValidEnv(e) && Sound(e, s) && AllDue(e, s) && Flies(e, s.ticks)
    && (forall g: nat :: g > |s.issued| ==> e.spawnOk(g))
    && Lives(s, id) && s.sessions[id].wanted
  }

  lemma KindCourse(e: Env, s: St, id: SessionId)
    requires ValidEnv(e) && Sound(e, s) && Lives(s, id) && s.sessions[id].wanted
    ensures Course(e, s, Kind(e, s)) && Going(Kind(e, s), s, id)
  {
    hide Core, Distinct;
    var f := Kind(e, s);
    forall i: nat, j: nat | i <= j ensures f.clock(i) <= f.clock(j) {
      FastClockGrows(e, s.ticks - 1, i, j);
    }
    forall t: nat | s.ticks <= t ensures f.clock(t) + f.deadline <= f.clock(t + 1) {
      FastClockFlies(e, s.ticks - 1, t);
    }
    assert f.clock(s.ticks) == e.clock(s.ticks) + e.deadline;
    CoreCourse(e, s, f, {});
  }

  lemma GoesOnBy(e: Env, s: St, step: Step, t: St, id: SessionId)
    requires Going(e, s, id) && Enabled(e, s, step) && t == Next(e, s, step)
    requires s.ticks <= t.ticks && (t.cohorts == s.cohorts || t.cohorts == [])
    requires Lives(t, id) && t.sessions[id].wanted
    ensures Going(e, t, id)
  {
    hide Sound, Enabled, Next;
    StepSound(e, s, step);
    assert Now(e, s) <= Now(e, t);
  }

  /** The step leads on: the session plays, or something later drives it. */
  ghost predicate Closer(e: Env, s: St, step: Step, id: SessionId, d: Driver) {
    && Enabled(e, s, step)
    && var t := Next(e, s, step);
       Going(e, t, id) && (t.sessions[id].observed == Playing || exists d' :: Rank(d') < Rank(d) && By(t, id, d'))
  }

  lemma MoveCloser(e: Env, s: St, id: SessionId, move: Move, d: Driver, d': Driver)
    requires Going(e, s, id) && CanMove(RoomOf(s, id), move) && Rank(d') < Rank(d)
    requires Driven(id, s.sessions[id], Moved(RoomOf(s, id), s.sessions[id].zone, move), Entry(s, id), d')
    ensures Closer(e, s, WorkerMoves(s.sessions[id].zone, move), id, d)
  {
    hide Sound, CanMove, Moved, ValidEnv, Flies, AllDue, Driven, HasEntry;
    var zone := s.sessions[id].zone;
    var step := WorkerMoves(zone, move);
    GoesOnBy(e, s, step, Next(e, s, step), id);
  }

  /** What the worker does next. */
  lemma WorkerTurn(s: St, id: SessionId, d: Driver)
    requires Lives(s, id) && By(s, id, d)
    ensures var zone, ch := s.sessions[id].zone, RoomOf(s, id);
            && (d == PrepareRuns ==> Turn(s, id, d) == WorkerMoves(zone, PrepareEnds(Left, true, Loaded)))
            && (d == PrepareBehind ==> ch.running.Some? && Turn(s, id, d) == WorkerMoves(zone, Ending(ch)))
            && (d == StartUnseen || d == PrepareUnseen ==>
                  ch.unseen != [] && Turn(s, id, d) == WorkerMoves(zone, Looks(|ch.unseen| - 1)))
  {
    hide Ending, HasEntry;
  }

  lemma LookCloser(e: Env, s: St, id: SessionId, d: Driver, d': Driver)
    requires Going(e, s, id) && By(s, id, d) && RoomOf(s, id).running.None?
    requires (d == StartUnseen && d' == StartRuns) || (d == PrepareUnseen && d' == PrepareRuns)
    ensures Closer(e, s, Turn(s, id, d), id, d)
  {
    hide Going, Closer, CanMove, Moved, HasEntry, Turn, Driven;
    GoingLives(e, s, id);
    WorkerTurn(s, id, d);
    LastLooked(id, s.sessions[id], RoomOf(s, id), Entry(s, id), d, d');
    MoveCloser(e, s, id, Looks(|RoomOf(s, id).unseen| - 1), d, d');
  }

  lemma LastLooked(id: SessionId, x: Session, ch: Channel, entry: bool, d: Driver, d': Driver)
    requires ch.running.None? && ch.unseen != [] && Driven(id, x, ch, entry, d)
    requires (d == StartUnseen && d' == StartRuns) || (d == PrepareUnseen && d' == PrepareRuns)
    ensures var move := Looks(|ch.unseen| - 1);
            CanMove(ch, move) && Driven(id, x, Moved(ch, x.zone, move), entry, d')
  {
  }

  lemma BehindCloser(e: Env, s: St, id: SessionId)
    requires Going(e, s, id) && By(s, id, PrepareBehind)
    ensures Closer(e, s, Turn(s, id, PrepareBehind), id, PrepareBehind)
  {
    hide Going, Closer, CanMove, Moved, HasEntry, Ending, Driven, Turn;
    GoingLives(e, s, id);
    WorkerTurn(s, id, PrepareBehind);
    BehindEnds(id, s.sessions[id], RoomOf(s, id), Entry(s, id));
    MoveCloser(e, s, id, Ending(RoomOf(s, id)), PrepareBehind, PrepareUnseen);
  }

  lemma BehindEnds(id: SessionId, x: Session, ch: Channel, entry: bool)
    requires Driven(id, x, ch, entry, PrepareBehind)
    ensures ch.running.Some? && CanMove(ch, Ending(ch))
            && Driven(id, x, Moved(ch, x.zone, Ending(ch)), entry, PrepareUnseen)
  {
    hide CanMove, Moved, Ending;
    RunningEnds(ch, x.zone);
  }

  lemma PrepareCloser(e: Env, s: St, id: SessionId)
    requires Going(e, s, id) && By(s, id, PrepareRuns)
    ensures Closer(e, s, Turn(s, id, PrepareRuns), id, PrepareRuns)
  {
    hide Going, Closer, CanMove, Moved, HasEntry, Driven, Turn;
    GoingLives(e, s, id);
    WorkerTurn(s, id, PrepareRuns);
    PrepareSucceeds(id, s.sessions[id], RoomOf(s, id), Entry(s, id));
    MoveCloser(e, s, id, PrepareEnds(Left, true, Loaded), PrepareRuns, StreamComes);
  }

  lemma PrepareSucceeds(id: SessionId, x: Session, ch: Channel, entry: bool)
    requires Driven(id, x, ch, entry, PrepareRuns)
    ensures var move := PrepareEnds(Left, true, Loaded);
            CanMove(ch, move) && Driven(id, x, Moved(ch, x.zone, move), entry, StreamComes)
  {
  }

  lemma StartCompletes(e: Env, s: St, id: SessionId)
    requires Going(e, s, id) && By(s, id, StartRuns)
    ensures Closer(e, s, Turn(s, id, StartRuns), id, StartRuns)
  {
    hide Going, Closer, CanMove, Moved, HasEntry, CanFinishGroup;
    GoingCore(e, s, id);
    var x, ch := s.sessions[id], RoomOf(s, id);
    WorkerReady(IsSonos(e, x.zone), e.wav, ch, s.plans);
    StartEnds(ch, x.zone, id, x.generation);
    if ch.running.value.Play? {
      MoveCloser(e, s, id, PlayEnds(Left, Started), StartRuns, SuccessComes);
    } else if ch.running.value.Join? {
      MoveCloser(e, s, id, JoinEnds(Joined, false), StartRuns, SuccessComes);
    } else {
      GroupCloser(e, s, id);
    }
  }

  lemma StartEnds(ch: Channel, zone: ZoneId, id: SessionId, g: nat)
    requires DrivenByRunning(ch, id, g)
    ensures ch.running.value.Play? && CanMove(ch, PlayEnds(Left, Started)) ==>
              Result(id, g, Started) in Moved(ch, zone, PlayEnds(Left, Started)).bag
    ensures ch.running.value.Join? && CanMove(ch, JoinEnds(Joined, false)) ==>
              Result(id, g, Joined) in Moved(ch, zone, JoinEnds(Joined, false)).bag
  {
  }

  lemma GoingCore(e: Env, s: St, id: SessionId)
    requires Going(e, s, id)
    ensures Core(e, s, {}) && Queue(e, s) && Lives(s, id) && s.sessions[id].wanted
    ensures var z := s.sessions[id].zone; ChannelOk(IsSonos(e, z), e.wav, s.channels[z], s.plans)
  {
    hide Core, Queue, ChannelOk;
    CoreAt(e, s, id, {});
  }

  lemma GroupCloser(e: Env, s: St, id: SessionId)
    requires Going(e, s, id) && By(s, id, StartRuns) && CanFinishGroup(RoomOf(s, id), Started)
    ensures Closer(e, s, GroupPlayEnds(s.sessions[id].zone, Started), id, StartRuns)
  {
    hide Sound, ValidEnv, Flies, AllDue;
    var step := GroupPlayEnds(s.sessions[id].zone, Started);
    var t := Next(e, s, step);
    GoesOnBy(e, s, step, t, id);
    assert By(t, id, SuccessComes);
  }

  /** A start goes out, and the queue is empty or as it was. */
  lemma StartCloser(e: Env, s: St, step: Step, id: SessionId, d: Driver)
    requires Going(e, s, id) && Enabled(e, s, step) && Rank(d) > Rank(StartUnseen)
    requires var t := Next(e, s, step);
             s.ticks <= t.ticks && (t.cohorts == s.cohorts || t.cohorts == []) && StartGoes(s, t, id)
    ensures Closer(e, s, step, id, d)
  {
    hide Going, Enabled, Next, By;
    GoingCore(e, s, id);
    GoesOnBy(e, s, step, Next(e, s, step), id);
  }

  lemma WakeCloser(e: Env, s: St, id: SessionId)
    requires Going(e, s, id) && By(s, id, StreamWaits)
    ensures Closer(e, s, Turn(s, id, StreamWaits), id, StreamWaits)
  {
    hide Core, Queue, MaybeStart, ValidEnv, Flies, HasEntry, SharedCutoffs, CohortOf;
    var step := Turn(s, id, StreamWaits);
    WakeComes(e, s, id);
    WakeIsDue(e, s, id);
    QueueDistinct(e, s);
    var t := MaybeStart(e, s, false);
    DueStarts(e, s, {}, id);
    DueDrains(e, s);
    MaybeStartQueue(e, s);
    assert Next(e, s, step) == t.(wakes := t.wakes - {step.due});
    StartCloser(e, s, step, id, StreamWaits);
  }

  lemma WakeIsDue(e: Env, s: St, id: SessionId)
    requires AllDue(e, s) && Queue(e, s) && Lives(s, id) && Entry(s, id)
    ensures Turn(s, id, StreamWaits).due <= Now(e, s)
  {
  }

  // ---- Messages ----

  lemma SuccessCloser(e: Env, s: St, id: SessionId)
    requires Going(e, s, id) && By(s, id, SuccessComes)
    ensures Closer(e, s, Turn(s, id, SuccessComes), id, SuccessComes)
  {
    hide Sound, ValidEnv, Flies, AllDue, LeaveGroup, ForgetMember;
    var step := Turn(s, id, SuccessComes);
    GoesOnBy(e, s, step, Next(e, s, step), id);
  }

  lemma FailureCloser(e: Env, s: St, id: SessionId)
    requires Going(e, s, id) && By(s, id, FailureComes) && !GivingUp(s, id)
    ensures Closer(e, s, Turn(s, id, FailureComes), id, FailureComes)
  {
    hide Sound, ValidEnv, Flies, AllDue, LeaveGroup, ForgetMember;
    var step := Turn(s, id, FailureComes);
    var t := Next(e, s, step);
    assert !GivesUp(s.sessions[id], step.outcome);
    GoesOnBy(e, s, step, t, id);
    assert By(t, id, RetryArmed) && Rank(RetryArmed) < Rank(FailureComes);
  }

  lemma TimerCloser(e: Env, s: St, id: SessionId)
    requires Going(e, s, id) && By(s, id, RetryArmed)
    ensures Closer(e, s, Turn(s, id, RetryArmed), id, RetryArmed)
  {
    hide Sound, ValidEnv, Flies, AllDue;
    var step := Turn(s, id, RetryArmed);
    var t := Next(e, s, step);
    GoesOnBy(e, s, step, t, id);
    assert By(t, id, RetryComes) && Rank(RetryComes) < Rank(RetryArmed);
  }

  lemma RetryCloser(e: Env, s: St, id: SessionId)
    requires Going(e, s, id) && By(s, id, RetryComes)
    ensures Closer(e, s, Turn(s, id, RetryComes), id, RetryComes)
  {
    hide Core, Queue, ValidEnv, Flies, AllDue, RoomOk, ChannelOk, Bounded, HasEntry, Idle, HandleRetry, SharedCutoffs,
         SameElsewhere, PlansStay, Closer;
    GoingCore(e, s, id);
    CoreAt(e, s, id, {});
    var x, ch := s.sessions[id], RoomOf(s, id);
    var m := Retry(id, x.generation);
    TakeRetryRoom(e.wav, id, x, ch, Entry(s, id), x.generation in s.plans);
    if x.prepared.Some? {
      IdleUnseen(id, x.(timer := None), ch.(bag := ch.bag - multiset{m}));
      RetryPlayShape(e, s, id);
      var t := Next(e, s, Turn(s, id, RetryComes));
      RetryKeys(e, s, t, id);
      assert StartGoes(s, t, id);
      StartCloser(e, s, Turn(s, id, RetryComes), id, RetryComes);
    } else {
      RetryRestartCloser(e, s, id);
    }
  }

  lemma RetryKeys(e: Env, s: St, t: St, id: SessionId)
    requires Lives(s, id) && SameElsewhere(s, t, id)
    ensures id in t.sessions && t.channels.Keys == s.channels.Keys
  {
  }

  lemma RetryRestartCloser(e: Env, s: St, id: SessionId)
    requires Going(e, s, id) && By(s, id, RetryComes) && s.sessions[id].prepared.None?
    ensures Closer(e, s, Turn(s, id, RetryComes), id, RetryComes)
  {
    hide Core, Queue, ValidEnv, Flies, AllDue, RoomOk, ChannelOk, Bounded, HasEntry, Idle, HandleRetry, SharedCutoffs,
         Restart, PlansStay, Coming, Closer;
    GoingCore(e, s, id);
    CoreAt(e, s, id, {});
    var x, ch := s.sessions[id], RoomOf(s, id);
    var m := Retry(id, x.generation);
    TakeRetryRoom(e.wav, id, x, ch, Entry(s, id), x.generation in s.plans);
    TakeWithCore(e, s, id, m, x.(timer := None), {id});
    var u := TakeWith(s, id, m, x.(timer := None));
    QueueSame(e, s, u);
    RetryRestarts(e, s, id);
    RestartPrepares(e, u, id, {id});
    RestartCore(e, u, id, {id});
    var t := Restart(e, u, id);
    var step := Turn(s, id, RetryComes);
    assert SameWish(u.sessions[id], t.sessions[id]);
    GoesOnBy(e, s, step, t, id);
    AnewCloser(e, s, step, id);
  }

  /** A restart has sent the Prepare of a new stream. */
  lemma AnewCloser(e: Env, s: St, step: Step, id: SessionId)
    requires Enabled(e, s, step) && Going(e, Next(e, s, step), id) && Coming(Next(e, s, step), id)
    ensures Closer(e, s, step, id, RetryComes)
  {
    hide Going, Enabled, Next, HasEntry;
    var t := Next(e, s, step);
    assert By(t, id, if RoomOf(t, id).running.None? then PrepareUnseen else PrepareBehind);
  }

  lemma StreamCloser(e: Env, s: St, id: SessionId)
    requires Going(e, s, id) && By(s, id, StreamComes)
    ensures Closer(e, s, Turn(s, id, StreamComes), id, StreamComes)
  {
    hide Core, Queue, ValidEnv, Flies, AllDue, RoomOk, ChannelOk, Bounded, HasEntry, HandlePrepared, SharedCutoffs,
         PlayPrepared, MaybeStart, Ready, Startable, Closer;
    GoingCore(e, s, id);
    KeepStreamCore(e, s, id);
    PreparedActs(e, s, id);
    var u := KeepStream(s, id);
    var p := u.sessions[id].prepared.value;
    var step := Turn(s, id, StreamComes);
    match CohortOf(s.cohorts, id)
    case None =>
      PlaysAtOnce(e, u, p);
      PlayPreparedTicks(e, u, [p]);
      StartCloser(e, s, step, id, StreamComes);
    case Some(i) =>
      JoinsCohort(e, s, id, i);
      StartCloser(e, s, step, id, StreamComes);
  }

  lemma PlaysAtOnce(e: Env, s: St, p: Stream)
    requires Ready(s, p) && Lives(s, p.id)
    ensures StartGoes(s, PlayPrepared(e, s, [p]), p.id)
  {
    hide PrepareLaunch, StartAll, HasEntry, Ready;
    var (t, launch) := PrepareLaunch(e, s, [p]);
    PrepareLaunchKeeps(e, s, [p]);
    ReadyRoom(s, p);
    ReadyGeneration(s, p);
    assert p in [p];
    ReleaseStarts(e, s, t, launch, [p], p);
  }

  /** The stream joins its cohort, whose deadline has passed. */
  lemma JoinsCohort(e: Env, s: St, id: SessionId, i: nat)
    requires Going(e, s, id) && By(s, id, StreamComes) && CohortOf(s.cohorts, id) == Some(i)
    ensures var u := Await(KeepStream(s, id), id, i);
            var t := MaybeStart(e, u, false);
            StartGoes(s, t, id) && t.cohorts == [] && s.ticks <= t.ticks
  {
    hide Core, Queue, ValidEnv, Flies, RoomOk, ChannelOk, Bounded, HasEntry, HandlePrepared, SharedCutoffs, MaybeStart,
         Ready, Startable;
    GoingCore(e, s, id);
    KeepStreamCore(e, s, id);
    var t := KeepStream(s, id);
    QueueSame(e, s, t);
    PreparedGeneration(e, t, id);
    var u := Await(t, id, i);
    AwaitCore(e, t, id, i);
    AwaitQueue(e, t, id, i);
    AwaitEntries(t.cohorts, i, t.sessions[id].prepared.value, id, s.sessions[id].generation);
    QueueDistinct(e, u);
    DueStarts(e, u, {}, id);
    DueDrains(e, u);
    MaybeStartQueue(e, u);
  }

  // ---- The way to play ----

  /** A result is on its way after which the session gives up. */
  predicate GivingUp(s: St, id: SessionId)
    requires Lives(s, id)
  {
    exists outcome :: Result(id, s.sessions[id].generation, outcome) in RoomOf(s, id).bag
                      && GivesUp(s.sessions[id], outcome)
  }

  /** An event of the AirPlay side. */
  predicate Outside(step: Step) {
    step.SessionStarts? || step.SessionStops? || step.PlaybackChanges? || step.Flushed? || step.FrameArrives?
  }

  lemma TurnCloser(e: Env, s: St, id: SessionId, d: Driver)
    requires Going(e, s, id) && By(s, id, d) && (d == FailureComes ==> !GivingUp(s, id))
    ensures Closer(e, s, Turn(s, id, d), id, d) && !Outside(Turn(s, id, d))
  {
    hide Going, Closer, HasEntry, GivingUp;
    match d
    case SuccessComes => SuccessCloser(e, s, id);
    case StartRuns => StartCompletes(e, s, id);
    case StartUnseen => UnseenCloser(e, s, id);
    case StreamWaits => WakeCloser(e, s, id);
    case StreamComes => StreamCloser(e, s, id);
    case PrepareRuns => PrepareCloser(e, s, id);
    case PrepareUnseen => LookCloser(e, s, id, PrepareUnseen, PrepareRuns);
    case PrepareBehind => BehindCloser(e, s, id);
    case RetryComes => RetryCloser(e, s, id);
    case RetryArmed => TimerCloser(e, s, id);
    case FailureComes => FailureCloser(e, s, id);
  }

  lemma UnseenCloser(e: Env, s: St, id: SessionId)
    requires Going(e, s, id) && By(s, id, StartUnseen)
    ensures Closer(e, s, Turn(s, id, StartUnseen), id, StartUnseen)
  {
    hide Going, Closer, HasEntry, CanMove, CanFinishGroup;
    GoingCore(e, s, id);
    var x := s.sessions[id];
    WorkerReady(IsSonos(e, x.zone), e.wav, RoomOf(s, id), s.plans);
    LookCloser(e, s, id, StartUnseen, StartRuns);
  }

  lemma {:induction false} PlaysFrom(e: Env, s: St, id: SessionId, d: Driver) returns (steps: seq<Step>)
    requires Going(e, s, id) && By(s, id, d) && (d == FailureComes ==> !GivingUp(s, id))
    ensures Possible(e, s, steps) && forall i :: 0 <= i < |steps| ==> !Outside(steps[i])
    ensures id in Run(e, s, steps).sessions && Run(e, s, steps).sessions[id].observed == Playing
    decreases Rank(d)
  {
    hide Going, By, Turn, GivingUp, Next, Enabled, Outside;
    GoingLives(e, s, id);
    TurnCloser(e, s, id, d);
    var step := Turn(s, id, d);
    var t := Next(e, s, step);
    GoingLives(e, t, id);
    if t.sessions[id].observed == Playing {
      steps := [step];
      assert steps[1..] == [] && Run(e, t, []) == t;
    } else {
      var d' :| Rank(d') < Rank(d) && By(t, id, d');
      var rest := PlaysFrom(e, t, id, d');
      steps := [step] + rest;
      assert steps[1..] == rest;
    }
  }

  lemma GoingLives(e: Env, s: St, id: SessionId)
    requires Going(e, s, id)
    ensures Lives(s, id)
  {
  }

  /** From every reachable state, a session that wants playback and that something drives comes to
      play in some course, without any further event, unless a result on its way makes it give up. */
  lemma CanPlay(e: Env, before: seq<Step>, id: SessionId) returns (f: Env, after: seq<Step>)
    requires ValidEnv(e) && Possible(e, Init(e), before)
    requires var s := Run(e, Init(e), before);
             Lives(s, id) && s.sessions[id].wanted && UnderWay(s, id) > 0 && !GivingUp(s, id)
    ensures var s := Run(e, Init(e), before);
            Course(e, s, f) && Possible(f, s, after) && (forall i :: 0 <= i < |after| ==> !Outside(after[i]))
            && var t := Run(f, s, after); id in t.sessions && t.sessions[id].observed == Playing
  {
    hide Run, Possible, ValidEnv, Sound, By, Going, Course, Outside, GivingUp, UnderWay;
    InitSound(e);
    RunSound(e, Init(e), before);
    var s := Run(e, Init(e), before);
    f := Kind(e, s);
    KindCourse(e, s, id);
    var d := SomeDriver(s, id);
    after := PlaysFrom(f, s, id, d);
  }
}
