/** The control state of the bridge, and the commands and messages its handlers exchange
    with the room workers. */
module BridgeState {
  datatype Option<+T> = None | Some(value: T)

  type SessionId = nat
  type ZoneId = nat
  type Sender = nat

  datatype Renderer = Sonos | HomeAssistant
  datatype ObservedPlayback = Unknown | Playing | Stopped

  /** What a room worker reports. `Halted` and `HaltUnknown` answer a Stop, `TimedOut` is a
      start request whose effect is not known. */
  datatype Outcome = Started | Joined | Halted | HaltUnknown | TimedOut | Failed | PermanentFailure

  /** A prepared downstream stream. Its generation names it. */
  datatype Stream = Stream(id: SessionId, zone: ZoneId, generation: nat)

  /** When a stream's output starts, and how far it is delayed. `group` is the shared wait
      whose release fixed the cutoff, if there was one. */
  datatype Plan = Plan(cutoff: nat, delay: nat, group: Option<nat>)

  /** An encoder, by the generation it was built for: the playback epoch that its stream accepts,
      and the epochs of the frames it was fed so far. */
  datatype Encoder = Encoder(stream: nat, epoch: nat, fed: seq<nat>)

  /** How an encoder's queue answers one frame. */
  datatype Write = Taken | Full | InputClosed

  datatype Session = Session(
    zone: ZoneId,
    sender: Option<Sender>,
    syncDelay: nat,
    generation: nat,
    epoch: nat,
    wanted: bool,
    observed: ObservedPlayback,
    resetNeeded: bool,
    encoder: Option<Encoder>,
    prepared: Option<Stream>,
    held: Option<nat>,         // the kept stream's delay, held back until a failed join
    attempts: nat,
    timer: Option<nat>)        // generation of an armed retry timer

  datatype Command =
    | Prepare(id: SessionId, generation: nat)
    | Play(id: SessionId, generation: nat)
    | PlayGroup(id: SessionId, generation: nat, joins: nat, delay: Option<nat>)
    | Join(id: SessionId, generation: nat, joins: nat, coordinator: ZoneId)
    | Stop(id: SessionId, generation: nat)

  datatype Message =
    | Prepared(id: SessionId, generation: nat)
    | Result(id: SessionId, generation: nat, outcome: Outcome)
    | Retry(id: SessionId, generation: nat)

  /** One room's worker, its command channel and the messages tagged with that room.
      `unseen` holds the commands sent since the worker last looked. The channel shows the
      worker only the latest value at the moment it looks. A handler does not run in one
      instant, so the worker may look between two of its sends: letting it find any unseen
      command, and forget the earlier ones, covers every such moment. */
  datatype Channel = Channel(
    unseen: seq<Command>,
    running: Option<Command>,
    loaded: Option<Stream>,    // the stream of the last Prepare that ran to completion
    joined: bool,              // the worker's own flag
    member: bool,              // whether the device is in a group that one of its joins made
    bag: multiset<Message>)

  datatype Cohort = Cohort(
    windowDeadline: nat,
    startDeadline: nat,
    sessions: seq<SessionId>,
    prepared: map<SessionId, Stream>)

  datatype Owner = Owner(id: SessionId, zone: ZoneId)

  /** `cohorts` is the active cohort followed by the pending ones. `issued[k]` is the session
      that received generation k + 1, so the generation counter is its length. */
  datatype St = St(
    sessions: map<SessionId, Session>,
    issued: seq<Owner>,
    cohorts: seq<Cohort>,
    groups: map<SessionId, seq<SessionId>>,
    channels: map<ZoneId, Channel>,
    plans: map<nat, Plan>,
    joins: nat,
    released: map<nat, nat>,
    wakes: set<nat>,
    ticks: nat)

  /** What the handlers cannot influence. The clock, the iteration order of hash maps and
      the success of encoder construction are arbitrary: every reading of the first two
      advances `ticks`, and each generation constructs at most one encoder.
      `clearFirst` selects the order inside a restart: false is the order in the source. */
  datatype Env = Env(
    renderers: map<ZoneId, Renderer>,
    offset: ZoneId -> int,
    wav: bool,
    nativeGroups: bool,
    window: nat,
    deadline: nat,
    clock: nat -> nat,
    choose: (nat, set<SessionId>) -> SessionId,
    spawnOk: nat -> bool,
    clearFirst: bool)

  const SYNC_START_LEAD: nat := 120
  const RETRY_BUDGET: nat := 6

  function Now(e: Env, s: St): nat {
    e.clock(s.ticks)
  }

  function Ticked(s: St): St {
    s.(ticks := s.ticks + 1)
  }

  predicate IsSonos(e: Env, zone: ZoneId) {
    zone in e.renderers && e.renderers[zone] == Sonos
  }

  ghost predicate NoDuplicates<T>(list: seq<T>) {
    forall i, j :: 0 <= i < j < |list| ==> list[i] != list[j]
  }

  /** `list` without the elements outside `kept`, in order. */
  function Keep(list: seq<SessionId>, kept: set<SessionId>): (r: seq<SessionId>)
    ensures |r| <= |list|
    ensures forall x :: x in r <==> x in list && x in kept
  {
    if list == [] then []
    else if list[0] in kept then [list[0]] + Keep(list[1..], kept)
    else Keep(list[1..], kept)
  }

  function Without(list: seq<SessionId>, x: SessionId): (r: seq<SessionId>)
    ensures |r| <= |list|
    ensures forall y :: y in r <==> y in list && y != x
    ensures x !in list ==> r == list
  {
    if list == [] then []
    else if list[0] == x then Without(list[1..], x)
    else [list[0]] + Without(list[1..], x)
  }

  lemma {:induction false} KeepNoDuplicates(list: seq<SessionId>, kept: set<SessionId>)
    requires NoDuplicates(list)
    ensures NoDuplicates(Keep(list, kept))
  {
    if list != [] {
      KeepNoDuplicates(list[1..], kept);
    }
  }

  lemma {:induction false} WithoutNoDuplicates(list: seq<SessionId>, x: SessionId)
    requires NoDuplicates(list)
    ensures NoDuplicates(Without(list, x))
  {
    if list != [] {
      WithoutNoDuplicates(list[1..], x);
      assert list[0] !in list[1..];
    }
  }
}
