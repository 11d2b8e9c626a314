/** FLUSH epochs from end to end: the adapter's queue, the bridge and the encoders. A frame reaches
    only an encoder that was built for the frame's epoch, and none that a FLUSH outdated. */
module BridgeEpochs {
  import opened BridgeState
  import opened BridgeHandlers
  import opened BridgeCore
  import opened BridgeHistory
  import opened BridgeSteps
  import opened BridgeSystem
  import opened BridgeRuns
  import opened AudioSession
  import opened Encoders
  import opened LiveStreams
  import opened LiveTiming
  import opened Numbers
  import Pcm

  /** Everything the encoder was fed has its epoch, and it was built for an issued generation. */
  ghost predicate OneEpoch(count: nat, x: Session) {
    x.encoder.Some? ==>
      && 1 <= x.encoder.value.stream <= count
      && forall i :: 0 <= i < |x.encoder.value.fed| ==> x.encoder.value.fed[i] == x.encoder.value.epoch
  }

  ghost predicate OneEpochEach(s: St) {
    forall id :: id in s.sessions ==> OneEpoch(|s.issued|, s.sessions[id])
  }

  lemma StepEpochs(e: Env, s: St, step: Step)
    requires ValidEnv(e) && Sound(e, s) && Enabled(e, s, step) && OneEpochEach(s)
    ensures OneEpochEach(Next(e, s, step))
  {
    hide ValidEnv, Sound, Next, Enabled, Sends, OneEpoch;
    var t := Next(e, s, step);
    if OfWorker(step) {
      WorkerTurns(e, s, step);
    } else {
      HandlerTurns(e, s, step);
      forall id | id in t.sessions ensures OneEpoch(|t.issued|, t.sessions[id]) {
        assert Turns(s, t, id);
        if id in s.sessions {
          SoundEncoder(e, s, id);
          FedEpoch(|s.issued|, |t.issued|, s.sessions[id], t.sessions[id]);
        } else {
          BegunEpoch(|s.issued|, |t.issued|, t.sessions[id]);
        }
      }
    }
  }

  lemma SoundEncoder(e: Env, s: St, id: SessionId)
    requires Sound(e, s) && id in s.sessions
    ensures s.sessions[id].encoder.Some? ==> s.sessions[id].encoder.value.epoch == s.sessions[id].epoch
  {
    SettledEncoder(e, s, id);
  }

  lemma FedEpoch(from: nat, to: nat, x: Session, y: Session)
    requires OneEpoch(from, x) && from <= to && EncoderTurns(from, to, x.epoch, x.encoder, y.encoder)
    requires x.encoder.Some? ==> x.encoder.value.epoch == x.epoch
    ensures OneEpoch(to, y)
  {
  }

  lemma BegunEpoch(from: nat, to: nat, y: Session)
    requires Begins(from, to, y)
    ensures OneEpoch(to, y)
  {
  }

  lemma {:induction false} RunEpochs(e: Env, s: St, steps: seq<Step>)
    requires ValidEnv(e) && Sound(e, s) && Possible(e, s, steps) && OneEpochEach(s)
    ensures OneEpochEach(Run(e, s, steps))
    decreases |steps|
  {
    hide ValidEnv, Sound, Next, Enabled, OneEpochEach;
    if steps != [] {
      StepSound(e, s, steps[0]);
      StepEpochs(e, s, steps[0]);
      RunEpochs(e, Next(e, s, steps[0]), steps[1..]);
    }
  }

  /** In every run, all the frames that an encoder was ever fed have the epoch that its stream
      accepts, which is the session's. */
  lemma EncodersNeverMixEpochs(e: Env, steps: seq<Step>, id: SessionId)
    requires ValidEnv(e) && Possible(e, Init(e), steps) && id in Run(e, Init(e), steps).sessions
    requires Run(e, Init(e), steps).sessions[id].encoder.Some?
    ensures var x := Run(e, Init(e), steps).sessions[id];
            && x.encoder.value.epoch == x.epoch
            && forall i :: 0 <= i < |x.encoder.value.fed| ==> x.encoder.value.fed[i] == x.encoder.value.epoch
  {
    hide Run, Possible, ValidEnv, Sound;
    InitSound(e);
    RunSound(e, Init(e), steps);
    NoSessions(e);
    RunEpochs(e, Init(e), steps);
    SoundEncoder(e, Run(e, Init(e), steps), id);
    assert OneEpoch(|Run(e, Init(e), steps).issued|, Run(e, Init(e), steps).sessions[id]);
  }

  lemma NoSessions(e: Env)
    ensures OneEpochEach(Init(e))
  {
  }

  // ---- An encoder keeps its epoch ----

  /** If this encoder is still there, it accepts the same epoch, and was only fed more. */
  predicate Continues(s: St, id: SessionId, was: Encoder) {
    id in s.sessions && s.sessions[id].encoder.Some? && s.sessions[id].encoder.value.stream == was.stream ==>
      s.sessions[id].encoder.value.epoch == was.epoch && was.fed <= s.sessions[id].encoder.value.fed
  }

  lemma {:induction false} RunContinues(e: Env, s: St, steps: seq<Step>, id: SessionId, was: Encoder)
    requires ValidEnv(e) && Sound(e, s) && Possible(e, s, steps) && was.stream <= |s.issued| && Continues(s, id, was)
    ensures Continues(Run(e, s, steps), id, was)
    decreases |steps|
  {
    hide ValidEnv, Sound, Next, Enabled, Continues;
    if steps != [] {
      var t := Next(e, s, steps[0]);
      StepSound(e, s, steps[0]);
      StepContinues(e, s, steps[0], id, was);
      RunContinues(e, t, steps[1..], id, was);
    }
  }

  lemma StepContinues(e: Env, s: St, step: Step, id: SessionId, was: Encoder)
    requires ValidEnv(e) && Sound(e, s) && Enabled(e, s, step) && was.stream <= |s.issued| && Continues(s, id, was)
    ensures Continues(Next(e, s, step), id, was)
  {
    hide ValidEnv, Sound, Next, Enabled, Sends;
    var t := Next(e, s, step);
    if OfWorker(step) {
      WorkerTurns(e, s, step);
    } else {
      HandlerTurns(e, s, step);
      assert id in t.sessions ==> Turns(s, t, id);
    }
  }

  /** The epoch that an encoder was built for is its epoch in every later state. */
  lemma EncodersKeepTheirEpoch(e: Env, before: seq<Step>, after: seq<Step>, id: SessionId)
    requires ValidEnv(e) && Possible(e, Init(e), before) && Possible(e, Run(e, Init(e), before), after)
    requires var s := Run(e, Init(e), before); id in s.sessions && s.sessions[id].encoder.Some?
    ensures var s := Run(e, Init(e), before);
            Continues(Run(e, s, after), id, s.sessions[id].encoder.value)
  {
    hide Run, Possible, ValidEnv, Sound;
    InitSound(e);
    RunSound(e, Init(e), before);
    NoSessions(e);
    RunEpochs(e, Init(e), before);
    var s := Run(e, Init(e), before);
    assert OneEpoch(|s.issued|, s.sessions[id]);
    RunContinues(e, s, after, id, s.sessions[id].encoder.value);
  }

  // ---- A FLUSH ----

  /** The session lives in every state of the run. */
  predicate Lives(e: Env, s: St, steps: seq<Step>, id: SessionId)
    requires Possible(e, s, steps)
    decreases |steps|
  {
    id in s.sessions && (steps != [] ==> Lives(e, Next(e, s, steps[0]), steps[1..], id))
  }

  lemma {:induction false} EpochsOnlyGrow(e: Env, s: St, steps: seq<Step>, id: SessionId)
    requires ValidEnv(e) && Sound(e, s) && Possible(e, s, steps) && Lives(e, s, steps, id)
    ensures id in s.sessions && id in Run(e, s, steps).sessions
    ensures s.sessions[id].epoch <= Run(e, s, steps).sessions[id].epoch
    decreases |steps|
  {
    hide ValidEnv, Sound, Next, Enabled, Sends;
    if steps != [] {
      var t := Next(e, s, steps[0]);
      StepSound(e, s, steps[0]);
      if OfWorker(steps[0]) {
        WorkerTurns(e, s, steps[0]);
      } else {
        HandlerTurns(e, s, steps[0]);
      }
      EpochsOnlyGrow(e, t, steps[1..], id);
      assert Turns(s, t, id) || OfWorker(steps[0]);
    }
  }

  lemma FlushReaches(e: Env, s: St, id: SessionId, epoch: nat)
    requires ValidEnv(e) && Core(e, s, {}) && Queue(e, s) && id in s.sessions
    requires id in HandleFlush(e, s, id, epoch).sessions
    ensures HandleFlush(e, s, id, epoch).sessions[id].epoch >= epoch
  {
    hide ValidEnv, Core, Queue, Restart, SetPlayback, Appends;
    if epoch > s.sessions[id].epoch {
      FlushedCore(e, s, id, epoch);
      var t := WithSession(s, id, FlushedSession(s.sessions[id], epoch));
      if s.sessions[id].wanted {
        RestartEvolves(e, t, id, {id});
        assert Ages(t, Restart(e, t, id), id);
      } else {
        PauseEvolves(e, t, id, {id});
        assert Ages(t, SetPlayback(e, t, id, false), id);
      }
    }
  }

  /** Once a FLUSH is handled, no older frame is in what any encoder of the session was fed, in any
      later state of the session: older frames never reach an encoder built after it, and the
      encoders they reached are gone. */
  lemma FlushIsolates(e: Env, before: seq<Step>, after: seq<Step>, id: SessionId, epoch: nat)
    requires ValidEnv(e) && Possible(e, Init(e), before) && id in Run(e, Init(e), before).sessions
    requires var t := Next(e, Run(e, Init(e), before), Step.Flushed(id, epoch));
             Possible(e, t, after) && Lives(e, t, after, id)
    ensures var u := Run(e, Next(e, Run(e, Init(e), before), Step.Flushed(id, epoch)), after);
            && id in u.sessions && u.sessions[id].epoch >= epoch
            && (u.sessions[id].encoder.Some? ==>
                  forall i :: 0 <= i < |u.sessions[id].encoder.value.fed| ==>
                      u.sessions[id].encoder.value.fed[i] >= epoch)
  {
    hide Run, Possible, ValidEnv, Sound, HandleFlush, OneEpochEach, Next, Enabled, Lives;
    InitSound(e);
    RunSound(e, Init(e), before);
    NoSessions(e);
    RunEpochs(e, Init(e), before);
    var s := Run(e, Init(e), before);
    FlushNext(e, s, id, epoch);
    IsolatedFrom(e, s, after, id, epoch);
  }

  lemma NextFlush(e: Env, s: St, id: SessionId, epoch: nat)
    ensures Enabled(e, s, Step.Flushed(id, epoch))
            && Next(e, s, Step.Flushed(id, epoch)) == HandleFlush(e, s, id, epoch)
  {
    hide StartSession, StopSession, SetPlayback, HandleFlush, HandleFrame, HandlePrepared, HandleResult,
         HandleRetry, HandleWake;
  }

  lemma FlushNext(e: Env, s: St, id: SessionId, epoch: nat)
    requires ValidEnv(e) && Sound(e, s) && id in s.sessions
    ensures Enabled(e, s, Step.Flushed(id, epoch))
    ensures var t := Next(e, s, Step.Flushed(id, epoch)); id in t.sessions ==> t.sessions[id].epoch >= epoch
  {
    hide ValidEnv, Sound, Core, Queue, Next, Enabled, HandleFlush;
    SoundParts(e, s);
    NextFlush(e, s, id, epoch);
    if id in HandleFlush(e, s, id, epoch).sessions {
      FlushReaches(e, s, id, epoch);
    }
  }

  lemma IsolatedFrom(e: Env, s: St, after: seq<Step>, id: SessionId, epoch: nat)
    requires ValidEnv(e) && Sound(e, s) && OneEpochEach(s)
    requires var t := Next(e, s, Step.Flushed(id, epoch));
             Possible(e, t, after) && Lives(e, t, after, id) && (id in t.sessions ==> t.sessions[id].epoch >= epoch)
    ensures var u := Run(e, Next(e, s, Step.Flushed(id, epoch)), after);
            && id in u.sessions && u.sessions[id].epoch >= epoch
            && (u.sessions[id].encoder.Some? ==>
                  forall i :: 0 <= i < |u.sessions[id].encoder.value.fed| ==>
                      u.sessions[id].encoder.value.fed[i] >= epoch)
  {
    hide Run, Possible, ValidEnv, Sound, HandleFlush, OneEpochEach, Lives;
    var t := Next(e, s, Step.Flushed(id, epoch));
    StepSound(e, s, Step.Flushed(id, epoch));
    StepEpochs(e, s, Step.Flushed(id, epoch));
    RunSound(e, t, after);
    RunEpochs(e, t, after);
    EpochsOnlyGrow(e, t, after, id);
    var u := Run(e, t, after);
    SoundEncoder(e, u, id);
    EpochOf(u, id);
  }

  lemma EpochOf(s: St, id: SessionId)
    requires OneEpochEach(s) && id in s.sessions
    ensures OneEpoch(|s.issued|, s.sessions[id])
  {
  }

  lemma SoundParts(e: Env, s: St)
    requires Sound(e, s)
    ensures Core(e, s, {}) && Queue(e, s)
  {
  }

  /** The callback's FLUSH and the bridge together: once the bridge handled the epoch that the
      callback announced, no frame that the old queue held is in what an encoder was fed, and the
      new queue holds frames of that epoch only. */
  method FlushEndToEnd(session: BridgeAudioSession, ghost e: Env, ghost before: seq<Step>, ghost after: seq<Step>,
                       ghost id: SessionId)
    requires session.Valid()
    requires ValidEnv(e) && Possible(e, Init(e), before) && id in Run(e, Init(e), before).sessions
    requires var t := Next(e, Run(e, Init(e), before), Step.Flushed(id, Min(session.epoch + 1, U64_MAX)));
             Possible(e, t, after) && Lives(e, t, after, id)
    modifies session, session.pcm
    ensures session.Valid() && session.events == old(session.events) + [Event.Flushed(session.epoch)]
    ensures session.epoch == Min(old(session.epoch) + 1, U64_MAX)
    ensures forall x :: x in session.pcm.frames ==> x.frame.epoch == session.epoch
    ensures var u := Run(e, Next(e, Run(e, Init(e), before), Step.Flushed(id, session.epoch)), after);
            old(session.epoch) < U64_MAX && id in u.sessions && u.sessions[id].encoder.Some? ==>
              forall x :: x in old(session.pcm.frames) ==> x.frame.epoch !in u.sessions[id].encoder.value.fed
  {
    hide Run, Possible, ValidEnv, Lives;
    ghost var was := session.pcm.frames;
    assert forall x :: x in was ==> x.frame.epoch == session.epoch;
    FlushIsolates(e, before, after, id, Min(session.epoch + 1, U64_MAX));
    session.AudioFlush();
  }

  /** After 2^64 - 1 FLUSHes the epoch no longer grows, and the bridge takes the next one for an old
      one: isolation needs the guard above. */
  lemma SaturatedFlush(e: Env, s: St, id: SessionId)
    requires id in s.sessions && s.sessions[id].epoch == U64_MAX
    ensures HandleFlush(e, s, id, Min(U64_MAX + 1, U64_MAX)) == s
  {
  }

  // ---- The encoder's own filter ----

  /** What a stream emits of an entry, whatever the entry's epoch. */
  function HeardAnyway(encode: Encoding, release: Release, x: Pcm.Queued): seq<Byte> {
    Heard(encode, x.frame.epoch, release, x)
  }

  function HeardAllAnyway(encode: Encoding, release: Release, entries: seq<Pcm.Queued>): seq<Byte> {
    if entries == [] then []
    else HeardAllAnyway(encode, release, entries[..|entries| - 1])
         + HeardAnyway(encode, release, entries[|entries| - 1])
  }

  lemma {:induction false} FilterPasses(encode: Encoding, epoch: nat, release: Release, entries: seq<Pcm.Queued>)
    requires forall i :: 0 <= i < |entries| ==> entries[i].frame.epoch == epoch
    ensures HeardAll(encode, epoch, release, entries) == HeardAllAnyway(encode, release, entries)
  {
    hide Heard;
    if entries != [] {
      FilterPasses(encode, epoch, release, entries[..|entries| - 1]);
    }
  }

  /** The encoder of a session in a run: its loop drops nothing for its epoch, so its stream emits
      what the release lets through of all that it was fed, and nothing else. */
  method EncodeFed(ghost e: Env, ghost steps: seq<Step>, ghost id: SessionId, stream: LiveStream, encode: Encoding,
                   release: Release, entries: seq<Pcm.Queued>, start: real)
      returns (times: seq<real>)
    requires ValidEnv(e) && Possible(e, Init(e), steps) && id in Run(e, Init(e), steps).sessions
    requires var x := Run(e, Init(e), steps).sessions[id];
             x.encoder.Some? && stream.epoch == x.encoder.value.epoch && |entries| == |x.encoder.value.fed|
             && forall i :: 0 <= i < |entries| ==> entries[i].frame.epoch == x.encoder.value.fed[i]
    requires stream.Valid() && stream.connected && !stream.closed && stream.anchor == AnchorAt(release.at)
    requires (forall x :: x in entries ==> |x.frame.samples| * 2 <= MAX_PUBLISH) && release.delay >= 0.0
    modifies stream, stream.Shared()
    ensures stream.Valid()
    ensures Concat(stream.sent) == Concat(old(stream.sent)) + HeardAllAnyway(encode, release, entries)
  {
    hide Run, Possible, ValidEnv, Heard;
    EncodersNeverMixEpochs(e, steps, id);
    FilterPasses(encode, stream.epoch, release, entries);
    times := EncodeWav(stream, encode, release, entries, start);
  }
}
