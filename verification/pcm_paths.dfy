/** What the queues guarantee together: no notification is lost, and buffered audio that has a
    credit is never dropped between the AirPlay callback and the encoder. */
module PcmPaths {
  import opened BridgeState
  import opened Numbers
  import opened Pcm
  import opened AudioSession

  /** The adapter queue between its producer and the control loop: `events` counts the
      notifications under way, `batch` what the loop may still take of the batch it began. */
  class PcmLink {
    const queue: PcmQueue
    var events: nat
    var batch: Option<nat>

    /** Frames that no batch in progress will take have a notification under way. */
    ghost predicate Valid()
      reads this, queue
    {
      && queue.Valid()
      && (queue.notified ==> events > 0)
      && (|queue.frames| > (if batch.Some? then batch.value else 0) ==> events > 0)
    }

    constructor (queue: PcmQueue)
      requires queue.Valid() && queue.frames == [] && !queue.notified
      ensures Valid() && this.queue == queue
    {
      this.queue, events, batch := queue, 0, None;
    }

    method Deliver(f: Frame, now: real) returns (accepted: bool)
      requires Valid() && IsVec(f)
      modifies this`events, queue
      ensures Valid()
    {
      hide PcmQueue.Valid;
      var notify;
      ghost var was := queue.frames;
      accepted, notify := queue.Push(f, now);
      if notify {
        events := events + 1;
      }
    }

    /** The control loop receives a notification. */
    method TakeEvent(now: real)
      requires Valid() && events > 0 && batch.None?
      modifies this, queue
      ensures Valid() && batch == Some(|queue.frames|) && events == old(events) - 1
    {
      events := events - 1;
      var n := queue.BeginBatch(now);
      batch := Some(n);
    }

    /** The loop takes the next frame of its batch. It ends when the queue is empty. */
    method PopNext(now: real) returns (r: Option<Queued>)
      requires Valid() && batch.Some? && batch.value > 0
      modifies this`batch, queue
      ensures Valid() && (if r.Some? then batch == Some(old(batch).value - 1) else batch.None? && queue.frames == [])
    {
      hide PcmQueue.Valid, PcmQueue.Expired;
      ghost var was := queue.frames;
      r := queue.Pop(now);
      queue.NotLonger(was, if r.Some? then [r.value] + queue.frames else [], now, queue.dropped - old(queue.dropped));
      batch := if r.Some? then Some(batch.value - 1) else None;
    }

    method EndBatch()
      requires Valid() && batch == Some(0)
      modifies this`batch
      ensures Valid() && batch.None?
    {
      batch := None;
    }

    /** Whenever the loop is between batches and a frame is queued, a notification is under way. */
    lemma NothingIsForgotten()
      requires Valid() && batch.None? && queue.frames != []
      ensures events > 0
    {
    }
  }

  // ---- Credits from end to end ----

  function InHand(processing: Option<Queued>): seq<Queued> {
    if processing.Some? then [processing.value] else []
  }

  /** A queue of credited frames takes a frame that fits, without loss. */
  method PushCredited(queue: PcmQueue, f: Frame, now: real)
    requires queue.Valid() && !queue.closed && IsVec(f) && queue.Admissible(f) && queue.Fits(queue.frames, f)
    requires forall x :: x in queue.frames ==> Credited(x)
    modifies queue
    ensures queue.Valid() && !queue.closed && queue.dropped == old(queue.dropped)
    ensures queue.frames == old(queue.frames) + [Queued(f, now)]
  {
    hide PcmQueue.Valid, PcmQueue.Fits, PcmQueue.Admissible, PcmQueue.MadeRoom, Credited;
    ghost var was := queue.frames;
    var accepted, notify := queue.Push(f, now);
    KeepsPermitted(queue, was, now, f, if accepted then queue.frames[..|queue.frames| - 1] else queue.frames,
                   queue.dropped - old(queue.dropped));
    assert accepted;
    assert queue.frames == queue.frames[..|queue.frames| - 1] + [Queued(f, now)];
  }

  /** A queue of credited frames gives its oldest one, however old it is. */
  method PopCredited(queue: PcmQueue, now: real) returns (r: Option<Queued>)
    requires queue.Valid() && forall x :: x in queue.frames ==> Credited(x)
    modifies queue
    ensures queue.Valid() && queue.closed == old(queue.closed) && queue.dropped == old(queue.dropped)
    ensures queue.log == old(queue.log)
    ensures if old(queue.frames) == [] then r.None? && queue.frames == []
            else r == Some(old(queue.frames)[0]) && queue.frames == old(queue.frames)[1..]
  {
    hide PcmQueue.Valid, PcmQueue.Expired, Credited;
    ghost var was := queue.frames;
    r := queue.Pop(now);
    PermittedStays(queue, was, now, if r.Some? then [r.value] + queue.frames else [],
                   queue.dropped - old(queue.dropped));
  }

  /** Audio from the AirPlay callback's session to the encoder, in one playback epoch. The encoder,
      with its queue, is replaced whenever the session restarts. */
  class AudioPath {
    const session: BridgeAudioSession
    const queueDuration: nat
    var encoder: PcmQueue
    var processing: Option<Queued>

    ghost function Held(): multiset<Permit>
      reads this, session, session.pcm, encoder
    {
      Permits(session.pcm.frames) + Permits(encoder.frames) + Permits(InHand(processing))
    }

    /** The live permits are those of the frames under way, and the encoder's queue is not
        smaller than the credit. */
    ghost predicate Valid()
      reads this, session, session.pcm, session.credits, encoder
    {
      && session.Valid() && session.channels > 0 && session.rate > 0 && !session.pcm.closed
      && encoder != session.pcm && encoder.Valid() && !encoder.closed
      && encoder.rate == session.rate && encoder.channels == session.channels
      && session.pcm.maxSamples <= encoder.maxSamples && session.pcm.maxBytes <= encoder.maxBytes
      && CREDIT_MS <= queueDuration
      && (forall x :: x in session.pcm.frames ==> Credited(x)) && (forall x :: x in encoder.frames ==> Credited(x))
      && (forall x :: x in InHand(processing) ==> Credited(x))
      && session.credits.live == Held()
    }

    constructor (rate: nat, channels: nat, queueDuration: nat)
      requires rate > 0 && channels > 0 && CREDIT_MS <= queueDuration
      ensures Valid() && fresh(session) && fresh(session.pcm) && fresh(session.credits) && fresh(encoder)
      ensures processing.None? && session.progress == 0
    {
      hide PcmQueue.Valid, PcmCredits.Valid, Permits, Credited, SaturatingAdd, SaturatingMul;
      LongerQueue(rate, channels, queueDuration);
      NoPermits();
      session := new BridgeAudioSession(rate, channels);
      encoder := new PcmQueue(rate, channels, queueDuration);
      this.queueDuration := queueDuration;
      processing := None;
      new;
      SessionLimits();
    }

    static lemma NoPermits()
      ensures Permits([]) == multiset{} && Permits(InHand(None)) == multiset{}
    {
    }

    static lemma LongerQueue(rate: nat, channels: nat, queueDuration: nat)
      requires CREDIT_MS <= queueDuration
      ensures var a := PcmQueue.Limit(rate, channels, CREDIT_MS);
              var b := PcmQueue.Limit(rate, channels, queueDuration);
              a <= b && SaturatingAdd(SaturatingMul(a, 8), 1024) <= SaturatingAdd(SaturatingMul(b, 8), 1024)
    {
      LongerLimit(rate * channels, queueDuration);
    }

    static lemma LongerLimit(n: nat, duration: nat)
      requires CREDIT_MS <= duration
      ensures n * CREDIT_MS / 1000 <= n * duration / 1000
    {
      assert n * CREDIT_MS <= n * duration by {
        assert n * (duration - CREDIT_MS) >= 0;
      }
    }

    /** The samples under way are within the credit. */
    lemma WithinCredit()
      requires Valid()
      ensures var c := session.credits;
              var n := Samples(session.pcm.frames) + Samples(encoder.frames) + Samples(InHand(processing));
              var m := Bytes(session.pcm.frames) + Bytes(encoder.frames) + Bytes(InHand(processing));
              c.usedSamples == n <= c.maxSamples && c.usedBytes == m <= c.maxBytes
    {
      hide Reserved;
      PermitsSum(session.pcm.frames);
      PermitsSum(encoder.frames);
      PermitsSum(InHand(processing));
      ReservedSum(Permits(session.pcm.frames), Permits(encoder.frames));
      ReservedSum(Permits(session.pcm.frames) + Permits(encoder.frames), Permits(InHand(processing)));
    }

    lemma HeldDeliver(was: seq<Queued>, x: Queued)
      requires x.frame.permit.Some?
      ensures Permits(was + [x]) == Permits(was) + multiset{x.frame.permit.value}
    {
      FlatAppend(was, x);
    }

    lemma IsBuffered()
      requires Valid()
      ensures session.Buffered()
    {
      hide Permits, Credited;
    }

    /** The callback presents a packet: what it takes is queued without loss, and once nothing is
        under way it takes at least one chunk, unless that has no whole sample frames. */
    method Deliver(samples: seq<Sample>, time: Option<real>, now: real) returns (ok: bool)
      requires Valid() && |samples| * 4 <= ISIZE_MAX && session.progress <= |samples|
      modifies session`events, session`progress, session.pcm, session.credits
      ensures Valid() && session.pcm == old(session.pcm) && session.credits == old(session.credits)
      ensures if ok then session.progress == 0 else old(session.progress) <= session.progress < |samples|
      ensures Took(samples, session.pcm.maxSamples, session.channels, old(session.pcm.log), old(session.credits.live),
                   old(session.progress), session.pcm.log, session.credits.live,
                   if ok then |samples| else session.progress)
      ensures Furthest(|samples|, session.pcm.maxSamples, session.channels,
                       if ok then |samples| else session.progress) ==
              Furthest(|samples|, session.pcm.maxSamples, session.channels, old(session.progress))
      ensures old(session.pcm.log) <= session.pcm.log
      ensures session.pcm.frames == old(session.pcm.frames) + session.pcm.log[|old(session.pcm.log)|..]
      ensures session.rate * session.channels > 0
      ensures Stamped(session.pcm.log[|old(session.pcm.log)|..], old(session.progress), time, session.epoch,
                      session.rate, session.channels, [now])
      ensures old(Held()) == multiset{} ==>
                ok || session.progress >= Min(old(session.progress) + session.pcm.maxSamples,
                                              Furthest(|samples|, session.pcm.maxSamples, session.channels,
                                                       old(session.progress)))
    {
      hide Took, Stamped, Furthest, Permits, Credited, PcmQueue.Valid, BridgeAudioSession.Valid;
      IsBuffered();
      ghost var live, others := session.credits.live, Permits(encoder.frames) + Permits(InHand(processing));
      assert session.rate * session.channels > 0;
      ok := session.AudioProcessBuffered(samples, time, now);
      TookFurthest(samples, session.pcm.maxSamples, session.channels, old(session.pcm.log), live, old(session.progress),
                   session.pcm.log, session.credits.live, if ok then |samples| else session.progress);
      HeldAfter(live, old(Permits(session.pcm.frames)), session.credits.live, Permits(session.pcm.frames), others);
    }

    lemma HeldAfter(live: multiset<Permit>, frames: multiset<Permit>, live': multiset<Permit>,
                    frames': multiset<Permit>, others: multiset<Permit>)
      requires live == frames + others && live' + frames == live + frames'
      ensures live' == frames' + others
    {
      assert forall p :: live'[p] + frames[p] == (live' + frames)[p];
      assert forall p :: (live + frames')[p] == live[p] + frames'[p];
    }

    /** The control loop hands the oldest adapter frame to the encoder's queue, which takes it. */
    method Forward(now: real) returns (ok: bool)
      requires Valid()
      modifies session.pcm, encoder
      ensures Valid() && session.pcm.dropped == old(session.pcm.dropped) && encoder.dropped == old(encoder.dropped)
      ensures session.pcm.log == old(session.pcm.log)
      ensures if old(session.pcm.frames) == [] then !ok && session.pcm.frames == []
              && encoder.frames == old(encoder.frames)
              else ok && session.pcm.frames == old(session.pcm.frames)[1..]
                   && encoder.frames == old(encoder.frames) + [Queued(old(session.pcm.frames)[0].frame, now)]
    {
      hide PcmQueue.Valid, PcmCredits.Valid, PcmQueue.Admissible, PcmQueue.Fits, Permits, Credited, Samples, Bytes;
      WithinCredit();
      ghost var was, queued := session.pcm.frames, encoder.frames;
      AdmissibleAll(session.pcm);
      var r := PopCredited(session.pcm, now);
      if r.None? {
        return false;
      }
      var f := r.value.frame;
      assert was[0] in was && was == [was[0]] + was[1..];
      CreditedFrame(was[0], now);
      SameAdmissible(f);
      PermitsPrepend(was[0], was[1..]);
      HeldDeliver(queued, Queued(f, now));
      MovesWithin(was, queued);
      PushCredited(encoder, f, now);
      ok := true;
    }

    lemma CreditedFrame(x: Queued, now: real)
      requires Credited(x)
      ensures IsVec(x.frame) && x.frame.permit.Some? && Credited(Queued(x.frame, now))
    {
    }

    lemma SameAdmissible(f: Frame)
      requires session.pcm.Admissible(f) && session.pcm.rate == encoder.rate && session.pcm.channels == encoder.channels
      requires session.pcm.maxSamples <= encoder.maxSamples
      ensures encoder.Admissible(f)
    {
    }

    lemma AdmissibleAll(queue: PcmQueue)
      requires queue.Valid()
      ensures forall x :: x in queue.frames ==> queue.Admissible(x.frame)
    {
    }

    /** The first frame of `a` fits beside `b` when both together are within the credit. */
    lemma MovesWithin(a: seq<Queued>, b: seq<Queued>)
      requires a != [] && Samples(a) + Samples(b) <= encoder.maxSamples && Bytes(a) + Bytes(b) <= encoder.maxBytes
      ensures encoder.Fits(b, a[0].frame)
    {
    }

    /** Without an encoder the control loop drops the oldest adapter frame, and its credit comes
        back. */
    method Discard(now: real) returns (ok: bool)
      requires Valid()
      modifies session.pcm, session.credits
      ensures Valid() && session.pcm.dropped == old(session.pcm.dropped) && session.pcm.log == old(session.pcm.log)
      ensures if old(session.pcm.frames) == [] then !ok && session.pcm.frames == []
              else ok && session.pcm.frames == old(session.pcm.frames)[1..]
    {
      hide PcmQueue.Valid, PcmCredits.Valid, Permits, Credited;
      ghost var was := session.pcm.frames;
      var r := PopCredited(session.pcm, now);
      if r.None? {
        return false;
      }
      assert was[0] in was && was == [was[0]] + was[1..];
      CreditedFrame(was[0], now);
      PermitsPrepend(was[0], was[1..]);
      session.credits.Release(r.value.frame.permit.value);
      ok := true;
    }

    /** The encoder takes its oldest frame. */
    method Take(now: real) returns (ok: bool)
      requires Valid() && processing.None?
      modifies this`processing, encoder
      ensures Valid() && encoder.dropped == old(encoder.dropped)
      ensures if old(encoder.frames) == [] then !ok && processing.None? && encoder.frames == []
              else ok && processing == Some(old(encoder.frames)[0]) && encoder.frames == old(encoder.frames)[1..]
    {
      hide PcmQueue.Valid, PcmCredits.Valid, Permits;
      ghost var was := encoder.frames;
      var r := PopCredited(encoder, now);
      if r.None? {
        return false;
      }
      assert Credited(was[0]) && was == [was[0]] + was[1..];
      PermitsPrepend(was[0], was[1..]);
      PermitsPrepend(was[0], []);
      assert [was[0]] + [] == [was[0]];
      processing := r;
      ok := true;
    }

    /** The frame is processed, and its credit comes back. */
    method Finish()
      requires Valid() && processing.Some?
      modifies this`processing, session.credits
      ensures Valid() && processing.None?
      ensures session.credits.usedSamples == old(session.credits.usedSamples) - |old(processing).value.frame.samples|
    {
      hide PcmQueue.Valid, PcmCredits.Valid, Permits;
      var x := processing.value;
      assert Credited(x) by {
        assert x in InHand(processing);
      }
      PermitsPrepend(x, []);
      assert [x] + [] == [x];
      session.credits.Release(x.frame.permit.value);
      processing := None;
    }

    /** The encoder's queue and what it processes are gone, with all their credit. */
    method RunDry(now: real)
      requires Valid()
      modifies this`processing, encoder, session.credits
      ensures Valid() && encoder.frames == [] && processing.None?
    {
      hide AudioPath.Valid, AudioPath.Held;
      HasChannels();
      if processing.Some? {
        Finish();
      }
      while encoder.frames != []
        invariant Valid() && processing.None? && encoder == old(encoder)
        decreases |encoder.frames|
      {
        var ok := Take(now);
        Finish();
      }
    }

    /** A restart replaces the encoder: frames of the old one are dropped, and a new queue begins. */
    method Replace(now: real)
      requires Valid()
      modifies this`processing, this`encoder, encoder, session.credits
      ensures Valid() && fresh(encoder) && encoder.frames == [] && processing.None?
      ensures session.credits.live == Permits(session.pcm.frames)
    {
      hide PcmQueue.Valid, PcmCredits.Valid, Permits, Credited, PcmQueue.Limit, SaturatingAdd, SaturatingMul;
      RunDry(now);
      LongerQueue(session.rate, session.channels, queueDuration);
      SessionLimits();
      NoPermits();
      encoder := new PcmQueue(session.rate, session.channels, queueDuration);
    }

    lemma SessionLimits()
      requires session.Valid()
      ensures session.pcm.maxSamples == PcmQueue.Limit(session.rate, session.channels, CREDIT_MS)
      ensures session.pcm.maxBytes == SaturatingAdd(SaturatingMul(session.pcm.maxSamples, 8), 1024)
    {
    }

    lemma NothingHeld()
      requires Valid() && session.pcm.frames == [] && encoder.frames == [] && processing.None?
      ensures Held() == multiset{} && session.channels > 0
    {
      NoPermits();
    }

    lemma HasChannels()
      requires Valid()
      ensures session.channels > 0 && encoder != session.pcm
    {
    }

    /** Everything under way is encoded. */
    method Drain(now: real)
      requires Valid()
      modifies this`processing, encoder, session.pcm, session.credits
      ensures Valid() && Held() == multiset{} && session.pcm.log == old(session.pcm.log)
    {
      hide AudioPath.Valid, AudioPath.Held;
      HasChannels();
      while session.pcm.frames != []
        invariant Valid() && encoder == old(encoder) && session.pcm.log == old(session.pcm.log)
        decreases |session.pcm.frames|
      {
        var ok := Forward(now);
      }
      RunDry(now);
      NothingHeld();
    }

    /** A packet that is presented again each time the audio before it is encoded is taken, if there
        are as many presentations as chunks, exactly when its chunks have whole sample frames. */
    method PresentDrained(samples: seq<Sample>, time: Option<real>, times: seq<real>) returns (taken: bool)
      requires Valid() && |samples| * 4 <= ISIZE_MAX && session.progress == 0 && times != []
      requires |times| * session.pcm.maxSamples >= |samples|
      modifies this`processing, encoder, session`events, session`progress, session.pcm, session.credits
      ensures Valid()
      ensures taken <==> WholeChunks(|samples|, session.pcm.maxSamples, session.channels)
    {
      hide Furthest, Took, Stamped, AudioPath.Valid, AudioPath.Held;
      HasChannels();
      ghost var limit, channels := session.pcm.maxSamples, session.channels;
      ghost var most := Furthest(|samples|, limit, channels, 0);
      var i := 0;
      taken := false;
      while i < |times| && !taken
        invariant Valid() && i <= |times| && encoder == old(encoder)
        invariant session.pcm == old(session.pcm) && session.credits == old(session.credits)
        invariant if taken then most == |samples|
                  else session.progress <= most && session.progress >= Min(i * limit, most)
                       && Furthest(|samples|, limit, channels, session.progress) == most
                       && (i > 0 ==> session.progress < |samples|)
        decreases |times| - i, !taken
      {
        ghost var from := session.progress;
        Drain(times[i]);
        taken := Deliver(samples, time, times[i]);
        if !taken {
          NextChunk(i, limit, most, from, session.progress);
        }
        i := i + 1;
      }
      if !taken {
        assert session.progress == most;
      }
    }

    lemma NextChunk(i: nat, limit: nat, most: nat, from: nat, to: nat)
      requires from >= Min(i * limit, most) && to >= Min(from + limit, most)
      ensures to >= Min((i + 1) * limit, most)
    {
      assert (i + 1) * limit == i * limit + limit;
    }
  }
}
