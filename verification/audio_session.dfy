/** `BridgeAudioSession`: how the AirPlay callbacks fill the adapter queue. */
module AudioSession {
  import opened BridgeState
  import opened Numbers
  import opened Pcm

  const CREDIT_MS: nat := 250

  datatype Event = PcmReady | Flushed(epoch: nat) | StreamEndedWhilePaused | SessionStopped
  datatype StopReason = EndedWhilePaused | Teardown | StreamEnded

  /** All samples of a list of entries, in order. */
  ghost function Flat(q: seq<Queued>): seq<Sample> {
    if q == [] then [] else Flat(q[..|q| - 1]) + q[|q| - 1].frame.samples
  }

  ghost function Permits(q: seq<Queued>): multiset<Permit> {
    if q == [] then multiset{}
    else Permits(q[..|q| - 1]) + (if q[|q| - 1].frame.permit.Some? then multiset{q[|q| - 1].frame.permit.value}
        else multiset{})
  }

  lemma FlatAppend(q: seq<Queued>, x: Queued)
    ensures Flat(q + [x]) == Flat(q) + x.frame.samples
    ensures Permits(q + [x]) == Permits(q) + (if x.frame.permit.Some? then multiset{x.frame.permit.value}
            else multiset{})
  {
    assert (q + [x])[..|q|] == q;
  }

  lemma Exchange(l0: multiset<Permit>, l1: multiset<Permit>, l2: multiset<Permit>,
                 p0: multiset<Permit>, p1: multiset<Permit>, p2: multiset<Permit>)
    requires l1 + p0 == l0 + p1 && l2 + p1 == l1 + p2
    ensures l2 + p0 == l0 + p2
  {
    forall x ensures (l2 + p0)[x] == (l0 + p2)[x] {
      assert (l1 + p0)[x] == (l0 + p1)[x] && (l2 + p1)[x] == (l1 + p2)[x];
    }
  }

  // ---- Frames with a credit ----

  ghost predicate Credited(x: Queued) {
    var n := |x.frame.samples|;
    x.frame.permit == Some(Permit(n, n * 4 + ENTRY_BYTES)) && x.frame.capacity == n && IsVec(x.frame)
  }

  lemma {:induction false} ReservedSum(a: multiset<Permit>, b: multiset<Permit>)
    ensures Reserved(a + b) == Reserved(a) + Reserved(b)
    decreases |b|
  {
    hide Reserved;
    if b == multiset{} {
      assert a + b == a;
      NothingReserved();
    } else {
      var p :| p in b;
      ReservedSum(a, b - multiset{p});
      ReservedMinus(b, p);
      ReservedPlus(a + (b - multiset{p}), p);
      assert a + (b - multiset{p}) + multiset{p} == a + b;
    }
  }

  lemma NothingReserved()
    ensures Reserved(multiset{}) == 0
  {
  }

  lemma {:induction false} PermitsSum(q: seq<Queued>)
    requires forall x :: x in q ==> Credited(x)
    ensures Reserved(Permits(q)) == Samples(q)
    ensures |Permits(q)| == |q|
    ensures Bytes(q) == Samples(q) * 4 + |q| * ENTRY_BYTES
    decreases |q|
  {
    hide Reserved;
    if q == [] {
      NothingReserved();
    } else {
      var front, last := q[..|q| - 1], q[|q| - 1];
      assert q == front + [last];
      PermitsSum(front);
      SumsAppend(front, last);
      FlatAppend(front, last);
      assert Credited(last);
      ReservedPlus(Permits(front), last.frame.permit.value);
    }
  }

  lemma {:induction false} PermitsPrepend(x: Queued, q: seq<Queued>)
    requires x.frame.permit.Some?
    ensures Permits([x] + q) == multiset{x.frame.permit.value} + Permits(q)
    decreases |q|
  {
    if q == [] {
      assert [x] + q == [] + [x];
      FlatAppend([], x);
    } else {
      var front, last := q[..|q| - 1], q[|q| - 1];
      assert q == front + [last] && [x] + q == ([x] + front) + [last];
      PermitsPrepend(x, front);
      FlatAppend(front, last);
      FlatAppend([x] + front, last);
    }
  }

  /** No frame with a permit makes room for another, and none goes stale. */
  lemma KeepsPermitted(queue: PcmQueue, was: seq<Queued>, now: real, f: Frame, rest: seq<Queued>, lost: int)
    requires (forall x :: x in was ==> Credited(x)) && queue.MadeRoom(was, rest, now, f, lost)
    ensures lost == 0 && rest == was
  {
    hide PcmQueue.Fits;
    assert lost > 0 ==> was[0] in was && Credited(was[0]);
  }

  lemma PermittedStays(queue: PcmQueue, was: seq<Queued>, now: real, rest: seq<Queued>, lost: int)
    requires (forall x :: x in was ==> Credited(x)) && queue.Expired(was, rest, now, lost)
    ensures lost == 0 && rest == was
  {
    assert lost > 0 ==> was[0] in was && Credited(was[0]);
  }

  lemma CreditedPermit(x: Queued)
    requires Credited(x)
    ensures x.frame.permit.Some?
  {
  }

  lemma {:induction false} ReservedWithin(a: multiset<Permit>, b: multiset<Permit>)
    requires a <= b
    ensures Reserved(a) <= Reserved(b) && |a| <= |b|
  {
    hide Reserved;
    assert b == a + (b - a);
    ReservedSum(a, b - a);
  }

  lemma {:induction false} FlatJoin(a: seq<Queued>, b: seq<Queued>)
    ensures Flat(a + b) == Flat(a) + Flat(b)
    decreases |b|
  {
    hide Flat;
    if b == [] {
      assert a + b == a;
      NothingFlat();
    } else {
      var front, last := b[..|b| - 1], b[|b| - 1];
      assert b == front + [last];
      FlatJoin(a, front);
      FlatAppend(front, last);
      assert a + b == (a + front) + [last];
      FlatAppend(a + front, last);
    }
  }

  lemma NothingFlat()
    ensures Flat([]) == []
  {
  }

  // ---- The chunks of a packet ----

  /** The size of the chunk that starts at sample `from` of a packet of `len` samples. */
  function ChunkSize(len: nat, limit: nat, from: nat): nat
    requires from <= len
  {
    Min(from + limit, len) - from
  }

  /** How far chunks from `from` on are made of whole sample frames. */
  function Furthest(len: nat, limit: nat, channels: nat, from: nat): (r: nat)
    requires from <= len && channels > 0
    ensures from <= r <= len
    decreases len - from
  {
    var n := ChunkSize(len, limit, from);
    if n == 0 || n % channels != 0 then from else Furthest(len, limit, channels, from + n)
  }

  /** Every chunk of a packet is made of whole sample frames. */
  predicate WholeChunks(len: nat, limit: nat, channels: nat)
    requires channels > 0
  {
    Furthest(len, limit, channels, 0) == len
  }

  /** From sample `start` of a packet to sample `to`: what was admitted is exactly that part, in
      chunks of whole sample frames, and each chunk has its permit. */
  ghost predicate Took(samples: seq<Sample>, limit: nat, channels: nat,
                       log: seq<Queued>, live: multiset<Permit>, start: nat,
                       log': seq<Queued>, live': multiset<Permit>, to: nat)
  {
    && start <= to <= |samples| && channels > 0
    && log <= log' && Flat(log') == Flat(log) + samples[start..to]
    && live' + Permits(log) == live + Permits(log')
    && Furthest(|samples|, limit, channels, to) == Furthest(|samples|, limit, channels, start)
  }

  lemma TookNothing(samples: seq<Sample>, limit: nat, channels: nat,
                    log: seq<Queued>, live: multiset<Permit>, start: nat)
    requires channels > 0
    ensures start <= |samples| ==> Took(samples, limit, channels, log, live, start, log, live, start)
  {
    hide Flat, Permits, Furthest;
    assert start <= |samples| ==> samples[start..start] == [];
  }

  lemma TookFurthest(samples: seq<Sample>, limit: nat, channels: nat,
                     log: seq<Queued>, live: multiset<Permit>, start: nat,
                     log': seq<Queued>, live': multiset<Permit>, to: nat)
    requires Took(samples, limit, channels, log, live, start, log', live', to)
    ensures to <= |samples| && start <= |samples| && channels > 0
    ensures Furthest(|samples|, limit, channels, to) == Furthest(|samples|, limit, channels, start)
  {
  }

  lemma TookMore(samples: seq<Sample>, limit: nat, channels: nat,
                 log0: seq<Queued>, live0: multiset<Permit>, start: nat,
                 log1: seq<Queued>, live1: multiset<Permit>, from: nat,
                 log2: seq<Queued>, live2: multiset<Permit>, to: nat)
    requires start <= |samples| ==> Took(samples, limit, channels, log0, live0, start, log1, live1, from)
    requires Took(samples, limit, channels, log1, live1, from, log2, live2, to)
    ensures start <= |samples| ==> Took(samples, limit, channels, log0, live0, start, log2, live2, to)
  {
    hide Flat, Permits, Furthest;
    if start <= |samples| {
      Exchange(live0, live1, live2, Permits(log0), Permits(log1), Permits(log2));
      assert samples[start..to] == samples[start..from] + samples[from..to];
    }
  }

  /** One chunk `x` from sample `start` on. */
  lemma TookChunk(samples: seq<Sample>, limit: nat, channels: nat, log: seq<Queued>, live: multiset<Permit>, start: nat,
                  x: Queued)
    requires channels > 0 && start < |samples| && x.frame.permit.Some?
    requires x.frame.samples == samples[start..start + ChunkSize(|samples|, limit, start)]
    ensures var n := ChunkSize(|samples|, limit, start);
            n > 0 && n % channels == 0 ==>
              Took(samples, limit, channels, log, live, start, log + [x], live + multiset{x.frame.permit.value},
                  start + n)
  {
    hide Flat, Permits, Furthest;
    FlatAppend(log, x);
    var n := ChunkSize(|samples|, limit, start);
    if n > 0 && n % channels == 0 {
      FurthestStep(|samples|, limit, channels, start);
    }
  }

  /** `x` is presented k / (rate * channels) seconds after the packet of which sample k is its
      first, in the epoch and format, and arrived at one of the times in `nows`. */
  ghost predicate Presented(x: Queued, k: nat, time: Option<real>, epoch: nat, rate: nat, channels: nat,
                            nows: seq<real>)
    requires rate * channels > 0
  {
    && x.frame.time == (if time.Some? then Some(time.value + k as real / (rate * channels) as real) else None)
    && x.frame.epoch == epoch && x.frame.rate == rate && x.frame.channels == channels && x.at in nows
  }

  /** The entries `added` hold a packet from its sample `start` on, each presented when its first
      sample is. */
  ghost predicate Stamped(added: seq<Queued>, start: nat, time: Option<real>, epoch: nat, rate: nat, channels: nat,
                          nows: seq<real>)
    requires rate * channels > 0
  {
    forall j :: 0 <= j < |added| ==>
      Presented(added[j], start + |Flat(added[..j])|, time, epoch, rate, channels, nows)
  }

  lemma NothingStamped(log: seq<Queued>, start: nat, time: Option<real>, epoch: nat, rate: nat, channels: nat,
                       nows: seq<real>)
    requires rate * channels > 0
    ensures Stamped(log[|log|..], start, time, epoch, rate, channels, nows)
  {
  }

  /** What follows is stamped from the sample on that was reached. */
  lemma {:induction false} StampedOn(a: seq<Queued>, b: seq<Queued>, start: nat, mid: nat, time: Option<real>,
                                     epoch: nat, rate: nat, channels: nat, nows: seq<real>)
    requires rate * channels > 0 && mid == start + |Flat(a)|
    requires Stamped(a, start, time, epoch, rate, channels, nows)
    requires Stamped(b, mid, time, epoch, rate, channels, nows)
    ensures Stamped(a + b, start, time, epoch, rate, channels, nows)
  {
    hide Flat, Presented;
    forall j | 0 <= j < |a + b|
      ensures Presented((a + b)[j], start + |Flat((a + b)[..j])|, time, epoch, rate, channels, nows)
    {
      if j < |a| {
        assert (a + b)[..j] == a[..j];
      } else {
        assert (a + b)[..j] == a + b[..j - |a|];
        FlatJoin(a, b[..j - |a|]);
      }
    }
  }

  /** What was added to a log, in two parts. */
  lemma AddedOn(log0: seq<Queued>, log1: seq<Queued>, log2: seq<Queued>, part: seq<Sample>)
    requires log0 <= log1 && log1 <= log2 && Flat(log1) == Flat(log0) + part
    ensures log2[|log0|..] == log1[|log0|..] + log2[|log1|..] && Flat(log1[|log0|..]) == part
  {
    hide Flat;
    assert log1 == log0 + log1[|log0|..];
    FlatJoin(log0, log1[|log0|..]);
    SameRest(Flat(log0), Flat(log1[|log0|..]), part);
  }

  lemma SameRest(front: seq<Sample>, a: seq<Sample>, b: seq<Sample>)
    requires front + a == front + b
    ensures a == b
  {
    assert a == (front + a)[|front|..] && b == (front + b)[|front|..];
  }

  /** The part of a packet that was taken. */
  lemma TookPart(samples: seq<Sample>, limit: nat, channels: nat,
                 log: seq<Queued>, live: multiset<Permit>, start: nat,
                 log': seq<Queued>, live': multiset<Permit>, to: nat)
    requires Took(samples, limit, channels, log, live, start, log', live', to)
    ensures start <= to <= |samples| && log <= log' && Flat(log') == Flat(log) + samples[start..to]
  {
  }

  /** Each frame has its live permit. */
  ghost predicate BufferedBy(frames: seq<Queued>, live: multiset<Permit>) {
    (forall x :: x in frames ==> Credited(x)) && Permits(frames) <= live
  }

  /** A queue lost nothing: it holds what it held and everything it accepted since, and the permits
      that joined the live ones are those of the frames that joined. */
  ghost predicate Kept(frames: seq<Queued>, live: multiset<Permit>, log: seq<Queued>,
                       frames': seq<Queued>, live': multiset<Permit>, log': seq<Queued>)
  {
    && log <= log' && frames' == frames + log'[|log|..]
    && live' + Permits(frames) == live + Permits(frames')
  }

  lemma KeptHere(frames: seq<Queued>, live: multiset<Permit>, log: seq<Queued>)
    ensures Kept(frames, live, log, frames, live, log)
  {
  }

  lemma KeptOn(f0: seq<Queued>, l0: multiset<Permit>, g0: seq<Queued>,
               f1: seq<Queued>, l1: multiset<Permit>, g1: seq<Queued>,
               f2: seq<Queued>, l2: multiset<Permit>, g2: seq<Queued>)
    requires Kept(f0, l0, g0, f1, l1, g1) && Kept(f1, l1, g1, f2, l2, g2)
    ensures Kept(f0, l0, g0, f2, l2, g2)
  {
    hide Permits;
    Exchange(l0, l1, l2, Permits(f0), Permits(f1), Permits(f2));
    assert g2[|g0|..] == g1[|g0|..] + g2[|g1|..];
  }

  class BridgeAudioSession {
    const rate: nat
    const channels: nat
    var epoch: nat
    var pcm: PcmQueue
    var credits: PcmCredits
    var progress: nat
    var stopNotified: bool
    var active: bool             // whether the receiver counts this session as the active one
    var events: seq<Event>

    /** The queue holds frames of the current FLUSH epoch only. */
    ghost predicate Valid()
      reads this, pcm, credits
    {
      && pcm.Valid() && credits.Valid()
      && pcm.rate == rate && pcm.channels == channels
      && pcm.maxSamples == credits.maxSamples == PcmQueue.Limit(rate, channels, CREDIT_MS)
      && pcm.maxBytes == credits.maxBytes
      && (forall x :: x in pcm.frames ==> x.frame.epoch == epoch)
      && epoch <= U64_MAX
    }

    constructor (rate: nat, channels: nat)
      ensures Valid() && fresh(pcm) && fresh(credits)
      ensures this.rate == rate && this.channels == channels && epoch == 0 && progress == 0 && events == []
              && !stopNotified
      ensures pcm.frames == [] && pcm.log == [] && !pcm.closed && credits.live == multiset{}
    {
      this.rate, this.channels := rate, channels;
      epoch, progress, stopNotified, active, events := 0, 0, false, true, [];
      pcm := new PcmQueue(rate, channels, CREDIT_MS);
      credits := new PcmCredits(rate, channels, CREDIT_MS);
    }

    /** The queue holds buffered audio only, each frame with its live permit. */
    ghost predicate Buffered()
      reads this, pcm, credits
    {
      BufferedBy(pcm.frames, credits.live)
    }

    ghost function NewFrame(samples: seq<Sample>, time: Option<real>, permit: Option<Permit>): Frame
      reads this`epoch
    {
      Frame(permit, epoch, rate, channels, samples, |samples|, time)
    }

    /** Queues one frame. A frame that is not queued returns its permit. */
    method EmitPcm(samples: seq<Sample>, time: Option<real>, permit: Option<Permit>, now: real) returns (accepted: bool)
      requires Valid() && |samples| * 4 <= ISIZE_MAX
      requires permit.Some? ==> permit.value in credits.live
      modifies this`events, pcm, credits
      ensures Valid() && pcm == old(pcm) && credits == old(credits)
      ensures pcm.closed == old(pcm.closed)
      ensures accepted ==> !pcm.closed && pcm.Admissible(NewFrame(samples, time, permit))
      ensures accepted ==>
                && pcm.log == old(pcm.log) + [Queued(NewFrame(samples, time, permit), now)]
                && pcm.frames != [] && pcm.frames[|pcm.frames| - 1] == Queued(NewFrame(samples, time, permit), now)
                && pcm.MadeRoom(old(pcm.frames), pcm.frames[..|pcm.frames| - 1], now,
                                NewFrame(samples, time, permit), pcm.dropped - old(pcm.dropped))
                && credits.live == old(credits.live)
                && events == old(events) + (if old(pcm.notified) then [] else [PcmReady])
      ensures !accepted ==>
                && pcm.log == old(pcm.log) && events == old(events)
                && credits.live == old(credits.live) - (if permit.Some? then multiset{permit.value} else multiset{})
      ensures !accepted && (pcm.closed || !pcm.Admissible(NewFrame(samples, time, permit))) ==>
                pcm.frames == old(pcm.frames)
      ensures !accepted && !pcm.closed && pcm.Admissible(NewFrame(samples, time, permit)) ==>
                && pcm.MadeRoom(old(pcm.frames), pcm.frames, now, NewFrame(samples, time, permit),
                                pcm.dropped - old(pcm.dropped))
                && !pcm.Fits(pcm.frames, NewFrame(samples, time, permit))
    {
      hide PcmQueue.Valid, PcmQueue.MadeRoom, PcmQueue.Fits, PcmCredits.Valid;
      if |samples| > pcm.maxSamples || pcm.closed {
        if permit.Some? {
          credits.Release(permit.value);
        }
        return false;
      }
      var frame := Frame(permit, epoch, rate, channels, samples, |samples|, time);
      ghost var was := pcm.frames;
      var notify;
      accepted, notify := pcm.Push(frame, now);
      if notify {
        events := events + [PcmReady];
      }
      if !accepted && permit.Some? {
        credits.Release(permit.value);
      }
      ghost var rest := if accepted then pcm.frames[..|pcm.frames| - 1] else pcm.frames;
      if rest != was {
        FromWas(was, rest, now, frame, pcm.dropped - old(pcm.dropped));
      }
      assert accepted ==> pcm.frames == rest + [Queued(frame, now)];
    }

    lemma FromWas(was: seq<Queued>, rest: seq<Queued>, now: real, f: Frame, lost: int)
      requires pcm.MadeRoom(was, rest, now, f, lost)
      ensures forall x :: x in rest ==> x in was
    {
    }

    /** When sample `k` of a packet is presented. */
    function SampleTime(time: Option<real>, k: nat): Option<real>
      requires rate * channels > 0
    {
      if time.Some? then Some(time.value + k as real / (rate * channels) as real) else None
    }

    /** Takes a packet in chunks, each with its credit. A refusal keeps what was taken, and the
        next call with the same packet goes on there. Once all credit is back, a chunk is taken
        unless it has no whole sample frames. */
    method AudioProcessBuffered(samples: seq<Sample>, time: Option<real>, now: real) returns (ok: bool)
      requires Valid() && |samples| * 4 <= ISIZE_MAX && rate * channels > 0
      modifies this`events, this`progress, pcm, credits
      ensures Valid() && pcm == old(pcm) && credits == old(credits)
      ensures pcm.closed == old(pcm.closed) && epoch == old(epoch)
      ensures if ok then progress == 0 else old(progress) <= progress < |samples|
      ensures old(progress) <= |samples| ==>
                Took(samples, pcm.maxSamples, channels, old(pcm.log), old(credits.live), old(progress),
                     pcm.log, credits.live, if ok then |samples| else progress)
      ensures old(progress) > |samples| ==> pcm.log == old(pcm.log) && credits.live == old(credits.live)
      ensures old(pcm.log) <= pcm.log
      ensures Stamped(pcm.log[|old(pcm.log)|..], old(progress), time, epoch, rate, channels, [now])
      ensures old(Buffered()) && !pcm.closed ==>
                Buffered() && Kept(old(pcm.frames), old(credits.live), old(pcm.log), pcm.frames, credits.live, pcm.log)
      ensures old(Buffered()) && !pcm.closed && old(credits.live) == multiset{} && old(progress) <= |samples| ==>
                ok || progress >= Min(old(progress) + pcm.maxSamples,
                                      Furthest(|samples|, pcm.maxSamples, channels, old(progress)))
    {
      hide Took, Kept, Stamped, Furthest, BridgeAudioSession.Valid, BridgeAudioSession.Buffered;
      NothingStamped(pcm.log, progress, time, epoch, rate, channels, [now]);
      ghost var start, limit, buffered := progress, pcm.maxSamples, Buffered() && !pcm.closed;
      TookNothing(samples, limit, channels, pcm.log, credits.live, start);
      KeptHere(pcm.frames, credits.live, pcm.log);
      while progress < |samples|
        invariant Valid() && pcm == old(pcm) && credits == old(credits)
        invariant pcm.closed == old(pcm.closed) && epoch == old(epoch)
        invariant start <= progress && if start <= |samples| then progress <= |samples| else progress == start
        invariant start <= |samples| ==>
                    Took(samples, limit, channels, old(pcm.log), old(credits.live), start, pcm.log, credits.live,
                        progress)
        invariant progress == start ==> pcm.log == old(pcm.log) && credits.live == old(credits.live)
        invariant old(pcm.log) <= pcm.log
        invariant Stamped(pcm.log[|old(pcm.log)|..], start, time, epoch, rate, channels, [now])
        invariant buffered ==>
                    Buffered() && Kept(old(pcm.frames), old(credits.live), old(pcm.log), pcm.frames, credits.live,
                        pcm.log)
        invariant progress == start || progress >= Min(start + limit, |samples|)
        decreases |samples| - progress
      {
        ghost var from, live, log, frames := progress, credits.live, pcm.log, pcm.frames;
        if buffered && live == multiset{} {
          DrainedFree(ChunkSize(|samples|, limit, from));
        }
        TookPart(samples, limit, channels, old(pcm.log), old(credits.live), start, log, live, from);
        var taken := TakeChunk(samples, time, now);
        if !taken {
          if buffered && start == progress && live == multiset{} {
            FirstChunk(|samples|, limit, channels, start);
          }
          if buffered {
            KeptOn(old(pcm.frames), old(credits.live), old(pcm.log), frames, live, log, pcm.frames, credits.live,
                pcm.log);
          }
          return false;
        }
        TookPart(samples, limit, channels, log, live, from, pcm.log, credits.live, progress);
        AddedOn(old(pcm.log), log, pcm.log, samples[start..from]);
        StampedOn(log[|old(pcm.log)|..], pcm.log[|log|..], start, from, time, epoch, rate, channels, [now]);
        TookMore(samples, limit, channels, old(pcm.log), old(credits.live), start, log, live, from,
                 pcm.log, credits.live, progress);
        if buffered {
          KeptOn(old(pcm.frames), old(credits.live), old(pcm.log), frames, live, log, pcm.frames, credits.live,
              pcm.log);
        }
      }
      Advance(0);
      ok := true;
    }

    /** Without live permits every chunk has its credit free. */
    lemma DrainedFree(n: nat)
      requires Valid() && credits.live == multiset{} && n <= pcm.maxSamples && n * 4 <= ISIZE_MAX
      ensures CreditFree(n)
    {
    }

    /** A chunk whose credit is free fits the queue. */
    lemma ChunkFits(samples: seq<Sample>, time: Option<real>)
      requires Valid() && Buffered() && |samples| * 4 <= ISIZE_MAX
      ensures var n := |samples|;
              var f := NewFrame(samples, time, Some(Permit(n, n * 4 + ENTRY_BYTES)));
              && CreditFree(n) ==> pcm.Fits(pcm.frames, f)
    {
      hide Reserved, Permits;
      PermitsSum(pcm.frames);
      ReservedWithin(Permits(pcm.frames), credits.live);
    }

    /** What queueing a frame with its credit does to a queue of buffered audio. */
    lemma EmittedBuffered(was: seq<Queued>, live: multiset<Permit>, log: seq<Queued>, f: Frame, now: real,
                          accepted: bool, lost: int)
      requires BufferedBy(was, live) && Credited(Queued(f, now))
      requires accepted ==> credits.live == live + multiset{f.permit.value}
      requires !accepted ==> credits.live == live
      requires accepted ==>
                 && pcm.frames != [] && pcm.frames[|pcm.frames| - 1] == Queued(f, now)
                 && pcm.MadeRoom(was, pcm.frames[..|pcm.frames| - 1], now, f, lost)
      requires !accepted ==> pcm.frames == was || pcm.MadeRoom(was, pcm.frames, now, f, lost)
      ensures Buffered() && pcm.frames == was + (if accepted then [Queued(f, now)] else [])
      ensures Kept(was, live, log, pcm.frames, credits.live, log + if accepted then [Queued(f, now)] else [])
    {
      hide Permits, PcmQueue.MadeRoom, Credited;
      if accepted {
        KeepsPermitted(pcm, was, now, f, pcm.frames[..|pcm.frames| - 1], lost);
        assert pcm.frames == was + [Queued(f, now)];
        FlatAppend(was, Queued(f, now));
        CreditedPermit(Queued(f, now));
      } else if pcm.frames != was {
        KeepsPermitted(pcm, was, now, f, pcm.frames, lost);
      }
    }

    /** A chunk that is free to go. */
    predicate CreditFree(n: nat)
      reads credits, this
    {
      && credits.usedSamples + n <= credits.maxSamples
      && credits.usedBytes + n * 4 + ENTRY_BYTES <= credits.maxBytes
    }

    /** Queues a chunk that holds its permit. A queue of buffered audio only takes it without loss
        exactly when it has whole sample frames, if it fits. */
    method EmitChunk(samples: seq<Sample>, time: Option<real>, permit: Permit, now: real) returns (taken: bool)
      requires Valid() && |samples| * 4 <= ISIZE_MAX && channels > 0 && |samples| <= pcm.maxSamples
      requires Chunk(samples, time).permit == Some(permit) && permit in credits.live
      modifies this`events, pcm, credits
      ensures Valid() && pcm.closed == old(pcm.closed)
      ensures taken ==> |samples| > 0 && |samples| % channels == 0
      ensures pcm.log == old(pcm.log) + if taken then [Queued(Chunk(samples, time), now)] else []
      ensures credits.live == if taken then old(credits.live) else old(credits.live) - multiset{permit}
      ensures var live := old(credits.live) - multiset{permit};
              BufferedBy(old(pcm.frames), live) && pcm.Fits(old(pcm.frames), Chunk(samples, time)) && !pcm.closed ==>
                && BufferedBy(pcm.frames, credits.live)
                   && Kept(old(pcm.frames), live, old(pcm.log), pcm.frames, credits.live, pcm.log)
                && (taken <==> |samples| > 0 && |samples| % channels == 0)
    {
      hide BridgeAudioSession.Valid, BufferedBy, Kept, Credited, Permits;
      hide PcmQueue.MadeRoom, PcmQueue.Fits, PcmQueue.Admissible;
      ghost var frames, live, log, dropped := pcm.frames, credits.live - multiset{permit}, pcm.log, pcm.dropped;
      WholeAdmissible(samples, time);
      ChunkCredited(samples, time, now);
      taken := EmitPcm(samples, time, Some(permit), now);
      if BufferedBy(frames, live) && !pcm.closed {
        EmittedBuffered(frames, live, log, Chunk(samples, time), now, taken, pcm.dropped - dropped);
        assert !taken ==> pcm.frames == frames;
      }
    }

    /** Queues a chunk with its credit. In a queue of buffered audio only, that succeeds exactly
        when the credit is free and the chunk has whole sample frames, and then nothing is lost. */
    method QueueChunk(samples: seq<Sample>, time: Option<real>, now: real) returns (taken: bool)
      requires Valid() && |samples| * 4 <= ISIZE_MAX && channels > 0 && |samples| <= pcm.maxSamples
      modifies this`events, pcm, credits
      ensures Valid() && pcm.closed == old(pcm.closed)
      ensures taken ==> |samples| > 0 && |samples| % channels == 0
      ensures pcm.log == old(pcm.log) + if taken then [Queued(Chunk(samples, time), now)] else []
      ensures credits.live == if taken then old(credits.live) + multiset{Chunk(samples, time).permit.value}
              else old(credits.live)
      ensures old(Buffered()) && !pcm.closed ==>
                && Buffered() && Kept(old(pcm.frames), old(credits.live), old(pcm.log), pcm.frames, credits.live,
                   pcm.log)
                && (taken <==> old(CreditFree(|samples|)) && |samples| > 0 && |samples| % channels == 0)
    {
      hide BridgeAudioSession.Valid, BufferedBy, Kept, BridgeAudioSession.CreditFree, BridgeAudioSession.Chunk;
      hide PcmQueue.Fits;
      ghost var live := credits.live;
      ChunkPermit(samples, time);
      KeptHere(pcm.frames, live, pcm.log);
      if Buffered() {
        ChunkFits(samples, time);
      }
      var permit := Reserve(|samples|);
      if permit.None? {
        return false;
      }
      PermitBack(live, permit.value);
      taken := EmitChunk(samples, time, permit.value, now);
    }

    lemma WholeAdmissible(samples: seq<Sample>, time: Option<real>)
      requires Valid() && channels > 0 && |samples| <= pcm.maxSamples
      ensures pcm.Admissible(Chunk(samples, time)) <==> |samples| > 0 && |samples| % channels == 0
    {
    }

    lemma PermitBack(live: multiset<Permit>, permit: Permit)
      ensures live + multiset{permit} - multiset{permit} == live
    {
    }

    method Reserve(n: nat) returns (permit: Option<Permit>)
      requires Valid() && n * 4 <= ISIZE_MAX
      modifies credits
      ensures Valid() && (permit.Some? <==> old(CreditFree(n)))
      ensures permit.None? ==> credits.live == old(credits.live)
      ensures permit.Some? ==>
                permit.value == Permit(n, n * 4 + ENTRY_BYTES)
                    && credits.live == old(credits.live) + multiset{permit.value}
    {
      hide PcmQueue.Valid, PcmCredits.Valid;
      permit := credits.TryReserve(n);
    }

    /** The frame of a chunk, with its credit. */
    ghost function Chunk(samples: seq<Sample>, time: Option<real>): Frame
      reads this`epoch
    {
      NewFrame(samples, time, Some(Permit(|samples|, |samples| * 4 + ENTRY_BYTES)))
    }

    lemma ChunkPermit(samples: seq<Sample>, time: Option<real>)
      ensures var f := Chunk(samples, time);
              f == NewFrame(samples, time, f.permit) && f.permit == Some(Permit(|samples|, |samples| * 4 + ENTRY_BYTES))
    {
    }

    lemma ChunkCredited(samples: seq<Sample>, time: Option<real>, now: real)
      requires |samples| * 4 <= ISIZE_MAX
      ensures Credited(Queued(Chunk(samples, time), now))
    {
    }

    /** A chunk that joins the log carries the time of its first sample. */
    lemma ChunkStamped(log: seq<Queued>, start: nat, time: Option<real>, now: real, x: Queued)
      requires rate * channels > 0
      requires x == Queued(Chunk(x.frame.samples, SampleTime(time, start)), now)
      ensures Stamped((log + [x])[|log|..], start, time, epoch, rate, channels, [now])
      ensures Stamped(log[|log|..], start, time, epoch, rate, channels, [now])
    {
      assert (log + [x])[|log|..] == [x] && [x][..0] == [];
    }

    /** Takes the next chunk of a packet. */
    method TakeChunk(samples: seq<Sample>, time: Option<real>, now: real) returns (taken: bool)
      requires Valid() && |samples| * 4 <= ISIZE_MAX && rate * channels > 0 && progress < |samples|
      modifies this`events, this`progress, pcm, credits
      ensures Valid() && pcm == old(pcm) && credits == old(credits)
      ensures pcm.closed == old(pcm.closed) && epoch == old(epoch)
      ensures Took(samples, pcm.maxSamples, channels, old(pcm.log), old(credits.live), old(progress),
                   pcm.log, credits.live, progress)
      ensures if taken then
                progress == old(progress) + ChunkSize(|samples|, pcm.maxSamples, old(progress)) > old(progress)
              else progress == old(progress) && pcm.log == old(pcm.log) && credits.live == old(credits.live)
      ensures Stamped(pcm.log[|old(pcm.log)|..], old(progress), time, epoch, rate, channels, [now])
      ensures old(Buffered()) && !pcm.closed ==>
                && Buffered() && Kept(old(pcm.frames), old(credits.live), old(pcm.log), pcm.frames, credits.live,
                   pcm.log)
                && var n := ChunkSize(|samples|, pcm.maxSamples, old(progress));
                   taken <==> old(CreditFree(n)) && n > 0 && n % channels == 0
    {
      hide Took, Kept, Stamped, BridgeAudioSession.Valid, BridgeAudioSession.Buffered, BridgeAudioSession.CreditFree;
      var end := Min(progress + pcm.maxSamples, |samples|);
      ghost var x := Queued(Chunk(samples[progress..end], SampleTime(time, progress)), now);
      TookNothing(samples, pcm.maxSamples, channels, pcm.log, credits.live, progress);
      TookChunk(samples, pcm.maxSamples, channels, pcm.log, credits.live, progress, x);
      ChunkStamped(pcm.log, progress, time, now, x);
      ghost var log, live := pcm.log, credits.live;
      taken := QueueChunk(samples[progress..end], SampleTime(time, progress), now);
      assert !taken ==> pcm.log == log && credits.live == live;
      if taken {
        Advance(end);
      }
    }

    method Advance(to: nat)
      requires Valid()
      modifies this`progress
      ensures Valid() && progress == to && old(Buffered()) == Buffered()
    {
      progress := to;
    }

    /** A FLUSH: the old queue is closed and empty, and a new epoch starts with a new one. */
    method AudioFlush()
      requires Valid()
      modifies this, pcm
      ensures Valid() && fresh(pcm) && fresh(credits) && pcm.log == [] && credits.live == multiset{} && progress == 0
      ensures old(pcm).closed && old(pcm).frames == []
      ensures epoch == Min(old(epoch) + 1, U64_MAX) && events == old(events) + [Flushed(epoch)]
      ensures stopNotified == old(stopNotified)
    {
      hide PcmQueue.Valid, PcmCredits.Valid;
      progress := 0;
      credits := new PcmCredits(rate, channels, CREDIT_MS);
      pcm.Close();
      pcm.Clear();
      pcm := new PcmQueue(rate, channels, CREDIT_MS);
      epoch := Min(epoch + 1, U64_MAX);
      events := events + [Flushed(epoch)];
    }

    method AudioStopped(reason: StopReason)
      requires Valid()
      modifies this`stopNotified, this`active, this`events, pcm
      ensures Valid() && stopNotified
      ensures events == old(events) + (if old(stopNotified) then []
              else if reason == EndedWhilePaused then [StreamEndedWhilePaused]
                                       else [SessionStopped])
      ensures !old(stopNotified) && reason != EndedWhilePaused ==> pcm.closed && pcm.frames == [] && !active
    {
      if stopNotified {
        return;
      }
      stopNotified := true;
      if reason == EndedWhilePaused {
        events := events + [StreamEndedWhilePaused];
      } else {
        pcm.Close();
        pcm.Clear();
        active := false;
        events := events + [SessionStopped];
      }
    }

    /** The session is dropped: it reports its end unless it has done so. */
    method Dispose()
      requires Valid()
      modifies this`active, this`events, pcm
      ensures Valid() && pcm.closed && pcm.frames == []
      ensures events == old(events) + (if stopNotified then [] else [SessionStopped])
      ensures !stopNotified ==> !active
    {
      pcm.Close();
      pcm.Clear();
      if !stopNotified {
        active := false;
        events := events + [SessionStopped];
      }
    }
  }

  /** One presentation of a packet: when, and how many frames the consumer took before it. */
  datatype Attempt = Attempt(now: real, consumed: nat)

  ghost function Times(attempts: seq<Attempt>): seq<real> {
    seq(|attempts|, i requires 0 <= i < |attempts| => attempts[i].now)
  }

  lemma TimesHas(attempts: seq<Attempt>, i: nat)
    requires i < |attempts|
    ensures attempts[i].now in Times(attempts)
  {
    assert Times(attempts)[i] == attempts[i].now;
  }

  lemma StampedAny(added: seq<Queued>, start: nat, time: Option<real>, epoch: nat, rate: nat, channels: nat,
                   nows: seq<real>, more: seq<real>)
    requires rate * channels > 0 && Stamped(added, start, time, epoch, rate, channels, nows)
    requires forall t :: t in nows ==> t in more
    ensures Stamped(added, start, time, epoch, rate, channels, more)
  {
    hide Flat;
  }

  /** However often a packet is refused and presented again, and whatever is consumed meanwhile,
      the chunks that were admitted concatenate to the packet once it is taken. */
  method Present(session: BridgeAudioSession, samples: seq<Sample>, time: Option<real>, attempts: seq<Attempt>)
      returns (taken: bool)
    requires session.Valid() && session.progress == 0 && |samples| * 4 <= ISIZE_MAX
             && session.rate * session.channels > 0
    modifies session`events, session`progress, session.pcm, session.credits
    ensures session.Valid() && session.pcm == old(session.pcm) && session.progress <= |samples|
    ensures Flat(session.pcm.log) == Flat(old(session.pcm.log)) + (if taken then samples
            else samples[..session.progress])
    ensures taken ==> session.progress == 0 && WholeChunks(|samples|, session.pcm.maxSamples, session.channels)
    ensures session.progress <= Furthest(|samples|, session.pcm.maxSamples, session.channels, 0)
    ensures old(session.pcm.log) <= session.pcm.log
    ensures Stamped(session.pcm.log[|old(session.pcm.log)|..], 0, time, session.epoch, session.rate, session.channels,
                    Times(attempts))
  {
    hide Flat, Permits, Furthest, Stamped, Times, BridgeAudioSession.Buffered;
    hide PcmQueue.Valid, PcmQueue.Admissible, PcmQueue.MadeRoom, PcmQueue.Fits, PcmCredits.Valid;
    ghost var limit := session.pcm.maxSamples;
    NothingStamped(session.pcm.log, 0, time, session.epoch, session.rate, session.channels, Times(attempts));
    var i := 0;
    taken := false;
    while i < |attempts| && !taken
      invariant i <= |attempts| && session.Valid() && session.pcm == old(session.pcm)
          && session.credits == old(session.credits)
      invariant session.progress <= |samples| && old(session.pcm.log) <= session.pcm.log
      invariant Flat(session.pcm.log) == Flat(old(session.pcm.log)) + (if taken then samples
          else samples[..session.progress])
      invariant Stamped(session.pcm.log[|old(session.pcm.log)|..], 0, time, session.epoch, session.rate,
                        session.channels, Times(attempts))
      invariant taken ==> session.progress == 0
      invariant Furthest(|samples|, limit, session.channels, if taken then |samples| else session.progress) ==
                Furthest(|samples|, limit, session.channels, 0)
      decreases |attempts| - i, !taken
    {
      Consume(session, attempts[i]);
      ghost var from, log := session.progress, session.pcm.log;
      taken := session.AudioProcessBuffered(samples, time, attempts[i].now);
      TimesHas(attempts, i);
      StampedAny(session.pcm.log[|log|..], from, time, session.epoch, session.rate, session.channels,
                 [attempts[i].now], Times(attempts));
      AddedOn(old(session.pcm.log), log, session.pcm.log, samples[..from]);
      StampedOn(log[|old(session.pcm.log)|..], session.pcm.log[|log|..], 0, from, time, session.epoch, session.rate,
                session.channels, Times(attempts));
      assert samples[..from] + samples[from..] == samples;
      assert !taken ==> samples[..from] + samples[from..session.progress] == samples[..session.progress];
      i := i + 1;
    }
  }

  method Consume(session: BridgeAudioSession, attempt: Attempt)
    requires session.Valid()
    modifies session.pcm
    ensures session.Valid() && session.pcm.log == old(session.pcm.log)
  {
    var n := 0;
    while n < attempt.consumed
      invariant session.Valid() && session.pcm.log == old(session.pcm.log)
    {
      var x := session.pcm.Pop(attempt.now);
      n := n + 1;
    }
  }

  // ---- Which packets can be taken ----

  lemma FurthestStep(len: nat, limit: nat, channels: nat, from: nat)
    requires from <= len && channels > 0
    requires var n := ChunkSize(len, limit, from); n > 0 && n % channels == 0
    ensures from + ChunkSize(len, limit, from) <= len
    ensures Furthest(len, limit, channels, from + ChunkSize(len, limit, from)) == Furthest(len, limit, channels, from)
  {
  }

  /** If the first chunk is not made of whole sample frames, nothing is. */
  lemma FirstChunk(len: nat, limit: nat, channels: nat, from: nat)
    requires from <= len && channels > 0
    requires var n := ChunkSize(len, limit, from); n == 0 || n % channels != 0
    ensures Furthest(len, limit, channels, from) == from
  {
  }

  lemma Remainder(x: nat, q: nat, r: nat, c: nat)
    requires x == q * c + r && r < c
    ensures x % c == r
  {
    var d := x / c - q;
    assert d * c == r - x % c;
    assert d >= 1 ==> d * c >= c;
    assert d <= -1 ==> d * c <= -(c as int);
  }

  lemma SumMultiple(a: nat, b: nat, channels: nat)
    requires channels > 0 && a % channels == 0
    ensures (a + b) % channels == b % channels
  {
    var q := a / channels;
    var p := b / channels;
    assert a == q * channels && b == p * channels + b % channels;
    assert (q + p) * channels == q * channels + p * channels;
    Remainder(a + b, q + p, b % channels, channels);
  }

  /** With a limit of whole sample frames, the rest of a packet can be taken exactly when it has
      whole sample frames. */
  lemma {:induction false} EvenLimit(len: nat, limit: nat, channels: nat, from: nat)
    requires channels > 0 && limit > 0 && limit % channels == 0 && from <= len
    ensures Furthest(len, limit, channels, from) == len <==> (len - from) % channels == 0
    decreases len - from
  {
    hide Furthest;
    if from + limit < len {
      SumMultiple(limit, len - from - limit, channels);
      FurthestStep(len, limit, channels, from);
      EvenLimit(len, limit, channels, from + limit);
    } else if from < len {
      LastChunk(len, limit, channels, from);
    }
  }

  lemma LastChunk(len: nat, limit: nat, channels: nat, from: nat)
    requires channels > 0 && from < len <= from + limit
    ensures Furthest(len, limit, channels, from) == len <==> (len - from) % channels == 0
  {
    assert ChunkSize(len, limit, from) == len - from;
    if (len - from) % channels == 0 {
      FurthestStep(len, limit, channels, from);
    } else {
      FirstChunk(len, limit, channels, from);
    }
  }

  /** Every chunk of a packet has whole sample frames exactly when the packet has, and it fits one
      chunk or the chunk size is a whole number of them. */
  lemma TakenExactly(len: nat, limit: nat, channels: nat)
    requires channels > 0
    ensures WholeChunks(len, limit, channels) <==>
              len == 0 || (limit > 0 && len % channels == 0 && (len <= limit || limit % channels == 0))
  {
    hide Furthest;
    if len == 0 {
      assert WholeChunks(len, limit, channels);
    } else if limit == 0 {
      FirstChunk(len, limit, channels, 0);
    } else if len <= limit {
      LastChunk(len, limit, channels, 0);
    } else if limit % channels == 0 {
      EvenLimit(len, limit, channels, 0);
    } else {
      FirstChunk(len, limit, channels, 0);
    }
  }

  /** Stereo at 22050 Hz: 250 ms are an odd number of samples, so of a packet that needs more than
      one chunk nothing is ever taken, however often it is presented. */
  method OddCredit(session: BridgeAudioSession, samples: seq<Sample>, time: Option<real>, attempts: seq<Attempt>)
      returns (taken: bool)
    requires session.Valid() && session.progress == 0 && session.rate == 22_050 && session.channels == 2
    requires 11_025 < |samples| && |samples| * 4 <= ISIZE_MAX
    modifies session`events, session`progress, session.pcm, session.credits
    ensures session.Valid() && !taken && session.progress == 0 && Flat(session.pcm.log) == Flat(old(session.pcm.log))
  {
    hide Flat;
    FirstChunk(|samples|, 11_025, 2, 0);
    taken := Present(session, samples, time, attempts);
    assert samples[..0] == [];
  }
}
