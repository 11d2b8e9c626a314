/** Delivered PCM: the bounded queues and the credits of buffered audio, `pcm_queue.rs`. Times
    are seconds on one monotonic clock, as exact numbers. */
module Pcm {
  import opened BridgeState
  import opened Numbers

  type Sample = int

  const USIZE_MAX: nat := 0xffff_ffff_ffff_ffff
  const ISIZE_MAX: nat := 0x7fff_ffff_ffff_ffff

  /** The size of a queue entry without its samples. Any size up to 1024 would do. */
  const ENTRY_BYTES: nat := 112

  function SaturatingMul(a: nat, b: nat): nat { Min(a * b, USIZE_MAX) }
  function SaturatingAdd(a: nat, b: nat): nat { Min(a + b, USIZE_MAX) }

  datatype Permit = Permit(samples: nat, bytes: nat)

  datatype Frame = Frame(permit: Option<Permit>, epoch: nat, rate: nat, channels: nat, samples: seq<Sample>,
                         capacity: nat, time: Option<real>)

  datatype Queued = Queued(frame: Frame, at: real)

  /** What a vector of 4-byte samples guarantees. */
  predicate IsVec(f: Frame) {
    |f.samples| <= f.capacity && f.capacity * 4 <= ISIZE_MAX
  }

  function Allocated(f: Frame): nat {
    f.capacity * 4 + ENTRY_BYTES
  }

  ghost function Samples(q: seq<Queued>): nat {
    if q == [] then 0 else |q[0].frame.samples| + Samples(q[1..])
  }

  ghost function Bytes(q: seq<Queued>): nat {
    if q == [] then 0 else Allocated(q[0].frame) + Bytes(q[1..])
  }

  lemma {:induction false} SumsAppend(q: seq<Queued>, x: Queued)
    ensures Samples(q + [x]) == Samples(q) + |x.frame.samples|
    ensures Bytes(q + [x]) == Bytes(q) + Allocated(x.frame)
  {
    if q == [] {
      assert q + [x] == [x] && [x][1..] == [];
    } else {
      SumsAppend(q[1..], x);
      assert (q + [x])[1..] == q[1..] + [x];
    }
  }

  /** How many of the first entries were lost instead of consumed. */
  ghost function Lost(consumed: seq<bool>): nat {
    if consumed == [] then 0 else (if consumed[0] then 0 else 1) + Lost(consumed[1..])
  }

  lemma {:induction false} LostAppend(consumed: seq<bool>, more: bool)
    ensures Lost(consumed + [more]) == Lost(consumed) + (if more then 0 else 1)
  {
    if consumed == [] {
      assert consumed + [more] == [more] && [more][1..] == [];
    } else {
      LostAppend(consumed[1..], more);
      assert (consumed + [more])[1..] == consumed[1..] + [more];
    }
  }

  lemma {:induction false} LostMany(consumed: seq<bool>, n: nat)
    ensures Lost(consumed + seq(n, i => false)) == Lost(consumed) + n
    decreases n
  {
    if n == 0 {
      assert consumed + seq(n, i => false) == consumed;
    } else {
      LostMany(consumed, n - 1);
      LostAppend(consumed + seq(n - 1, i => false), false);
      assert consumed + seq(n, i => false) == consumed + seq(n - 1, i => false) + [false];
    }
  }

  function Age(now: real, at: real): real { if now > at then now - at else 0.0 }

  class PcmQueue {
    const rate: nat
    const channels: nat
    const maxSamples: nat
    const maxBytes: nat
    const maxAge: real
    var frames: seq<Queued>
    var samples: nat
    var retained: nat
    var dropped: nat
    var reported: nat
    var notified: bool
    var closed: bool
    ghost var log: seq<Queued>        // every entry ever accepted, in order
    ghost var fates: seq<bool>        // for each entry that left: whether it was consumed
    ghost var refused: nat            // malformed frames

    /** `duration` is in milliseconds. */
    constructor (rate: nat, channels: nat, duration: nat)
      ensures Valid() && frames == [] && log == [] && fates == [] && !closed && !notified && dropped == 0
      ensures this.rate == rate && this.channels == channels && maxAge == duration as real / 1000.0
      ensures maxSamples == Limit(rate, channels, duration)
      ensures maxBytes == SaturatingAdd(SaturatingMul(maxSamples, 8), 1024)
    {
      this.rate, this.channels, this.maxAge := rate, channels, duration as real / 1000.0;
      maxSamples := Limit(rate, channels, duration);
      maxBytes := SaturatingAdd(SaturatingMul(Limit(rate, channels, duration), 8), 1024);
      frames, samples, retained, dropped, reported, notified, closed := [], 0, 0, 0, 0, false, false;
      log, fates, refused := [], [], 0;
    }

    static function Limit(rate: nat, channels: nat, duration: nat): nat {
      Min(rate * channels * duration / 1000, USIZE_MAX)
    }

    /** A frame that an empty queue takes. */
    predicate Admissible(f: Frame) {
      && 0 < |f.samples| <= maxSamples && f.capacity <= maxSamples
      && f.rate == rate && f.channels == channels && channels != 0 && |f.samples| % channels == 0
    }

    ghost predicate Fits(q: seq<Queued>, f: Frame) {
      Samples(q) + |f.samples| <= maxSamples && Bytes(q) + Allocated(f) <= maxBytes
    }

    predicate Stale(x: Queued, now: real) {
      x.frame.permit.None? && Age(now, x.at) > maxAge
    }

    /** Counters agree with the contents and the contents with the history: the queue holds
        the end of everything it accepted, in order, and what left was consumed or counted as
        dropped. */
    ghost predicate Valid()
      reads this
    {
      && maxBytes == SaturatingAdd(SaturatingMul(maxSamples, 8), 1024) && maxSamples <= USIZE_MAX
      && samples == Samples(frames) <= maxSamples
      && retained == Bytes(frames) <= maxBytes
      && (forall x :: x in frames ==> Admissible(x.frame))
      && |fates| <= |log| && frames == log[|fates|..]
      && dropped == refused + Lost(fates) && reported <= dropped
    }

    lemma AdmissibleFits(f: Frame)
      requires Admissible(f) && IsVec(f)
      requires maxBytes == SaturatingAdd(SaturatingMul(maxSamples, 8), 1024)
      ensures Fits([], f)
    {
      assert f.capacity * 4 <= maxSamples * 8;
    }

    /** The first `k` entries of `q`, and no more from the front, hold no permit and are older
        than the queue keeps frames. */
    ghost predicate StaleFront(q: seq<Queued>, k: int, now: real) {
      && 0 <= k <= |q|
      && (forall j :: 0 <= j < k ==> q[j].frame.permit.None? && Age(now, q[j].at) > maxAge)
      && (k < |q| ==> q[k].frame.permit.Some? || Age(now, q[k].at) <= maxAge)
    }

    /** `rest` is what remains of `was` once its stale front went. */
    ghost predicate Expired(was: seq<Queued>, rest: seq<Queued>, now: real, lost: int) {
      StaleFront(was, lost, now) && rest == was[lost..]
    }

    lemma NotLonger(was: seq<Queued>, rest: seq<Queued>, now: real, lost: int)
      requires Expired(was, rest, now, lost)
      ensures |rest| <= |was|
    {
    }

    /** `rest` is what remains of `was` once its stale front and then, one at a time while `f`
        did not fit, more frames without permit went: `lost` in all. */
    ghost predicate MadeRoom(was: seq<Queued>, rest: seq<Queued>, now: real, f: Frame, lost: int) {
      && 0 <= lost <= |was| && rest == was[lost..]
      && exists stale :: StaleFront(was, stale, now) && stale <= lost &&
           forall j :: stale <= j < lost ==> was[j].frame.permit.None? && !Fits(was[j..], f)
    }

    /** When frames arrived in order, what an admission leaves in front is fresh. */
    lemma RoomIsFresh(was: seq<Queued>, rest: seq<Queued>, now: real, f: Frame, lost: int)
      requires MadeRoom(was, rest, now, f, lost)
      requires forall i, j :: 0 <= i < j < |was| ==> was[i].at <= was[j].at
      ensures rest != [] ==> rest[0].frame.permit.Some? || Age(now, rest[0].at) <= maxAge
    {
      hide Fits;
      var stale :| StaleFront(was, stale, now) && stale <= lost &&
        forall j :: stale <= j < lost ==> was[j].frame.permit.None? && !Fits(was[j..], f);
      if stale < lost < |was| {
        assert was[stale].at <= was[lost].at;
      }
    }

    method DiscardFront()
      requires Valid() && frames != []
      modifies this`frames, this`samples, this`retained, this`dropped, this`fates
      ensures Valid() && frames == old(frames)[1..] && dropped == old(dropped) + 1
      ensures fates == old(fates) + [false]
    {
      samples := samples - |frames[0].frame.samples|;
      retained := retained - Allocated(frames[0].frame);
      frames := frames[1..];
      dropped := dropped + 1;
      LostAppend(fates, false);
      fates := fates + [false];
    }

    /** Discards stale frames from the front, as far as they go. */
    method Expire(now: real) returns (ghost k: nat)
      requires Valid()
      modifies this`frames, this`samples, this`retained, this`dropped, this`fates
      ensures Valid() && Expired(old(frames), frames, now, k) && dropped == old(dropped) + k
      ensures fates == old(fates) + seq(k, i => false)
    {
      hide PcmQueue.Valid;
      k := 0;
      while frames != [] && Stale(frames[0], now)
        invariant Valid() && k <= |old(frames)| && frames == old(frames)[k..] && dropped == old(dropped) + k
        invariant forall j :: 0 <= j < k ==> Stale(old(frames)[j], now)
        invariant fates == old(fates) + seq(k, i => false)
        decreases |frames|
      {
        DiscardFront();
        k := k + 1;
      }
    }

    /** Discards stale frames, and then the oldest ones while `f` does not fit, up to one that
        holds a permit. */
    method MakeRoom(f: Frame, now: real) returns (ok: bool, ghost k: nat)
      requires Valid() && IsVec(f) && Admissible(f)
      modifies this`frames, this`samples, this`retained, this`dropped, this`fates
      ensures Valid() && MadeRoom(old(frames), frames, now, f, k) && dropped == old(dropped) + k
      ensures ok == Fits(frames, f) && (!ok ==> frames != [] && frames[0].frame.permit.Some?)
    {
      hide PcmQueue.Valid, Fits, MadeRoom, Expired, Admissible, IsVec;
      ghost var was := frames;
      k := Expire(now);
      ExpiredRoom(was, frames, k, now, f);
      CountsFit(f);
      while samples + |f.samples| > maxSamples || retained + Allocated(f) > maxBytes
        invariant Valid() && k <= |was| && frames == was[k..]
        invariant MadeRoom(was, frames, now, f, k) && dropped == old(dropped) + k
        invariant Fits(frames, f) <==> samples + |f.samples| <= maxSamples && retained + Allocated(f) <= maxBytes
        invariant frames == [] ==> Fits(frames, f)
        decreases |frames|
      {
        if frames[0].frame.permit.Some? {
          return false, k;
        }
        OneMoreRoom(was, k, now, f);
        DiscardFront();
        CountsFit(f);
        k := k + 1;
      }
      ok := true;
    }

    lemma ExpiredRoom(was: seq<Queued>, rest: seq<Queued>, k: nat, now: real, f: Frame)
      requires Expired(was, rest, now, k)
      ensures MadeRoom(was, rest, now, f, k) && k <= |was| && rest == was[k..]
    {
    }

    /** The oldest frame goes while `f` does not fit. */
    lemma OneMoreRoom(q: seq<Queued>, k: nat, now: real, f: Frame)
      requires k < |q| && MadeRoom(q, q[k..], now, f, k) && q[k].frame.permit.None? && !Fits(q[k..], f)
      ensures MadeRoom(q, q[k..][1..], now, f, k + 1)
    {
      hide Fits;
      assert q[k..][1..] == q[k + 1..];
      var stale :| StaleFront(q, stale, now) && stale <= k &&
        forall j :: stale <= j < k ==> q[j].frame.permit.None? && !Fits(q[j..], f);
      assert StaleFront(q, stale, now) && stale <= k + 1 &&
        forall j :: stale <= j < k + 1 ==> q[j].frame.permit.None? && !Fits(q[j..], f);
    }

    /** The counters tell whether `f` fits, and an admissible frame fits the empty queue. */
    lemma CountsFit(f: Frame)
      requires Valid() && Admissible(f) && IsVec(f)
      ensures Fits(frames, f) <==> samples + |f.samples| <= maxSamples && retained + Allocated(f) <= maxBytes
      ensures frames == [] ==> Fits(frames, f)
    {
      AdmissibleFits(f);
    }

    method Append(f: Frame, now: real)
      requires Valid() && Admissible(f) && Fits(frames, f)
      modifies this`frames, this`samples, this`retained, this`log
      ensures Valid() && frames == old(frames) + [Queued(f, now)] && log == old(log) + [Queued(f, now)]
    {
      SumsAppend(frames, Queued(f, now));
      samples := samples + |f.samples|;
      retained := retained + Allocated(f);
      frames := frames + [Queued(f, now)];
      log := log + [Queued(f, now)];
    }

    /** Admits a frame at the back. Overflow takes the oldest frames, but never one that holds
        a permit: then the new frame is refused. */
    method Push(f: Frame, now: real) returns (accepted: bool, notify: bool)
      requires Valid() && IsVec(f)
      modifies this
      ensures Valid() && closed == old(closed)
      ensures accepted ==> !closed && Admissible(f) && notified && (notify <==> !old(notified))
      ensures accepted ==>
                && log == old(log) + [Queued(f, now)]
                && frames != [] && frames[|frames| - 1] == Queued(f, now)
                && MadeRoom(old(frames), frames[..|frames| - 1], now, f, dropped - old(dropped))
                && Fits(frames[..|frames| - 1], f)
      ensures !accepted ==> !notify && notified == old(notified) && log == old(log)
      ensures !accepted && (closed || !Admissible(f)) ==>
                frames == old(frames) && dropped == old(dropped) + if closed then 0 else 1
      ensures !accepted && !closed && Admissible(f) ==>
                && MadeRoom(old(frames), frames, now, f, dropped - old(dropped))
                && frames != [] && frames[0].frame.permit.Some? && !Fits(frames, f)
    {
      hide PcmQueue.Valid, Fits, MadeRoom, Admissible;
      if closed {
        return false, false;
      }
      if !Admissible(f) {
        Refuse();
        return false, false;
      }
      accepted := Admit(f, now);
      notify := accepted && !notified;
      if accepted {
        Notify(true);
      }
    }

    method Admit(f: Frame, now: real) returns (accepted: bool)
      requires Valid() && IsVec(f) && Admissible(f)
      modifies this`frames, this`samples, this`retained, this`dropped, this`fates, this`log
      ensures Valid()
      ensures accepted ==>
                && log == old(log) + [Queued(f, now)]
                && frames != [] && frames[|frames| - 1] == Queued(f, now)
                && MadeRoom(old(frames), frames[..|frames| - 1], now, f, dropped - old(dropped))
                && Fits(frames[..|frames| - 1], f)
      ensures !accepted ==>
                && log == old(log) && MadeRoom(old(frames), frames, now, f, dropped - old(dropped))
                && frames != [] && frames[0].frame.permit.Some? && !Fits(frames, f)
    {
      hide PcmQueue.Valid, Fits, MadeRoom, Admissible;
      ghost var k;
      accepted, k := MakeRoom(f, now);
      if accepted {
        LastIs(frames, Queued(f, now));
        Append(f, now);
      }
    }

    lemma LastIs(rest: seq<Queued>, x: Queued)
      ensures var q := rest + [x]; |q| == |rest| + 1 && q[|q| - 1] == x && q[..|q| - 1] == rest
    {
    }

    /** A malformed frame is counted and goes nowhere. */
    method Refuse()
      requires Valid()
      modifies this`dropped, this`refused
      ensures Valid() && dropped == old(dropped) + 1
    {
      dropped := dropped + 1;
      refused := refused + 1;
    }

    method Notify(pending: bool)
      requires Valid()
      modifies this`notified
      ensures Valid() && notified == pending
    {
      notified := pending;
    }

    /** A batch of what is queued now. Later arrivals get their own notification. */
    method BeginBatch(now: real) returns (batch: nat)
      requires Valid()
      modifies this
      ensures Valid() && closed == old(closed) && log == old(log) && !notified && batch == |frames|
      ensures Expired(old(frames), frames, now, dropped - old(dropped))
    {
      hide PcmQueue.Valid, Expired;
      ghost var k := Expire(now);
      Notify(false);
      batch := |frames|;
    }

    /** Takes the oldest frame that is not stale. */
    method Pop(now: real) returns (r: Option<Queued>)
      requires Valid()
      modifies this
      ensures Valid() && closed == old(closed) && log == old(log)
      ensures Expired(old(frames), if r.Some? then [r.value] + frames else [], now, dropped - old(dropped))
      ensures r.Some? ==> r.value.frame.permit.Some? || Age(now, r.value.at) <= maxAge
      ensures r.None? ==>
                frames == [] && forall x :: x in old(frames) ==> x.frame.permit.None? && Age(now, x.at) > maxAge
      ensures notified == (old(notified) && r.Some?)
      ensures r.Some? ==> fates[|fates| - 1..] == [true] && r.value == log[|fates| - 1]
    {
      hide PcmQueue.Valid;
      ghost var k := Expire(now);
      if frames == [] {
        Notify(false);
        return None;
      }
      r := Some(frames[0]);
      assert [r.value] + frames[1..] == frames;
      FrontIsNext();
      TakeFront();
    }

    /** The oldest queued entry is the first one of the history that did not leave. */
    lemma FrontIsNext()
      requires Valid() && frames != []
      ensures |fates| < |log| && frames[0] == log[|fates|]
    {
    }

    method TakeFront()
      requires Valid() && frames != []
      modifies this`frames, this`samples, this`retained, this`fates
      ensures Valid() && frames == old(frames)[1..] && fates == old(fates) + [true]
    {
      samples := samples - |frames[0].frame.samples|;
      retained := retained - Allocated(frames[0].frame);
      frames := frames[1..];
      LostAppend(fates, true);
      fates := fates + [true];
    }

    /** Discards everything. An outstanding notification stays outstanding. */
    method Clear()
      requires Valid()
      modifies this
      ensures Valid() && frames == [] && dropped == old(dropped) + |old(frames)|
      ensures closed == old(closed) && notified == old(notified) && log == old(log)
    {
      dropped := dropped + |frames|;
      LostMany(fates, |frames|);
      fates := fates + seq(|frames|, i => false);
      frames, samples, retained := [], 0, 0;
    }

    method Close()
      requires Valid()
      modifies this`closed
      ensures Valid() && closed
    {
      closed := true;
    }

    /** Discards that have not been reported before. */
    method TakeNewDrops() returns (count: nat)
      requires Valid()
      modifies this`reported
      ensures Valid() && old(reported) + count == dropped == reported
    {
      count := dropped - reported;
      reported := dropped;
    }
  }

  // ---- Credits ----

  ghost function Reserved(live: multiset<Permit>): nat
    decreases |live|
  {
    if live == multiset{} then 0
    else
      var p :| p in live;
      p.samples + Reserved(live - multiset{p})
  }

  lemma {:induction false} ReservedMinus(live: multiset<Permit>, p: Permit)
    requires p in live
    ensures Reserved(live) == p.samples + Reserved(live - multiset{p})
    decreases |live|
  {
    var q :| q in live && Reserved(live) == q.samples + Reserved(live - multiset{q});
    if q != p {
      ReservedMinus(live - multiset{q}, p);
      ReservedMinus(live - multiset{p}, q);
      assert live - multiset{q} - multiset{p} == live - multiset{p} - multiset{q};
    }
  }

  lemma ReservedPlus(live: multiset<Permit>, p: Permit)
    ensures Reserved(live + multiset{p}) == p.samples + Reserved(live)
  {
    hide Reserved;
    ReservedMinus(live + multiset{p}, p);
    assert live + multiset{p} - multiset{p} == live;
  }

  /** Credits follow buffered PCM until its permit is dropped. */
  class PcmCredits {
    const maxSamples: nat
    const maxBytes: nat
    var usedSamples: nat
    var usedBytes: nat
    ghost var live: multiset<Permit>

    constructor (rate: nat, channels: nat, duration: nat)
      ensures Valid() && live == multiset{}
      ensures maxSamples == PcmQueue.Limit(rate, channels, duration)
      ensures maxBytes == SaturatingAdd(SaturatingMul(maxSamples, 8), 1024)
    {
      maxSamples := PcmQueue.Limit(rate, channels, duration);
      maxBytes := SaturatingAdd(SaturatingMul(PcmQueue.Limit(rate, channels, duration), 8), 1024);
      usedSamples, usedBytes, live := 0, 0, multiset{};
    }

    /** What is in use is the sum of the live permits, and never more than there is. */
    ghost predicate Valid()
      reads this
    {
      && usedSamples == Reserved(live) && usedBytes == usedSamples * 4 + |live| * ENTRY_BYTES
      && (forall p :: p in live ==> p.bytes == p.samples * 4 + ENTRY_BYTES)
      && usedSamples <= maxSamples && usedBytes <= maxBytes
    }

    method TryReserve(samples: nat) returns (permit: Option<Permit>)
      requires Valid()
      modifies this
      ensures Valid()
      ensures permit.Some? <==>
                && old(usedSamples) + samples <= maxSamples && old(usedBytes) + samples * 4 + ENTRY_BYTES <= maxBytes
                && samples * 4 + ENTRY_BYTES <= USIZE_MAX
      ensures permit.Some? ==>
                && permit.value == Permit(samples, samples * 4 + ENTRY_BYTES)
                   && live == old(live) + multiset{permit.value}
                && usedSamples == old(usedSamples) + samples && usedBytes == old(usedBytes) + samples * 4 + ENTRY_BYTES
      ensures permit.None? ==> live == old(live) && usedSamples == old(usedSamples) && usedBytes == old(usedBytes)
    {
      hide Reserved;
      if samples * 4 > USIZE_MAX || samples * 4 + ENTRY_BYTES > USIZE_MAX {
        return None;
      }
      var bytes := samples * 4 + ENTRY_BYTES;
      if samples > maxSamples - usedSamples || bytes > maxBytes - usedBytes {
        return None;
      }
      ReservedPlus(live, Permit(samples, bytes));
      usedSamples := usedSamples + samples;
      usedBytes := usedBytes + bytes;
      live := live + multiset{Permit(samples, bytes)};
      permit := Some(Permit(samples, bytes));
    }

    /** A permit is dropped. */
    method Release(permit: Permit)
      requires Valid() && permit in live
      modifies this
      ensures Valid() && live == old(live) - multiset{permit}
      ensures usedSamples == old(usedSamples) - permit.samples && usedBytes == old(usedBytes) - permit.bytes
    {
      hide Reserved;
      ReservedMinus(live, permit);
      usedSamples := usedSamples - permit.samples;
      usedBytes := usedBytes - permit.bytes;
      live := live - multiset{permit};
    }
  }
}
