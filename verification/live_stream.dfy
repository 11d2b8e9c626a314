/** `LiveStream` and the registry: what is published, what subscribers get, and the byte counts. */
module LiveStreams {
  import opened BridgeState
  import opened Numbers
  import opened LiveTiming

  const CHUNK_BYTES: nat := 16 * 1024
  const MAX_PUBLISH: nat := 1024 * 1024
  const RING: nat := 64

  datatype Chunk = Chunk(bytes: seq<Byte>, queuedAt: real)
  datatype Anchor = Unset | AnchorAt(at: real) | NextTimedPcm
  datatype Release = Release(at: real, delay: real)
  datatype Counters = Counters(consumed: nat, dropped: nat, skipped: nat)
  datatype Counter = Consumed | Dropped | Skipped

  function Plus(c: Counters, which: Counter, n: nat): Counters {
    match which
    case Consumed => c.(consumed := c.consumed + n)
    case Dropped => c.(dropped := c.dropped + n)
    case Skipped => c.(skipped := c.skipped + n)
  }

  function Sum(a: Counters, b: Counters): Counters {
    Counters(a.consumed + b.consumed, a.dropped + b.dropped, a.skipped + b.skipped)
  }

  /** All bytes of a run of chunks, in order. */
  function Concat(chunks: seq<Chunk>): seq<Byte> {
    if chunks == [] then [] else Concat(chunks[..|chunks| - 1]) + chunks[|chunks| - 1].bytes
  }

  lemma {:induction false} ConcatAppend(a: seq<Chunk>, b: seq<Chunk>)
    ensures Concat(a + b) == Concat(a) + Concat(b)
    decreases |b|
  {
    if b == [] {
      assert a + b == a;
    } else {
      var front, last := b[..|b| - 1], b[|b| - 1];
      ConcatAppend(a, front);
      assert (a + b)[..|a + b| - 1] == a + front;
      assert (a + b)[|a + b| - 1] == last;
    }
  }

  /** A publication in chunks. */
  function Split(bytes: seq<Byte>, now: real): seq<Chunk> {
    if |bytes| == 0 then []
    else if |bytes| <= CHUNK_BYTES then [Chunk(bytes, now)]
    else [Chunk(bytes[..CHUNK_BYTES], now)] + Split(bytes[CHUNK_BYTES..], now)
  }

  lemma {:induction false} SplitConcat(bytes: seq<Byte>, now: real)
    ensures Concat(Split(bytes, now)) == bytes
    decreases |bytes|
  {
    if |bytes| > CHUNK_BYTES {
      SplitConcat(bytes[CHUNK_BYTES..], now);
      ConcatAppend([Chunk(bytes[..CHUNK_BYTES], now)], Split(bytes[CHUNK_BYTES..], now));
      assert bytes == bytes[..CHUNK_BYTES] + bytes[CHUNK_BYTES..];
    }
  }

  /** A publication fits the ring exactly when it is not too long to be sent at all. */
  lemma {:induction false} SplitSize(bytes: seq<Byte>, now: real)
    ensures |Split(bytes, now)| == (|bytes| + CHUNK_BYTES - 1) / CHUNK_BYTES
    decreases |bytes|
  {
    if |bytes| > CHUNK_BYTES {
      SplitSize(bytes[CHUNK_BYTES..], now);
    }
  }

  lemma PublishFitsRing(bytes: seq<Byte>, now: real)
    ensures |bytes| <= MAX_PUBLISH <==> |Split(bytes, now)| <= RING
  {
    SplitSize(bytes, now);
  }

  // ---- Totals over all streams ----

  ghost function Total(shares: map<LiveStream, Counters>): Counters
    decreases |shares|
  {
    if shares == map[] then Counters(0, 0, 0)
    else
      var s :| s in shares;
      Sum(shares[s], Total(shares - {s}))
  }

  lemma SumCommutes(a: Counters, b: Counters, c: Counters)
    ensures Sum(a, Sum(b, c)) == Sum(b, Sum(a, c))
  {
  }

  lemma {:induction false} TotalMinus(shares: map<LiveStream, Counters>, s: LiveStream)
    requires s in shares
    ensures Total(shares) == Sum(shares[s], Total(shares - {s}))
    decreases |shares|
  {
    var t :| t in shares && Total(shares) == Sum(shares[t], Total(shares - {t}));
    if t != s {
      TotalMinus(shares - {t}, s);
      TotalMinus(shares - {s}, t);
      assert shares - {t} - {s} == shares - {s} - {t};
      var rest := Total(shares - {t} - {s});
      assert Total(shares - {t}) == Sum(shares[s], rest) && Total(shares - {s}) == Sum(shares[t], rest);
      SumCommutes(shares[t], shares[s], rest);
    }
  }

  lemma TotalUpdate(shares: map<LiveStream, Counters>, s: LiveStream, c: Counters)
    ensures Total(shares[s := c]) == Sum(c, Total(shares - {s}))
  {
    hide Total;
    TotalMinus(shares[s := c], s);
    assert shares[s := c] - {s} == shares - {s};
  }

  class Totals {
    var values: Counters
    ghost var shares: map<LiveStream, Counters>   // of every stream ever attached

    ghost predicate Valid()
      reads this
    {
      values == Total(shares)
    }

    constructor ()
      ensures Valid() && shares == map[]
    {
      values, shares := Counters(0, 0, 0), map[];
    }

    method Attach(s: LiveStream, c: Counters)
      requires Valid() && s !in shares
      modifies this
      ensures Valid() && shares == old(shares)[s := c]
    {
      TotalUpdate(shares, s, c);
      assert shares - {s} == shares;
      values := Sum(c, values);
      shares := shares[s := c];
    }

    method Add(s: LiveStream, which: Counter, n: nat)
      requires Valid() && s in shares
      modifies this
      ensures Valid() && shares == old(shares)[s := Plus(old(shares)[s], which, n)]
    {
      TotalMinus(shares, s);
      TotalUpdate(shares, s, Plus(shares[s], which, n));
      values := Plus(values, which, n);
      shares := shares[s := Plus(shares[s], which, n)];
    }
  }

  class LiveStream {
    const session: SessionId
    const generation: nat
    var encoded: nat
    var counters: Counters
    var totals: Totals?
    var chunksDropped: nat
    var prelude: Option<seq<Byte>>
    var ready: bool
    var connected: bool
    var subscribers: nat
    var closed: bool
    var release: Option<Release>
    var epoch: nat
    var anchor: Anchor
    var sent: seq<Chunk>            // every chunk ever broadcast; a ring keeps the last 64
    ghost var lead: seq<Chunk>      // the chunks of the prelude among them

    ghost function Shared(): set<object>
      reads this
    {
      if totals == null then {} else {totals}
    }

    /** Every encoded byte was dropped, skipped or broadcast, and the totals know this stream's
        counts. */
    ghost predicate Valid()
      reads this, Shared()
    {
      && encoded == counters.dropped + counters.skipped + |Concat(sent)|
      && (connected <==> subscribers > 0)
      && (totals != null ==> totals.Valid() && this in totals.shares && totals.shares[this] == counters)
    }

    constructor (session: SessionId, generation: nat)
      ensures Valid() && HeaderFirst() && sent == [] && prelude.None? && !connected && !closed && totals == null
              && anchor == Unset
      ensures this.session == session && this.generation == generation
    {
      this.session, this.generation := session, generation;
      encoded, counters, totals, chunksDropped := 0, Counters(0, 0, 0), null, 0;
      prelude, ready, connected, subscribers, closed := None, false, false, 0, false;
      release, epoch, anchor, sent, lead := None, 0, Unset, [], [];
    }

    method AttachTotals(t: Totals)
      requires Valid() && t.Valid() && (totals == null ==> this !in t.shares)
      modifies this`totals, t
      ensures Valid() && t.Valid()
      ensures if old(totals) == null then totals == t && t.shares == old(t.shares)[this := counters]
              else totals == old(totals) && t.shares == old(t.shares)
    {
      if totals == null {
        t.Attach(this, counters);
        totals := t;
      }
    }

    method AddCounter(which: Counter, n: nat)
      requires totals != null ==> totals.Valid() && this in totals.shares && totals.shares[this] == counters
      modifies this`counters, Shared()
      ensures counters == Plus(old(counters), which, n)
      ensures totals != null ==> totals.Valid() && totals.shares == old(totals.shares)[this := counters]
    {
      counters := Plus(counters, which, n);
      if totals != null {
        totals.Add(this, which, n);
      }
    }

    method Close()
      modifies this`closed
      ensures closed
    {
      closed := true;
    }

    /** Broadcasts a publication in chunks. One that is too long is dropped, and closes the
        stream. */
    method SendServed(bytes: seq<Byte>, now: real)
      requires totals != null ==> totals.Valid() && this in totals.shares && totals.shares[this] == counters
      modifies this`counters, this`closed, this`sent, Shared()
      ensures totals != null ==> totals.Valid() && totals.shares == old(totals.shares)[this := counters]
      ensures if |bytes| > MAX_PUBLISH
              then closed && sent == old(sent) && counters == Plus(old(counters), Dropped, |bytes|)
              else closed == old(closed) && sent == old(sent) + Split(bytes, now) && counters == old(counters)
    {
      if |bytes| > MAX_PUBLISH {
        AddCounter(Dropped, |bytes|);
        Close();
        return;
      }
      assert totals != null ==> totals.shares == totals.shares[this := counters];
      var start := 0;
      while start < |bytes|
        invariant start <= |bytes| && sent + Split(bytes[start..], now) == old(sent) + Split(bytes, now)
        invariant closed == old(closed) && counters == old(counters)
        invariant totals != null ==> totals.Valid() && totals.shares == old(totals.shares)[this := counters]
        decreases |bytes| - start
      {
        var end := Min(start + CHUNK_BYTES, |bytes|);
        SplitStep(bytes, start, end, now);
        sent := sent + [Chunk(bytes[start..end], now)];
        start := end;
      }
    }

    lemma SplitStep(bytes: seq<Byte>, start: nat, end: nat, now: real)
      requires start < |bytes| && end == Min(start + CHUNK_BYTES, |bytes|)
      ensures Split(bytes[start..], now) == [Chunk(bytes[start..end], now)] + Split(bytes[end..], now)
    {
      var rest := bytes[start..];
      if |rest| <= CHUNK_BYTES {
        assert bytes[start..end] == rest && bytes[end..] == [];
      } else {
        assert rest[..CHUNK_BYTES] == bytes[start..end] && rest[CHUNK_BYTES..] == bytes[end..];
      }
    }

    /** Publishes encoded bytes. Without a subscriber they are dropped. */
    method Publish(bytes: seq<Byte>, now: real)
      requires Valid()
      modifies this`encoded, this`ready, this`counters, this`chunksDropped, this`closed, this`sent, Shared()
      ensures Valid() && connected == old(connected)
      ensures totals != null ==> totals.shares == old(totals.shares)[this := counters]
      ensures sent == old(sent) + if old(closed) || !connected || |bytes| > MAX_PUBLISH then [] else Split(bytes, now)
      ensures encoded == old(encoded) + if old(closed) then 0 else |bytes|
      ensures closed == (old(closed) || (connected && |bytes| > MAX_PUBLISH))
      ensures counters.consumed == old(counters.consumed) && counters.skipped == old(counters.skipped)
      ensures counters.dropped == old(counters.dropped) +
                if !old(closed) && (!connected || |bytes| > MAX_PUBLISH) then |bytes| else 0
      ensures chunksDropped == old(chunksDropped) + if bytes != [] && !old(closed) && !connected then 1 else 0
      ensures ready == (old(ready) || (bytes != [] && !old(closed)))
    {
      if bytes == [] || closed {
        Unshared();
        return;
      }
      encoded := encoded + |bytes|;
      ready := true;
      if !connected {
        AddCounter(Dropped, |bytes|);
        chunksDropped := chunksDropped + 1;
        return;
      }
      SplitConcat(bytes, now);
      ConcatAppend(sent, Split(bytes, now));
      SendServed(bytes, now);
    }

    lemma Unshared()
      requires Valid()
      ensures totals != null ==> totals.shares == totals.shares[this := counters]
    {
    }

    /** The part of a timed packet that output begins with, once playback is anchored. */
    function Played(bytes: seq<Byte>, time: Option<real>, rate: nat, channels: nat, anchorAt: real): seq<Byte> {
      if time.Some? then Trim(bytes, time.value, anchorAt, rate, channels) else bytes
    }

    /** The anchor that a packet meets. A stream that is armed anchors at its first packet. */
    function Met(a: Anchor, time: Option<real>, now: real): Option<real> {
      match a
      case Unset => None
      case AnchorAt(at) => Some(at)
      case NextTimedPcm => Some(if time.Some? then time.value else now)
    }

    /** Publishes timed PCM: skipped before playback is anchored, and up to the anchor. */
    method PublishTimedPcm(bytes: seq<Byte>, time: Option<real>, rate: nat, channels: nat, now: real)
      requires Valid()
      modifies this`encoded, this`ready, this`counters, this`chunksDropped, this`closed, this`sent, this`anchor,
          Shared()
      ensures Valid() && connected == old(connected)
      ensures totals != null ==> totals.shares == old(totals.shares)[this := counters]
      ensures encoded == old(encoded) + if old(closed) then 0 else |bytes|
      ensures var live := bytes != [] && !old(closed) && connected;
              var met := Met(old(anchor), time, now);
              var played := if met.Some? then Played(bytes, time, rate, channels, met.value) else [];
              && anchor == (if live && met.Some? then AnchorAt(met.value) else old(anchor))
              && closed == (old(closed) || (live && |played| > MAX_PUBLISH))
              && sent == old(sent) + (if live && |played| <= MAX_PUBLISH then Split(played, now) else [])
              && counters.consumed == old(counters.consumed)
              && counters.skipped == old(counters.skipped) + (if live then |bytes| - |played| else 0)
              && counters.dropped == old(counters.dropped) +
                 (if old(closed) then 0 else if !live then |bytes| else if |played| > MAX_PUBLISH then |played| else 0)
              && chunksDropped == old(chunksDropped) +
                   (if bytes != [] && !old(closed) && (!connected || played == []) then 1 else 0)
      ensures ready == (old(ready) || (bytes != [] && !old(closed)))
      ensures old(anchor) == Unset ==> anchor == Unset && sent == old(sent)
      ensures old(anchor) == NextTimedPcm && bytes != [] && !old(closed) && connected ==>
                anchor == AnchorAt(if time.Some? then time.value else now)
      ensures old(anchor).AnchorAt? ==> anchor == old(anchor)
    {
      hide Trim, Split, Concat, Played, Total, Totals.Valid;
      if bytes == [] || closed {
        Unshared();
        NothingSplit(now);
        return;
      }
      encoded := encoded + |bytes|;
      ready := true;
      if !connected {
        AddCounter(Dropped, |bytes|);
        chunksDropped := chunksDropped + 1;
        return;
      }
      if anchor == Unset {
        AddCounter(Skipped, |bytes|);
        chunksDropped := chunksDropped + 1;
        NothingSplit(now);
        return;
      }
      var at := Met(anchor, time, now).value;
      TrimShorter(bytes, time, rate, channels, at);
      anchor := AnchorAt(at);
      SendPlayed(bytes, Played(bytes, time, rate, channels, at), now);
    }

    /** Skips the start of a packet and broadcasts the rest. */
    method SendPlayed(bytes: seq<Byte>, played: seq<Byte>, now: real)
      requires totals != null ==> totals.Valid() && this in totals.shares && totals.shares[this] == counters
      requires |played| <= |bytes|
      modifies this`counters, this`chunksDropped, this`closed, this`sent, Shared()
      ensures totals != null ==> totals.Valid() && totals.shares == old(totals.shares)[this := counters]
      ensures sent == old(sent) + if |played| <= MAX_PUBLISH then Split(played, now) else []
      ensures closed == (old(closed) || |played| > MAX_PUBLISH)
      ensures old(counters.dropped) + old(counters.skipped) + |Concat(old(sent))| + |bytes| ==
              counters.dropped + counters.skipped + |Concat(sent)|
      ensures counters.consumed == old(counters.consumed)
      ensures counters.skipped == old(counters.skipped) + |bytes| - |played|
      ensures counters.dropped == old(counters.dropped) + if |played| > MAX_PUBLISH then |played| else 0
      ensures chunksDropped == old(chunksDropped) + if played == [] then 1 else 0
    {
      hide Split, Concat;
      SplitConcat(played, now);
      ConcatAppend(sent, Split(played, now));
      if |played| < |bytes| {
        AddCounter(Skipped, |bytes| - |played|);
      }
      if played == [] {
        chunksDropped := chunksDropped + 1;
        NothingSplit(now);
        return;
      }
      SendServed(played, now);
    }

    lemma NothingSplit(now: real)
      ensures Split([], now) == []
    {
    }

    lemma TrimShorter(bytes: seq<Byte>, time: Option<real>, rate: nat, channels: nat, anchorAt: real)
      ensures |Played(bytes, time, rate, channels, anchorAt)| <= |bytes|
    {
    }

    // ---- Header and subscribers ----

    /** The encoder publishes its header before any audio: what is broadcast begins with the
        header, if a subscriber was there to get it. */
    ghost predicate HeaderFirst()
      reads this
    {
      && (prelude.None? ==> sent == [] && lead == [])
      && (prelude.Some? ==> lead <= sent && (lead == [] || Concat(lead) == prelude.value))
    }

    /** Publishes the bytes that begin every response, once. */
    method PublishPrelude(bytes: seq<Byte>, now: real)
      requires Valid() && HeaderFirst()
      modifies this`prelude, this`encoded, this`ready, this`counters, this`chunksDropped, this`closed, this`sent,
          this`lead,
               Shared()
      ensures Valid() && HeaderFirst() && old(sent) <= sent && connected == old(connected) && (old(closed) ==> closed)
      ensures totals != null ==> totals.shares == old(totals.shares)[this := counters]
      ensures prelude == if bytes != [] && !old(closed) && old(prelude).None? then Some(bytes) else old(prelude)
      ensures prelude == old(prelude) ==> lead == old(lead) && sent == old(sent)
      ensures old(prelude).None? && prelude.Some? ==>
                sent == if connected && |bytes| <= MAX_PUBLISH then Split(bytes, now) else []
      ensures !old(closed) && closed ==> sent == old(sent)
      ensures old(prelude).None? && prelude.Some? && connected ==> lead != [] || (closed && sent == [])
    {
      hide Split, Concat, Total, Totals.Valid;
      if bytes == [] || closed || prelude.Some? {
        Unshared();
        return;
      }
      HeaderChunks(bytes, now);
      prelude := Some(bytes);
      Publish(bytes, now);
      lead := sent;
    }

    /** A header that is broadcast leads, in as many chunks as it takes. */
    lemma HeaderChunks(bytes: seq<Byte>, now: real)
      requires bytes != []
      ensures [] + Split(bytes, now) == Split(bytes, now) != [] && Concat(Split(bytes, now)) == bytes
    {
      SplitConcat(bytes, now);
    }

    /** Subscribing and reading the header are one step: a response gets the header from here or
        from the broadcast, never from both. */
    method AttachSubscriber() returns (header: Option<seq<Byte>>, position: nat)
      requires Valid()
      modifies this`subscribers, this`connected
      ensures Valid() && connected && subscribers == old(subscribers) + 1
      ensures header == prelude && position == |sent|
      ensures HeaderFirst() == old(HeaderFirst())
    {
      subscribers := subscribers + 1;
      connected := true;
      header, position := prelude, |sent|;
    }

    method DetachSubscriber()
      requires Valid() && subscribers > 0
      modifies this`subscribers, this`connected
      ensures Valid() && subscribers == old(subscribers) - 1
      ensures HeaderFirst() == old(HeaderFirst())
    {
      subscribers := subscribers - 1;
      if subscribers == 0 {
        connected := false;
      }
    }

    method RecordBodyConsumed(bytes: nat)
      requires Valid()
      modifies this`counters, Shared()
      ensures Valid() && counters == Plus(old(counters), Consumed, bytes)
      ensures totals != null ==> totals.shares == old(totals.shares)[this := counters]
    {
      AddCounter(Consumed, bytes);
    }

    // ---- Playback ----

    method SetPlaybackPlan(cutoff: real, delay: real)
      modifies this`anchor, this`release
      ensures anchor == AnchorAt(cutoff) && release == Some(Release(cutoff, delay))
    {
      anchor := AnchorAt(cutoff);
      release := Some(Release(cutoff, delay));
    }

    method ArmPlaybackAnchor(now: real)
      modifies this`anchor, this`release
      ensures anchor == NextTimedPcm && release == Some(Release(now, 0.0))
    {
      anchor := NextTimedPcm;
      release := Some(Release(now, 0.0));
    }

    predicate AcceptsEpoch(e: nat)
      reads this
    {
      !closed && epoch == e
    }
  }

  // ---- Registry ----

  /** The streams by session, and the counts over every stream that was ever registered. */
  class StreamRegistry {
    const totals: Totals
    var streams: map<SessionId, LiveStream>

    ghost predicate Valid()
      reads this, totals, totals.shares.Keys
    {
      && totals.Valid()
      && (forall id :: id in streams ==> streams[id] in totals.shares)
      && (forall s :: s in totals.shares ==> s.totals == totals && s.counters == totals.shares[s])
    }

    constructor ()
      ensures Valid() && streams == map[] && fresh(totals)
    {
      totals := new Totals();
      streams := map[];
    }

    /** The stream that held the session's place is closed, and keeps its share of the totals. */
    method Insert(s: LiveStream)
      requires Valid() && s.Valid() && s.totals == null && s !in totals.shares
      modifies this, totals, s, streams.Values
      ensures Valid() && streams == old(streams)[s.session := s] && totals.shares == old(totals.shares)[s := s.counters]
      ensures s.session in old(streams) ==> old(streams)[s.session].closed
    {
      s.AttachTotals(totals);
      var previous := if s.session in streams then Some(streams[s.session]) else None;
      streams := streams[s.session := s];
      if previous.Some? {
        previous.value.Close();
      }
    }

    method Remove(id: SessionId) returns (r: Option<LiveStream>)
      requires Valid()
      modifies this, streams.Values
      ensures Valid() && streams == old(streams) - {id} && totals.shares == old(totals.shares)
      ensures r == if id in old(streams) then Some(old(streams)[id]) else None
      ensures r.Some? ==> r.value.closed
    {
      r := None;
      if id in streams {
        r := Some(streams[id]);
        streams := streams - {id};
        r.value.Close();
      }
    }

    method CloseAll()
      requires Valid()
      modifies this, streams.Values
      ensures Valid() && streams == map[] && totals.shares == old(totals.shares)
      ensures forall id :: id in old(streams) ==> old(streams)[id].closed
    {
      ghost var was := streams;
      while streams != map[]
        invariant Valid() && totals.shares == old(totals.shares) && streams.Values <= was.Values
        invariant forall id :: id in streams ==> id in was && streams[id] == was[id]
        invariant forall id :: id in was && id !in streams ==> was[id].closed
        decreases |streams|
      {
        var id :| id in streams;
        var s := streams[id];
        streams := streams - {id};
        s.Close();
      }
    }

    /** What the counters tell: the totals are the sums over all streams that ever registered. */
    lemma TotalsAreSums()
      requires Valid()
      ensures totals.values == Total(map s | s in totals.shares :: s.counters)
    {
      assert (map s | s in totals.shares :: s.counters) == totals.shares;
    }
  }
}
