/** The body of a stream response: one header, then a gapless run of what is broadcast. */
module HttpBodies {
  import opened BridgeState
  import opened LiveTiming
  import opened LiveStreams

  const MAX_CHUNK_AGE: real := 2.0

  class HttpBody {
    const stream: LiveStream
    var header: Option<seq<Byte>>      // still to be delivered
    var position: nat                  // the next chunk to receive
    var ended: bool
    ghost const start: nat
    ghost const first: Option<seq<Byte>>
    ghost var delivered: seq<Byte>

    /** What was delivered is the header, if this body began with it, and the chunks up to the
        receiver's position. A body that began without one will find it in the broadcast. */
    ghost predicate Valid()
      reads this, stream
    {
      && stream.HeaderFirst()
      && start <= position <= |stream.sent|
      && (header.Some? ==> header == first && position == start && delivered == [])
      && (header.None? ==> delivered == Began() + Concat(stream.sent[start..position]))
      && (if first.Some? then stream.prelude == first && |stream.lead| <= start
          else start == 0 && (stream.prelude.None? || stream.lead != [] || (stream.closed && stream.sent == [])))
    }

    ghost function Began(): seq<Byte> {
      if first.Some? then first.value else []
    }

    constructor (stream: LiveStream)
      requires stream.Valid() && stream.HeaderFirst()
      modifies stream`subscribers, stream`connected
      ensures Valid() && this.stream == stream && delivered == [] && !ended
      ensures first == header == stream.prelude && start == position == |stream.sent|
      ensures stream.sent == old(stream.sent) && stream.HeaderFirst() && stream.totals == old(stream.totals)
      ensures stream.Valid() && stream.connected && stream.subscribers == old(stream.subscribers) + 1
    {
      var prelude, from := stream.AttachSubscriber();
      this.stream, header, position, ended := stream, prelude, from, false;
      start, first, delivered := from, prelude, [];
    }

    /** A poll at `now` finds the body over: the stream closed, or, once the header is out, the
        receiver lags behind the ring or the next chunk is too old. */
    predicate Over(now: real)
      reads this, stream
    {
      || ended || stream.closed
      || (header.None? && |stream.sent| - position > 64)
      || (header.None? && position < |stream.sent| && now - stream.sent[position].queuedAt > 2.0)
    }

    /** The next piece of the body, if there is one, or its end. What it hands over counts as
        consumed. */
    method Poll(now: real) returns (r: Option<seq<Byte>>)
      requires Valid() && stream.Valid()
      modifies this, stream`counters, stream.Shared()
      ensures Valid() && stream.Valid()
      ensures ended == old(Over(now))
      ensures ended ==> r.None? && header == old(header) && position == old(position)
      ensures !ended && old(header).Some? ==> r == old(header) && header.None? && position == old(position)
      ensures !ended && old(header).None? && old(position) < |stream.sent| ==>
                r == Some(stream.sent[old(position)].bytes) && header.None? && position == old(position) + 1
      ensures !ended && old(header).None? && old(position) >= |stream.sent| ==>
                r.None? && header.None? && position == old(position)
      ensures delivered == old(delivered) + if r.Some? then r.value else []
      ensures stream.counters == Plus(old(stream.counters), Consumed, if r.Some? then |r.value| else 0)
    {
      r := Advance(now);
      if r.Some? {
        stream.RecordBodyConsumed(|r.value|);
      }
    }

    method Advance(now: real) returns (r: Option<seq<Byte>>)
      requires Valid()
      modifies this
      ensures Valid()
      ensures ended == old(Over(now))
      ensures ended ==> r.None? && header == old(header) && position == old(position)
      ensures !ended && old(header).Some? ==> r == old(header) && header.None? && position == old(position)
      ensures !ended && old(header).None? && old(position) < |stream.sent| ==>
                r == Some(stream.sent[old(position)].bytes) && header.None? && position == old(position) + 1
      ensures !ended && old(header).None? && old(position) >= |stream.sent| ==>
                r.None? && header.None? && position == old(position)
      ensures delivered == old(delivered) + if r.Some? then r.value else []
    {
      hide Concat, LiveStream.HeaderFirst;
      r := None;
      if ended || stream.closed {
        ended := true;
      } else if header.Some? {
        r := header;
        delivered := header.value;
        header := None;
        EmptyRun(stream.sent, start);
      } else if |stream.sent| - position > RING {
        ended := true;
      } else if position < |stream.sent| {
        var chunk := stream.sent[position];
        if now - chunk.queuedAt > MAX_CHUNK_AGE {
          ended := true;
        } else {
          r := Some(chunk.bytes);
          RunAppend(stream.sent, start, position);
          ghost var run := Concat(stream.sent[start..position]);
          assert delivered + chunk.bytes == Began() + (run + chunk.bytes);
          delivered := delivered + chunk.bytes;
          position := position + 1;
        }
      }
    }

    /** The connection polls until nothing is ready. If nothing that waits is lost or too old by
        then, the header and every chunk go out. */
    method CatchUp(now: real)
      requires Valid() && stream.Valid()
      modifies this, stream`counters, stream.Shared()
      ensures Valid() && stream.Valid()
      ensures old(InTime(now)) && !stream.closed ==> !ended && header.None? && position == |stream.sent|
      ensures stream.closed ==>
                ended && header == old(header) && position == old(position) && delivered == old(delivered)
      ensures stream.HeaderFirst()
      ensures old(delivered) <= delivered
      ensures stream.counters == Plus(old(stream.counters), Consumed, |delivered| - |old(delivered)|)
    {
      hide Valid, LiveStream.Valid;
      ghost var was := delivered;
      var piece := Poll(now);
      while piece.Some?
        invariant Valid() && stream.Valid() && was <= delivered
        invariant old(InTime(now)) && !stream.closed ==> InTime(now)
        invariant piece.None? && !ended ==> header.None? && position >= |stream.sent|
        invariant stream.closed ==>
                    piece.None? && ended && header == old(header) && position == old(position) && delivered == was
        invariant stream.counters == Plus(old(stream.counters), Consumed, |delivered| - |was|)
        decreases piece.Some?, if header.Some? then 1 else 0, |stream.sent| - position
      {
        piece := Poll(now);
      }
      WithinSent();
    }

    lemma WithinSent()
      requires Valid()
      ensures position <= |stream.sent| && stream.HeaderFirst()
    {
    }

    /** Nothing that this body still has to receive is lost, or too old at `now`. */
    ghost predicate InTime(now: real)
      reads this, stream
    {
      && !ended && |stream.sent| - position <= 64
      && forall k :: position <= k < |stream.sent| ==> now - stream.sent[k].queuedAt <= 2.0
    }

    /** The whole header and every chunk from the first one on went out. */
    ghost predicate CaughtUp()
      reads this, stream
    {
      && header.None? && position == |stream.sent| && start <= |stream.sent|
      && delivered == Began() + Concat(stream.sent[start..])
    }

    lemma AllOut()
      requires Valid() && header.None? && position == |stream.sent|
      ensures CaughtUp()
    {
      assert stream.sent[start..position] == stream.sent[start..];
    }

    /** A body that has it all holds the stream's header exactly once, in front. */
    lemma HeaderOnce()
      requires Valid() && CaughtUp() && !stream.closed && stream.prelude.Some?
      ensures var from := if first.Some? then start else |stream.lead|;
              from <= |stream.sent| && delivered == stream.prelude.value + Concat(stream.sent[from..])
    {
      var sent, lead := stream.sent, stream.lead;
      if first.None? {
        assert sent[0..] == sent == lead + sent[|lead|..];
        ConcatAppend(lead, sent[|lead|..]);
      }
    }

    /** The body so far is a prefix of the stream's one header followed by an unbroken run of its
        audio chunks. Before the header is published, it is empty. */
    ghost predicate Refines()
      reads this, stream
    {
      if stream.prelude.None? then delivered == []
      else exists k :: |stream.lead| <= k <= |stream.sent| &&
                    delivered <= stream.prelude.value + Concat(stream.sent[k..])
    }

    lemma BodyRefines()
      requires Valid()
      ensures Refines()
    {
      var sent, lead := stream.sent, stream.lead;
      if stream.prelude.None? {
        assert sent[start..position] == [];
      } else if first.Some? {
        assert sent[start..] == sent[start..position] + sent[position..];
        ConcatAppend(sent[start..position], sent[position..]);
        assert delivered <= stream.prelude.value + Concat(sent[start..]);
      } else if lead == [] {
        assert sent[start..position] == [];
        assert delivered <= stream.prelude.value + Concat(sent[0..]);
      } else {
        assert sent == lead + sent[|lead|..];
        ConcatAppend(lead, sent[|lead|..]);
        assert sent == sent[..position] + sent[position..];
        ConcatAppend(sent[..position], sent[position..]);
        assert delivered <= Concat(sent);
        assert delivered <= stream.prelude.value + Concat(sent[|lead|..]);
      }
    }
  }

  lemma EmptyRun(sent: seq<Chunk>, at: nat)
    requires at <= |sent|
    ensures Concat(sent[at..at]) == []
  {
  }

  lemma RunAppend(sent: seq<Chunk>, start: nat, position: nat)
    requires start <= position < |sent|
    ensures Concat(sent[start..position + 1]) == Concat(sent[start..position]) + sent[position].bytes
  {
    assert sent[start..position + 1] == sent[start..position] + [sent[position]];
    ConcatAppend(sent[start..position], [sent[position]]);
    assert Concat([sent[position]]) == Concat([]) + sent[position].bytes;
  }

  /** What can happen to a stream while one of its responses is read. */
  datatype Op =
    | Header(bytes: seq<Byte>, at: real)
    | Pcm(bytes: seq<Byte>, time: Option<real>, rate: nat, channels: nat, at: real)
    | Plan(cutoff: real, delay: real)
    | OtherAttaches
    | OtherDetaches
    | Polls(at: real)
    | Closes
  {
    predicate Publishes() {
      Header? || Pcm?
    }
  }

  /** What is broadcast in one step fits the ring and carries the time of its publication. */
  ghost predicate Broadcast(was: seq<Chunk>, sent: seq<Chunk>, op: Op) {
    && was <= sent && |sent| <= |was| + 64
    && forall k :: |was| <= k < |sent| ==> op.Publishes() && sent[k].queuedAt == op.at
  }

  lemma SplitBroadcast(was: seq<Chunk>, bytes: seq<Byte>, op: Op)
    requires op.Publishes() && |bytes| <= MAX_PUBLISH
    ensures Broadcast(was, was + Split(bytes, op.at), op)
  {
    PublishFitsRing(bytes, op.at);
    SplitTimes(bytes, op.at);
  }

  lemma NothingBroadcast(was: seq<Chunk>, op: Op)
    ensures Broadcast(was, was, op) && was + [] == was
  {
  }

  lemma {:induction false} SplitTimes(bytes: seq<Byte>, now: real)
    ensures forall k :: 0 <= k < |Split(bytes, now)| ==> Split(bytes, now)[k].queuedAt == now
    decreases |bytes|
  {
    if |bytes| > CHUNK_BYTES {
      SplitTimes(bytes[CHUNK_BYTES..], now);
    }
  }

  /** One thing happens. The encoder publishes audio only after its header. */
  method Happen(stream: LiveStream, op: Op)
    requires stream.Valid() && stream.HeaderFirst()
    modifies stream, stream.Shared()
    ensures stream.Valid() && stream.HeaderFirst() && stream.totals == old(stream.totals)
    ensures old(stream.sent) <= stream.sent && (old(stream.closed) ==> stream.closed)
    ensures old(stream.prelude).Some? ==> stream.prelude == old(stream.prelude) && stream.lead == old(stream.lead)
    ensures old(stream.closed) ==> stream.prelude == old(stream.prelude) && stream.sent == old(stream.sent)
    ensures old(stream.prelude).None? && stream.prelude.Some? && old(stream.connected) ==>
              stream.lead != [] || (stream.closed && stream.sent == [])
    ensures old(stream.subscribers) > 0 ==> stream.subscribers > 0
    ensures Broadcast(old(stream.sent), stream.sent, op)
    ensures !old(stream.closed) && stream.closed ==> stream.sent == old(stream.sent)
  {
    hide Concat, Split, Trim, LiveStream.Played, Broadcast;
    NothingBroadcast(stream.sent, op);
    match op {
      case Header(bytes, at) =>
        if |bytes| <= MAX_PUBLISH {
          SplitBroadcast([], bytes, op);
          assert [] + Split(bytes, at) == Split(bytes, at);
        }
        stream.PublishPrelude(bytes, at);
      case Pcm(bytes, time, rate, channels, at) =>
        if stream.prelude.Some? {
          ghost var met := stream.Met(stream.anchor, time, at);
          ghost var played := if met.Some? then stream.Played(bytes, time, rate, channels, met.value) else [];
          if |played| <= MAX_PUBLISH {
            SplitBroadcast(stream.sent, played, op);
          }
          stream.PublishTimedPcm(bytes, time, rate, channels, at);
        }
      case Plan(cutoff, delay) => stream.SetPlaybackPlan(cutoff, delay);
      case OtherAttaches =>
        var header, position := stream.AttachSubscriber();
      case OtherDetaches =>
        if stream.subscribers > 1 {
          stream.DetachSubscriber();
        }
      case Polls(_) =>
      case Closes => stream.Close();
    }
  }

  method HappenAll(stream: LiveStream, ops: seq<Op>)
    requires stream.Valid() && stream.HeaderFirst()
    modifies stream, stream.Shared()
    ensures stream.Valid() && stream.HeaderFirst() && stream.totals == old(stream.totals)
  {
    hide LiveStream.Valid, LiveStream.HeaderFirst;
    var i := 0;
    while i < |ops|
      invariant stream.Valid() && stream.HeaderFirst() && stream.totals == old(stream.totals)
    {
      Happen(stream, ops[i]);
      i := i + 1;
    }
  }

  /** However publication, other subscribers, plans and polls interleave, a response that attaches
      after `before` and is read during `after` refines the stream. */
  method Respond(stream: LiveStream, before: seq<Op>, after: seq<Op>) returns (body: HttpBody)
    requires stream.Valid() && stream.HeaderFirst()
    modifies stream, stream.Shared()
    ensures fresh(body) && body.stream == stream && body.Valid() && body.Refines()
  {
    hide LiveStream.Valid, LiveStream.HeaderFirst, HttpBody.Valid;
    HappenAll(stream, before);
    body := new HttpBody(stream);
    var i := 0;
    while i < |after|
      invariant stream.Valid() && stream.HeaderFirst() && stream.totals == old(stream.totals) && stream.subscribers > 0
      invariant body.Valid() && body.stream == stream && fresh(body)
    {
      if after[i].Polls? {
        var piece := body.Poll(after[i].at);
      } else {
        HappenBeside(stream, body, after[i]);
      }
      i := i + 1;
    }
    body.BodyRefines();
  }

  /** What happens to the stream does not disturb a body. */
  method HappenBeside(stream: LiveStream, body: HttpBody, op: Op)
    requires stream.Valid() && stream.HeaderFirst() && stream.subscribers > 0
    requires body.Valid() && body.stream == stream
    modifies stream, stream.Shared()
    ensures stream.Valid() && stream.HeaderFirst() && stream.totals == old(stream.totals) && stream.subscribers > 0
    ensures body.Valid()
    ensures Broadcast(old(stream.sent), stream.sent, op) && (old(stream.closed) ==> stream.closed)
    ensures stream.closed ==> stream.sent == old(stream.sent)
  {
    ghost var sent := stream.sent;
    Happen(stream, op);
    assert stream.sent[body.start..body.position] == sent[body.start..body.position];
  }

  /** A reader that is polled within two seconds of whatever happens misses nothing: while the
      stream is open it has the one header and every chunk that was broadcast after it, and when
      the stream closes it has all that was broadcast until then. */
  method RespondInTime(stream: LiveStream, start: real, after: seq<(Op, real)>) returns (body: HttpBody)
    requires stream.Valid() && stream.HeaderFirst()
    requires forall i :: 0 <= i < |after| && after[i].0.Publishes() ==> after[i].1 - after[i].0.at <= 2.0
    modifies stream, stream.Shared()
    ensures fresh(body) && body.stream == stream && body.Valid() && stream.Valid() && stream.HeaderFirst()
    ensures body.ended == stream.closed
    ensures body.start == |old(stream.sent)| && body.first == old(stream.prelude)
    ensures if old(stream.closed) then body.delivered == []
            else body.delivered == body.Began() + Concat(stream.sent[body.start..])
    ensures !stream.closed && stream.prelude.Some? ==>
              var from := if old(stream.prelude).Some? then |old(stream.sent)| else |stream.lead|;
              from <= |stream.sent| && body.delivered == stream.prelude.value + Concat(stream.sent[from..])
  {
    hide LiveStream.Valid, LiveStream.HeaderFirst, HttpBody.Valid, Concat;
    body := new HttpBody(stream);
    body.CatchUp(start);
    if !stream.closed {
      body.AllOut();
    }
    var i := 0;
    while i < |after|
      invariant stream.Valid() && stream.HeaderFirst() && stream.totals == old(stream.totals) && stream.subscribers > 0
      invariant body.Valid() && body.stream == stream && fresh(body) && body.ended == stream.closed
      invariant if old(stream.closed) then stream.closed && body.delivered == [] else body.CaughtUp()
    {
      HappenBeside(stream, body, after[i].0);
      body.CatchUp(after[i].1);
      if !stream.closed {
        body.AllOut();
      }
      i := i + 1;
    }
    if !stream.closed && stream.prelude.Some? {
      body.HeaderOnce();
    }
  }

  /** A receiver that has kept up stays within the ring whatever one publication sends. */
  method PublishBesideReader(stream: LiveStream, body: HttpBody, bytes: seq<Byte>, now: real)
    requires stream.Valid() && body.stream == stream && body.position == |stream.sent|
    modifies stream, stream.Shared()
    ensures stream.Valid() && |stream.sent| - body.position <= RING
  {
    PublishFitsRing(bytes, now);
    stream.Publish(bytes, now);
  }
}
