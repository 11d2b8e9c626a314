/** Where a WAV stream's output begins: the trimming of timed PCM at the playback anchor, and why
    it does not depend on how the source was cut into packets. Times are seconds, exact. */
module LiveTiming {
  import opened Numbers

  type Byte = int

  function Ceil(x: real): (r: int)
    ensures r as real - 1.0 < x <= r as real
  {
    -((-x).Floor)
  }

  lemma ProductPositive(a: real, b: real)
    requires a >= 0.0 && b >= 0.0
    ensures a * b >= 0.0
  {
  }

  /** The sample frames that begin within `gap`. */
  function FramesWithin(gap: real, rate: nat): nat
    requires gap >= 0.0
  {
    ProductPositive(gap, rate as real);
    Ceil(gap * rate as real)
  }

  /** What remains of a packet of 16-bit PCM that starts at `time`: the sample frames at or
      after `anchor`. */
  function Trim(bytes: seq<Byte>, time: real, anchor: real, rate: nat, channels: nat): seq<Byte> {
    var frameBytes := channels * 2;
    if frameBytes == 0 || rate == 0 then bytes
    else
      var count := |bytes| / frameBytes;
      if time + count as real / rate as real <= anchor then []
      else if time < anchor then
        var skip := Min(FramesWithin(anchor - time, rate), count);
        SkipFits(bytes, skip, frameBytes);
        bytes[skip * frameBytes..]
      else bytes
  }

  lemma SkipFits(bytes: seq<Byte>, skip: nat, frameBytes: nat)
    requires frameBytes > 0 && skip <= |bytes| / frameBytes
    ensures 0 <= skip * frameBytes <= |bytes|
  {
    var count := |bytes| / frameBytes;
    assert skip * frameBytes <= count * frameBytes <= |bytes|;
  }

  // ---- Packets of one source ----

  /** A source of `|frames|` sample frames, the first at `start`. Frame `i` is presented at
      `start + i / rate`. */
  datatype Source = Source(frames: seq<seq<Byte>>, start: real, rate: nat, channels: nat)

  ghost predicate ValidSource(s: Source) {
    s.rate > 0 && s.channels > 0 && forall f :: f in s.frames ==> |f| == s.channels * 2
  }

  function FrameTime(s: Source, i: nat): real
    requires s.rate > 0
  {
    s.start + i as real / s.rate as real
  }

  function Flatten(frames: seq<seq<Byte>>): seq<Byte> {
    if frames == [] then [] else frames[0] + Flatten(frames[1..])
  }

  /** The packets of a source that is cut after the frames in `cuts`. */
  ghost predicate Cuts(s: Source, cuts: seq<nat>, from: nat) {
    if cuts == [] then from == |s.frames|
    else from <= cuts[0] <= |s.frames| && Cuts(s, cuts[1..], cuts[0])
  }

  /** What a stream emits of the packets from frame `from` on. */
  function Emitted(s: Source, cuts: seq<nat>, from: nat, anchor: real): seq<Byte>
    requires s.rate > 0
    decreases |cuts|
  {
    if cuts == [] || !(from <= cuts[0] <= |s.frames|) then []
    else
      Trim(Flatten(s.frames[from..cuts[0]]), FrameTime(s, from), anchor, s.rate, s.channels) +
      Emitted(s, cuts[1..], cuts[0], anchor)
  }

  /** The first frame at or after `anchor`. */
  function FirstFrame(s: Source, anchor: real): (r: nat)
    requires s.rate > 0
    ensures r <= |s.frames|
  {
    Max(0, Min(|s.frames|, Ceil((anchor - s.start) * s.rate as real)))
  }

  lemma FrameScaled(s: Source, i: nat, anchor: real)
    requires s.rate > 0
    ensures (anchor - FrameTime(s, i)) * s.rate as real == (anchor - s.start) * s.rate as real - i as real
    ensures FrameTime(s, i) < anchor <==> (i as real) < (anchor - s.start) * s.rate as real
  {
    var r := s.rate as real;
    var x := i as real / r;
    assert x * r == i as real;
    assert (anchor - (s.start + x)) * r == (anchor - s.start) * r - x * r;
    var gap := anchor - FrameTime(s, i);
    assert gap > 0.0 ==> gap * r > 0.0;
    assert gap <= 0.0 ==> gap * r <= 0.0;
  }

  /** The first frame is the first one that is not before the anchor. */
  lemma FirstFrameExact(s: Source, anchor: real, i: nat)
    requires s.rate > 0 && i < |s.frames|
    ensures FrameTime(s, i) >= anchor <==> i >= FirstFrame(s, anchor)
  {
    FrameScaled(s, i, anchor);
  }

  lemma FlattenFirst(first: seq<Byte>, rest: seq<seq<Byte>>)
    ensures Flatten([first] + rest) == first + Flatten(rest)
  {
    assert ([first] + rest)[1..] == rest;
  }

  lemma Associative(a: seq<Byte>, b: seq<Byte>, c: seq<Byte>)
    ensures a + (b + c) == (a + b) + c
  {
  }

  lemma {:induction false} FlattenAppend(a: seq<seq<Byte>>, b: seq<seq<Byte>>)
    ensures Flatten(a + b) == Flatten(a) + Flatten(b)
    decreases |a|, 0
  {
    if a == [] {
      assert a + b == b;
    } else {
      FlattenFromFirst(a[0], a[1..], b);
      assert a == [a[0]] + a[1..];
    }
  }

  lemma {:induction false} FlattenFromFirst(first: seq<Byte>, rest: seq<seq<Byte>>, b: seq<seq<Byte>>)
    ensures Flatten([first] + rest + b) == Flatten([first] + rest) + Flatten(b)
    decreases |rest|, 1
  {
    hide Flatten;
    FlattenAppend(rest, b);
    FlattenFirst(first, rest);
    FlattenFirst(first, rest + b);
    Associative(first, Flatten(rest), Flatten(b));
    assert [first] + rest + b == [first] + (rest + b);
  }

  lemma OneMore(count: nat, n: nat)
    ensures (count + 1) * n == count * n + n
  {
  }

  lemma {:induction false} FlattenLength(frames: seq<seq<Byte>>, n: nat)
    requires forall f :: f in frames ==> |f| == n
    ensures |Flatten(frames)| == |frames| * n
  {
    if frames != [] {
      FlattenLength(frames[1..], n);
      OneMore(|frames| - 1, n);
    }
  }

  lemma DropFrames(frames: seq<seq<Byte>>, skip: nat, n: nat)
    requires skip <= |frames| && forall f :: f in frames ==> |f| == n
    ensures skip * n <= |Flatten(frames)| && Flatten(frames)[skip * n..] == Flatten(frames[skip..])
  {
    assert frames == frames[..skip] + frames[skip..];
    FlattenAppend(frames[..skip], frames[skip..]);
    FlattenLength(frames[..skip], n);
  }

  lemma TrimNone(bytes: seq<Byte>, time: real, anchor: real, rate: nat, channels: nat, count: nat, n: nat)
    requires rate > 0 && channels > 0 && n == channels * 2 && |bytes| == count * n
    requires time + count as real / rate as real <= anchor
    ensures Trim(bytes, time, anchor, rate, channels) == []
  {
    WholeFrames(count, n);
  }

  lemma TrimSome(bytes: seq<Byte>, time: real, anchor: real, rate: nat, channels: nat, count: nat, n: nat)
    requires rate > 0 && channels > 0 && n == channels * 2 && |bytes| == count * n
    requires time < anchor < time + count as real / rate as real && FramesWithin(anchor - time, rate) <= count
    ensures var skip := FramesWithin(anchor - time, rate);
            skip * n <= |bytes| && Trim(bytes, time, anchor, rate, channels) == bytes[skip * n..]
  {
    hide FramesWithin;
    WholeFrames(count, n);
    SkipFits(bytes, FramesWithin(anchor - time, rate), n);
  }

  lemma TrimAll(bytes: seq<Byte>, time: real, anchor: real, rate: nat, channels: nat, count: nat, n: nat)
    requires rate > 0 && channels > 0 && n == channels * 2 && |bytes| == count * n
    requires anchor <= time && anchor < time + count as real / rate as real
    ensures Trim(bytes, time, anchor, rate, channels) == bytes
  {
    WholeFrames(count, n);
  }

  /** The kept part of a packet, by where the anchor lies. */
  lemma KeptFrames(s: Source, from: nat, to: nat, anchor: real)
    requires s.rate > 0 && from <= to <= |s.frames|
    ensures FrameTime(s, to) <= anchor ==> FirstFrame(s, anchor) >= to
    ensures FrameTime(s, from) >= anchor ==> FirstFrame(s, anchor) <= from
  {
    hide Ceil, FrameTime;
    FrameScaled(s, from, anchor);
    FrameScaled(s, to, anchor);
    CeilBounds((anchor - s.start) * s.rate as real, from);
    CeilBounds((anchor - s.start) * s.rate as real, to);
  }

  lemma CeilBounds(x: real, n: nat)
    ensures x <= n as real ==> Ceil(x) <= n
    ensures x >= n as real ==> Ceil(x) >= n
  {
  }

  lemma PacketLength(s: Source, from: nat, to: nat)
    requires ValidSource(s) && from <= to <= |s.frames|
    ensures |Flatten(s.frames[from..to])| == (to - from) * (s.channels * 2)
  {
    FlattenLength(s.frames[from..to], s.channels * 2);
  }

  lemma PacketAcross(s: Source, from: nat, to: nat, anchor: real)
    requires ValidSource(s) && from <= to <= |s.frames| && FrameTime(s, from) < anchor < FrameTime(s, to)
    ensures from <= FirstFrame(s, anchor) <= to
    ensures Trim(Flatten(s.frames[from..to]), FrameTime(s, from), anchor, s.rate, s.channels) ==
            Flatten(s.frames[from..to][FirstFrame(s, anchor) - from..])
  {
    hide Flatten, FrameTime, Trim, FramesWithin, FirstFrame;
    var packet := s.frames[from..to];
    var n := s.channels * 2;
    PacketLength(s, from, to);
    EndTime(s, from, to);
    PacketSkip(s, from, to, anchor);
    TrimSome(Flatten(packet), FrameTime(s, from), anchor, s.rate, s.channels, to - from, n);
    DropFrames(packet, FirstFrame(s, anchor) - from, n);
  }

  lemma PacketBefore(s: Source, from: nat, to: nat, anchor: real)
    requires ValidSource(s) && from <= to <= |s.frames| && FrameTime(s, to) <= anchor
    ensures Trim(Flatten(s.frames[from..to]), FrameTime(s, from), anchor, s.rate, s.channels) == []
  {
    hide Flatten, FrameTime, Trim;
    PacketLength(s, from, to);
    EndTime(s, from, to);
    TrimNone(Flatten(s.frames[from..to]), FrameTime(s, from), anchor, s.rate, s.channels, to - from, s.channels * 2);
  }

  lemma PacketAfter(s: Source, from: nat, to: nat, anchor: real)
    requires ValidSource(s) && from <= to <= |s.frames| && anchor <= FrameTime(s, from) && anchor < FrameTime(s, to)
    ensures var packet := Flatten(s.frames[from..to]);
            Trim(packet, FrameTime(s, from), anchor, s.rate, s.channels) == packet
  {
    hide Flatten, FrameTime, Trim;
    PacketLength(s, from, to);
    EndTime(s, from, to);
    TrimAll(Flatten(s.frames[from..to]), FrameTime(s, from), anchor, s.rate, s.channels, to - from, s.channels * 2);
  }

  /** Trimming a packet keeps its frames from the first one on. */
  lemma TrimPacket(s: Source, from: nat, to: nat, anchor: real)
    requires ValidSource(s) && from <= to <= |s.frames|
    ensures var first := FirstFrame(s, anchor);
            Trim(Flatten(s.frames[from..to]), FrameTime(s, from), anchor, s.rate, s.channels) ==
            Flatten(s.frames[Max(from, Min(first, to))..to])
  {
    hide Flatten, FrameTime, Trim, FirstFrame;
    var first := FirstFrame(s, anchor);
    KeptFrames(s, from, to, anchor);
    if FrameTime(s, to) <= anchor {
      PacketBefore(s, from, to, anchor);
      assert s.frames[to..to] == [];
      NoFrames();
    } else if FrameTime(s, from) < anchor {
      PacketAcross(s, from, to, anchor);
      assert s.frames[from..to][first - from..] == s.frames[first..to];
    } else {
      PacketAfter(s, from, to, anchor);
    }
  }

  lemma PacketSkip(s: Source, from: nat, to: nat, anchor: real)
    requires s.rate > 0 && from <= to <= |s.frames| && FrameTime(s, from) < anchor < FrameTime(s, to)
    ensures FramesWithin(anchor - FrameTime(s, from), s.rate) == FirstFrame(s, anchor) - from
    ensures from <= FirstFrame(s, anchor) <= to
  {
    hide Ceil, FrameTime;
    var x := (anchor - s.start) * s.rate as real;
    FrameScaled(s, from, anchor);
    FrameScaled(s, to, anchor);
    CeilMinus(x, from);
    CeilBounds(x, from);
    CeilBounds(x, to);
  }

  lemma NoFrames()
    ensures Flatten([]) == []
  {
  }

  lemma CeilMinus(x: real, n: nat)
    ensures Ceil(x - n as real) == Ceil(x) - n
  {
  }

  lemma WholeFrames(count: nat, n: nat)
    requires n > 0
    ensures count * n / n == count
  {
    var q := count * n / n;
    assert q * n <= count * n < q * n + n;
    assert q < count ==> (q + 1) * n <= count * n;
    assert q > count ==> (count + 1) * n <= q * n;
  }

  lemma EndTime(s: Source, from: nat, to: nat)
    requires s.rate > 0 && from <= to
    ensures FrameTime(s, from) + (to - from) as real / s.rate as real == FrameTime(s, to)
  {
  }

  /** However the source is cut into packets, a stream emits exactly its frames at or after the
      anchor. */
  lemma {:induction false} EmittedSuffix(s: Source, cuts: seq<nat>, from: nat, anchor: real)
    requires ValidSource(s) && Cuts(s, cuts, from)
    ensures var first := FirstFrame(s, anchor);
            from <= |s.frames| && Emitted(s, cuts, from, anchor) == Flatten(s.frames[Max(from, first)..])
    decreases |cuts|
  {
    hide Trim, Flatten, FirstFrame, FrameTime;
    var first := FirstFrame(s, anchor);
    if cuts == [] {
      NoFrames();
      assert s.frames[Max(from, first)..] == [];
    } else {
      var to := cuts[0];
      TrimPacket(s, from, to, anchor);
      EmittedSuffix(s, cuts[1..], to, anchor);
      var a := s.frames[Max(from, Min(first, to))..to];
      var b := s.frames[Max(to, first)..];
      FlattenAppend(a, b);
      assert a + b == s.frames[Max(from, first)..];
    }
  }

  /** Two rooms with one anchor emit the same bytes, whatever packets each of them got. */
  lemma RoomsEmitTheSame(s: Source, cuts: seq<nat>, others: seq<nat>, anchor: real)
    requires ValidSource(s) && Cuts(s, cuts, 0) && Cuts(s, others, 0)
    ensures Emitted(s, cuts, 0, anchor) == Emitted(s, others, 0, anchor)
  {
    EmittedSuffix(s, cuts, 0, anchor);
    EmittedSuffix(s, others, 0, anchor);
  }
}
