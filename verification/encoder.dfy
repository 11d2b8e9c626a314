/** The WAV encoder's loop and the tail of ffmpeg's error output, `encoder.rs`. */
module Encoders {
  import opened BridgeState
  import opened LiveTiming
  import opened LiveStreams
  import Pcm

  /** A sample as 16-bit little-endian PCM. The rounding is not part of this model. */
  type Encoding = f: Pcm.Sample -> seq<Byte> | forall x :: |f(x)| == 2 witness (x => [0, 0])

  function ToBytes(encode: Encoding, samples: seq<Pcm.Sample>): (r: seq<Byte>)
    ensures |r| == |samples| * 2
    ensures forall i :: 0 <= i < |samples| ==> r[2 * i..2 * i + 2] == encode(samples[i])
  {
    if samples == [] then [] else encode(samples[0]) + ToBytes(encode, samples[1..])
  }

  /** A frame that the loop publishes: of the stream's epoch, and if it has no source time, one
      that arrived after the release. */
  predicate Passes(epoch: nat, release: Release, x: Pcm.Queued) {
    x.frame.epoch == epoch && (x.frame.time.None? ==> x.at >= release.at)
  }

  /** What the stream emits of an entry of its queue. */
  function Heard(encode: Encoding, epoch: nat, release: Release, x: Pcm.Queued): seq<Byte> {
    var f := x.frame;
    var bytes := ToBytes(encode, f.samples);
    if !Passes(epoch, release, x) then []
    else if f.time.Some? then Trim(bytes, f.time.value, release.at, f.rate, f.channels)
    else bytes
  }

  function HeardAll(encode: Encoding, epoch: nat, release: Release, entries: seq<Pcm.Queued>): seq<Byte> {
    if entries == [] then []
    else HeardAll(encode, epoch, release, entries[..|entries| - 1]) + Heard(encode, epoch, release,
        entries[|entries| - 1])
  }

  /** When an entry is done with, if the loop got to it at `now`: one that passes waits for its
      time, or its arrival when it has none, plus the delay. */
  ghost function PresentedAt(epoch: nat, release: Release, x: Pcm.Queued, now: real): (at: real)
    ensures at >= now
    ensures Passes(epoch, release, x) && release.delay > 0.0 ==>
              at >= (if x.frame.time.Some? then x.frame.time.value else x.at) + release.delay
  {
    var due := (if x.frame.time.Some? then x.frame.time.value else x.at) + release.delay;
    if Passes(epoch, release, x) && release.delay > 0.0 && due > now then due else now
  }

  /** When the loop gets to entry `i`. */
  ghost function Previous(times: seq<real>, start: real, i: int): real
    requires 0 <= i <= |times|
  {
    if i == 0 then start else times[i - 1]
  }

  /** One turn of the loop, at `now`. */
  method EncodeFrame(stream: LiveStream, encode: Encoding, release: Release, x: Pcm.Queued,
        now: real) returns (at: real)
    requires stream.Valid() && stream.connected && !stream.closed && stream.anchor == AnchorAt(release.at)
    requires |x.frame.samples| * 2 <= MAX_PUBLISH && release.delay >= 0.0
    modifies stream, stream.Shared()
    ensures stream.Valid() && stream.connected && !stream.closed && stream.anchor == AnchorAt(release.at)
    ensures stream.totals == old(stream.totals) && stream.epoch == old(stream.epoch)
    ensures Concat(stream.sent) == Concat(old(stream.sent)) + Heard(encode, stream.epoch, release, x)
    ensures at == PresentedAt(stream.epoch, release, x, now)
    ensures stream.sent == old(stream.sent) + Split(Heard(encode, stream.epoch, release, x), at)
  {
    hide Trim, Split;
    at := now;
    SendsNothing(stream.sent, now);
    if !stream.AcceptsEpoch(x.frame.epoch) {
      return;
    }
    if x.frame.time.None? && x.at < release.at {
      return;
    }
    if release.delay != 0.0 {
      var due := (if x.frame.time.Some? then x.frame.time.value else x.at) + release.delay;
      if at < due {
        at := due;
      }
    }
    var bytes := ToBytes(encode, x.frame.samples);
    ghost var played := stream.Played(bytes, x.frame.time, x.frame.rate, x.frame.channels, release.at);
    stream.TrimShorter(bytes, x.frame.time, x.frame.rate, x.frame.channels, release.at);
    SplitConcat(played, at);
    ConcatAppend(stream.sent, Split(played, at));
    SendsNothing(stream.sent, at);
    stream.PublishTimedPcm(bytes, x.frame.time, x.frame.rate, x.frame.channels, at);
  }

  lemma SendsNothing(sent: seq<Chunk>, at: real)
    ensures sent + Split([], at) == sent == sent + []
  {
  }

  /** Each entry goes out as soon as the one before it is out and, with a delay, it is due. */
  ghost predicate OnTime(epoch: nat, release: Release, entries: seq<Pcm.Queued>, start: real, times: seq<real>) {
    && |times| <= |entries|
    && forall i :: 0 <= i < |times| ==>
         times[i] == PresentedAt(epoch, release, entries[i], Previous(times, start, i))
  }

  lemma NothingLate(epoch: nat, release: Release, entries: seq<Pcm.Queued>, start: real)
    ensures OnTime(epoch, release, entries, start, []) && Previous([], start, 0) == start
  {
  }

  lemma StillOnTime(epoch: nat, release: Release, entries: seq<Pcm.Queued>, start: real, times: seq<real>, now: real)
    requires OnTime(epoch, release, entries, start, times) && |times| < |entries|
    requires now == PresentedAt(epoch, release, entries[|times|], Previous(times, start, |times|))
    ensures OnTime(epoch, release, entries, start, times + [now])
    ensures Previous(times + [now], start, |times| + 1) == now
  {
    hide PresentedAt;
    var longer := times + [now];
    forall i | 0 <= i < |longer|
      ensures longer[i] == PresentedAt(epoch, release, entries[i], Previous(longer, start, i))
    {
      assert Previous(longer, start, i) == Previous(times, start, i);
    }
  }

  /** The loop over what the queue gives: the output is that of the frames that pass, in order,
      and each goes out as soon as the one before it is out and, with a delay, it is due. */
  method EncodeWav(stream: LiveStream, encode: Encoding, release: Release, entries: seq<Pcm.Queued>, start: real)
      returns (times: seq<real>)
    requires stream.Valid() && stream.connected && !stream.closed && stream.anchor == AnchorAt(release.at)
    requires (forall x :: x in entries ==> |x.frame.samples| * 2 <= MAX_PUBLISH) && release.delay >= 0.0
    modifies stream, stream.Shared()
    ensures stream.Valid() && stream.epoch == old(stream.epoch)
    ensures Concat(stream.sent) == Concat(old(stream.sent)) + HeardAll(encode, stream.epoch, release, entries)
    ensures |times| == |entries|
    ensures OnTime(stream.epoch, release, entries, start, times)
  {
    hide Heard, Concat, Split, OnTime, PresentedAt, Previous;
    var now := start;
    times := [];
    NothingLate(stream.epoch, release, entries, start);
    while |times| < |entries|
      invariant |times| <= |entries|
      invariant stream.Valid() && stream.connected && !stream.closed && stream.anchor == AnchorAt(release.at)
      invariant stream.totals == old(stream.totals) && stream.epoch == old(stream.epoch)
      invariant Concat(stream.sent) == Concat(old(stream.sent)) + HeardAll(encode, stream.epoch, release,
          entries[..|times|])
      invariant now == Previous(times, start, |times|) && OnTime(stream.epoch, release, entries, start, times)
    {
      var i := |times|;
      now := EncodeFrame(stream, encode, release, entries[i], now);
      assert entries[..i + 1][..i] == entries[..i] && entries[..i + 1][i] == entries[i];
      StillOnTime(stream.epoch, release, entries, start, times, now);
      times := times + [now];
    }
    assert entries[..|times|] == entries;
  }

  // ---- From the source to the listener ----

  /** The entries carry the frames of a source from `from` on, cut at `cuts`, in one epoch. */
  ghost predicate Carries(encode: Encoding, entries: seq<Pcm.Queued>, epoch: nat, s: Source, cuts: seq<nat>, from: nat)
    requires s.rate > 0
  {
    if entries == [] then cuts == [] && from == |s.frames|
    else
      var f := entries[0].frame;
      && cuts != [] && from <= cuts[0] <= |s.frames|
      && f.epoch == epoch && f.rate == s.rate && f.channels == s.channels && f.time == Some(FrameTime(s, from))
      && ToBytes(encode, f.samples) == Flatten(s.frames[from..cuts[0]])
      && Carries(encode, entries[1..], epoch, s, cuts[1..], cuts[0])
  }

  lemma {:induction false} HeardFirst(encode: Encoding, epoch: nat, release: Release, entries: seq<Pcm.Queued>)
    requires entries != []
    ensures HeardAll(encode, epoch, release, entries) ==
            Heard(encode, epoch, release, entries[0]) + HeardAll(encode, epoch, release, entries[1..])
    decreases |entries|
  {
    hide Heard;
    var front, last := entries[..|entries| - 1], entries[|entries| - 1];
    if front == [] {
      assert entries[1..] == [];
    } else {
      HeardFirst(encode, epoch, release, front);
      assert front[1..] == entries[1..][..|entries| - 2];
      assert front[0] == entries[0] && entries[1..][|entries| - 2] == last;
    }
  }

  lemma {:induction false} HeardEmitted(encode: Encoding, entries: seq<Pcm.Queued>, epoch: nat, release: Release,
        s: Source,
                                        cuts: seq<nat>, from: nat)
    requires s.rate > 0 && Carries(encode, entries, epoch, s, cuts, from)
    ensures HeardAll(encode, epoch, release, entries) == Emitted(s, cuts, from, release.at)
    ensures Cuts(s, cuts, from)
    decreases |entries|
  {
    hide Trim, Flatten, FrameTime;
    if entries != [] {
      HeardFirst(encode, epoch, release, entries);
      HeardEmitted(encode, entries[1..], epoch, release, s, cuts[1..], cuts[0]);
    }
  }

  /** A stream emits exactly the source from the cutoff on, so rooms with one cutoff play the
      same bytes, whatever packets reached them. */
  lemma HeardFromCutoff(encode: Encoding, entries: seq<Pcm.Queued>, epoch: nat, release: Release, s: Source,
        cuts: seq<nat>)
    requires ValidSource(s) && Carries(encode, entries, epoch, s, cuts, 0)
    ensures HeardAll(encode, epoch, release, entries) == Flatten(s.frames[FirstFrame(s, release.at)..])
  {
    hide HeardAll, Emitted, Flatten, FirstFrame;
    HeardEmitted(encode, entries, epoch, release, s, cuts, 0);
    EmittedSuffix(s, cuts, 0, release.at);
  }

  // ---- ffmpeg's error output ----

  const TAIL_BYTES: nat := 16 * 1024
  const READ_BYTES: nat := 4096

  function Suffix(bytes: seq<Byte>, n: nat): seq<Byte> {
    if |bytes| <= n then bytes else bytes[|bytes| - n..]
  }

  /** Reads to the end and keeps the last 16 KiB. */
  method ReadTail(pieces: seq<seq<Byte>>) returns (tail: seq<Byte>)
    requires forall r :: r in pieces ==> |r| <= READ_BYTES
    ensures tail == Suffix(Flatten(pieces), TAIL_BYTES)
  {
    tail := [];
    var i := 0;
    while i < |pieces|
      invariant i <= |pieces| && tail == Suffix(Flatten(pieces[..i]), TAIL_BYTES)
    {
      var excess := if |tail| + |pieces[i]| > TAIL_BYTES then |tail| + |pieces[i]| - TAIL_BYTES else 0;
      assert pieces[..i + 1] == pieces[..i] + [pieces[i]];
      FlattenAppend(pieces[..i], [pieces[i]]);
      OneRead(pieces[i]);
      tail := tail[excess..] + pieces[i];
      i := i + 1;
    }
    assert pieces[..i] == pieces;
  }

  lemma OneRead(read: seq<Byte>)
    ensures Flatten([read]) == read
  {
    assert [read][1..] == [];
  }
}
