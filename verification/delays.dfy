/** Room delays: `sync.rs` and the sync clauses of `config.rs`. Offsets and delays are
    milliseconds. */
module Delays {
  import opened Numbers

  const I64_MIN: int := -0x8000_0000_0000_0000
  const I64_MAX: int := 0x7fff_ffff_ffff_ffff

  function Clamp(x: int, lo: int, hi: int): int { Max(lo, Min(hi, x)) }
  function SaturatingSub(a: int, b: int): int { Clamp(a - b, I64_MIN, I64_MAX) }

  function RecommendedDelay(offset: int, slowest: int): (r: nat)
    ensures offset <= slowest && slowest - offset <= I64_MAX ==> offset + r == slowest
    ensures slowest < offset ==> r == 0
    ensures slowest - offset > I64_MAX ==> r == I64_MAX
  {
    Max(0, SaturatingSub(slowest, offset))
  }

  /** The largest offset of `zones`, or zero when there is none. */
  function Slowest<Z(==)>(zones: seq<Z>, offsets: map<Z, int>): (r: int)
    requires forall z :: z in zones ==> z in offsets
    ensures forall z :: z in zones ==> offsets[z] <= r
    ensures zones == [] ==> r == 0
    ensures zones != [] ==> exists z :: z in zones && offsets[z] == r
  {
    if zones == [] then 0
    else if |zones| == 1 then offsets[zones[0]]
    else Max(offsets[zones[0]], Slowest(zones[1..], offsets))
  }

  /** The delay of every zone, by zone. */
  function DelaysFromOffsets<Z(==)>(zones: seq<Z>, offsets: map<Z, int>): map<Z, nat>
    requires forall z :: z in zones ==> z in offsets
  {
    map z | z in zones :: RecommendedDelay(offsets[z], Slowest(zones, offsets))
  }

  /** Where 64 bits can subtract the offsets, a room's delay makes up for its latency exactly. */
  lemma DelaysExact<Z>(zones: seq<Z>, offsets: map<Z, int>)
    requires forall z :: z in zones ==> z in offsets
    requires forall y, z :: y in zones && z in zones ==> offsets[y] - offsets[z] <= I64_MAX
    ensures var delays := DelaysFromOffsets(zones, offsets);
            && (forall z :: z in zones ==> z in delays && offsets[z] + delays[z] == Slowest(zones, offsets))
            && (zones != [] ==> exists z :: z in zones && delays[z] == 0)
  {
    var slowest := Slowest(zones, offsets);
    if zones != [] {
      var y :| y in zones && offsets[y] == slowest;
      forall z | z in zones ensures RecommendedDelay(offsets[z], slowest) == slowest - offsets[z] {
        assert offsets[y] - offsets[z] <= I64_MAX;
      }
      assert DelaysFromOffsets(zones, offsets)[y] == 0;
    }
  }

  /** Every room ends up equally late, at the slowest room's latency, which is not delayed. */
  lemma DelaysAlign<Z>(zones: seq<Z>, offsets: map<Z, int>, lo: int, hi: int)
    requires zones != []
    requires forall z :: z in zones ==> z in offsets && lo <= offsets[z] <= hi
    requires I64_MIN <= lo && hi <= I64_MAX && hi - lo <= I64_MAX
    ensures var delays := DelaysFromOffsets(zones, offsets);
            && (forall y, z :: y in zones && z in zones ==> offsets[y] + delays[y] == offsets[z] + delays[z])
            && (exists z :: z in zones && delays[z] == 0)
            && (forall z :: z in zones ==> delays[z] <= hi - lo)
  {
    hide DelaysFromOffsets;
    DelaysExact(zones, offsets);
  }

  // ---- Configuration ----

  datatype Room = Room(id: string, name: string)
  datatype Entry = Entry(key: string, offset: int)

  /** The sync section. `offsets` lists the entries of `zone_offsets_ms`, which have distinct keys. */
  datatype SyncConfig = SyncConfig(fallback: int, window: nat, deadline: nat, offsets: seq<Entry>)

  /** The sync clauses of `Config::validate`. */
  predicate Validated(c: SyncConfig) {
    && -10_000 <= c.fallback <= 10_000
    && (forall i :: 0 <= i < |c.offsets| ==> -10_000 <= c.offsets[i].offset <= 10_000)
    && c.deadline <= 60_000 && c.window <= c.deadline
  }

  predicate Lists(offsets: seq<Entry>, key: string) {
    exists i :: 0 <= i < |offsets| && offsets[i].key == key
  }

  function Lookup(offsets: seq<Entry>, key: string): (r: int)
    requires Lists(offsets, key)
    ensures exists i :: 0 <= i < |offsets| && offsets[i] == Entry(key, r)
  {
    if offsets[0].key == key then offsets[0].offset else Lookup(offsets[1..], key)
  }

  /** A room's offset: by its id, else by its name, else the default. */
  function ConfiguredOffset(c: SyncConfig, room: Room): (r: int)
    ensures (exists x :: x in c.offsets && x.key == room.id) ==> Entry(room.id, r) in c.offsets
    ensures (exists x :: x in c.offsets && x.key == room.name) && !(exists x :: x in c.offsets && x.key == room.id) ==>
              Entry(room.name, r) in c.offsets
    ensures (forall x :: x in c.offsets ==> x.key != room.id && x.key != room.name) ==> r == c.fallback
  {
    if Lists(c.offsets, room.id) then Lookup(c.offsets, room.id)
    else if Lists(c.offsets, room.name) then Lookup(c.offsets, room.name)
    else c.fallback
  }

  /** The offsets by id. The last of several rooms with one id counts. */
  function OffsetsOf(c: SyncConfig, rooms: seq<Room>): map<string, int>
  {
    if rooms == [] then map[]
    else
      var last := rooms[|rooms| - 1];
      OffsetsOf(c, rooms[..|rooms| - 1])[last.id := ConfiguredOffset(c, last)]
  }

  lemma {:induction false} OffsetsLast(c: SyncConfig, rooms: seq<Room>, i: nat)
    requires i < |rooms| && forall j :: i < j < |rooms| ==> rooms[j].id != rooms[i].id
    ensures var r := OffsetsOf(c, rooms); rooms[i].id in r && r[rooms[i].id] == ConfiguredOffset(c, rooms[i])
    decreases |rooms|
  {
    hide ConfiguredOffset;
    if i < |rooms| - 1 {
      OffsetsLast(c, rooms[..|rooms| - 1], i);
    }
  }

  function RoomIds(rooms: seq<Room>): (r: seq<string>)
    ensures |r| == |rooms| && forall i :: 0 <= i < |rooms| ==> r[i] == rooms[i].id
  {
    seq(|rooms|, i requires 0 <= i < |rooms| => rooms[i].id)
  }

  function ConfiguredDelays(c: SyncConfig, rooms: seq<Room>): map<string, nat> {
    OffsetsKeys(c, rooms);
    DelaysFromOffsets(RoomIds(rooms), OffsetsOf(c, rooms))
  }

  /** The smallest and the largest configured offset, clamped. */
  function Range(offsets: seq<Entry>, lo: int, hi: int): (r: (int, int))
    ensures r.0 <= lo && hi <= r.1
    ensures forall i :: 0 <= i < |offsets| ==> r.0 <= Clamp(offsets[i].offset, -10_000, 10_000) <= r.1
    ensures r.0 == lo || exists i :: 0 <= i < |offsets| && r.0 == Clamp(offsets[i].offset, -10_000, 10_000)
    ensures r.1 == hi || exists i :: 0 <= i < |offsets| && r.1 == Clamp(offsets[i].offset, -10_000, 10_000)
    ensures -10_000 <= lo && hi <= 10_000 ==> -10_000 <= r.0 && r.1 <= 10_000
    decreases |offsets|
  {
    if offsets == [] then (lo, hi)
    else
      var offset := Clamp(offsets[0].offset, -10_000, 10_000);
      Range(offsets[1..], Min(lo, offset), Max(hi, offset))
  }

  function Spread(c: SyncConfig): (r: nat)
    ensures r <= 20_000
  {
    var fallback := Clamp(c.fallback, -10_000, 10_000);
    var r := Range(c.offsets, fallback, fallback);
    r.1 - r.0
  }

  function PcmQueueDuration(c: SyncConfig): nat {
    Min(c.deadline, 60_000) + Spread(c) + 250
  }

  lemma OffsetInRange(c: SyncConfig, room: Room)
    requires Validated(c)
    ensures var r := Range(c.offsets, c.fallback, c.fallback);
            r.0 <= ConfiguredOffset(c, room) <= r.1 && -10_000 <= r.0 && r.1 <= 10_000
            && r.1 - r.0 == Spread(c)
  {
    hide Range, ConfiguredOffset;
    var r := Range(c.offsets, c.fallback, c.fallback);
    FallbackInRange(c);
    assert forall i :: 0 <= i < |c.offsets| ==> r.0 <= c.offsets[i].offset <= r.1 by {
      forall i | 0 <= i < |c.offsets| ensures r.0 <= c.offsets[i].offset <= r.1 {
        assert Clamp(c.offsets[i].offset, -10_000, 10_000) == c.offsets[i].offset;
      }
    }
  }

  lemma FallbackInRange(c: SyncConfig)
    requires Validated(c)
    ensures var r := Range(c.offsets, c.fallback, c.fallback);
            r.0 <= c.fallback <= r.1 && -10_000 <= r.0 && r.1 <= 10_000 && r.1 - r.0 == Spread(c)
    ensures Spread(c) == PcmQueueDuration(c) - c.deadline - 250
  {
    assert Clamp(c.fallback, -10_000, 10_000) == c.fallback;
  }

  lemma {:induction false} OffsetsFit(c: SyncConfig, rooms: seq<Room>)
    requires Validated(c)
    ensures var r := Range(c.offsets, c.fallback, c.fallback);
            forall z :: z in OffsetsOf(c, rooms) ==> r.0 <= OffsetsOf(c, rooms)[z] <= r.1
  {
    hide Range, ConfiguredOffset;
    if rooms != [] {
      OffsetsFit(c, rooms[..|rooms| - 1]);
      OffsetInRange(c, rooms[|rooms| - 1]);
    }
  }

  lemma {:induction false} OffsetsKeys(c: SyncConfig, rooms: seq<Room>)
    ensures forall z :: z in RoomIds(rooms) <==> z in OffsetsOf(c, rooms)
  {
    hide ConfiguredOffset;
    if rooms != [] {
      var front := rooms[..|rooms| - 1];
      OffsetsKeys(c, front);
      assert RoomIds(rooms) == RoomIds(front) + [rooms[|rooms| - 1].id];
    }
  }

  /** An offset that the configuration can give a room. */
  predicate Configured(c: SyncConfig, offset: int) {
    offset == c.fallback || exists i :: 0 <= i < |c.offsets| && c.offsets[i].offset == offset
  }

  /** The queue is just as long as the start deadline, 250 ms, and the largest difference between
      two offsets that the configuration can give. */
  lemma QueueDurationExact(c: SyncConfig) returns (least: int, most: int)
    requires Validated(c)
    ensures Configured(c, least) && Configured(c, most) && PcmQueueDuration(c) == c.deadline + (most - least) + 250
    ensures forall a, b :: Configured(c, a) && Configured(c, b) ==> c.deadline + (b - a) + 250 <= PcmQueueDuration(c)
  {
    FallbackInRange(c);
    var r := Range(c.offsets, c.fallback, c.fallback);
    forall i | 0 <= i < |c.offsets|
      ensures Clamp(c.offsets[i].offset, -10_000, 10_000) == c.offsets[i].offset
    {
    }
    least, most := r.0, r.1;
    forall a | Configured(c, a)
      ensures r.0 <= a <= r.1
    {
    }
  }

  /** With a validated configuration, rooms that start together are aligned, one of them is not
      delayed, and the input queue outlasts the start deadline, every delay and 250 ms more. */
  lemma ConfiguredDelaysFit(c: SyncConfig, rooms: seq<Room>)
    requires Validated(c) && rooms != []
    ensures var delays := ConfiguredDelays(c, rooms);
            var offsets := OffsetsOf(c, rooms);
            && delays.Keys == offsets.Keys
            && (forall y, z :: y in delays && z in delays ==> offsets[y] + delays[y] == offsets[z] + delays[z])
            && (exists z :: z in delays && delays[z] == 0)
            && (forall z :: z in delays ==> c.deadline + delays[z] + 250 <= PcmQueueDuration(c))
  {
    hide Range, ConfiguredOffset, OffsetsOf, RoomIds;
    var r := Range(c.offsets, c.fallback, c.fallback);
    OffsetsKeys(c, rooms);
    OffsetsFit(c, rooms);
    OffsetInRange(c, rooms[0]);
    DelaysAlign(RoomIds(rooms), OffsetsOf(c, rooms), r.0, r.1);
  }
}
