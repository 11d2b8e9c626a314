/** The generation that a stream URL names, `stream_generation` in `http.rs`. */
module HttpQueries {
  import opened BridgeState
  import opened Numbers

  datatype Answer = Generation(value: Option<nat>) | BadRequest

  predicate IsDigit(c: char) {
    '0' <= c <= '9'
  }

  predicate AllDigits(s: string) {
    forall i :: 0 <= i < |s| ==> IsDigit(s[i])
  }

  function Value(s: string): nat
    requires AllDigits(s)
  {
    if s == "" then 0 else Value(s[..|s| - 1]) * 10 + (s[|s| - 1] as int - '0' as int)
  }

  /** A decimal number that fits 64 bits. One leading plus sign is allowed. */
  function ParseU64(s: string): Option<nat> {
    var digits := if s != "" && s[0] == '+' then s[1..] else s;
    if digits != "" && AllDigits(digits) && Value(digits) <= U64_MAX then Some(Value(digits)) else None
  }

  /** The pieces of `s` between the occurrences of `c`. */
  function SplitAt(s: string, c: char): (r: seq<string>)
    ensures r != []
  {
    if s == "" then [""]
    else
      var rest := SplitAt(s[1..], c);
      if s[0] == c then [""] + rest else [[s[0]] + rest[0]] + rest[1..]
  }

  function FindChar(s: string, c: char): (r: Option<nat>)
    ensures r.Some? ==> r.value < |s| && s[r.value] == c && c !in s[..r.value]
    ensures r.None? ==> c !in s
  {
    if s == "" then None
    else if s[0] == c then Some(0)
    else match FindChar(s[1..], c)
         case None => None
         case Some(i) => Some(i + 1)
  }

  /** The value of a pair `gen=value`. */
  function GenValue(pair: string): Option<string> {
    match FindChar(pair, '=')
    case None => None
    case Some(i) => if pair[..i] == "gen" then Some(pair[i + 1..]) else None
  }

  function Parsed(value: string): Answer {
    match ParseU64(value)
    case None => BadRequest
    case Some(n) => Generation(Some(n))
  }

  /** The first pair with the key decides, and without one no generation is named. */
  ghost predicate Decides(pairs: seq<string>, r: Answer) {
    && ((forall i :: 0 <= i < |pairs| ==> GenValue(pairs[i]).None?) ==> r == Generation(None))
    && (forall i :: 0 <= i < |pairs| && GenValue(pairs[i]).Some? ==>
          (forall j :: 0 <= j < i ==> GenValue(pairs[j]).None?) ==> r == Parsed(GenValue(pairs[i]).value))
  }

  method StreamGeneration(query: Option<string>) returns (r: Answer)
    ensures if query.None? then r == Generation(None) else Decides(SplitAt(query.value, '&'), r)
  {
    hide SplitAt, GenValue, ParseU64;
    if query.None? {
      return Generation(None);
    }
    var pairs := SplitAt(query.value, '&');
    var i := 0;
    while i < |pairs|
      invariant i <= |pairs| && forall j :: 0 <= j < i ==> GenValue(pairs[j]).None?
    {
      match GenValue(pairs[i]) {
        case None =>
        case Some(value) =>
          match ParseU64(value) {
            case None => return BadRequest;
            case Some(n) => return Generation(Some(n));
          }
      }
      i := i + 1;
    }
    r := Generation(None);
  }

  /** The pieces joined with `c` between them. */
  function Join(pieces: seq<string>, c: char): string
    requires pieces != []
  {
    if |pieces| == 1 then pieces[0] else pieces[0] + [c] + Join(pieces[1..], c)
  }

  /** The pairs of a query are its parts between the separators. */
  lemma {:induction false} SplitExactly(s: string, c: char)
    ensures Join(SplitAt(s, c), c) == s && forall i :: 0 <= i < |SplitAt(s, c)| ==> c !in SplitAt(s, c)[i]
  {
    if s != "" {
      var rest, r := SplitAt(s[1..], c), SplitAt(s, c);
      SplitExactly(s[1..], c);
      assert s == [s[0]] + s[1..];
      if s[0] == c {
        assert r == [""] + rest && r[1..] == rest;
      } else {
        assert r[1..] == rest[1..] && r[0] == [s[0]] + rest[0];
        if |rest| > 1 {
          assert r[0] + [c] + Join(rest[1..], c) == [s[0]] + (rest[0] + [c] + Join(rest[1..], c));
        }
      }
    }
  }

  /** A pair has the key exactly when it starts with `gen=`, and the value is what follows. */
  lemma GenExactly(pair: string, value: string)
    ensures GenValue(pair) == Some(value) <==> pair == "gen=" + value
  {
    if pair == "gen=" + value {
      GenFound(value);
    }
    var i := FindChar(pair, '=');
    assert i.Some? ==> pair == pair[..i.value] + ['='] + pair[i.value + 1..];
  }

  // ---- What the bridge advertises is what the server reads ----

  function Digit(d: nat): (c: char)
    requires d < 10
    ensures IsDigit(c) && c as int - '0' as int == d
  {
    ('0' as int + d) as char
  }

  function Decimal(n: nat): (s: string)
    ensures s != "" && AllDigits(s)
  {
    if n < 10 then [Digit(n)] else Decimal(n / 10) + [Digit(n % 10)]
  }

  lemma {:induction false} DecimalValue(n: nat)
    ensures Value(Decimal(n)) == n
  {
    var s := Decimal(n);
    if n < 10 {
      assert s[..|s| - 1] == "";
    } else {
      DecimalValue(n / 10);
      assert s[..|s| - 1] == Decimal(n / 10);
    }
  }

  function Zeros(n: nat): (s: string)
    ensures |s| == n && AllDigits(s)
  {
    seq(n, i => '0')
  }

  lemma {:induction false} LeadingZeros(k: nat, s: string)
    requires AllDigits(s)
    ensures AllDigits(Zeros(k) + s) && Value(Zeros(k) + s) == Value(s)
    decreases |s|, k
  {
    if s != "" {
      assert (Zeros(k) + s)[..k + |s| - 1] == Zeros(k) + s[..|s| - 1];
      LeadingZeros(k, s[..|s| - 1]);
    } else if k > 0 {
      assert (Zeros(k) + s)[..k - 1] == Zeros(k - 1) + s;
      LeadingZeros(k - 1, s);
    }
  }

  lemma NoZeros(s: string)
    ensures Zeros(0) + s == s
  {
  }

  lemma OneMoreZero(k: nat)
    ensures Zeros(k) + "0" == Zeros(k + 1)
  {
  }

  lemma {:induction false} OnlyZerosLead(s: string) returns (k: nat)
    requires s != "" && AllDigits(s)
    ensures s == Zeros(k) + Decimal(Value(s))
  {
    hide Zeros;
    var front, last := s[..|s| - 1], s[|s| - 1];
    k := 0;
    if front == "" {
      assert s == [Digit(last as int - '0' as int)];
      NoZeros(s);
    } else {
      k := OnlyZerosLead(front);
      OneMoreZero(k);
      assert s == front + [last];
      if Value(front) == 0 {
        k := k + 1;
        assert s == Zeros(k) + [last];
      } else {
        assert s == Zeros(k) + (Decimal(Value(front)) + [last]);
      }
    }
  }

  /** A number in decimal, perhaps with zeros before it. */
  ghost predicate Numeral(s: string, n: nat) {
    exists k :: s == Zeros(k) + Decimal(n)
  }

  lemma NumeralExactly(s: string, n: nat)
    ensures Numeral(s, n) <==> s != "" && AllDigits(s) && Value(s) == n
  {
    hide Value, Zeros, Decimal;
    if s != "" && AllDigits(s) && Value(s) == n {
      var k := OnlyZerosLead(s);
    }
    if Numeral(s, n) {
      var k :| s == Zeros(k) + Decimal(n);
      LeadingZeros(k, Decimal(n));
      DecimalValue(n);
    }
  }

  /** A value is accepted exactly when it is a number of 64 bits in decimal, perhaps with zeros and
      one plus sign before it. */
  lemma ParseExactly(s: string, n: nat)
    ensures ParseU64(s) == Some(n) <==>
            n <= U64_MAX && (Numeral(s, n) || (s != "" && s[0] == '+' && Numeral(s[1..], n)))
  {
    hide Value, Numeral;
    NumeralExactly(s, n);
    if s != "" {
      NumeralExactly(s[1..], n);
      assert s[0] == '+' ==> !IsDigit(s[0]);
    }
  }

  lemma {:induction false} SplitNowhere(s: string, c: char)
    requires c !in s
    ensures SplitAt(s, c) == [s]
  {
    if s != "" {
      SplitNowhere(s[1..], c);
      assert [s[0]] + s[1..] == s;
    }
  }

  /** The query that the bridge puts into a stream's URL reads back as that stream's generation. */
  lemma AdvertisedGeneration(n: nat)
    requires n <= U64_MAX
    ensures forall r :: Decides(SplitAt("gen=" + Decimal(n), '&'), r) ==> r == Generation(Some(n))
  {
    var s := Decimal(n);
    var query := "gen=" + s;
    DecimalValue(n);
    assert '&' !in s;
    assert '&' !in query;
    SplitNowhere(query, '&');
    GenFound(s);
    assert s[0] != '+';
    assert ParseU64(s) == Some(n);
    forall r | Decides(SplitAt(query, '&'), r) ensures r == Generation(Some(n)) {
      assert SplitAt(query, '&')[0] == query;
    }
  }

  lemma GenFound(s: string)
    ensures GenValue("gen=" + s) == Some(s)
  {
    var query := "gen=" + s;
    var i := FindChar(query, '=');
    assert query[3] == '=' && query[0] == 'g' && query[1] == 'e' && query[2] == 'n';
    assert i.Some? by {
      assert '=' in query;
    }
    forall m | 0 <= m < i.value ensures query[m] in query[..i.value] {
      assert query[..i.value][m] == query[m];
    }
    assert query[..3] == "gen" && query[4..] == s;
  }
}
