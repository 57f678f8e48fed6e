// Deadlines and timelines across two clocks, and the framing of a forwarded
// response (crates/biei-core/src/wire.rs). Instants and durations are in
// nanoseconds. A process reads its own clock: true time plus an offset that the
// other side does not know.
module Wire {
  import opened Types
  import opened Varint

  const MAX_FORWARDING_HOPS: nat := 1
  const MILLI: nat := 1_000_000
  const U32_MAX: nat := 0xFFFF_FFFF
  const U64_MAX: nat := 0xFFFF_FFFF_FFFF_FFFF
  const U8_MAX: nat := 255
  const DURATION_LIMIT: nat := 0xFFFF_FFFF_FFFF_FFFF * 1_000_000_000 + 999_999_999

  function Minus(a: int, b: int): (r: nat)
  {
    if a > b then a - b else 0
  }

  function Least(a: int, b: int): (r: int)
  {
    if a <= b then a else b
  }

  function Most(a: int, b: int): (r: int)
  {
    if a >= b then a else b
  }

  // ---- deadlines as budgets ----

  datatype WireTask = WireTask(budgetMs: nat, hops: nat)

  datatype InternalTask = InternalTask(arrivedAt: int, deadline: int, hops: nat)

  // The round trip is reserved before the budget is cut to milliseconds.
  function ToForwardWire(t: InternalTask, now: int, hop: nat): (w: WireTask)
    ensures w.budgetMs <= U32_MAX
  {
    var roundTrip := Least(2 * hop, DURATION_LIMIT);
    var budget := Minus(Minus(t.deadline, now), roundTrip);
    WireTask(Least(budget / MILLI, U32_MAX), Least(t.hops + 1, U8_MAX))
  }

  function IntoInternal(w: WireTask, now: int): (r: InternalTask)
  {
    InternalTask(now, now + w.budgetMs * MILLI, w.hops)
  }

  // What is promised away is never more than what is left after both hops, and
  // unless capped less than a millisecond is lost.
  lemma BudgetBounds(t: InternalTask, now: int, hop: nat)
    requires 2 * hop <= DURATION_LIMIT
    ensures var b := ToForwardWire(t, now, hop).budgetMs;
            && (t.deadline - now >= 2 * hop ==> b * MILLI <= t.deadline - now - 2 * hop)
            && (t.deadline - now < 2 * hop ==> b == 0)
            && (b < U32_MAX ==> t.deadline - now - 2 * hop < (b + 1) * MILLI)
  {
    var budget := Minus(Minus(t.deadline, now), 2 * hop);
    assert budget == (budget / MILLI) * MILLI + budget % MILLI;
  }

  // One forwarded render in true time: sent, received, finished, returned.
  datatype RoundTrip = RoundTrip(sent: int, received: int, finished: int, returned: int, originOffset: int, peerOffset: int)

  ghost function OriginNow(x: RoundTrip): (r: int)
  {
    x.sent + x.originOffset
  }

  ghost function PeerTask(x: RoundTrip, t: InternalTask, hop: nat): (r: InternalTask)
  {
    IntoInternal(ToForwardWire(t, OriginNow(x), hop), x.received + x.peerOffset)
  }

  // A render that makes the peer's deadline is late at the origin by at most
  // what the two hops took beyond their estimate, however the clocks differ.
  lemma LatenessIsHopOvershoot(t: InternalTask, hop: nat, x: RoundTrip)
    requires 2 * hop <= DURATION_LIMIT
    requires t.deadline - OriginNow(x) >= 2 * hop
    requires x.finished + x.peerOffset <= PeerTask(x, t, hop).deadline
    ensures x.returned + x.originOffset - t.deadline <= (x.received - x.sent - hop) + (x.returned - x.finished - hop)
  {
    BudgetBounds(t, OriginNow(x), hop);
  }

  lemma ReturnsByDeadline(t: InternalTask, hop: nat, x: RoundTrip)
    requires 2 * hop <= DURATION_LIMIT
    requires t.deadline - OriginNow(x) >= 2 * hop
    requires x.received - x.sent <= hop && x.returned - x.finished <= hop
    requires x.finished + x.peerOffset <= PeerTask(x, t, hop).deadline
    ensures x.returned + x.originOffset <= t.deadline
  {
    LatenessIsHopOvershoot(t, hop, x);
  }

  // The peer starts at all exactly when a whole millisecond remains after the
  // round trip; a task that cannot make it back dies on arrival.
  lemma PeerStartsIff(t: InternalTask, hop: nat, x: RoundTrip)
    requires 2 * hop <= DURATION_LIMIT
    ensures var p := PeerTask(x, t, hop);
            p.arrivedAt < p.deadline <==> t.deadline - OriginNow(x) >= 2 * hop + MILLI
  {
    BudgetBounds(t, OriginNow(x), hop);
  }

  // A task that crossed the wire once is at the hop limit for good.
  lemma PeerIsAtHopLimit(t: InternalTask, hop: nat, x: RoundTrip)
    ensures PeerTask(x, t, hop).hops >= MAX_FORWARDING_HOPS
  {
  }

  // ---- timelines ----

  // Offsets from the peer's own arrival, in milliseconds.
  datatype Header = Header(startedMs: nat, nativeStartedMs: nat, nativeCompletedMs: nat, completedMs: nat)

  datatype Timeline = Timeline(started: int, nativeStarted: int, nativeCompleted: int, completed: int)

  predicate OrderedHeader(h: Header)
  {
    h.startedMs <= h.nativeStartedMs <= h.nativeCompletedMs <= h.completedMs
  }

  predicate OrderedTimeline(t: Timeline)
  {
    t.started <= t.nativeStarted <= t.nativeCompleted <= t.completed
  }

  function MillisSince(instant: int, base: int): (r: nat)
  {
    Least(Minus(instant, base) / MILLI, U64_MAX)
  }

  function ToHeader(t: Timeline, arrivedAt: int): (r: Header)
  {
    Header(MillisSince(t.started, arrivedAt), MillisSince(t.nativeStarted, arrivedAt),
           MillisSince(t.nativeCompleted, arrivedAt), MillisSince(t.completed, arrivedAt))
  }

  function PeerArrival(h: Header, arrivedAt: int, completedAt: int): (r: int)
  {
    Most(completedAt - h.completedMs * MILLI, arrivedAt)
  }

  // The peer's offsets re-anchored so that its completion is our receipt.
  function IntoTimeline(h: Header, arrivedAt: int, receivedAt: int): (r: Timeline)
  {
    var completedAt := Most(receivedAt, arrivedAt);
    var peerArrived := PeerArrival(h, arrivedAt, completedAt);
    var peerDuration := completedAt - peerArrived;
    Timeline(
      peerArrived + Least(h.startedMs * MILLI, peerDuration),
      peerArrived + Least(h.nativeStartedMs * MILLI, peerDuration),
      peerArrived + Least(h.nativeCompletedMs * MILLI, peerDuration),
      completedAt)
  }

  // Whatever the peer claims, its stages land in order between our own arrival
  // and the receipt.
  lemma TimelineStaysInside(h: Header, arrivedAt: int, receivedAt: int)
    requires OrderedHeader(h)
    ensures var t := IntoTimeline(h, arrivedAt, receivedAt);
            && OrderedTimeline(t)
            && arrivedAt <= t.started
            && t.completed == Most(receivedAt, arrivedAt)
  {
  }

  ghost predicate KeepsStageLengths(h: Header, t: Timeline)
  {
    && t.nativeStarted - t.started == (h.nativeStartedMs - h.startedMs) * MILLI
    && t.nativeCompleted - t.nativeStarted == (h.nativeCompletedMs - h.nativeStartedMs) * MILLI
    && t.completed - t.nativeCompleted == (h.completedMs - h.nativeCompletedMs) * MILLI
  }

  // Lengths survive exactly when the peer's whole time fits between our
  // arrival and receipt, or there was no length to lose.
  lemma StageLengthsKeptIff(h: Header, arrivedAt: int, receivedAt: int)
    requires OrderedHeader(h)
    ensures KeepsStageLengths(h, IntoTimeline(h, arrivedAt, receivedAt)) <==>
            || h.completedMs * MILLI <= Most(receivedAt, arrivedAt) - arrivedAt
            || h.startedMs == h.completedMs
  {
  }

  lemma MillisMonotone(a: int, b: int, base: int)
    requires a <= b
    ensures MillisSince(a, base) <= MillisSince(b, base)
    ensures base <= b ==> MillisSince(b, base) * MILLI <= b - base
    ensures base <= b && MillisSince(b, base) < U64_MAX ==> b - base < (MillisSince(b, base) + 1) * MILLI
  {
    var x, y := Minus(a, base), Minus(b, base);
    assert x / MILLI <= y / MILLI;
    assert y == (y / MILLI) * MILLI + y % MILLI;
  }

  // An ordered timeline prints to a header that the decoder accepts.
  lemma OrderedHeaderFromTimeline(t: Timeline, arrivedAt: int)
    requires OrderedTimeline(t)
    ensures OrderedHeader(ToHeader(t, arrivedAt))
  {
    MillisMonotone(t.started, t.nativeStarted, arrivedAt);
    MillisMonotone(t.nativeStarted, t.nativeCompleted, arrivedAt);
    MillisMonotone(t.nativeCompleted, t.completed, arrivedAt);
  }

  // A render that really happened between our arrival and our receipt always
  // fits, so its stages come back within a millisecond of their true lengths.
  lemma RealTimelineSurvives(t: Timeline, peerArrived: int, originOffset: int, peerOffset: int, arrivedAt: int, receivedAt: int)
    requires OrderedTimeline(t) && peerArrived <= t.started
    requires arrivedAt - originOffset <= peerArrived - peerOffset
    requires t.completed - peerOffset <= receivedAt - originOffset
    requires t.completed - peerArrived < U64_MAX * MILLI
    ensures var r := IntoTimeline(ToHeader(t, peerArrived), arrivedAt, receivedAt);
            && 0 - MILLI < (r.nativeStarted - r.started) - (t.nativeStarted - t.started) < MILLI
            && 0 - MILLI < (r.nativeCompleted - r.nativeStarted) - (t.nativeCompleted - t.nativeStarted) < MILLI
            && 0 - MILLI < (r.completed - r.nativeCompleted) - (t.completed - t.nativeCompleted) < MILLI
            && r.completed == receivedAt
  {
    var h := ToHeader(t, peerArrived);
    OrderedHeaderFromTimeline(t, peerArrived);
    MillisMonotone(peerArrived, t.started, peerArrived);
    MillisMonotone(t.started, t.nativeStarted, peerArrived);
    MillisMonotone(t.nativeStarted, t.nativeCompleted, peerArrived);
    MillisMonotone(t.nativeCompleted, t.completed, peerArrived);
    StageLengthsKeptIff(h, arrivedAt, receivedAt);
  }

  // ---- framing ----

  datatype WireError = DecodeFailed | InvalidCompletedTimeline | Truncated | TooLarge

  function BigEndian(n: nat): (s: seq<byte>)
    requires n < U32_LIMIT
    ensures |s| == 4
  {
    [(n / 0x100_0000) as byte, (n / 0x1_0000 % 0x100) as byte, (n / 0x100 % 0x100) as byte, (n % 0x100) as byte]
  }

  function FromBigEndian(s: seq<byte>): (n: nat)
    requires |s| == 4
    ensures n < U32_LIMIT
  {
    s[0] as nat * 0x100_0000 + s[1] as nat * 0x1_0000 + s[2] as nat * 0x100 + s[3] as nat
  }

  lemma BigEndianRoundTrip(n: nat)
    requires n < U32_LIMIT
    ensures FromBigEndian(BigEndian(n)) == n
  {
    var a, b, c, d := n / 0x100_0000, n / 0x1_0000 % 0x100, n / 0x100 % 0x100, n % 0x100;
    assert n / 0x100 == (n / 0x1_0000) * 0x100 + c;
    assert n / 0x1_0000 == a * 0x100 + b;
  }

  function EncodeHeader(json: seq<byte>): (r: Result<seq<byte>, WireError>)
  {
    if |json| < U32_LIMIT then Ok(BigEndian(|json|) + json) else Err(TooLarge)
  }

  // JSON itself is a parameter: `parse` gives the completed timeline, if the
  // text is a header at all and reports a completed render.
  function DecodePrefix(body: seq<byte>, parse: seq<byte> -> Option<Option<Header>>): (r: Result<(Option<Header>, nat), WireError>)
    ensures r.Ok? ==> 4 <= r.value.1 <= |body|
  {
    if |body| < 4 then Err(Truncated)
    else
      var end := 4 + FromBigEndian(body[..4]);
      if |body| < end then Err(Truncated)
      else
        var header := parse(body[4..end]);
        if header.None? then Err(DecodeFailed)
        else if header.value.Some? && !OrderedHeader(header.value.value) then Err(InvalidCompletedTimeline)
        else Ok((header.value, end))
  }

  // The frame gives back the header text and leaves exactly the image behind it.
  lemma FrameRoundTrip(json: seq<byte>, image: seq<byte>, parse: seq<byte> -> Option<Option<Header>>, h: Option<Header>)
    requires |json| < U32_LIMIT && parse(json) == Some(h)
    requires h.Some? ==> OrderedHeader(h.value)
    ensures var body := EncodeHeader(json).value + image;
            DecodePrefix(body, parse) == Ok((h, 4 + |json|)) && body[4 + |json|..] == image
  {
    var body := EncodeHeader(json).value + image;
    BigEndianRoundTrip(|json|);
    assert body[..4] == BigEndian(|json|);
    assert body[4..4 + |json|] == json;
  }

  // Any proper prefix of a frame's header is refused as truncated.
  lemma FrameCutShort(json: seq<byte>, image: seq<byte>, parse: seq<byte> -> Option<Option<Header>>, n: nat)
    requires |json| < U32_LIMIT && n <= 4 + |json| + |image|
    ensures DecodePrefix((EncodeHeader(json).value + image)[..n], parse) == Err(Truncated) <==> n < 4 + |json|
  {
    var body := (EncodeHeader(json).value + image)[..n];
    BigEndianRoundTrip(|json|);
    if n >= 4 {
      assert body[..4] == BigEndian(|json|);
    }
  }

  // A header that cannot be read, or whose stages are out of order, is refused
  // even in a complete frame.
  lemma BadHeaderIsRefused(json: seq<byte>, image: seq<byte>, parse: seq<byte> -> Option<Option<Header>>)
    requires |json| < U32_LIMIT
    ensures var r := DecodePrefix(EncodeHeader(json).value + image, parse);
            && (parse(json).None? ==> r == Err(DecodeFailed))
            && (parse(json).Some? && parse(json).value.Some? && !OrderedHeader(parse(json).value.value) ==> r == Err(InvalidCompletedTimeline))
  {
    var body := EncodeHeader(json).value + image;
    BigEndianRoundTrip(|json|);
    assert body[..4] == BigEndian(|json|);
    assert body[4..4 + |json|] == json;
  }

  // Only a header too long for its length field cannot be framed.
  lemma TooLargeIff(json: seq<byte>)
    ensures EncodeHeader(json) == Err(TooLarge) <==> |json| >= U32_LIMIT
  {
  }
}
