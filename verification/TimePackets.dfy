/** Time packets and the offset sample computed from their four stamps. */
module TimePackets {

  datatype Endpoint = Endpoint(address: nat, port: nat)

  datatype TPacketType = Incomplete | Complete | Final

  datatype TPacket = TPacket(
    tpType: TPacketType,
    fromSent: int,
    toRecvd: int,
    toSent: int,
    fromRecvd: int,
    offset: int)

  /** A request as the master first sends it: every field but `fromSent` keeps its default. */
  function Request(clock: int): TPacket {
    TPacket(Incomplete, clock, 0, 0, 0, 0)
  }

  /** C++ integer division by two: the quotient is truncated toward zero. */
  function Half(x: int): int {
    if x >= 0 then x / 2 else -(-x / 2)
  }

  function Abs(x: int): nat {
    if x >= 0 then x else -x
  }

  /** The half is rounded toward zero: of the same sign, and by less than a whole short of exact. */
  lemma HalfTowardZero(x: int)
    ensures 2 * Abs(Half(x)) <= Abs(x) < 2 * Abs(Half(x)) + 2
    ensures (x >= 0 ==> Half(x) >= 0) && (x <= 0 ==> Half(x) <= 0)
  {
  }

  /** The NTP on-wire offset of section 8 of RFC 5905, in the order the master evaluates it. */
  function Sample(tp: TPacket): int {
    Half((tp.toRecvd - tp.fromSent) + (tp.toSent - tp.fromRecvd))
  }

  /** The round trip less the time spent at the client, plus one for the truncated division. */
  function Uncertainty(tp: TPacket): int {
    (tp.fromRecvd - tp.fromSent) - (tp.toSent - tp.toRecvd) + 1
  }

  /** The stamps of a reply lie in causal order for a client whose clock reads master time plus theta. */
  predicate Causal(tp: TPacket, theta: int, now: int) {
    tp.fromSent <= tp.toRecvd - theta <= tp.toSent - theta <= now
  }

  predicate WithinError(offset: int, theta: int, uncertainty: int) {
    2 * Abs(offset - theta) <= uncertainty
  }

  /** The sample formula is as good as the network allowed, truncation included. */
  lemma SampleBound(tp: TPacket, theta: int)
    requires Causal(tp, theta, tp.fromRecvd)
    ensures WithinError(Sample(tp), theta, Uncertainty(tp))
  {
    var sum := (tp.toRecvd - tp.fromSent) + (tp.toSent - tp.fromRecvd);
    assert Abs(2 * Half(sum) - sum) <= 1;
  }

  /** The value a 64-bit signed integer holds after conversion from `x`. */
  function Int64(x: int): int {
    (x + 0x8000_0000_0000_0000) % 0x1_0000_0000_0000_0000 - 0x8000_0000_0000_0000
  }

  lemma Int64InRange(x: int)
    requires -0x8000_0000_0000_0000 <= x < 0x8000_0000_0000_0000
    ensures Int64(x) == x
  {
  }

  /** The sample with every conversion and every intermediate result kept to 64 bits. */
  function MachineSample(tp: TPacket): int {
    Half(Int64(Int64(Int64(tp.toRecvd) - Int64(tp.fromSent)) + Int64(Int64(tp.toSent) - Int64(tp.fromRecvd))))
  }

  predicate IsMillisecondTime(t: int) {
    0 <= t < 0x2000_0000_0000_0000
  }

  /** For stamps below 2^61 milliseconds the 64-bit arithmetic loses nothing. */
  lemma MachineSampleIsSample(tp: TPacket)
    requires IsMillisecondTime(tp.fromSent) && IsMillisecondTime(tp.toRecvd)
    requires IsMillisecondTime(tp.toSent) && IsMillisecondTime(tp.fromRecvd)
    ensures MachineSample(tp) == Sample(tp)
  {
    Int64InRange(tp.toRecvd);
    Int64InRange(tp.fromSent);
    Int64InRange(tp.toSent);
    Int64InRange(tp.fromRecvd);
    Int64InRange(tp.toRecvd - tp.fromSent);
    Int64InRange(tp.toSent - tp.fromRecvd);
    Int64InRange((tp.toRecvd - tp.fromSent) + (tp.toSent - tp.fromRecvd));
  }

  /** Two clients within their uncertainties of their own clocks turn one master stamp into
      local instants that are, in master time, no further apart than the two bounds together. */
  lemma TwoClientsAgree(stamp: int, o1: int, theta1: int, u1: int, o2: int, theta2: int, u2: int)
    requires WithinError(o1, theta1, u1) && WithinError(o2, theta2, u2)
    ensures 2 * Abs((stamp + o1 - theta1) - (stamp + o2 - theta2)) <= u1 + u2
  {
  }
}
