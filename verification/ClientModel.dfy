/** What a client keeps of the timesyncs it receives, and how it turns master time into stream time. */
module ClientModel {
  import Arithmetic
  import opened TimePackets
  import opened OffsetStatistics

  datatype ClientState = ClientState(offset: int, paOffset: int, samples: seq<real>)

  /** C++ conversion of a double to an integer: truncation toward zero. */
  function Truncate(x: real): int {
    if x >= 0.0 then x.Floor else -(-x).Floor
  }

  /** Every timesync goes back with the client's two stamps. */
  function Echo(tp: TPacket, toRecvd: int, toSent: int): TPacket {
    tp.(toRecvd := toRecvd, toSent := toSent)
  }

  predicate CarriesOffset(tp: TPacket) {
    tp.tpType == Complete || tp.tpType == Final
  }

  function Collect(c: ClientState, tp: TPacket): ClientState {
    if CarriesOffset(tp) then c.(offset := tp.offset, samples := c.samples + [tp.offset as real]) else c
  }

  /** The handler: `paStart` is the stream's clock in seconds, `systemTime` the client's in milliseconds. */
  function OnTimesync(c: ClientState, tp: TPacket, paStart: real, systemTime: int): ClientState {
    var collected := Collect(c, tp);
    if tp.tpType != Final then collected
    else collected.(
        paOffset := Truncate(paStart * 1000.0) - systemTime,
        offset := CleanOffset(collected.samples),
        samples := [])
  }

  function CleanOffset(samples: seq<real>): int
    requires samples != []
  {
    FilterKeepsThreeQuarters(samples);
    Truncate(Mean(Cleaned(samples)))
  }

  /** Truncation is toward zero: of the same sign, and by less than one short of exact. */
  lemma TruncateTowardZero(x: real)
    ensures AbsReal(Truncate(x) as real) <= AbsReal(x) < AbsReal(Truncate(x) as real) + 1.0
    ensures (x >= 0.0 ==> Truncate(x) >= 0) && (x <= 0.0 ==> Truncate(x) <= 0)
  {
  }

  /** Truncation does not leave an interval between integers. */
  lemma TruncateBetween(x: real, low: int, high: int)
    requires low as real <= x <= high as real
    ensures low <= Truncate(x) <= high
  {
  }

  /** The cleaned offset lies within the range of the samples, averaging and truncation included. */
  lemma CleanOffsetBetween(samples: seq<real>, low: int, high: int)
    requires samples != [] && forall i :: 0 <= i < |samples| ==> low as real <= samples[i] <= high as real
    ensures low <= CleanOffset(samples) <= high
  {
    CleanedMeanBetween(samples, low as real, high as real);
    TruncateBetween(Mean(Cleaned(samples)), low, high);
  }

  /** The sum of an unsigned and two signed 64-bit numbers is taken modulo 2^64, then divided as a double. */
  function GetPaTime(masterTime: int, offset: int, paOffset: int): real {
    (((masterTime + offset + paOffset) % Arithmetic.UINT64_SIZE) as real) / 1000.0
  }

  /** The stream time is the true one exactly for instants since the stream's clock began. */
  lemma PaTimeExact(masterTime: int, offset: int, paOffset: int)
    ensures GetPaTime(masterTime, offset, paOffset) == ((masterTime + offset + paOffset) as real) / 1000.0
            <==> 0 <= masterTime + offset + paOffset < 0x1_0000_0000_0000_0000
  {
    var t := masterTime + offset + paOffset;
    if GetPaTime(masterTime, offset, paOffset) == (t as real) / 1000.0 {
      assert (t % Arithmetic.UINT64_SIZE) as real == t as real;
    }
  }

  /** Later stamps play later, as long as both lie after the start of the stream's clock. */
  lemma PaTimeOrder(t1: int, t2: int, offset: int, paOffset: int)
    requires 0 <= t1 + offset + paOffset <= t2 + offset + paOffset < Arithmetic.UINT64_SIZE
    ensures GetPaTime(t1, offset, paOffset) <= GetPaTime(t2, offset, paOffset)
  {
    PaTimeExact(t1, offset, paOffset);
    PaTimeExact(t2, offset, paOffset);
  }
}
