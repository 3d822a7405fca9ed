/** The client: it answers timesyncs, settles its clock offset and queues audio for the callback. */
module Clients {
  import opened TimePackets
  import OffsetStatistics
  import SampleMath
  import opened ClientModel
  import PlaybackModel
  import Playback

  class Client {
    var offset: int
    var paOffset: int
    var offsetSamples: seq<real>
    const streamState: Playback.StreamState

    function View(): ClientState
      reads this
    {
      ClientState(offset, paOffset, offsetSamples)
    }

    constructor ()
      ensures offsetSamples == [] && fresh(streamState) && streamState.packetBuffer == []
    {
      offset, paOffset, offsetSamples := *, *, [];
      streamState := new Playback.StreamState();
    }

    /** Answers a timesync. `sqrt` is the square root function. */
    method ReceiveTimesync(packet: TPacket, toRecvd: int, toSent: int, paStart: real, systemTime: int,
                           sqrt: real -> real)
      returns (reply: TPacket)
      requires SampleMath.IsSquareRoot(sqrt)
      modifies `offset, `paOffset, `offsetSamples
      ensures View() == OnTimesync(old(View()), packet, paStart, systemTime)
      ensures reply == Echo(packet, toRecvd, toSent)
    {
      reply := packet.(toRecvd := toRecvd);
      reply := reply.(toSent := toSent);
      if reply.tpType == Complete || reply.tpType == Final {
        offset := reply.offset;
        offsetSamples := offsetSamples + [offset as real];
      }
      if reply.tpType == Final {
        paOffset := Truncate(paStart * 1000.0) - systemTime;
        var mean, stddev := SampleMath.CalculateMeanStddev(offsetSamples, sqrt);
        var cleaned := SampleMath.CopyIf(offsetSamples, mean, stddev, OffsetStatistics.Variance(offsetSamples));
        OffsetStatistics.FilterKeepsThreeQuarters(offsetSamples);
        var nSamples := |cleaned|;
        var total := SampleMath.Accumulate(cleaned);
        mean := total / (nSamples as real);
        if nSamples != 0 {
          offset := Truncate(mean);
        }
        offsetSamples := [];
      }
    }

    /** Queues a data packet under its time on the stream's clock. */
    method ReceiveData(packet: Playback.MPacket)
      requires streamState.Valid() && packet.Valid() && packet !in streamState.packetBuffer
      requires packet.playHead == 0
      modifies streamState, packet
      ensures streamState.Valid()
      ensures streamState.packetBuffer == old(streamState.packetBuffer) + [packet]
      ensures streamState.lastTimestamp == old(streamState.lastTimestamp)
      ensures streamState.Tracks() ==
              old(streamState.Tracks()) +
              [PlaybackModel.Track(GetPaTime(packet.timestamp, offset, paOffset), packet.payload)]
    {
      packet.SetPaTimestamp(GetPaTime(packet.timestamp, offset, paOffset));
      streamState.packetBuffer := streamState.packetBuffer + [packet];
    }
  }
}
