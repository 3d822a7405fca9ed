/** The master's state and what each of its handlers does to it.
    The clock readings a handler takes are parameters. */
module MasterModel {
  import Arithmetic
  import opened TimePackets

  const NTP_ROUNDS := 10
  const SAMPLE_RATE := 44100
  const PACKET_TIME_MS := 10
  const FRAMES_PER_PACKET := 441
  const SAMPLES_PER_PACKET := 882
  const STREAM_OFFSET := 1000
  const RETRY_MS := 1000

  datatype ConnectionState = Naked | SentInitial | SentFinal | PendingAllSynced | SendingData

  /** The armed retry timer of a connection and what it re-sends. */
  datatype Timer = NoTimer | ResendInitial | ResendFinal(tp: TPacket)

  datatype Connection = Connection(attempts: int, syncRounds: int, timer: Timer, state: ConnectionState)

  const NEW_CONNECTION := Connection(0, 0, NoTimer, Naked)

  type Connections = map<Endpoint, Connection>

  datatype DataPacket = DataPacket(timestamp: int, payload: seq<int>)

  /** What has been handed to the socket for each destination, oldest first. */
  type Log<T> = map<Endpoint, seq<T>>

  function Sent<T>(log: Log<T>, e: Endpoint): seq<T> {
    if e in log then log[e] else []
  }

  function Push<T>(log: Log<T>, e: Endpoint, x: T): Log<T> {
    log[e := Sent(log, e) + [x]]
  }

  function PushAll<T>(log: Log<T>, es: set<Endpoint>, x: T): Log<T> {
    map e | e in log.Keys + es :: if e in es then Sent(log, e) + [x] else log[e]
  }

  /** The streaming half of the master: `outstanding` is a 16-bit counter, `packets` what was packed
      so far, `pendingSends` how many data sends have not completed yet and `failedSends` how many
      completed with an error. */
  datatype Stream = Stream(
    outstanding: nat,
    streamStart: int,
    nFramesSent: nat,
    isDone: bool,
    file: seq<int>,
    dataBuffer: seq<int>,
    dataLog: Log<DataPacket>,
    packets: seq<DataPacket>,
    pendingSends: nat,
    failedSends: nat)

  /** `synced` is a 16-bit counter; `armed` says that a receive is pending on the socket. */
  datatype MasterState = MasterState(
    connections: Connections,
    synced: nat,
    listening: bool,
    armed: bool,
    panicked: bool,
    timeLog: Log<TPacket>,
    stream: Stream)

  function Uint16(x: int): nat {
    x % 0x1_0000
  }

  predicate AllPending(connections: Connections) {
    forall e :: e in connections ==> connections[e].state == PendingAllSynced
  }

  function AllSending(connections: Connections): (r: Connections)
    ensures r.Keys == connections.Keys
  {
    map e | e in connections :: connections[e].(state := SendingData)
  }

  /** Reading n samples overwrites the first n of the buffer and leaves the rest. */
  function ReadInto(buffer: seq<int>, file: seq<int>, n: nat): seq<int>
    requires n <= |file| && n <= |buffer|
  {
    file[..n] + buffer[n..]
  }

  predicate HasBuffer(s: Stream) {
    |s.dataBuffer| == SAMPLES_PER_PACKET
  }

  /** Sends the next packet of the file to every connection, or stops at its end. */
  function SendData(s: Stream, to: set<Endpoint>, clock: int): (r: Stream)
    requires HasBuffer(s)
    ensures HasBuffer(r)
  {
    var start := if s.streamStart == 0 then clock + STREAM_OFFSET else s.streamStart;
    var n := Arithmetic.Min(SAMPLES_PER_PACKET, |s.file|);
    var counted := s.(outstanding := Uint16(|to|), streamStart := start);
    if n == 0 then counted.(isDone := true)
    else
      var packet := DataPacket(start + PACKET_TIME_MS, ReadInto(s.dataBuffer, s.file, n));
      counted.(
        file := s.file[n..],
        dataBuffer := packet.payload,
        streamStart := packet.timestamp,
        nFramesSent := s.nFramesSent + FRAMES_PER_PACKET,
        packets := s.packets + [packet],
        dataLog := PushAll(s.dataLog, to, packet),
        pendingSends := s.pendingSends + |to|)
  }

  /** The barrier: streaming starts when every connection is counted as synced. */
  function TrySendData(m: MasterState, clock: int): MasterState
    requires HasBuffer(m.stream)
  {
    if m.synced != |m.connections| then m
    else if !AllPending(m.connections) then m.(panicked := true)
    else m.(connections := AllSending(m.connections), listening := false,
            stream := SendData(m.stream, m.connections.Keys, clock))
  }

  function GiveUp(m: MasterState, e: Endpoint, clock: int): MasterState
    requires HasBuffer(m.stream)
  {
    TrySendData(m.(connections := m.connections - {e}), clock)
  }

  function SendInitial(m: MasterState, e: Endpoint, clock: int): MasterState
    requires HasBuffer(m.stream) && e in m.connections
  {
    var cxn := m.connections[e].(state := SentInitial, timer := ResendInitial);
    if cxn.attempts > 2 then GiveUp(m, e, clock)
    else m.(
      connections := m.connections[e := cxn.(attempts := cxn.attempts + 1)],
      timeLog := Push(m.timeLog, e, Request(clock)))
  }

  /** The last round's final timesync is marked as such. */
  function Marked(tp: TPacket, syncRounds: int): TPacket {
    if syncRounds + 1 == NTP_ROUNDS then tp.(tpType := Final) else tp
  }

  function SendFinal(m: MasterState, e: Endpoint, tp: TPacket, clock: int): MasterState
    requires HasBuffer(m.stream) && e in m.connections
  {
    var cxn := m.connections[e];
    var marked := Marked(tp, cxn.syncRounds);
    if cxn.attempts > 2 then GiveUp(m, e, clock)
    else m.(
      connections := m.connections[e :=
        cxn.(state := SentFinal, timer := ResendFinal(marked), attempts := cxn.attempts + 1)],
      timeLog := Push(m.timeLog, e, marked))
  }

  /** A reply with the master's stamp, the offset computed from it, and its new type. */
  function Completed(tp: TPacket, fromRecvd: int): TPacket {
    var stamped := tp.(fromRecvd := fromRecvd, tpType := Complete);
    stamped.(offset := Sample(stamped))
  }

  /** Looking a sender up inserts it when it is unknown. */
  function Lookup(connections: Connections, e: Endpoint): Connection {
    if e in connections then connections[e] else NEW_CONNECTION
  }

  function Demultiplex(m: MasterState, e: Endpoint): MasterState {
    m.(connections := m.connections[e := Lookup(m.connections, e).(timer := NoTimer, attempts := 0)])
  }

  /** The receive handler: `fromRecvd` is read on entry, `clock` when the handler sends. */
  function Dispatch(m: MasterState, e: Endpoint, tp: TPacket, fromRecvd: int, clock: int): MasterState
    requires HasBuffer(m.stream) && e in m.connections
  {
    var cxn := m.connections[e];
    match cxn.state
    case Naked => m
    case SentInitial => SendFinal(m, e, Completed(tp, fromRecvd), clock)
    case SentFinal =>
      var counted := cxn.(syncRounds := cxn.syncRounds + 1);
      if counted.syncRounds < NTP_ROUNDS then
        SendInitial(m.(connections := m.connections[e := counted]), e, clock)
      else
        TrySendData(m.(connections := m.connections[e := counted.(state := PendingAllSynced)],
                       synced := Uint16(m.synced + 1)), clock)
    case PendingAllSynced => m.(panicked := true)
    case SendingData => m.(panicked := true)
  }

  function Receive(m: MasterState, e: Endpoint, tp: TPacket, fromRecvd: int, clock: int): MasterState
    requires HasBuffer(m.stream)
  {
    var handled := Dispatch(Demultiplex(m, e), e, tp, fromRecvd, clock);
    handled.(armed := handled.listening)
  }

  function Timeout(m: MasterState, e: Endpoint, clock: int): MasterState
    requires HasBuffer(m.stream)
    requires e in m.connections && m.connections[e].timer != NoTimer
  {
    match m.connections[e].timer
    case ResendInitial => SendInitial(m, e, clock)
    case ResendFinal(tp) => SendFinal(m, e, tp, clock)
  }

  /** The completion handler of one data send. */
  function Completion(s: Stream, to: set<Endpoint>, ok: bool, clock: int): (r: Stream)
    requires HasBuffer(s) && s.pendingSends > 0
    ensures HasBuffer(r)
  {
    var popped := s.(pendingSends := s.pendingSends - 1);
    if !ok then popped.(failedSends := s.failedSends + 1)
    else
      var counted := popped.(outstanding := Uint16(s.outstanding - 1));
      if counted.outstanding == 0 then SendData(counted, to, clock) else counted
  }

  /** The state right after `run` has armed the receive and sent every first request:
      all sends of one start-up share the reading `clock(e)` of their own moment. */
  function Start(endpoints: set<Endpoint>, clocks: map<Endpoint, int>, file: seq<int>, buffer: seq<int>): MasterState
    requires endpoints <= clocks.Keys
  {
    MasterState(
      map e | e in endpoints :: Connection(1, 0, ResendInitial, SentInitial),
      0, true, true, false,
      map e | e in endpoints :: [Request(clocks[e])],
      StreamOf(file, buffer))
  }

  /** A stream that has sent nothing yet. */
  function StreamOf(file: seq<int>, buffer: seq<int>): Stream {
    Stream(0, 0, 0, false, file, buffer, map[], [], 0, 0)
  }

  // ----- Runs under an arbitrary environment -----

  datatype Event =
    | Received(from: Endpoint, tp: TPacket, fromRecvd: int, clock: int)
    | TimedOut(at: Endpoint, clock: int)
    | SendCompleted(ok: bool, clock: int)

  predicate Enabled(m: MasterState, ev: Event) {
    && !m.panicked
    && HasBuffer(m.stream)
    && match ev
       case Received(_, _, _, clock) => m.armed && clock > 0
       case TimedOut(e, clock) => e in m.connections && m.connections[e].timer != NoTimer && clock > 0
       case SendCompleted(_, clock) => m.stream.pendingSends > 0 && clock > 0
  }

  function Step(m: MasterState, ev: Event): MasterState
    requires Enabled(m, ev)
  {
    match ev
    case Received(e, tp, fromRecvd, clock) => Receive(m, e, tp, fromRecvd, clock)
    case TimedOut(e, clock) => Timeout(m, e, clock)
    case SendCompleted(ok, clock) => m.(stream := Completion(m.stream, m.connections.Keys, ok, clock))
  }

  predicate Follows(m: MasterState, ev: Event, r: MasterState) {
    Enabled(m, ev) && r == Step(m, ev)
  }

  /** The states of a run, one before and one after each event. */
  predicate IsRun(run: seq<MasterState>, evs: seq<Event>) {
    |run| == |evs| + 1 && forall i :: 0 <= i < |evs| ==> Follows(run[i], evs[i], run[i + 1])
  }
}
