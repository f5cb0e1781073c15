/** The entries of one interface's flow table, and what a packet does to them. */
module FlowTable {
  import opened Prelude
  import opened MapSums

  type Endpoint = nat

  /** A process identity: its PID and start time. */
  type Process = nat

  /** The identity of a NAT entry. */
  type Link = nat

  const TCP := 6
  const UDP := 17

  datatype Key = Key(a: Endpoint, b: Endpoint, protocol: nat, detail: nat)

  datatype TcpState = NotTcp | Midstream | SynSent | Established | Closing | ResetState | ClosedState

  datatype IoBytes = IoBytes(rx: nat, tx: nat)

  /** What a flow knows of its TCP connection. `wire` says that the client's stream is parsed. */
  datatype Tcp = Tcp(
    state: TcpState, synSeen: bool, synSeq: nat, synAck: bool, finA: bool, finB: bool, closed: bool, failed: bool,
    initiator: Option<Endpoint>, target: Option<Endpoint>, wire: bool)

  /** `link` is the NAT entry that rewrote the connection's tuple, once it is known. */
  datatype Flow = Flow(
    key: Key, last: int, rx: nat, tx: nat, packets: nat, io: map<Process, IoBytes>, tcp: Tcp, link: Option<Link>)

  /** `accepted` is the port filter's verdict and `clientMessage` whether the payload
      starts a client's first message. */
  datatype Packet = Packet(
    key: Key, source: Endpoint, destination: Endpoint, syn: bool, ack: bool, rst: bool, fin: bool, seqno: nat,
    bytes: nat, outgoing: bool, accepted: bool, clientMessage: bool)

  function NewFlow(key: Key, now: int): Flow {
    Flow(key, now, 0, 0, 0, map[],
         Tcp(if key.protocol == TCP then Midstream else NotTcp,
             false, 0, false, false, false, false, false, None, None, false),
         None)
  }

  /** What may make room for other flows: TCP that closed or was never answered, and UDP
      that carried at most two packets or bytes in one direction alone. */
  predicate Disposable(f: Flow) {
    if f.key.protocol == TCP then f.tcp.closed || (f.tcp.state == SynSent && !f.tcp.synAck)
    else if f.key.protocol == UDP then f.packets <= 2 && (f.rx == 0 || f.tx == 0)
    else false
  }

  /** Whether a packet opens a new connection on the tuple of `f`. */
  predicate OpensAnother(f: Flow, p: Packet) {
    p.key.protocol == TCP && p.syn && !p.ack && (!f.tcp.synSeen || f.tcp.synSeq != p.seqno)
  }

  /** The bytes of a packet, by direction. */
  function BytesOf(p: Packet): IoBytes { if p.outgoing then IoBytes(0, p.bytes) else IoBytes(p.bytes, 0) }

  // ----- Totals -----

  datatype Flows = Flows(active: map<Key, Flow>, retired: seq<Flow>)

  function Rx(f: Flow): nat { f.rx }

  function Tx(f: Flow): nat { f.tx }

  function Both(b: IoBytes): nat { b.rx + b.tx }

  ghost function Io(f: Flow): nat { Sum(f.io, Both) }

  ghost function SumSeq<V>(s: seq<V>, w: V -> nat): nat
    decreases |s|
  {
    if s == [] then 0 else SumSeq(s[..|s| - 1], w) + w(s[|s| - 1])
  }

  ghost function Total(fs: Flows, w: Flow -> nat): nat { Sum(fs.active, w) + SumSeq(fs.retired, w) }

  function Put(fs: Flows, f: Flow): Flows { fs.(active := fs.active[f.key := f]) }

  function Remove(fs: Flows, key: Key): Flows { fs.(active := fs.active - {key}) }

  function Retire(fs: Flows, key: Key): Flows
    requires key in fs.active
  {
    Flows(fs.active - {key}, fs.retired + [fs.active[key]])
  }

  lemma SumSeqMore<V>(s: seq<V>, v: V, w: V -> nat)
    ensures SumSeq(s + [v], w) == SumSeq(s, w) + w(v)
  {
    assert (s + [v])[..|s|] == s;
  }

  lemma PutTotal(fs: Flows, f: Flow, w: Flow -> nat)
    ensures f.key !in fs.active ==> Total(Put(fs, f), w) == Total(fs, w) + w(f)
    ensures f.key in fs.active ==> Total(Put(fs, f), w) + w(fs.active[f.key]) == Total(fs, w) + w(f)
  {
    SumInsert(fs.active, w, f.key, f);
  }

  lemma RemoveTotal(fs: Flows, key: Key, w: Flow -> nat)
    requires key in fs.active
    ensures Total(Remove(fs, key), w) + w(fs.active[key]) == Total(fs, w)
  {
    SumRemove(fs.active, w, key);
  }

  lemma RetireTotal(fs: Flows, key: Key, w: Flow -> nat)
    requires key in fs.active
    ensures Total(Retire(fs, key), w) == Total(fs, w)
  {
    RemoveTotal(fs, key, w);
    SumSeqMore(fs.retired, fs.active[key], w);
  }

  // ----- Process I/O of one flow -----

  function AddBytes(b: IoBytes, send: bool, bytes: nat): IoBytes {
    if send then b.(tx := b.tx + bytes) else b.(rx := b.rx + bytes)
  }

  function Entry(io: map<Process, IoBytes>, id: Process): IoBytes { if id in io then io[id] else IoBytes(0, 0) }

  function AddIo(io: map<Process, IoBytes>, id: Process, send: bool, bytes: nat): map<Process, IoBytes> {
    io[id := AddBytes(Entry(io, id), send, bytes)]
  }

  lemma AddedBoth(b: IoBytes, send: bool, bytes: nat)
    ensures Both(AddBytes(b, send, bytes)) == Both(b) + bytes
  {
  }

  lemma AddIoTotal(io: map<Process, IoBytes>, id: Process, send: bool, bytes: nat)
    ensures Sum(AddIo(io, id, send, bytes), Both) == Sum(io, Both) + bytes
  {
    SumInsert(io, Both, id, AddBytes(Entry(io, id), send, bytes));
    AddedBoth(Entry(io, id), send, bytes);
  }

  // ----- What a packet does to its flow -----

  /** The flow once the packet is counted. */
  function Counted(f: Flow, p: Packet, now: int): Flow {
    f.(last := now, packets := f.packets + 1, rx := f.rx + BytesOf(p).rx, tx := f.tx + BytesOf(p).tx)
  }

  predicate SameEnds(t: Tcp, r: Tcp) { r.closed == t.closed && r.finA == t.finA && r.finB == t.finB }

  /** A SYN names the ends, the target's SYN-ACK answers it, an ACK completes it. A
      client message seen without one names them too. */
  function Opened(t: Tcp, p: Packet): (r: Tcp)
    ensures SameEnds(t, r)
  {
    Heard(Acknowledged(Answered(if p.syn && !p.ack then Asked(t, p) else t, p), p), p)
  }

  function Asked(t: Tcp, p: Packet): (r: Tcp)
    ensures SameEnds(t, r)
  {
    t.(synSeen := true, synSeq := p.seqno, state := SynSent, initiator := Some(p.source), target := Some(p.destination),
       wire := true)
  }

  function Answered(t: Tcp, p: Packet): (r: Tcp)
    ensures SameEnds(t, r)
  {
    if p.syn && p.ack && t.target == Some(p.source) then t.(synAck := true) else t
  }

  function Acknowledged(t: Tcp, p: Packet): (r: Tcp)
    ensures SameEnds(t, r)
  {
    if p.ack && t.synSeen && t.state == SynSent then t.(state := Established) else t
  }

  function Heard(t: Tcp, p: Packet): (r: Tcp)
    ensures SameEnds(t, r)
  {
    if t.wire || !p.clientMessage then t
    else if t.initiator.Some? then t.(wire := true)
    else t.(wire := true, initiator := Some(p.source), target := Some(p.destination))
  }

  function Ended(t: Tcp, p: Packet, fromA: bool): Tcp {
    if p.rst then t.(state := ResetState, closed := true)
    else if p.fin then Finished(if fromA then t.(finA := true) else t.(finB := true))
    else t
  }

  function Finished(t: Tcp): Tcp {
    if t.finA && t.finB then t.(state := ClosedState, closed := true) else t.(state := Closing)
  }

  function Touched(f: Flow, p: Packet, now: int): (r: Flow)
    ensures r.key == f.key && r.io == f.io && r.last == now
    ensures r.rx == f.rx + BytesOf(p).rx && r.tx == f.tx + BytesOf(p).tx
  {
    var g := Counted(f, p, now);
    if f.key.protocol == TCP then g.(tcp := Ended(Opened(f.tcp, p), p, p.source == f.key.a)) else g
  }

  /** An answered handshake stops being disposable until it closes. */
  lemma AnswerSettles(f: Flow, synAck: Packet, now: int)
    requires f.key.protocol == TCP && f.tcp.state == SynSent && !f.tcp.closed
    requires synAck.syn && synAck.ack && !synAck.rst && !synAck.fin && f.tcp.target == Some(synAck.source)
    ensures !Disposable(Touched(f, synAck, now))
  {
  }

  lemma EndedCloses(t: Tcp, p: Packet, fromA: bool)
    ensures Ended(t, p, fromA).closed <==> t.closed || p.rst || (p.fin && (t.finA || fromA) && (t.finB || !fromA))
  {
  }

  /** Only a reset, or a FIN from each end, closes a connection, and it stays closed. */
  lemma ClosingTakesBothEnds(f: Flow, p: Packet, now: int)
    requires f.key.protocol == TCP
    ensures Touched(f, p, now).tcp.closed <==>
            || f.tcp.closed || p.rst
            || (p.fin && (f.tcp.finA || p.source == f.key.a) && (f.tcp.finB || p.source != f.key.a))
  {
    EndedCloses(Opened(f.tcp, p), p, p.source == f.key.a);
  }
}
