/** Whole runs of an endpoint: several Connection objects and one-shot packets on one socket, event by event. */
module EndpointRuns {
  import opened Common
  import opened Datagrams
  import opened Udp
  import opened Callbacks
  import opened Socket
  import opened Endpoint
  import opened Streams
  import opened ConnState
  import opened Flush
  import opened FlushProps
  import opened FlushRun
  import opened Connections
  import StreamBuffer

  type positive = n: nat | n >= 1 witness 1

  /** What one flush draws from outside: where the list starts, the packet budget, the writer and the kernel. */
  datatype Draws = Draws(mid: nat, budget: positive, writer: nat -> WriteReply, kernel: nat -> KernelReply)

  /** What ngtcp2 may report while it reads one packet. The last one is a rise of the stream limit. */
  datatype PeerAct = PeerOpens(id: int) | PeerAcks(id: int, size: nat) | PeerEnds(id: int) | AssignsId(id: int)

  /** What can happen to one connection. */
  datatype Happening =
    | NewStream(id: int)                   // get_new_stream, with credit left
    | NewPending                           // get_new_stream, without
    | OnStream(id: int, op: UserOp)
    | OnPending(i: nat, op: UserOp)
    | Received(acts: seq<PeerAct>)         // a packet was read
    | Triggered(d: Draws)                  // the io_trigger event fires
    | TimedOut(d: Draws)                   // the retransmit timer fires

  /** What holds of a connection's own objects, whatever is queued on the socket. */
  ghost predicate Coherent(c: Connection)
    reads c, c.sendBuffer, c.sendBufferSize, Kept(c)
  {
    c.Batched() && c.Streamed() && c.Linked() && c.Pending() && Sound(c.model)
  }

  /** The stream objects a connection keeps alive. */
  ghost function Kept(c: Connection): set<Stream>
    reads c
  {
    c.Objects() + set s | s in c.pendingStreams
  }

  ghost function Footprint(c: Connection): set<object>
    reads c
  {
    {c, c.io, c.sendBuffer, c.sendBufferSize} + Kept(c)
  }

  // ---- what each event does to the state of a connection ------------------------------------

  /** The machine's flush, on the streams in the order of the map. */
  ghost predicate FlushedBy(ids: seq<int>, start: nat, d: Draws, backend: Backend, m: Conn, m': Conn) {
    && Sound(m) && IsOrder(ids, m) && start == (if ids == [] then 0 else d.mid % |ids|)
    && m' == FlushRun.FlushStreams(m, ids, start, Env(backend, d.budget, d.writer, d.kernel)).conn
  }

  ghost predicate Flushed(d: Draws, backend: Backend, m: Conn, m': Conn) {
    exists ids: seq<int>, start: nat :: FlushedBy(ids, start, d, backend, m, m')
  }

  /** The machine's resend callback. */
  ghost predicate ResumedBy(ids: seq<int>, start: nat, reply: KernelReply, d: Draws, backend: Backend, m: Conn, m': Conn) {
    && Sound(m) && IsOrder(ids, m) && start == (if ids == [] then 0 else d.mid % |ids|)
    && m' == FlushRun.Resume(m, reply, ids, start, Env(backend, d.budget, d.writer, d.kernel)).conn
  }

  ghost predicate Resumed(reply: KernelReply, d: Draws, backend: Backend, m: Conn, m': Conn) {
    exists ids: seq<int>, start: nat :: ResumedBy(ids, start, reply, d, backend, m, m')
  }

  /** A stream gets bytes appended, or is closed. Exactly the data for a plain send, nothing for a close. */
  ghost predicate Applied(id: int, op: UserOp, m: Conn, m': Conn) {
    id in m.streams && id in m.total &&
    exists extra :: m' == Grow(m, id, extra, op.CloseIt?) && (op.SendData? ==> extra == op.view) && (op.CloseIt? ==> extra == [])
  }

  predicate Available(id: int, m: Conn) { id != SENTINEL && id !in m.total }

  /** What ngtcp2's report does. Whether a pending stream is there to take an id is not part of this state. */
  ghost predicate Reported(a: PeerAct, m: Conn, m': Conn) {
    match a
    case PeerOpens(id) => m' == if Available(id, m) then Joined(m, id, [], false) else m
    case PeerAcks(id, _) => m' == m || (id in m.streams && id in m.total && exists extra :: m' == Grow(m, id, extra, false))
    case PeerEnds(id) => m' == m.(streams := m.streams - {id})
    case AssignsId(id) => m' == m || (Available(id, m) && exists bytes, closing :: m' == Joined(m, id, bytes, closing))
  }

  /** One report after the other, with the states in between. */
  ghost predicate Trail(acts: seq<PeerAct>, trail: seq<Conn>) {
    |trail| == |acts| + 1 && forall i :: 0 <= i < |acts| ==> Reported(acts[i], trail[i], trail[i + 1])
  }

  ghost predicate AllReported(acts: seq<PeerAct>, m: Conn, m': Conn) {
    exists trail :: Trail(acts, trail) && trail[0] == m && trail[|acts|] == m'
  }

  /** What an event of one connection does to its state; `active` is its trigger. */
  ghost predicate Effect(h: Happening, active: bool, backend: Backend, m: Conn, m': Conn) {
    match h
    case NewStream(id) => m' == if Available(id, m) then Joined(m, id, [], false) else m
    case NewPending => m' == m
    case OnPending(_, _) => m' == m
    case OnStream(id, op) => if id in m.streams then Applied(id, op, m, m') else m' == m
    case Received(acts) => AllReported(acts, m, m')
    case Triggered(d) => if active then Flushed(d, backend, m, m') else m' == m
    case TimedOut(d) => Flushed(d, backend, m, m')
  }

  // ---- the order of the stream map ----------------------------------------------------------

  function InsertKey(ids: seq<int>, x: int): (r: seq<int>)
    requires Ascending(ids) && x !in ids
    ensures Ascending(r) && (forall y :: y in r <==> y == x || y in ids)
    ensures r[0] == x || (ids != [] && r[0] == ids[0])
  {
    if ids == [] || x < ids[0] then [x] + ids else [ids[0]] + InsertKey(ids[1..], x)
  }

  /** A std::map is walked in the order of its keys. */
  method InOrder(keys: set<int>) returns (ids: seq<int>)
    ensures Ascending(ids) && forall x :: x in ids <==> x in keys
  {
    ids := [];
    var rest := keys;
    while rest != {}
      invariant rest <= keys && Ascending(ids)
      invariant forall x :: x in ids <==> x in keys - rest
      decreases |rest|
    {
      SomeElement(rest);
      var x :| x in rest;
      ids := InsertKey(ids, x);
      rest := rest - {x};
    }
  }

  lemma {:induction false} ViewsKeys(c: Connection)
    requires c.Streamed()
    ensures c.model.streams.Keys == c.streams.Keys
    ensures forall id :: id in c.streams ==> c.model.streams[id].closing == c.streams[id].isClosing
  {
    hide Stream.Valid, Stream.UnsentBytes;
  }

  lemma {:induction false} LogAt(m: map<int, Stream>)
    ensures forall id :: id in m ==> Logs(m)[id] == StreamBuffer.Bytes(m[id].log)
  {
    hide StreamBuffer.Bytes;
  }

  method Schedule(c: Connection, mid: nat) returns (ids: seq<int>, start: nat)
    requires c.Streamed()
    ensures IsOrder(ids, c.model) && start == (if ids == [] then 0 else mid % |ids|)
    ensures start <= |ids| && (ids != [] ==> start < |ids|)
  {
    hide Ascending, Table, Views;
    ids := InOrder(c.streams.Keys);
    ViewsKeys(c);
    start := if ids == [] then 0 else mid % |ids|;
  }

  // ---- flushes ------------------------------------------------------------------------------

  /** A flush leaves histories and pending streams alone. */
  method FlushQuietly(c: Connection, ids: seq<int>, start: nat, d: Draws)
    requires Coherent(c) && IsOrder(ids, c.model) && start <= |ids| && (ids != [] ==> start < |ids|)
    modifies c`nPackets, c`model, c.sendBuffer, c.sendBufferSize, c.socket, c.Objects()`sentFin, c.Objects()`unackedSize
    ensures Coherent(c)
    ensures old(c.Mirrors()) ==> c.Mirrors() && c.Shares(old(c.socket.wire), old(c.socket.owners))
    ensures var r := FlushRun.FlushStreams(old(c.model), ids, start, Env(c.backend, d.budget, d.writer, d.kernel));
      c.model == r.conn && c.socket.writeableCallbacks == old(c.socket.writeableCallbacks) + Resends(c.number, r.resends)
  {
    hide StreamsOk, Conserved, Logs, IsOrder, FlushRun.FlushStreams, StreamBuffer.Bytes, Waits, Resends;
    hide Connection.Batched, Connection.Mirrors, Connection.Streamed, Connection.Shares, Stream.Valid, Stream.UnsentBytes;
    FlushCorrect(c.model, ids, start, Env(c.backend, d.budget, d.writer, d.kernel));
    OpenKeys(c.model);
    LogAt(c.streams);
    c.FlushStreams(ids, start, d.budget, d.writer, d.kernel);
    LogAt(c.streams);
  }

  /** on_io_ready. Afterwards the writer has been called for everything, or a flush will follow the resend. */
  method ServeIo(c: Connection, d: Draws)
    requires Coherent(c) && c.Mirrors()
    modifies c`nPackets, c`model, c.sendBuffer, c.sendBufferSize, c.socket, c.Objects()`sentFin, c.Objects()`unackedSize
    ensures Coherent(c) && c.Mirrors() && c.Shares(old(c.socket.wire), old(c.socket.owners)) && c.Pledged()
    ensures c.socket.writeableCallbacks == old(c.socket.writeableCallbacks) + Resends(c.number, if old(c.nPackets) > 0 || c.nPackets == 0 then 0 else 1)
    ensures old(c.nPackets) > 0 ==> c.nPackets > 0
    ensures Extends(old(c.model), c.model) && (old(c.nPackets) == 0 ==> |c.model.writes| > |old(c.model).writes|)
    ensures Flushed(d, c.backend, old(c.model), c.model)
  {
    hide StreamsOk, Conserved, Logs, IsOrder, FlushRun.FlushStreams, Covered, Resends, Stream.Valid, Stream.UnsentBytes;
    hide Connection.Batched, Connection.Mirrors, Connection.Streamed, Connection.Shares, Connection.Pending, Connection.Linked;
    var ids, start := Schedule(c, d.mid);
    FlushCorrect(c.model, ids, start, Env(c.backend, d.budget, d.writer, d.kernel));
    c.BatchCount();
    FlushQuietly(c, ids, start, d);
    c.BatchCount();
    assert FlushedBy(ids, start, d, c.backend, old(c.model), c.model);
  }

  method ResumeQuietly(c: Connection, reply: KernelReply, ids: seq<int>, start: nat, d: Draws)
    requires Coherent(c) && c.nPackets > 0 && IsOrder(ids, c.model) && start <= |ids| && (ids != [] ==> start < |ids|)
    modifies c`nPackets, c`model, c.sendBuffer, c.sendBufferSize, c.socket, c.Objects()`sentFin, c.Objects()`unackedSize
    ensures Coherent(c)
    ensures var (c', outcome) := SendOnce(old(c.model), c.backend, reply);
      && Extends(c', c.model)
      && (outcome == Sent ==> |c.model.writes| > |old(c.model).writes| && Covered(c.model))
      && (outcome != Sent ==> c.model == c')
    ensures c.model == Resume(old(c.model), reply, ids, start, Env(c.backend, d.budget, d.writer, d.kernel)).conn
    ensures old(c.Mirrors()) ==> c.Mirrors() && c.Shares(old(c.socket.wire), old(c.socket.owners))
    ensures c.socket.writeableCallbacks == old(c.socket.writeableCallbacks) + Resends(c.number, if c.model.batch == [] then 0 else 1)
  {
    hide StreamsOk, Conserved, Logs, IsOrder, Resume, StreamBuffer.Bytes, Waits, Resends, SendOnce;
    hide Connection.Batched, Connection.Mirrors, Connection.Streamed, Connection.Shares, Stream.Valid, Stream.UnsentBytes;
    ResumeCorrect(c.model, reply, ids, start, Env(c.backend, d.budget, d.writer, d.kernel));
    SendFrame(c.model, c.backend, reply);
    OpenKeys(c.model);
    LogAt(c.streams);
    c.OnWriteable(reply, ids, start, d.budget, d.writer, d.kernel);
    LogAt(c.streams);
  }

  lemma {:induction false} SameCover(c: Conn, c': Conn)
    requires c'.streams == c.streams && c'.touched == c.touched && c'.writes == c.writes
    ensures Covered(c') == Covered(c)
  {
  }

  /**
   * The resend callback. Its entry assertion is the precondition. A flush follows unless the socket is still full, and
   * then the callback is queued again; only after a hard error may bytes be left that no flush is coming for, and that
   * happens exactly when they came after the last flush and the trigger was spent on a flush that found the socket full.
   */
  method ServeResend(c: Connection, reply: KernelReply, d: Draws)
    requires Coherent(c) && c.Mirrors() && c.nPackets > 0
    modifies c`nPackets, c`model, c.sendBuffer, c.sendBufferSize, c.socket, c.Objects()`sentFin, c.Objects()`unackedSize
    ensures Coherent(c) && c.Mirrors() && c.Shares(old(c.socket.wire), old(c.socket.owners))
    ensures c.socket.writeableCallbacks == old(c.socket.writeableCallbacks) + Resends(c.number, if c.nPackets == 0 then 0 else 1)
    ensures c.Pledged() <==>
      SendOnce(old(c.model), c.backend, reply).1 != Failed || c.io.active || Covered(old(c.model))
    ensures var (c', outcome) := SendOnce(old(c.model), c.backend, reply);
      && Extends(c', c.model)
      && (outcome == Sent ==> |c.model.writes| > |old(c.model).writes|)
      && (outcome == Failed ==> c.nPackets == 0 && c.model.streams == old(c.model.streams))
    ensures Resumed(reply, d, c.backend, old(c.model), c.model)
  {
    hide StreamsOk, Conserved, Logs, IsOrder, Covered, Resends, SendOnce, FlushRun.Resume, Stream.Valid, Stream.UnsentBytes;
    hide Connection.Batched, Connection.Mirrors, Connection.Streamed, Connection.Shares, Connection.Pending, Connection.Linked;
    var ids, start := Schedule(c, d.mid);
    ghost var c1 := SendOnce(c.model, c.backend, reply).0;
    SendConserves(c.model, c.backend, reply);
    SameCover(c.model, c1);
    ResumeQuietly(c, reply, ids, start, d);
    c.BatchCount();
    assert ResumedBy(ids, start, reply, d, c.backend, old(c.model), c.model);
  }

  // ---- streams ------------------------------------------------------------------------------

  lemma {:induction false} StillCovered(c: Conn, id: int)
    requires Covered(c) && id !in c.total && StreamsOk(c)
    ensures Covered(Joined(c, id, [], false))
  {
    hide FinIsFinal, Written;
  }

  lemma {:induction false} OpenIs(c: Connection)
    requires Coherent(c)
    ensures c.streams.Keys == c.model.streams.Keys <= c.model.total.Keys == c.usedIds
  {
    hide Connection.Batched, Connection.Pending, Table, Views, Logs, Matches, Conserved;
    ViewsKeys(c);
    OpenKeys(c.model);
  }

  /** What the user does with an open stream; an unknown id is nobody's. */
  method ServeUser(c: Connection, id: int, op: UserOp)
    requires Coherent(c) && c.Mirrors()
    modifies c`model, c.Objects(), c.io
    ensures Coherent(c) && c.Mirrors() && (old(c.Pledged()) ==> c.Pledged())
    ensures if id in old(c.model.streams) then Applied(id, op, old(c.model), c.model) else c.model == old(c.model)
    ensures id in c.streams ==> Enrolled(op, old(c.streams[id].senders), c.streams[id].senders)
  {
    hide StreamsOk, Conserved, Table, Views, Logs, Matches, Loaded, Decode, Wire, Mine, Waits, Covered, Stream.Valid, Stream.UnsentBytes;
    hide Enrolled, Grow;
    OpenIs(c);
    if id in c.streams {
      var _ := c.Apply(id, op);
    }
  }

  method ServeOpen(c: Connection, id: int)
    requires Coherent(c) && c.Mirrors()
    modifies c`model, c`streams, c`usedIds
    ensures Coherent(c) && c.Mirrors() && (old(c.Pledged()) ==> c.Pledged())
    ensures c.model == if Available(id, old(c.model)) then Joined(old(c.model), id, [], false) else old(c.model)
    ensures forall s :: s in Kept(c) ==> s in old(Kept(c)) || fresh(s)
  {
    hide StreamsOk, Conserved, Table, Views, Logs, Matches, Loaded, Decode, Wire, Mine, Waits, Covered, Stream.Valid, Stream.UnsentBytes;
    OpenIs(c);
    if id != SENTINEL && id !in c.usedIds {
      if Covered(c.model) {
        StillCovered(c.model, id);
      }
      c.OpenStream(id);
    }
  }

  /** An acknowledgement moves the cursors of its stream by exactly its size. */
  method ServeAck(c: Connection, id: int, size: nat)
    requires Coherent(c) && c.Mirrors()
    modifies c`model, c.Objects(), c.io
    ensures Coherent(c) && c.Mirrors() && Reported(PeerAct.PeerAcks(id, size), old(c.model), c.model)
    ensures id in c.streams && size <= old(c.streams[id].unackedSize) ==>
      c.streams[id].unackedSize == old(c.streams[id].unackedSize) - size
  {
    hide StreamsOk, Conserved, Table, Views, Logs, Matches, Loaded, Decode, Wire, Mine, Waits, Covered, Stream.Valid, Stream.UnsentBytes;
    hide Grow, Stream.Buffered, Stream.Acked;
    OpenIs(c);
    if id in c.streams && size <= c.streams[id].unackedSize {
      var _, _ := c.StreamAck(id, size);
    }
  }

  /** A pending stream gets its id, and brings along what was appended to it. */
  method ServeAssign(c: Connection, id: int)
    requires Coherent(c) && c.Mirrors()
    modifies c`model, c`streams, c`usedIds, c`pendingStreams, c.pendingStreams
    ensures Coherent(c) && c.Mirrors() && Kept(c) <= old(Kept(c)) && Reported(AssignsId(id), old(c.model), c.model)
    ensures old(c.pendingStreams) != [] && Available(id, old(c.model)) ==>
      c.pendingStreams == old(c.pendingStreams)[1..] && id in c.streams && c.streams[id] == old(c.pendingStreams)[0]
  {
    hide StreamsOk, Conserved, Table, Views, Logs, Matches, Loaded, Decode, Wire, Mine, Waits, Covered, Stream.Valid, Stream.UnsentBytes;
    hide Joined;
    OpenIs(c);
    if c.pendingStreams != [] && id != SENTINEL && id !in c.usedIds {
      c.ServePending(id);
    }
  }

  /** What ngtcp2 reports about streams while it reads a packet. */
  method ServeAct(c: Connection, a: PeerAct)
    requires Coherent(c) && c.Mirrors()
    modifies c`model, c`streams, c`usedIds, c`pendingStreams, Kept(c), c.io
    ensures Coherent(c) && c.Mirrors() && Reported(a, old(c.model), c.model)
    ensures forall s :: s in Kept(c) ==> s in old(Kept(c)) || fresh(s)
  {
    hide StreamsOk, Conserved, Table, Views, Logs, Matches, Loaded, Decode, Wire, Mine, Waits, Covered, Stream.Valid, Stream.UnsentBytes;
    match a {
      case PeerOpens(id) => ServeOpen(c, id);
      case PeerAcks(id, size) => ServeAck(c, id, size);
      case PeerEnds(id) => c.EraseStream(id);
      case AssignsId(id) => ServeAssign(c, id);
    }
  }

  method Wake(c: Connection)
    requires Coherent(c)
    modifies c.io
    ensures Coherent(c) && c.io.active
  {
    hide Stream.Valid, Waits, Table, Views, Logs, StreamsOk, Conserved, Connection.Batched;
    c.io.Activate();
  }

  lemma {:induction false} NothingReported(acts: seq<PeerAct>, m: Conn)
    ensures AllReported(acts[..0], m, m)
  {
    assert Trail(acts[..0], [m]);
  }

  lemma {:induction false} ReportedNext(acts: seq<PeerAct>, i: nat, m: Conn, between: Conn, m': Conn)
    requires i < |acts| && AllReported(acts[..i], m, between) && Reported(acts[i], between, m')
    ensures AllReported(acts[..i + 1], m, m')
  {
    hide Reported;
    var trail :| Trail(acts[..i], trail) && trail[0] == m && trail[i] == between;
    var longer := trail + [m'];
    forall k | 0 <= k < i + 1 ensures Reported(acts[..i + 1][k], longer[k], longer[k + 1]) {
      if k < i {
        assert Reported(acts[..i][k], trail[k], trail[k + 1]);
      }
    }
    assert Trail(acts[..i + 1], longer);
  }

  /** read_packet: whatever ngtcp2 reported, a packet that was read wakes the connection. */
  method ServeReceived(c: Connection, acts: seq<PeerAct>)
    requires Coherent(c) && c.Mirrors()
    modifies c`model, c`streams, c`usedIds, c`pendingStreams, Kept(c), c.io
    ensures Coherent(c) && c.Mirrors() && c.Pledged() && c.io.active && AllReported(acts, old(c.model), c.model)
    ensures forall s :: s in Kept(c) ==> s in old(Kept(c)) || fresh(s)
  {
    hide Coherent, Connection.Mirrors, Covered, AllReported, Reported;
    NothingReported(acts, c.model);
    for i := 0 to |acts|
      invariant Coherent(c) && c.Mirrors() && AllReported(acts[..i], old(c.model), c.model)
      invariant forall s :: s in Kept(c) ==> s in old(Kept(c)) || fresh(s)
    {
      ghost var between := c.model;
      ServeAct(c, acts[i]);
      ReportedNext(acts, i, old(c.model), between, c.model);
    }
    assert acts[..|acts|] == acts;
    Wake(c);
  }

  method ServeNewPending(c: Connection)
    requires Coherent(c) && c.Mirrors()
    modifies c`pendingStreams
    ensures Coherent(c) && c.Mirrors() && (old(c.Pledged()) ==> c.Pledged())
    ensures |c.pendingStreams| == |old(c.pendingStreams)| + 1 && old(c.pendingStreams) <= c.pendingStreams
    ensures forall s :: s in Kept(c) ==> s in old(Kept(c)) || fresh(s)
  {
    hide StreamsOk, Conserved, Table, Views, Logs, Matches, Loaded, Decode, Wire, Mine, Waits, Covered, Stream.Valid, Stream.UnsentBytes;
    c.NewPending();
  }

  method ServeOnPending(c: Connection, i: nat, op: UserOp)
    requires Coherent(c) && c.Mirrors() && i < |c.pendingStreams|
    modifies c.pendingStreams, c.io
    ensures Coherent(c) && c.Mirrors() && (old(c.Pledged()) ==> c.Pledged())
    ensures var s := c.pendingStreams[i];
      && (op.SendData? ==> StreamBuffer.Bytes(s.log) == old(StreamBuffer.Bytes(s.log)) + op.view)
      && (op.CloseIt? ==> s.isClosing) && Enrolled(op, old(s.senders), s.senders)
  {
    hide StreamsOk, Conserved, Table, Views, Logs, Matches, Loaded, Decode, Wire, Mine, Waits, Covered, Stream.Valid, Stream.UnsentBytes, Enrolled, StreamBuffer.Bytes;
    var _ := c.ApplyPending(i, op);
  }

  /**
   * Any event of one connection. Its packets land on its own part of the wire, a callback is queued exactly when a
   * flush leaves packets over, and whatever is appended or closed is followed by a flush.
   */
  method ServeHappening(c: Connection, h: Happening)
    requires Coherent(c) && c.Mirrors()
    modifies c, c.sendBuffer, c.sendBufferSize, c.socket, Kept(c), c.io
    ensures Coherent(c) && c.Mirrors() && c.Shares(old(c.socket.wire), old(c.socket.owners))
    ensures c.socket.writeableCallbacks == old(c.socket.writeableCallbacks) + Resends(c.number, if old(c.nPackets) > 0 || c.nPackets == 0 then 0 else 1)
    ensures old(c.nPackets) > 0 ==> c.nPackets > 0
    ensures old(c.Pledged()) || h.TimedOut? ==> c.Pledged()
    ensures Effect(h, old(c.io.active), c.backend, old(c.model), c.model)
    ensures forall s :: s in Kept(c) ==> s in old(Kept(c)) || fresh(s)
  {
    hide Coherent, Connection.Mirrors, Covered, OnlyBy, Flushed, AllReported, Applied;
    c.SharesNothing();
    assert Resends(c.number, 0) == [];
    match h {
      case NewStream(id) => ServeOpen(c, id);
      case OnStream(id, op) => ServeUser(c, id, op);
      case Received(acts) => ServeReceived(c, acts);
      case Triggered(d) =>
        if c.io.active {
          c.io.Fire();
          ServeIo(c, d);
        }
      case TimedOut(d) => ServeIo(c, d);
      case NewPending => ServeNewPending(c);
      case OnPending(i, op) =>
        if i < |c.pendingStreams| {
          ServeOnPending(c, i, op);
        }
    }
  }

  // ---- several connections ------------------------------------------------------------------

  /** What is on record about all connections: the wire and its senders, their states, who has packets left over, who lost a resend. */
  datatype Account = Account(wire: seq<seq<byte>>, owners: seq<int>, models: seq<Conn>, busy: seq<bool>, lost: set<nat>)

  /** Connection `k` against the record. */
  ghost predicate Belongs(c: Connection, k: nat, socket: UdpSocket, a: Account)
    reads c, Footprint(c)
  {
    && |a.wire| == |a.owners| && k < |a.busy| == |a.models|
    && c.number == k && c.socket == socket && Coherent(c) && c.model == a.models[k]
    && Mine(a.wire, a.owners, k) == Wire(c.model.fates)
    && a.busy[k] == (c.nPackets > 0)
    && (k !in a.lost ==> c.Pledged())
  }

  /** All connections but `k` keep within `repr`, and share no objects. */
  ghost predicate Separate(conns: seq<Connection>, k: int, repr: set<object>)
    reads repr
  {
    && (forall j :: 0 <= j < |conns| && j != k ==> conns[j] in repr && Footprint(conns[j]) <= repr)
    && (forall i, j :: 0 <= i < |conns| && 0 <= j < |conns| && i != k && j != k && i != j ==> Footprint(conns[i]) !! Footprint(conns[j]))
  }

  /** And they are in order. */
  ghost predicate Standing(conns: seq<Connection>, k: int, socket: UdpSocket, a: Account, repr: set<object>)
    reads repr
  {
    && |a.busy| == |a.models| == |conns| && socket !in repr && Separate(conns, k, repr)
    && (forall j :: 0 <= j < |conns| && j != k ==> Belongs(conns[j], j, socket, a))
  }

  lemma {:induction false} SeparateOut(conns: seq<Connection>, k: nat, repr: set<object>)
    requires k < |conns| && Separate(conns, -1, repr)
    ensures Separate(conns, k, repr - Footprint(conns[k])) && Footprint(conns[k]) <= repr && conns[k] in repr
  {
    var f := Footprint(conns[k]);
    assert forall j :: 0 <= j < |conns| ==> conns[j] in Footprint(conns[j]);
    hide Footprint;
    forall j | 0 <= j < |conns| && j != k ensures conns[j] in repr - f && Footprint(conns[j]) <= repr - f {
      assert Footprint(conns[j]) !! f;
    }
  }

  lemma {:induction false} SeparateIn(conns: seq<Connection>, k: nat, repr: set<object>)
    requires k < |conns| && Separate(conns, k, repr) && repr !! Footprint(conns[k])
    ensures Separate(conns, -1, repr + Footprint(conns[k]))
  {
    assert conns[k] in Footprint(conns[k]);
    hide Footprint;
    forall j | 0 <= j < |conns| && j != k ensures Footprint(conns[j]) !! Footprint(conns[k]) {
      assert Footprint(conns[j]) <= repr;
    }
  }

  lemma {:induction false} SeparateNew(conns: seq<Connection>, c: Connection, repr: set<object>)
    requires Separate(conns, -1, repr) && repr !! Footprint(c)
    ensures Separate(conns + [c], -1, repr + Footprint(c))
  {
    var cs := conns + [c];
    assert cs[|conns|] == c && forall j :: 0 <= j < |conns| ==> cs[j] == conns[j];
    hide Footprint;
    assert Separate(cs, |conns|, repr);
    SeparateIn(cs, |conns|, repr);
  }

  lemma {:induction false} TakeOut(conns: seq<Connection>, k: nat, socket: UdpSocket, a: Account, repr: set<object>)
    requires k < |conns| && Standing(conns, -1, socket, a, repr)
    ensures Standing(conns, k, socket, a, repr - Footprint(conns[k])) && Belongs(conns[k], k, socket, a)
    ensures Footprint(conns[k]) <= repr && socket !in repr && conns[k] in repr
  {
    hide Footprint, Belongs, Separate;
    SeparateOut(conns, k, repr);
  }

  lemma {:induction false} PutBack(conns: seq<Connection>, k: nat, socket: UdpSocket, a: Account, a': Account, repr: set<object>)
    requires k < |conns| && Standing(conns, k, socket, a, repr) && Belongs(conns[k], k, socket, a')
    requires repr !! Footprint(conns[k]) && socket !in Footprint(conns[k])
    requires |a'.busy| == |a'.models| == |a.busy|
    requires forall j :: 0 <= j < |conns| && j != k ==> a'.busy[j] == a.busy[j] && a'.models[j] == a.models[j] && (j in a.lost ==> j in a'.lost)
    requires OnlyBy(k, a.wire, a.owners, a'.wire, a'.owners)
    ensures Standing(conns, -1, socket, a', repr + Footprint(conns[k]))
  {
    hide Footprint, Coherent, Mine, Wire, Separate, Connection.Pledged;
    forall j | 0 <= j < |conns| && j != k ensures Belongs(conns[j], j, socket, a') {
      assert Belongs(conns[j], j, socket, a);
    }
    SeparateIn(conns, k, repr);
    hide Belongs, OnlyBy;
  }

  class LocalEndpoint {
    const socket: UdpSocket
    var conns: seq<Connection>
    ghost var models: seq<Conn>                    // the state of each connection
    ghost var busy: seq<bool>
    ghost var lost: set<nat>                       // connections whose resend met a hard error, and no flush since
    ghost var submitted: multiset<seq<byte>>       // one-shot packets handed over
    ghost var settled: multiset<seq<byte>>         // one-shot packets sent or dropped
    ghost var repr: set<object>

    ghost function Now(): Account
      reads this, socket
    {
      Account(socket.wire, socket.owners, models, busy, lost)
    }

    /** All connections are in order, and a queued callback has armed the write event. */
    ghost predicate Housed()
      reads this, socket, repr
    {
      && this !in repr && |socket.wire| == |socket.owners| && (socket.writeableCallbacks != [] ==> socket.armed)
      && Standing(conns, -1, socket, Now(), repr) && Unused(socket.wire, socket.owners, |conns|)
    }

    /** The callbacks that wait are those of the packets that wait; `running` has been taken out by the write event. */
    ghost predicate Waiting(running: seq<Callback>)
      reads this, socket
    {
      Paired(busy, socket.writeableCallbacks + running, submitted, settled)
    }

    ghost predicate Valid()
      reads this, socket, repr
    {
      Housed() && Waiting([])
    }

    constructor (backend: Backend)
      ensures Valid() && fresh(socket) && fresh(repr) && conns == [] && socket.backend == backend && submitted == multiset{} && lost == {} && models == []
    {
      socket := new UdpSocket(backend);
      conns, models, busy, lost, submitted, settled, repr := [], [], [], {}, multiset{}, multiset{}, {};
      new;
      assert socket.writeableCallbacks + [] == [];
    }

    /** make_conn. */
    method Connect()
      requires Valid()
      modifies this`conns, this`models, this`busy, this`repr
      ensures Valid() && fresh(repr - old(repr)) && lost == old(lost)
      ensures |conns| == |old(conns)| + 1 && old(conns) <= conns && models == old(models) + [FRESH]
    {
      hide Mine, OnlyBy, Standing, Belongs, Paired, Coherent, Footprint, Connection.Batched;
      var k := |conns|;
      var c := new Connection(k, socket.backend, socket);
      NewCoherent(c);
      Outside(conns, socket, Now(), repr);
      NewBelongs(c, k, socket, WithNew(Now()));
      NewStands(conns, c, socket, Now(), repr);
      ConnectPairs(busy, socket.writeableCallbacks + [], submitted, settled);
      conns, models, busy, repr := conns + [c], models + [FRESH], busy + [false], repr + Footprint(c);
    }

    /** An event of one connection. */
    method At(k: nat, h: Happening)
      requires Valid() && k < |conns|
      modifies this`models, this`busy, this`lost, this`repr, socket, repr
      ensures Valid() && fresh(repr - old(repr)) && lost <= old(lost)
      ensures |models| == |old(models)| == |conns| && models == old(models)[k := models[k]]
      ensures Effect(h, old(conns[k].io.active), socket.backend, old(models)[k], models[k])
    {
      hide Standing, Belongs, Paired, Mine, Wire, OnlyBy, Unused, Resends, Coherent, Kept, Effect, Connection.Mirrors, Connection.Pledged;
      ghost var a, around, queue := Now(), repr - Footprint(conns[k]), socket.writeableCallbacks;
      var c := conns[k];
      TakeOut(conns, k, socket, a, repr);
      Outside(conns, socket, a, repr);
      BelongsIs(c, k, socket, a);
      ghost var flushes := h.TimedOut? || (h.Triggered? && c.io.active);
      PledgeIs(c);
      ServeHappening(c, h);
      Landed(k, a.busy[k], if a.busy[k] || c.nPackets == 0 then 0 else 1, queue, []);
      assert this !in Footprint(c);
      Settle(c, k, a, around, false, flushes);
    }

    /** A resend callback that the write event has taken off the queue. */
    method Resume(k: nat, reply: KernelReply, d: Draws, ghost rest: seq<Callback>)
      requires Housed() && Waiting([Resend(k)] + rest)
      modifies this`models, this`busy, this`lost, this`repr, socket, repr
      ensures Housed() && Waiting(rest) && fresh(repr - old(repr)) && k < |conns|
      ensures forall j :: j != k ==> (j in lost <==> j in old(lost))
      ensures k in lost ==> !Soft(reply)
      ensures |models| == |old(models)| == |conns| && models == old(models)[k := models[k]]
      ensures Extends(SendOnce(old(models)[k], socket.backend, reply).0, models[k]) && Resumed(reply, d, socket.backend, old(models)[k], models[k])
      ensures OnlyBy(k, old(socket.wire), old(socket.owners), socket.wire, socket.owners)
    {
      hide Standing, Belongs, Paired, Mine, Wire, OnlyBy, Unused, Resends, Coherent, SendOnce, Covered, Extends, Resumed, Connection.Mirrors, Connection.Pledged;
      ghost var a, queue := Now(), socket.writeableCallbacks;
      Outside(conns, socket, a, repr);
      assert queue + ([Resend(k)] + rest) == queue + [Resend(k)] + rest;
      ResendLeaves(busy, queue, k, rest, submitted, settled);
      var c := conns[k];
      ghost var around := repr - Footprint(c);
      TakeOut(conns, k, socket, a, repr);
      BelongsIs(c, k, socket, a);
      HardError(c.model, c.backend, reply);
      ghost var failed := SendOnce(c.model, c.backend, reply).1 == Failed;
      ServeResend(c, reply, d);
      LandPairs(busy, queue, rest, k, if c.nPackets == 0 then 0 else 1, submitted, settled);
      assert this !in Footprint(c);
      Settle(c, k, a, around, failed, true);
    }

    /** send_or_queue_packet: `running` waits behind it when the write event calls it. */
    method SendOrQueue(p: Packet, reply: KernelReply, ghost running: seq<Callback>)
      requires Housed() && Paired(busy, socket.writeableCallbacks + running, submitted, settled + multiset{p})
      modifies this`settled, socket
      ensures Housed() && Waiting(running)
      ensures settled == if TrySend(true, socket.backend, [p], reply).outcome == Blocked then old(settled) else old(settled) + multiset{p}
      ensures OnlyBy(-1, old(socket.wire), old(socket.owners), socket.wire, socket.owners)
      ensures |socket.wire| == |socket.owners|
      ensures Mine(socket.wire, socket.owners, -1) == old(Mine(socket.wire, socket.owners, -1)) + TrySend(true, socket.backend, [p], reply).left
    {
      hide Standing, Paired, Mine, OnlyBy, Unused;
      ghost var a, queue := Now(), socket.writeableCallbacks;
      Outside(conns, socket, a, repr);
      var blocked := SendOne(socket, p, reply);
      if blocked {
        OneShotPairs(busy, queue, p, running, submitted, settled);
      } else {
        assert queue + [] == queue;
        settled := settled + multiset{p};
      }
      NobodySent(conns, socket, a, Now(), repr);
    }

    method Submit(p: Packet, reply: KernelReply)
      requires Valid()
      modifies this`submitted, this`settled, socket
      ensures Valid() && submitted == old(submitted) + multiset{p} && |socket.wire| == |socket.owners|
      ensures Mine(socket.wire, socket.owners, -1) == old(Mine(socket.wire, socket.owners, -1)) + TrySend(true, socket.backend, [p], reply).left
      ensures OnlyBy(-1, old(socket.wire), old(socket.owners), socket.wire, socket.owners)
    {
      hide Standing, Paired, Unused, Mine, OnlyBy, TrySend;
      Outside(conns, socket, Now(), repr);
      SubmitPairs(busy, socket.writeableCallbacks + [], p, submitted, settled);
      submitted := submitted + multiset{p};
      SendOrQueue(p, reply, []);
    }

    /** The write event: the queue is taken, then every callback runs in turn. */
    method Writeable(replies: nat -> KernelReply, draws: nat -> Draws)
      requires Valid()
      modifies this`models, this`busy, this`lost, this`repr, this`settled, socket, repr
      ensures Valid() && fresh(repr - old(repr)) && ((forall i :: Soft(replies(i))) ==> lost <= old(lost))
      ensures !old(socket.armed) ==> models == old(models) && socket.wire == old(socket.wire)
      ensures old(socket.armed) ==> Served(old(socket.writeableCallbacks), |old(socket.writeableCallbacks)|, socket.backend, replies, draws, old(models), models)
      ensures |socket.wire| == |socket.owners| && |old(socket.wire)| == |old(socket.owners)|
      ensures old(socket.armed) ==>
        (Mine(socket.wire, socket.owners, -1) ==
         old(Mine(socket.wire, socket.owners, -1)) + OneShotsOut(old(socket.writeableCallbacks), socket.backend, replies))
      ensures old(socket.armed) && (forall i :: replies(i).accept >= BATCH_SIZE) ==>
        AllLeft(old(models), old(socket.wire), old(socket.owners), socket.wire, socket.owners)
    {
      hide Housed, Paired, Served, OneShotsOut, Mine, TrySend, Resumed, AllMine, AllLeft, Ready;
      SameLengths();
      RecordIs();
      if !socket.armed {
        return;
      }
      ghost var queue, before, wire0, owners0 := socket.writeableCallbacks, models, socket.wire, socket.owners;
      var running := Fire();
      Once(running);
      ServedNone(queue, socket.backend, replies, draws, models);
      NoneOut(queue, socket.backend, replies);
      var i := 0;
      while running != []
        invariant Housed() && Waiting(running) && fresh(repr - old(repr)) && ((forall i :: Soft(replies(i))) ==> lost <= old(lost))
        invariant i <= |queue| && running == queue[i..] && Served(queue, i, socket.backend, replies, draws, before, models)
        invariant |socket.wire| == |socket.owners|
        invariant Mine(socket.wire, socket.owners, -1) == old(Mine(socket.wire, socket.owners, -1)) + OneShotsOut(queue[..i], socket.backend, replies)
        decreases |running|
      {
        var callback, rest := running[0], running[1..];
        assert running == [callback] + rest;
        ghost var models1 := models;
        OneMoreOut(queue, i, socket.backend, replies);
        match callback {
          case Resend(k) =>
            ghost var wire, owners := socket.wire, socket.owners;
            Resume(k, replies(i), draws(i), rest);
            ServedResend(queue, i, k, socket.backend, replies, draws, before, models1, models);
            NotMine(k, -1, wire, owners, socket.wire, socket.owners);
          case OneShot(p) =>
            OneShotLeaves(p, rest);
            SendOrQueue(p, replies(i), rest);
            ServedOneShot(queue, i, socket.backend, replies, draws, before, models);
        }
        running := rest;
        i := i + 1;
      }
      assert queue[..i] == queue;
      RecordMine();
      if forall i :: replies(i).accept >= BATCH_SIZE {
        EverythingLeaves(queue, socket.backend, replies, draws, before, models, wire0, owners0, socket.wire, socket.owners);
      }
    }

    /** Before the write event: who has packets left over has a callback queued, and the wire is as recorded. */
    lemma {:induction false} RecordIs()
      requires Valid()
      ensures Ready(models, socket.writeableCallbacks) && AllMine(socket.wire, socket.owners, models)
    {
      hide Mine, Wire, Paired, Separate, Coherent, Unused, Connection.Pledged;
      var queue := socket.writeableCallbacks;
      assert queue + [] == queue;
      OnceEach(busy, queue, submitted, settled);
      forall k | 0 <= k < |models| ensures |models[k].batch| <= BATCH_SIZE && (models[k].batch != [] ==> Resend(k) in queue) {
        assert Belongs(conns[k], k, socket, Now());
        BatchFits(conns[k]);
      }
      RecordMine();
    }

    lemma {:induction false} RecordMine()
      requires Housed()
      ensures AllMine(socket.wire, socket.owners, models)
    {
      hide Mine, Wire, Separate, Coherent, Unused, Connection.Pledged;
      forall k | 0 <= k < |models| ensures Mine(socket.wire, socket.owners, k) == Wire(models[k].fates) {
        assert Belongs(conns[k], k, socket, Now());
      }
    }

    lemma {:induction false} SameLengths()
      requires Housed()
      ensures |socket.wire| == |socket.owners| && |models| == |conns| && this !in repr && socket !in repr
    {
      hide Separate, Belongs, Unused;
    }

    lemma {:induction false} Once(running: seq<Callback>)
      requires Waiting(running) && socket.writeableCallbacks == []
      ensures forall i, j :: 0 <= i < j < |running| && running[i].Resend? ==> running[i] != running[j]
    {
      hide Paired;
      assert socket.writeableCallbacks + running == running;
      OnceEach(busy, running, submitted, settled);
    }

    lemma {:induction false} OneShotLeaves(p: Packet, rest: seq<Callback>)
      requires Waiting([OneShot(p)] + rest)
      ensures Paired(busy, socket.writeableCallbacks + rest, submitted, settled + multiset{p})
    {
      hide Paired;
      OneShotPairs(busy, socket.writeableCallbacks, p, rest, submitted, settled);
      assert socket.writeableCallbacks + ([OneShot(p)] + rest) == socket.writeableCallbacks + [OneShot(p)] + rest;
    }

    /** The event is spent and the queue moves out, without losing a callback. */
    method Fire() returns (running: seq<Callback>)
      requires Valid()
      modifies socket
      ensures Housed() && Waiting(running) && running == old(socket.writeableCallbacks) && socket.writeableCallbacks == []
      ensures socket.wire == old(socket.wire) && socket.owners == old(socket.owners) && !socket.armed
    {
      hide Standing, Paired, Unused;
      ghost var a, queue := Now(), socket.writeableCallbacks;
      Outside(conns, socket, a, repr);
      running := socket.TakeCallbacks();
      assert queue + [] == [] + queue;
    }

    /** The callback queue after connection `k` was served. */
    lemma {:induction false} Landed(k: nat, was: bool, n: nat, queue: seq<Callback>, running: seq<Callback>)
      requires k < |busy| && busy[k] == was && Paired(busy, queue + running, submitted, settled) && (was ==> n == 0) && n <= 1
      requires socket.writeableCallbacks == queue + Resends(k, n)
      ensures Paired(busy[k := was || n == 1], socket.writeableCallbacks + running, submitted, settled)
    {
      hide Paired;
      if was {
        assert queue + Resends(k, 0) == queue && busy[k := true] == busy;
      } else {
        assert busy[k := false] == busy;
        LandPairs(busy, queue, running, k, n, submitted, settled);
      }
    }

    /** The connection that was served goes back among the others. */
    ghost method Settle(c: Connection, k: nat, a: Account, around: set<object>, failed: bool, flushed: bool)
      requires k < |conns| && conns[k] == c && c.number == k && c.socket == socket && |busy| == |models| == |conns|
      requires models == a.models && busy == a.busy && lost == a.lost
      requires Standing(conns, k, socket, a, around) && Coherent(c) && c.Mirrors() && c.Shares(a.wire, a.owners)
      requires around !! Footprint(c) && socket !in Footprint(c) && this !in around && this !in Footprint(c)
      requires failed || (k in lost && !flushed) || c.Pledged()
      requires Unused(a.wire, a.owners, |conns|)
      modifies this`models, this`busy, this`lost, this`repr
      ensures Housed() && repr == around + Footprint(c)
      ensures models == a.models[k := c.model] && busy == a.busy[k := c.nPackets > 0]
      ensures lost == if failed then a.lost + {k} else if flushed then a.lost - {k} else a.lost
    {
      hide Standing, Mine, Wire, OnlyBy, Coherent, Footprint, Connection.Pledged;
      assert Kept(c) <= Footprint(c) && c in Footprint(c) by { InFootprint(c); }
      models, busy, lost := models[k := c.model], busy[k := c.nPackets > 0], if failed then lost + {k} else if flushed then lost - {k} else lost;
      assert Belongs(c, k, socket, Now());
      hide Belongs;
      PutBack(conns, k, socket, a, Now(), around);
      UnusedKept(k, a, Now(), |conns|);
      repr := around + Footprint(c);
    }
  }

  lemma {:induction false} InFootprint(c: Connection)
    ensures c in Footprint(c) && c.io in Footprint(c) && c.sendBuffer in Footprint(c) && c.sendBufferSize in Footprint(c) && Kept(c) <= Footprint(c)
  {
  }

  // ---- what the write event did -------------------------------------------------------------

  ghost predicate Absent(cbs: seq<Callback>, i: nat, k: nat)
    requires i <= |cbs|
  {
    forall j :: 0 <= j < i ==> cbs[j] != Resend(k)
  }

  /** Of the callbacks taken, the first `i` ran: each resend on its own connection, and nothing happened to the others. */
  ghost predicate Served(cbs: seq<Callback>, i: nat, backend: Backend, replies: nat -> KernelReply, draws: nat -> Draws, ms: seq<Conn>, ms': seq<Conn>) {
    && i <= |cbs| && |ms'| == |ms|
    && (forall k :: 0 <= k < |ms| && Absent(cbs, i, k) ==> ms'[k] == ms[k])
    && (forall j :: 0 <= j < i && cbs[j].Resend? ==>
          cbs[j].conn < |ms| && Resumed(replies(j), draws(j), backend, ms[cbs[j].conn], ms'[cbs[j].conn]))
  }

  lemma {:induction false} BatchFits(c: Connection)
    requires Coherent(c)
    ensures |c.model.batch| == c.nPackets <= BATCH_SIZE
  {
    hide Connection.Streamed, Connection.Linked, Connection.Pending, Sound, Loaded, Decode;
    c.BatchCount();
  }

  ghost predicate AllMine(wire: seq<seq<byte>>, owners: seq<int>, ms: seq<Conn>) {
    |wire| == |owners| && forall k :: 0 <= k < |ms| ==> Mine(wire, owners, k) == Wire(ms[k].fates)
  }

  ghost predicate Ready(ms: seq<Conn>, cbs: seq<Callback>) {
    forall k :: 0 <= k < |ms| ==> |ms[k].batch| <= BATCH_SIZE && (ms[k].batch != [] ==> Resend(k) in cbs)
  }

  /** Every packet that was left over has followed, on its connection's part of the wire, what was there before. */
  ghost predicate AllLeft(ms: seq<Conn>, wire: seq<seq<byte>>, owners: seq<int>, wire': seq<seq<byte>>, owners': seq<int>) {
    && |wire| == |owners| && |wire'| == |owners'|
    && forall k :: 0 <= k < |ms| ==> Mine(wire, owners, k) + ms[k].batch <= Mine(wire', owners', k)
  }

  /** A kernel that takes whole batches gets all of them. */
  lemma {:induction false} EverythingLeaves(cbs: seq<Callback>, backend: Backend, replies: nat -> KernelReply, draws: nat -> Draws,
                                            ms: seq<Conn>, ms': seq<Conn>, wire: seq<seq<byte>>, owners: seq<int>, wire': seq<seq<byte>>, owners': seq<int>)
    requires Served(cbs, |cbs|, backend, replies, draws, ms, ms') && Ready(ms, cbs)
    requires AllMine(wire, owners, ms) && AllMine(wire', owners', ms') && forall i :: replies(i).accept >= BATCH_SIZE
    ensures AllLeft(ms, wire, owners, wire', owners')
  {
    hide Resumed, Mine, Wire;
    forall k | 0 <= k < |ms| ensures Wire(ms[k].fates) + ms[k].batch <= Wire(ms'[k].fates) {
      if j :| 0 <= j < |cbs| && cbs[j] == Resend(k) {
        ResumeSends(replies(j), draws(j), backend, ms[k], ms'[k]);
      } else {
        assert Absent(cbs, |cbs|, k);
        assert Wire(ms[k].fates) + [] == Wire(ms[k].fates);
      }
    }
  }

  lemma {:induction false} ResumeSends(reply: KernelReply, d: Draws, backend: Backend, m: Conn, m': Conn)
    requires Resumed(reply, d, backend, m, m') && reply.accept >= BATCH_SIZE && |m.batch| <= BATCH_SIZE
    ensures Wire(m.fates) + m.batch <= Wire(m'.fates)
  {
    hide FlushRun.Resume, StreamsOk, Conserved, IsOrder, Wire, SendOnce, Covered;
    var ids, start :| ResumedBy(ids, start, reply, d, backend, m, m');
    ResumeCorrect(m, reply, ids, start, Env(backend, d.budget, d.writer, d.kernel));
    SendWire(m, backend, reply);
    WirePrefix(SendOnce(m, backend, reply).0.fates, m'.fates);
  }

  /** The one-shot packets that left, in order. */
  ghost function OneShotsOut(cbs: seq<Callback>, backend: Backend, replies: nat -> KernelReply): seq<seq<byte>> {
    if cbs == [] then []
    else
      var n := |cbs| - 1;
      OneShotsOut(cbs[..n], backend, replies) +
      if cbs[n].OneShot? then TrySend(true, backend, [cbs[n].packet], replies(n)).left else []
  }

  lemma {:induction false} NoneOut(cbs: seq<Callback>, backend: Backend, replies: nat -> KernelReply)
    ensures OneShotsOut(cbs[..0], backend, replies) == []
  {
  }

  lemma {:induction false} OneMoreOut(cbs: seq<Callback>, i: nat, backend: Backend, replies: nat -> KernelReply)
    requires i < |cbs|
    ensures OneShotsOut(cbs[..i + 1], backend, replies) ==
            OneShotsOut(cbs[..i], backend, replies) + if cbs[i].OneShot? then TrySend(true, backend, [cbs[i].packet], replies(i)).left else []
  {
    hide TrySend;
    assert cbs[..i + 1][..i] == cbs[..i];
  }

  lemma {:induction false} NotMine(k: int, j: int, wire: seq<seq<byte>>, owners: seq<int>, wire': seq<seq<byte>>, owners': seq<int>)
    requires OnlyBy(k, wire, owners, wire', owners') && j != k
    ensures Mine(wire', owners', j) == Mine(wire, owners, j)
  {
    hide Mine;
  }

  lemma {:induction false} ServedNone(cbs: seq<Callback>, backend: Backend, replies: nat -> KernelReply, draws: nat -> Draws, ms: seq<Conn>)
    ensures Served(cbs, 0, backend, replies, draws, ms, ms)
  {
  }

  lemma {:induction false} ServedOneShot(cbs: seq<Callback>, i: nat, backend: Backend, replies: nat -> KernelReply, draws: nat -> Draws, ms: seq<Conn>, ms': seq<Conn>)
    requires i < |cbs| && cbs[i].OneShot? && Served(cbs, i, backend, replies, draws, ms, ms')
    ensures Served(cbs, i + 1, backend, replies, draws, ms, ms')
  {
    hide Resumed;
    forall k | 0 <= k < |ms| && Absent(cbs, i + 1, k) ensures ms'[k] == ms[k] {
      assert Absent(cbs, i, k);
    }
  }

  lemma {:induction false} ServedResend(cbs: seq<Callback>, i: nat, k: nat, backend: Backend, replies: nat -> KernelReply, draws: nat -> Draws,
                                        ms: seq<Conn>, ms1: seq<Conn>, ms2: seq<Conn>)
    requires i < |cbs| && cbs[i] == Resend(k) && Served(cbs, i, backend, replies, draws, ms, ms1) && k < |ms1|
    requires forall a, b :: 0 <= a < b < |cbs| && cbs[a].Resend? ==> cbs[a] != cbs[b]
    requires |ms2| == |ms1| && ms2 == ms1[k := ms2[k]] && Resumed(replies(i), draws(i), backend, ms1[k], ms2[k])
    ensures Served(cbs, i + 1, backend, replies, draws, ms, ms2)
  {
    hide Resumed;
    assert Absent(cbs, i, k);
    forall j | 0 <= j < |ms| && Absent(cbs, i + 1, j) ensures ms2[j] == ms[j] {
      assert Absent(cbs, i, j);
      assert cbs[i] != Resend(j);
    }
    forall j | 0 <= j < i + 1 && cbs[j].Resend?
      ensures cbs[j].conn < |ms| && Resumed(replies(j), draws(j), backend, ms[cbs[j].conn], ms2[cbs[j].conn])
    {
      if j < i {
        assert cbs[j] != cbs[i];
      }
    }
  }

  /** A single packet in a buffer of its own. */
  method SendOne(socket: UdpSocket, p: Packet, reply: KernelReply) returns (blocked: bool)
    requires |socket.wire| == |socket.owners|
    modifies socket
    ensures blocked == (TrySend(true, socket.backend, [p], reply).outcome == Blocked)
    ensures socket.writeableCallbacks == old(socket.writeableCallbacks) + if blocked then [OneShot(p)] else []
    ensures socket.armed == (old(socket.armed) || blocked)
    ensures |socket.wire| == |socket.owners| && OnlyBy(-1, old(socket.wire), old(socket.owners), socket.wire, socket.owners)
    ensures Mine(socket.wire, socket.owners, -1) == old(Mine(socket.wire, socket.owners, -1)) + TrySend(true, socket.backend, [p], reply).left
  {
    hide TrySend, Mine, OnlyBy, Split, Sum;
    var buf := new byte[|p|](i requires 0 <= i < |p| => p[i]);
    var bufsize := new nat[1](_ => |p|);
    OnePacket(buf[..], bufsize[..1], p);
    var res, _ := SendPackets(socket, buf, bufsize, 1, reply);
    socket.Attribute(-1, old(socket.wire), TrySend(true, socket.backend, [p], reply).left);
    blocked := res.Blocked();
    if blocked {
      socket.WhenWriteable(OneShot(p));
    }
  }

  lemma {:induction false} OnePacket(bytes: seq<byte>, sizes: seq<nat>, p: seq<byte>)
    requires bytes == p && sizes == [|p|]
    ensures Sum(sizes) == |bytes| && Split(bytes, sizes) == [p]
  {
    assert sizes[1..] == [];
    assert bytes[..|p|] == p;
  }

  /** A one-shot packet is nobody's among the connections. */
  lemma {:induction false} NobodySent(conns: seq<Connection>, socket: UdpSocket, a: Account, a': Account, repr: set<object>)
    requires Standing(conns, -1, socket, a, repr) && Unused(a.wire, a.owners, |conns|)
    requires OnlyBy(-1, a.wire, a.owners, a'.wire, a'.owners) && a'.models == a.models && a'.busy == a.busy && a'.lost == a.lost
    ensures Standing(conns, -1, socket, a', repr) && Unused(a'.wire, a'.owners, |conns|)
  {
    hide Footprint, Coherent, Mine, Wire, Separate, Connection.Pledged;
    forall j | 0 <= j < |conns| ensures Belongs(conns[j], j, socket, a') {
      assert Belongs(conns[j], j, socket, a);
    }
    hide Belongs;
  }

  /** The kernel's refusal, if any, only means that the socket is full. */
  predicate Soft(reply: KernelReply) { reply.errno == EAGAIN && reply.interrupts == 0 }

  lemma {:induction false} HardError(c: Conn, backend: Backend, reply: KernelReply)
    ensures SendOnce(c, backend, reply).1 == Failed ==> !Soft(reply)
  {
  }

  lemma {:induction false} UnusedKept(k: nat, a: Account, a': Account, n: nat)
    requires k < n && Unused(a.wire, a.owners, n) && OnlyBy(k, a.wire, a.owners, a'.wire, a'.owners)
    ensures Unused(a'.wire, a'.owners, n)
  {
    hide Mine;
  }

  lemma {:induction false} PledgeIs(c: Connection)
    ensures c.io.active ==> c.Pledged()
  {
    hide Covered;
  }

  /** No datagram is attributed to a connection that does not exist yet. */
  ghost predicate Unused(wire: seq<seq<byte>>, owners: seq<int>, n: nat) {
    |wire| == |owners| && forall k :: k >= n ==> Mine(wire, owners, k) == []
  }

  lemma {:induction false} NewBelongs(c: Connection, k: nat, socket: UdpSocket, a: Account)
    requires c.Batched() && c.nPackets == 0 && c.streams == map[] && c.pendingStreams == [] && c.usedIds == {}
    requires c.model == FRESH && c.io.active && c.number == k && c.socket == socket
    requires k < |a.busy| == |a.models| && !a.busy[k] && a.models[k] == FRESH && |a.wire| == |a.owners| && Mine(a.wire, a.owners, k) == []
    ensures Belongs(c, k, socket, a)
  {
    hide Mine, Coherent, Covered;
    NewCoherent(c);
  }

  lemma {:induction false} NewCoherent(c: Connection)
    requires c.Batched() && c.streams == map[] && c.pendingStreams == [] && c.usedIds == {} && c.model == FRESH
    ensures Coherent(c) && Footprint(c) == {c, c.io, c.sendBuffer, c.sendBufferSize}
  {
    hide Sound, Connection.Batched;
    FreshSound();
  }

  lemma {:induction false} Outside(conns: seq<Connection>, socket: UdpSocket, a: Account, repr: set<object>)
    requires Standing(conns, -1, socket, a, repr)
    ensures socket !in repr && |a.busy| == |a.models| == |conns|
  {
  }

  function WithNew(a: Account): Account { a.(models := a.models + [FRESH], busy := a.busy + [false]) }

  lemma {:induction false} BelongsWithNew(c: Connection, k: nat, socket: UdpSocket, a: Account)
    requires Belongs(c, k, socket, a)
    ensures Belongs(c, k, socket, WithNew(a))
  {
    hide Coherent, Mine, Wire, Connection.Pledged;
  }

  lemma {:induction false} NewStands(conns: seq<Connection>, c: Connection, socket: UdpSocket, a: Account, repr: set<object>)
    requires Standing(conns, -1, socket, a, repr) && repr !! Footprint(c) && socket !in Footprint(c)
    requires Belongs(c, |conns|, socket, WithNew(a))
    ensures Standing(conns + [c], -1, socket, WithNew(a), repr + Footprint(c))
  {
    hide Footprint, Belongs, Separate;
    SeparateNew(conns, c, repr);
    forall j | 0 <= j < |conns| ensures Belongs(conns[j], j, socket, WithNew(a)) {
      BelongsWithNew(conns[j], j, socket, a);
    }
  }

  lemma {:induction false} BackendIs(c: Connection)
    requires Coherent(c)
    ensures c.backend == c.socket.backend
  {
    hide Connection.Streamed, Connection.Linked, Connection.Pending, Sound, Loaded, Decode;
  }

  lemma {:induction false} BelongsIs(c: Connection, k: nat, socket: UdpSocket, a: Account)
    requires Belongs(c, k, socket, a)
    ensures Coherent(c) && c.number == k && c.socket == socket && c.backend == socket.backend && k < |a.busy| == |a.models| && c.model == a.models[k] && a.busy[k] == (c.nPackets > 0) && (k !in a.lost ==> c.Pledged())
    ensures (socket.writeableCallbacks != [] ==> socket.armed) && a.wire == socket.wire && a.owners == socket.owners ==> c.Mirrors()
  {
    hide Mine, Wire, Coherent, Connection.Pledged;
    BackendIs(c);
  }

  // ---- whole runs ---------------------------------------------------------------------------

  datatype Event =
    | Connects
    | Happens(k: nat, h: Happening)
    | Submits(p: Packet, reply: KernelReply)
    | Writeable(replies: nat -> KernelReply, draws: nat -> Draws)    // oracles of the i-th callback

  /** What an event does to the states of all connections. */
  ghost predicate EventEffect(ev: Event, backend: Backend, ms: seq<Conn>, ms': seq<Conn>) {
    match ev
    case Connects => ms' == ms + [FRESH]
    case Happens(k, h) =>
      if k < |ms| then
        |ms'| == |ms| && ms' == ms[k := ms'[k]] && (Effect(h, true, backend, ms[k], ms'[k]) || Effect(h, false, backend, ms[k], ms'[k]))
      else ms' == ms
    case Submits(_, _) => ms' == ms
    case Writeable(replies, draws) => |ms'| == |ms| && forall k :: 0 <= k < |ms| ==> MayResume(replies, draws, backend, ms[k], ms'[k])
  }

  ghost predicate MayResume(replies: nat -> KernelReply, draws: nat -> Draws, backend: Backend, m: Conn, m': Conn) {
    m' == m || exists j: nat :: Resumed(replies(j), draws(j), backend, m, m')
  }

  lemma {:induction false} ServedMayResume(cbs: seq<Callback>, backend: Backend, replies: nat -> KernelReply, draws: nat -> Draws, ms: seq<Conn>, ms': seq<Conn>)
    requires Served(cbs, |cbs|, backend, replies, draws, ms, ms')
    ensures |ms'| == |ms| && forall k :: 0 <= k < |ms| ==> MayResume(replies, draws, backend, ms[k], ms'[k])
  {
    hide Resumed;
    forall k | 0 <= k < |ms| ensures MayResume(replies, draws, backend, ms[k], ms'[k]) {
      if j :| 0 <= j < |cbs| && cbs[j] == Resend(k) {
        assert Resumed(replies(j), draws(j), backend, ms[k], ms'[k]);
      } else {
        assert Absent(cbs, |cbs|, k);
      }
    }
  }

  /** The one-shot packets handed over. */
  ghost function Handed(events: seq<Event>): multiset<seq<byte>> {
    if events == [] then multiset{}
    else
      var last, before := events[|events| - 1], Handed(events[..|events| - 1]);
      if last.Submits? then before + multiset{last.p} else before
  }

  lemma {:induction false} HandedNext(events: seq<Event>, i: nat)
    requires i < |events|
    ensures Handed(events[..i + 1]) == if events[i].Submits? then Handed(events[..i]) + multiset{events[i].p} else Handed(events[..i])
    ensures Handed(events[..0]) == multiset{}
  {
    assert events[..i + 1][..i] == events[..i];
  }

  /** The states all connections went through, event by event. */
  ghost predicate History(events: seq<Event>, backend: Backend, trail: seq<seq<Conn>>) {
    && |trail| == |events| + 1 && trail[0] == []
    && forall i :: 0 <= i < |events| ==> EventEffect(events[i], backend, trail[i], trail[i + 1])
  }

  lemma {:induction false} HistoryNext(events: seq<Event>, i: nat, backend: Backend, trail: seq<seq<Conn>>, ms: seq<Conn>)
    requires i < |events| && History(events[..i], backend, trail) && EventEffect(events[i], backend, trail[i], ms)
    ensures History(events[..i + 1], backend, trail + [ms])
  {
    hide EventEffect;
    var longer := trail + [ms];
    forall k | 0 <= k < i + 1 ensures EventEffect(events[..i + 1][k], backend, longer[k], longer[k + 1]) {
      if k < i {
        assert EventEffect(events[..i][k], backend, trail[k], trail[k + 1]);
      }
    }
  }

  /** One event. */
  method Serve(e: LocalEndpoint, ev: Event)
    requires e.Valid()
    modifies e, e.socket, e.repr
    ensures e.Valid() && fresh(e.repr - old(e.repr)) && EventEffect(ev, e.socket.backend, old(e.models), e.models)
    ensures e.submitted == if ev.Submits? then old(e.submitted) + multiset{ev.p} else old(e.submitted)
    ensures (ev.Writeable? ==> forall i :: Soft(ev.replies(i))) ==> e.lost <= old(e.lost)
  {
    hide LocalEndpoint.Housed, Paired, Served, Effect, MayResume, Mine, OnlyBy, OneShotsOut, AllLeft, TrySend;
    e.SameLengths();
    match ev {
      case Connects => e.Connect();
      case Happens(k, h) =>
        if k < |e.conns| {
          e.At(k, h);
        }
      case Submits(p, reply) => e.Submit(p, reply);
      case Writeable(replies, draws) =>
        ghost var armed, queue, ms := e.socket.armed, e.socket.writeableCallbacks, e.models;
        Unchanged(replies, draws, e.socket.backend, ms);
        e.Writeable(replies, draws);
        if armed {
          ServedMayResume(queue, e.socket.backend, replies, draws, ms, e.models);
        }
    }
  }

  lemma {:induction false} Unchanged(replies: nat -> KernelReply, draws: nat -> Draws, backend: Backend, ms: seq<Conn>)
    ensures forall k :: 0 <= k < |ms| ==> MayResume(replies, draws, backend, ms[k], ms[k])
  {
    hide Resumed;
  }

  /**
   * The datagrams of one connection, over every run: what the writer produced are the packets that left, followed by
   * those the arrays still hold; they are the connection's part of the shared wire followed by the arrays exactly when
   * nothing was dropped; and only a hard error drops packets, the rest of their batch with them.
   */
  ghost predicate DatagramsKept(c: Connection)
    reads c, c.sendBuffer, c.sendBufferSize, c.socket
  {
    && c.Batched() && |c.socket.wire| == |c.socket.owners|
    && var queued, mine := Decode(c.sendBuffer, c.sendBufferSize, c.nPackets), Mine(c.socket.wire, c.socket.owners, c.number);
    && c.model.produced == Packets(c.model.fates) + queued
    && (c.model.produced == mine + queued <==> forall i :: 0 <= i < |c.model.fates| ==> c.model.fates[i].Emitted?)
    && DropsWhole(c.model.fates)
  }

  /** The bytes of one stream: the writer took exactly those before the object's write cursor. */
  ghost predicate BytesKept(c: Connection, id: int)
    requires id in c.streams
    reads c, Kept(c)
  {
    var s := c.streams[id];
    && s.Valid() && Written(c.model.writes, id) == StreamBuffer.Bytes(s.log)[..s.Acked() + s.unackedSize]
    && (s.sentFin ==> s.isClosing)
  }

  lemma {:induction false} CoherentDatagrams(c: Connection)
    requires Coherent(c) && c.Mirrors()
    ensures DatagramsKept(c)
  {
    hide StreamsOk, Connection.Streamed, Connection.Linked, Connection.Pending, Loaded, Decode, Wire, Packets, Mine, DropsWhole;
    WireComplete(c.model.fates);
    var mine := Mine(c.socket.wire, c.socket.owners, c.number);
    if c.model.produced == mine + c.model.batch {
      assert |mine| == |Packets(c.model.fates)|;
      assert mine == c.model.produced[..|mine|] == Packets(c.model.fates);
    }
  }

  lemma {:induction false} CoherentStream(c: Connection, id: int)
    requires Coherent(c) && id in c.streams
    ensures BytesKept(c, id)
  {
    hide Connection.Batched, Connection.Mirrors, Connection.Pending, Conserved, Written, FinIsFinal, StreamBuffer.Bytes;
    ViewAt(c.streams, id);
    LogAt(c.streams);
    var s := c.streams[id];
    assert c.model.total[id] == StreamBuffer.Bytes(s.log);
    assert c.model.total[id] == Written(c.model.writes, id) + s.UnsentBytes();
    CutAt(StreamBuffer.Bytes(s.log), Written(c.model.writes, id), s.Acked() + s.unackedSize);
  }

  lemma {:induction false} CutAt(all: seq<byte>, front: seq<byte>, cut: nat)
    requires cut <= |all| && all == front + all[cut..]
    ensures front == all[..cut]
  {
    assert |front| == cut;
    assert all[..cut] == (front + all[cut..])[..|front|];
  }

  /** What every connection of an endpoint in order can rely on. */
  lemma {:induction false} Promises(e: LocalEndpoint, k: nat)
    requires e.Valid() && k < |e.conns|
    ensures var c := e.conns[k];
      && c in e.repr && c.socket == e.socket && |e.models| == |e.conns| && c.model == e.models[k] && Kept(c) <= e.repr && {c.sendBuffer, c.sendBufferSize} <= e.repr
      && DatagramsKept(c) && FinIsFinal(c.model.writes)
      && (forall id :: id in c.streams ==> BytesKept(c, id))
      && multiset(e.socket.writeableCallbacks)[Resend(k)] == (if c.nPackets == 0 then 0 else 1)
      && (k !in e.lost ==> c.Pledged())
  {
    var c := e.conns[k];
    TakeOut(e.conns, k, e.socket, e.Now(), e.repr);
    hide Standing, Unused, Mine, Wire, DatagramsKept, BytesKept, Connection.Pledged;
    assert BlockedIffWaiting(e.busy, e.socket.writeableCallbacks + [], k);
    assert e.socket.writeableCallbacks + [] == e.socket.writeableCallbacks;
    BelongsIs(c, k, e.socket, e.Now());
    CoherentDatagrams(c);
    FinOnce(c.model);
    forall id | id in c.streams ensures BytesKept(c, id) {
      CoherentStream(c, id);
    }
  }

  /**
   * Every run of an endpoint, on its objects. For each connection: no packet is lost, repeated or reordered between
   * the writer, the batch arrays and its part of the wire, unless a hard error drops the rest of a batch; what the
   * writer took from a stream is what lies before its write cursor; at most one write per stream carries FIN, and it
   * is the last; leftover packets and one queued callback go together, and a queued callback has armed the write event.
   * Every one-shot packet is settled or waits. And bytes appended or streams closed since the last flush have a flush
   * coming, as long as the kernel answers resends with nothing worse than a full socket.
   */
  method RunEndpoint(backend: Backend, events: seq<Event>) returns (e: LocalEndpoint, ghost trail: seq<seq<Conn>>)
    ensures fresh(e) && fresh(e.repr) && e.Valid() && (e.socket.writeableCallbacks != [] ==> e.socket.armed)
    ensures History(events, backend, trail) && |e.conns| == |trail[|events|]|
    ensures forall k :: 0 <= k < |e.conns| ==>
      var c := e.conns[k];
      && c.model == trail[|events|][k]
      && DatagramsKept(c) && FinIsFinal(c.model.writes) && (forall id :: id in c.streams ==> BytesKept(c, id))
      && multiset(e.socket.writeableCallbacks)[Resend(k)] == (if c.nPackets == 0 then 0 else 1)
      && (k !in e.lost ==> c.Pledged())
    ensures Handed(events) == e.submitted == e.settled + OneShots(e.socket.writeableCallbacks)
    ensures (forall ev, i :: ev in events && ev.Writeable? ==> Soft(ev.replies(i))) ==> e.lost == {}
  {
    hide LocalEndpoint.Valid, DatagramsKept, BytesKept, FinIsFinal, Connection.Pledged, OneShots, History, Handed, EventEffect;
    e := new LocalEndpoint(backend);
    trail := [[]];
    Start(events, backend);
    for i := 0 to |events|
      invariant e.Valid() && fresh(e) && fresh(e.repr) && fresh(e.socket) && e.socket.backend == backend
      invariant History(events[..i], backend, trail) && |trail| == i + 1 && trail[i] == e.models && e.submitted == Handed(events[..i])
      invariant (forall ev, i :: ev in events && ev.Writeable? ==> Soft(ev.replies(i))) ==> e.lost == {}
    {
      assert events[i] in events;
      Serve(e, events[i]);
      HistoryNext(events, i, backend, trail, e.models);
      HandedNext(events, i);
      trail := trail + [e.models];
    }
    assert events[..|events|] == events;
    forall k | 0 <= k < |e.conns| ensures
      var c := e.conns[k];
      && |e.models| == |e.conns| && c.model == e.models[k]
      && DatagramsKept(c) && FinIsFinal(c.model.writes) && (forall id :: id in c.streams ==> BytesKept(c, id))
      && multiset(e.socket.writeableCallbacks)[Resend(k)] == (if c.nPackets == 0 then 0 else 1)
      && (k !in e.lost ==> c.Pledged())
    {
      Promises(e, k);
    }
    OneShotsSettled(e);
  }

  lemma {:induction false} Start(events: seq<Event>, backend: Backend)
    ensures History(events[..0], backend, [[]]) && Handed(events[..0]) == multiset{}
  {
  }

  lemma {:induction false} OneShotsSettled(e: LocalEndpoint)
    requires e.Valid()
    ensures e.submitted == e.settled + OneShots(e.socket.writeableCallbacks)
    ensures (e.socket.writeableCallbacks != [] ==> e.socket.armed) && |e.models| == |e.conns|
  {
    hide Separate, Belongs, Unused, OneShots;
    assert e.socket.writeableCallbacks + [] == e.socket.writeableCallbacks;
  }

  // ---- a flush that never comes -------------------------------------------------------------

  lemma {:induction false} NoStreams(c: Conn)
    requires c.streams == map[]
    ensures IsOrder([], c)
  {
  }

  lemma {:induction false} OneStream(c: Conn)
    requires c.streams.Keys == {0}
    ensures IsOrder([0], c)
  {
  }

  /** The first packet of a connection finds the socket full. */
  method FirstBlock(backend: Backend, writer: nat -> WriteReply, kernel: nat -> KernelReply) returns (c: Connection)
    requires writer(0) == Packed([0], 0) && kernel(0) == KernelReply(0, 0, EAGAIN)
    ensures fresh(c) && fresh(c.socket) && fresh(c.sendBuffer) && fresh(c.sendBufferSize) && fresh(c.io)
    ensures Coherent(c) && c.Mirrors() && c.number == 0 && c.socket.writeableCallbacks == [Resend(0)]
    ensures c.streams == map[] && c.pendingStreams == [] && c.usedIds == {} && c.model.batch == [[0]]
  {
    hide Sound, FlushRun.FlushStreams, Coherent, IsOrder, Connection.Batched;
    var socket := new UdpSocket(backend);
    c := new Connection(0, backend, socket);
    NewCoherent(c);
    NoStreams(c.model);
    FreshSound();
    FirstPacketBlocks(c.model, Env(backend, 1, writer, kernel));
    FlushQuietly(c, [], 0, Draws(0, 1, writer, kernel));
  }

  lemma {:induction false} NotCovered(m: Conn, b: byte)
    requires m.streams == map[]
    ensures var c := Grow(Joined(m, 0, [], false), 0, [b], false);
      c.streams.Keys == {0} && c.batch == m.batch && c.fates == m.fates && Unsent(c, 0) == [b] && !Covered(c)
  {
    var c := Grow(Joined(m, 0, [], false), 0, [b], false);
    assert 0 in c.streams && 0 in c.touched;
  }

  /** Then a byte is appended to a new stream. */
  method AppendOne(c: Connection, b: byte)
    requires Coherent(c) && c.Mirrors() && c.streams == map[] && c.pendingStreams == [] && c.usedIds == {}
    modifies c`streams, c`model, c`usedIds, c.io
    ensures Coherent(c) && c.Mirrors() && c.model.batch == old(c.model.batch) && c.model.streams.Keys == {0} && Unsent(c.model, 0) == [b] && !Covered(c.model)
    ensures forall s :: s in Kept(c) ==> fresh(s)
  {
    hide Sound, Wire, Mine, Table, Views, Logs, Matches, Loaded, Decode, Waits, Joined, Grow, Covered, Stream.Valid, Stream.UnsentBytes;
    NotCovered(c.model, b);
    assert c.model.streams == map[] by { ViewsKeys(c); }
    c.OpenStream(0);
    var _ := c.Apply(0, SendData([b]));
  }

  method SpendEvent(c: Connection)
    requires Coherent(c) && c.Mirrors()
    modifies c.socket
    ensures Coherent(c) && c.Mirrors() && c.socket.writeableCallbacks == []
  {
    hide Stream.Valid, Waits, Table, Views, Logs, StreamsOk, Conserved, Connection.Batched, Mine, Wire;
    var _ := c.socket.TakeCallbacks();
  }

  /** The trigger is spent on a flush that must wait for the resend. */
  method WastedFlush(c: Connection, d: Draws)
    requires Coherent(c) && c.Mirrors() && c.model.batch == [[0]] && c.model.streams.Keys == {0}
    modifies c`nPackets, c`model, c.sendBuffer, c.sendBufferSize, c.socket, c.io, c.Objects()`sentFin, c.Objects()`unackedSize
    ensures Coherent(c) && c.Mirrors() && c.model == old(c.model) && c.nPackets > 0 && !c.io.active
    ensures c.socket.writeableCallbacks == old(c.socket.writeableCallbacks)
  {
    hide StreamsOk, Conserved, FlushRun.FlushStreams, IsOrder, Connection.Mirrors, Connection.Batched, Connection.Streamed, Connection.Linked, Connection.Pending;
    OneStream(c.model);
    FlushCorrect(c.model, [0], 0, Env(c.backend, d.budget, d.writer, d.kernel));
    c.BatchCount();
    c.io.Fire();
    FlushQuietly(c, [0], 0, d);
    assert Resends(c.number, 0) == [];
    c.BatchCount();
  }

  /**
   * The pledge fails after a hard error: a packet blocks, a byte is appended, the trigger is spent on a flush that
   * must wait for the resend, and the resend meets a hard error. The byte is left with no trigger and no callback;
   * only the retransmit timer or another event can bring the flush.
   */
  method LostWakeup(backend: Backend, b: byte, errno: Errno) returns (c: Connection)
    requires errno != EAGAIN
    ensures fresh(c) && Coherent(c) && Unsent(c.model, 0) == [b]
    ensures !c.Pledged() && c.nPackets == 0 && !c.io.active && c.socket.writeableCallbacks == []
  {
    hide Coherent, SendOnce, Covered, Mine, Wire;
    var writer := (i: nat) => Packed([0], 0);
    var kernel := (i: nat) => KernelReply(0, 0, EAGAIN);
    var d := Draws(0, 1, writer, kernel);
    c := FirstBlock(backend, writer, kernel);
    AppendOne(c, b);
    assert forall s :: s in c.Objects() ==> s in Kept(c);
    WastedFlush(c, d);
    SpendEvent(c);
    RefusedSend(c.model, c.backend, KernelReply(0, 0, errno));
    ServeResend(c, KernelReply(0, 0, errno), d);
  }
}
