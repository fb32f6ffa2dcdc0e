/** The Connection object: batch arrays, stream objects and the flush loop, tied to the flush machine. */
module Connections {
  import opened Common
  import opened Datagrams
  import opened Gso
  import opened Udp
  import opened Socket
  import opened Endpoint
  import opened Streams
  import opened Flush
  import opened FlushProps
  import opened FlushRun
  import opened ConnState
  import opened Callbacks
  import StreamBuffer

  /** Every table entry is a valid stream, ready and under its own id, so no object appears twice. */
  ghost predicate Table(m: map<int, Stream>)
    reads set id | id in m :: m[id]
  {
    forall id :: id in m ==> m[id].Valid() && m[id].streamId == id && m[id].ready
  }

  ghost function Views(m: map<int, Stream>): (r: map<int, StreamView>)
    requires Table(m)
    reads set id | id in m :: m[id]
    ensures r.Keys == m.Keys
  {
    map id | id in m :: m[id].View()
  }

  lemma {:induction false} ViewAt(m: map<int, Stream>, id: int)
    requires Table(m) && id in m
    ensures m[id].Valid() && Views(m)[id] == m[id].View()
  {
  }

  /** Everything ever appended, stream by stream. */
  ghost function Logs(m: map<int, Stream>): (r: map<int, seq<byte>>)
    reads set id | id in m :: m[id]
    ensures r.Keys == m.Keys
  {
    map id | id in m :: StreamBuffer.Bytes(m[id].log)
  }

  predicate Matches(total: map<int, seq<byte>>, logs: map<int, seq<byte>>) {
    logs.Keys <= total.Keys && forall id :: id in logs ==> total[id] == logs[id]
  }

  lemma {:induction false} GrowNothing(c: Conn, id: int)
    requires id in c.streams && id in c.total
    ensures Grow(c, id, [], false) == c
  {
    assert c.total[id] + [] == c.total[id] && c.streams[id].unsent + [] == c.streams[id].unsent;
  }

  lemma {:induction false} MatchesJoined(total: map<int, seq<byte>>, logs: map<int, seq<byte>>, id: int, bytes: seq<byte>)
    ensures Matches(total, logs) ==> Matches(total[id := bytes], logs[id := bytes])
  {
  }

  ghost predicate Waits(s: Stream, io: IoTrigger)
    reads s
  {
    s.Untouched() && !s.ready && s.io == io
  }

  /** One stream object by its id, its view and its history. */
  ghost predicate Shows(s: Stream, id: int, v: StreamView, history: seq<byte>)
    reads s
  {
    s.Valid() && s.ready && s.streamId == id && s.View() == v && StreamBuffer.Bytes(s.log) == history
  }

  lemma {:induction false} EntriesAre(m: map<int, Stream>)
    requires Table(m)
    ensures forall k :: k in m ==> Shows(m[k], k, Views(m)[k], Logs(m)[k])
  {
    hide Stream.Valid, Stream.UnsentBytes, StreamBuffer.Bytes;
  }

  /** And back: a table is what its entries are. */
  lemma {:induction false} EntriesMatch(m: map<int, Stream>, views: map<int, StreamView>, logs: map<int, seq<byte>>)
    requires views.Keys == m.Keys == logs.Keys && forall k :: k in m ==> Shows(m[k], k, views[k], logs[k])
    ensures Table(m) && Views(m) == views && Logs(m) == logs
  {
    hide Stream.Valid, Stream.UnsentBytes, StreamBuffer.Bytes;
    assert forall k :: k in m ==> Views(m)[k] == views[k];
    assert forall k :: k in m ==> Logs(m)[k] == logs[k];
  }

  lemma {:induction false} ShowsItself(s: Stream)
    requires s.Valid() && s.ready
    ensures Shows(s, s.streamId, s.View(), StreamBuffer.Bytes(s.log))
  {
  }

  lemma {:induction false} ShownValid(m: map<int, Stream>, id: int)
    requires Table(m) && id in m
    ensures m[id].Valid() && m[id].streamId == id && m[id].ready && Views(m)[id] == m[id].View() && Logs(m)[id] == StreamBuffer.Bytes(m[id].log)
    ensures forall k :: k in m && k != id ==> m[k] != m[id]
  {
    hide Stream.Valid, Stream.UnsentBytes, StreamBuffer.Bytes;
  }

  method ApplyOn(ghost m: map<int, Stream>, s: Stream, ghost id: int, op: UserOp) returns (ghost extra: seq<byte>)
    requires Table(m) && id in m && m[id] == s
    modifies s, s.io
    ensures Table(m)
    ensures Views(m) == old(Views(m))[id := StreamView(old(s.UnsentBytes()) + extra, old(s.isClosing) || op.CloseIt?, old(s.sentFin))]
    ensures Logs(m) == old(Logs(m))[id := old(Logs(m)[id]) + extra]
    ensures (old(s.io.active) ==> s.io.active) && (op.CloseIt? ==> s.io.active) && (extra != [] ==> s.io.active)
    ensures (op.SendData? ==> extra == op.view) && (op.CloseIt? ==> extra == []) && Enrolled(op, old(s.senders), s.senders)
  {
    hide Shows, Table, Views, Logs, Stream.Valid, Stream.UnsentBytes, Stream.Acked, Stream.Untouched, StreamBuffer.Bytes;
    EntriesAre(m);
    ShownValid(m, id);
    ghost var views, logs := Views(m), Logs(m);
    extra := s.Apply(op);
    ShowsItself(s);
    EntriesMatch(m, views[id := s.View()], logs[id := StreamBuffer.Bytes(s.log)]);
  }

  method AckOn(ghost m: map<int, Stream>, s: Stream, ghost id: int, size: nat) returns (ghost extra: seq<byte>)
    requires Table(m) && id in m && m[id] == s && size <= s.unackedSize
    modifies s, s.io
    ensures Table(m)
    ensures Views(m) == old(Views(m))[id := StreamView(old(s.UnsentBytes()) + extra, old(s.isClosing), old(s.sentFin))]
    ensures Logs(m) == old(Logs(m))[id := old(Logs(m)[id]) + extra]
    ensures s.unackedSize == old(s.unackedSize) - size && s.Acked() == old(s.Acked()) + size
    ensures (old(s.io.active) ==> s.io.active) && (extra != [] ==> s.io.active)
  {
    hide Shows, Table, Views, Logs, Stream.Valid, Stream.UnsentBytes, Stream.Acked, Stream.Untouched, StreamBuffer.Bytes;
    EntriesAre(m);
    ShownValid(m, id);
    ghost var views, logs, was := Views(m), Logs(m), s.UnsentBytes();
    s.Acknowledge(size);
    extra := s.UnsentBytes()[|was|..];
    assert s.UnsentBytes() == was + extra;
    assert |s.log| == |old(s.log)| ==> s.log == old(s.log);
    ShowsItself(s);
    EntriesMatch(m, views[id := s.View()], logs[id := StreamBuffer.Bytes(s.log)]);
  }

  lemma {:induction false} EntriesErase(m: map<int, Stream>, id: int)
    requires Table(m)
    ensures Table(m - {id}) && Views(m - {id}) == Views(m) - {id} && Logs(m - {id}) == Logs(m) - {id}
  {
    hide Shows, Table, Views, Logs;
    EntriesAre(m);
    EntriesMatch(m - {id}, Views(m) - {id}, Logs(m) - {id});
  }

  /** A new entry, with its id. */
  method JoinOn(ghost m: map<int, Stream>, s: Stream, id: int)
    requires Table(m) && id !in m && s.Untouched() && forall k :: k in m ==> m[k] != s
    modifies s`streamId, s`ready
    ensures Table(m[id := s]) && Views(m[id := s]) == old(Views(m))[id := StreamView(StreamBuffer.Bytes(s.log), s.isClosing, false)]
    ensures Logs(m[id := s]) == old(Logs(m))[id := StreamBuffer.Bytes(s.log)]
  {
    hide Shows, Table, Views, Logs, Stream.Valid, Stream.UnsentBytes, Stream.Acked, StreamBuffer.Bytes;
    EntriesAre(m);
    ghost var views, logs := Views(m), Logs(m);
    s.SetReady(id);
    ShowsItself(s);
    EntriesMatch(m[id := s], views[id := s.View()], logs[id := StreamBuffer.Bytes(s.log)]);
  }

  /** Sets sent_fin on one stream. */
  method MarkFin(ghost m: map<int, Stream>, s: Stream, ghost id: int)
    requires Table(m) && id in m && m[id] == s
    modifies s`sentFin
    ensures Table(m) && Views(m) == old(Views(m))[id := old(s.View()).(sentFin := true)]
  {
    hide Stream.Valid, Stream.UnsentBytes;
    ghost var before := Views(m);
    assert forall k :: k in m && k != id ==> m[k] != s;
    s.SetSentFin();
    assert forall k :: k in m && k != id ==> m[k].View() == before[k];
  }

  /** Advances the write cursor of one stream. */
  method MarkWritten(ghost m: map<int, Stream>, s: Stream, ghost id: int, n: nat)
    requires Table(m) && id in m && m[id] == s && n <= |s.UnsentBytes()|
    modifies s`unackedSize
    ensures Table(m) && Views(m) == old(Views(m))[id := old(s.View()).(unsent := old(s.UnsentBytes())[n..])]
  {
    hide Stream.Valid, Stream.UnsentBytes;
    ghost var before := Views(m);
    assert forall k :: k in m && k != id ==> m[k] != s;
    s.Wrote(n);
    assert forall k :: k in m && k != id ==> m[k].View() == before[k];
  }

  /** memcpy of one packet into the batch buffer. */
  method CopyPacket(buf: array<byte>, pos: nat, p: seq<byte>)
    requires pos + |p| <= buf.Length
    modifies buf
    ensures buf[..pos] == old(buf[..pos]) && buf[pos..pos + |p|] == p
  {
    for i := 0 to |p|
      invariant buf[..pos] == old(buf[..pos])
      invariant buf[pos..pos + i] == p[..i]
    {
      buf[pos + i] := p[i];
    }
  }

  /** A batch that is not full leaves room for a packet of maximum size. */
  lemma {:induction false} RoomForOne(sizes: seq<nat>)
    requires |sizes| < BATCH_SIZE && forall i :: 0 <= i < |sizes| ==> sizes[i] <= MAX_PAYLOAD
    ensures Sum(sizes) + MAX_PAYLOAD <= MAX_PAYLOAD * BATCH_SIZE
  {
    SumBound(sizes, MAX_PAYLOAD);
  }

  class Connection {
    const number: nat                  // identifies this connection's resend callback
    const backend: Backend
    const socket: UdpSocket
    const io: IoTrigger
    const sendBuffer: array<byte>
    const sendBufferSize: array<nat>
    var nPackets: nat
    var streams: map<int, Stream>
    var pendingStreams: seq<Stream>
    var usedIds: set<int>              // ngtcp2's own record: it hands out no id twice
    ghost var model: Conn              // the abstract connection, with its histories

    /** The arrays encode the abstract batch. */
    ghost predicate Batched()
      reads this, sendBuffer, sendBufferSize
    {
      && sendBuffer.Length == MAX_PAYLOAD * BATCH_SIZE && sendBufferSize.Length == BATCH_SIZE
      && nPackets <= BATCH_SIZE && socket.backend == backend
      && Loaded(sendBuffer, sendBufferSize, nPackets)
      && Decode(sendBuffer, sendBufferSize, nPackets) == model.batch
    }

    /**
     * What the shared wire carries of this connection are exactly its packets that left the batch and were not dropped,
     * in order; and a queued callback has armed the write event.
     */
    ghost predicate Mirrors()
      reads this, socket
    {
      && |socket.wire| == |socket.owners| && Mine(socket.wire, socket.owners, number) == Wire(model.fates)
      && (socket.writeableCallbacks != [] ==> socket.armed)
    }

    /** Nobody else's part of the wire has changed. */
    ghost predicate Shares(wire: seq<seq<byte>>, owners: seq<int>)
      reads socket
    {
      OnlyBy(number, wire, owners, socket.wire, socket.owners)
    }

    /** make_conn: a new connection wakes up at once. */
    constructor (number: nat, backend: Backend, socket: UdpSocket)
      requires socket.backend == backend
      ensures this.number == number && this.backend == backend && this.socket == socket
      ensures fresh(sendBuffer) && fresh(sendBufferSize) && fresh(io) && io.active
      ensures Batched() && nPackets == 0 && streams == map[] && pendingStreams == [] && usedIds == {} && model == FRESH
    {
      this.number, this.backend, this.socket := number, backend, socket;
      sendBuffer := new byte[MAX_PAYLOAD * BATCH_SIZE](_ => 0);
      sendBufferSize := new nat[BATCH_SIZE](_ => 0);
      nPackets, streams, pendingStreams, usedIds, model := 0, map[], [], {}, FRESH;
      var trigger := new IoTrigger();
      trigger.Activate();
      io := trigger;
    }

    /** Connection::send. A block queues exactly one resend callback and arms the write event. */
    method Send(reply: KernelReply) returns (ok: bool)
      requires Batched() && nPackets > 0
      modifies this`nPackets, this`model, sendBuffer, sendBufferSize, socket
      ensures Batched()
      ensures var (c, outcome) := SendOnce(old(model), backend, reply);
        && model == c && ok == (outcome == Sent)
        && (outcome == Blocked ==> socket.writeableCallbacks == old(socket.writeableCallbacks) + [Resend(number)] && socket.armed)
        && (outcome != Blocked ==> socket.writeableCallbacks == old(socket.writeableCallbacks) && socket.armed == old(socket.armed))
      ensures socket.wire == old(socket.wire) + TrySend(true, backend, old(model).batch, reply).left
      ensures old(Mirrors()) ==> Mirrors() && Shares(old(socket.wire), old(socket.owners))
    {
      hide Loaded, Decode, Wire, Mine, OnlyBy, SendOnce, TrySend;
      SendWire(model, backend, reply);
      SendIs(model, backend, reply);
      var rv, n := SendPackets(socket, sendBuffer, sendBufferSize, nPackets, reply);
      nPackets := n;
      ghost var a := TrySend(true, backend, model.batch, reply);
      if old(Mirrors()) {
        socket.Attribute(number, old(socket.wire), a.left);
      }
      model := SendOnce(model, backend, reply).0;
      if rv.Blocked() {
        socket.WhenWriteable(Resend(number));
        return false;
      } else if rv.Failure() {
        return false;
      }
      return true;
    }

    /** Appends one packet to the batch: bytes at `bufPos`, size in the size array. */
    method PushPacket(p: Packet, bufPos: nat) returns (pos: nat)
      requires Batched() && nPackets < BATCH_SIZE && bufPos == Sum(sendBufferSize[..nPackets])
      modifies this`nPackets, this`model, sendBuffer, sendBufferSize
      ensures old(Mirrors()) ==> Mirrors()
      ensures Batched() && nPackets == old(nPackets) + 1 && pos == Sum(sendBufferSize[..nPackets])
      ensures model == old(model).(batch := old(model).batch + [p], produced := old(model).produced + [p])
    {
      hide Wire, Mine, Split, Sum;
      ghost var bytes, sizes := sendBuffer[..], sendBufferSize[..nPackets];
      RoomForOne(sizes);
      CopyPacket(sendBuffer, bufPos, p);
      sendBufferSize[nPackets] := |p|;
      nPackets := nPackets + 1;
      pos := bufPos + |p|;
      assert sendBufferSize[..nPackets] == sizes + [|p|];
      assert sendBuffer[..][..bufPos] == sendBuffer[..bufPos] == bytes[..bufPos];
      assert sendBuffer[..][bufPos..pos] == sendBuffer[bufPos..pos];
      SplitAppend(bytes, sendBuffer[..], sizes, p);
      model := model.(batch := model.batch + [p], produced := model.produced + [p]);
    }

    // ---- the flush loop ---------------------------------------------------------------------

    /** Everything but the sockets and arrays: the table matches the abstract streams. */
    ghost predicate Streamed()
      reads this, set id | id in streams :: streams[id]
    {
      Table(streams) && Views(streams) == model.streams
    }

    ghost function Objects(): set<Stream>
      reads this
    {
      set id | id in streams :: streams[id]
    }

    /** What a stream offers: FIN when it is closing and completely written, nothing at all, or its pending bytes. */
    method Offer(stream: Stream, id: int) returns (skipped: bool, fin: bool, offered: nat)
      requires Table(streams) && id in streams && streams[id] == stream
      modifies stream`sentFin
      ensures var v := old(stream.View());
        && Table(streams) && offered == |v.unsent| && fin == (v.closing && !v.sentFin && v.unsent == []) && skipped == (!fin && v.unsent == [])
        && Views(streams) == if fin then old(Views(streams))[id := v.(sentFin := true)] else old(Views(streams))
    {
      hide Stream.Valid, Stream.UnsentBytes, Table, Views;
      ViewAt(streams, id);
      skipped, fin := false, false;
      var bufs := stream.Pending();
      offered := stream.Unsent();
      if stream.isClosing && !stream.sentFin && offered == 0 {
        fin := true;
        MarkFin(streams, stream, id);
      } else if bufs == [] {
        skipped := true;
      }
    }

    /**
     * The head of the list asks the writer. A stream with nothing to say is skipped; a closing stream that has been
     * written completely sets FIN; whatever the writer consumed is marked as written.
     */
    method CallWriter(id: int, env: Env, ghost f: FlushState, calls: nat) returns (skipped: bool, reply: WriteReply)
      requires Streamed() && CanTurn(f) && f.conn == model && f.strs[0] == id && f.calls == calls && SENTINEL !in streams
      modifies this`model, Objects()`sentFin, Objects()`unackedSize
      ensures old(Mirrors()) ==> Mirrors()
      ensures Streamed() && skipped == Skips(f)
      ensures skipped ==> model == f.conn
      ensures !skipped ==> reply == env.writer(calls) && model == AfterWrite(f, env).conn
    {
      hide Wire, Mine, Stream.Valid, Stream.UnsentBytes, Table, Views, Consume;
      var fin, offered := false, 0;
      skipped, reply := false, Congested;
      if id != SENTINEL {
        ViewAt(streams, id);
        skipped, fin, offered := Offer(streams[id], id);
        if skipped {
          return;
        }
      }
      reply := env.writer(calls);
      var n := Taken(reply, offered);
      if id != SENTINEL && n > 0 {
        ViewAt(streams, id);
        MarkWritten(streams, streams[id], id, n);
      }
      ConsumedViews(model, id, fin, n, Accepts(reply), Views(streams));
      model := Consume(model, id, fin, n, Accepts(reply));
    }

    ghost predicate Serves(env: Env) {
      env.backend == backend
    }

    /** Queues a packet, and sends the batch when that fills it. */
    method QueueOne(p: Packet, bufPos: nat, sends: nat, env: Env, ghost f: FlushState) returns (ok: bool, bufPos': nat, sends': nat)
      requires Batched() && Streamed() && Serves(env) && nPackets < backend.MaxBatch()
      requires bufPos == Sum(sendBufferSize[..nPackets]) && f.conn == model && f.sends == sends
      modifies this`nPackets, this`model, sendBuffer, sendBufferSize, socket
      ensures var (g, outcome) := QueuePacket(f, env, p);
        && model == g.conn && sends' == g.sends && ok == (outcome == Sent) && f.resends <= g.resends
        && socket.writeableCallbacks == old(socket.writeableCallbacks) + Resends(number, g.resends - f.resends)
      ensures old(Mirrors()) ==> Mirrors() && Shares(old(socket.wire), old(socket.owners))
      ensures Batched() && Streamed()
      ensures ok ==> bufPos' == Sum(sendBufferSize[..nPackets])
    {
      hide Mirrors, OnlyBy, SendOnce, TrySend, Table, Views, Sum, Split, Loaded, Decode;
      if Mirrors() {
        SharesNothing();
      }
      assert Resends(number, 0) == [] && Resends(number, 1) == [Resend(number)];
      ok, sends' := true, sends;
      bufPos' := PushPacket(p, bufPos);
      BatchCount();
      if nPackets == backend.MaxBatch() {
        SendFrame(model, backend, env.kernel(sends));
        ok := Send(env.kernel(sends));
        sends' := sends + 1;
        if ok {
          EmptyBatch();
          bufPos' := 0;
        }
      }
    }

    /** The part of a turn after a packet came back. */
    method PacketOut(id: int, p: Packet, strs: seq<int>, bufPos: nat, streamPackets: nat, sends: nat, env: Env, ghost f: FlushState)
      returns (strs': seq<int>, bufPos': nat, sends': nat, phase: Phase)
      requires Batched() && Streamed() && Serves(env) && nPackets < backend.MaxBatch()
      requires bufPos == Sum(sendBufferSize[..nPackets])
      requires f.phase == Looping && f.conn == model && f.strs == strs && f.streamPackets == streamPackets && f.sends == sends
      requires id == SENTINEL || id in streams
      modifies this`nPackets, this`model, sendBuffer, sendBufferSize, socket
      ensures var g := AfterPacket(f, env, id, p);
        && model == g.conn && strs' == g.strs && phase == g.phase && sends' == g.sends
        && g.streamPackets == streamPackets + 1 && f.resends <= g.resends
        && socket.writeableCallbacks == old(socket.writeableCallbacks) + Resends(number, g.resends - f.resends)
      ensures old(Mirrors()) ==> Mirrors() && Shares(old(socket.wire), old(socket.owners))
      ensures Batched() && Streamed()
      ensures phase != Returned ==> bufPos' == Sum(sendBufferSize[..nPackets])
    {
      hide Mirrors, OnlyBy, Stream.Valid, Stream.UnsentBytes, Resends, QueuePacket, Table, Views, Requeue, Sum, Split, Loaded, Decode;
      QueueFrame(f, env, p);
      strs', phase := strs, Looping;
      var ok;
      ok, bufPos', sends' := QueueOne(p, bufPos, sends, env, f);
      if !ok {
        phase := Returned;
      } else if streamPackets + 1 == env.budget {
        phase := BudgetReached;
      } else if id == SENTINEL {
        strs' := strs + [SENTINEL];
      } else {
        ViewAt(streams, id);
        var unsent := streams[id].Unsent();
        if unsent > 0 {
          strs' := Requeue(strs, id);
        }
      }
    }

    /** The loop variables and the object state are the machine state `f`. */
    ghost predicate Tracks(f: FlushState, strs: seq<int>, streamPackets: nat, calls: nat, sends: nat)
      reads this
    {
      f.conn == model && f.strs == strs && f.streamPackets == streamPackets && f.calls == calls && f.sends == sends
    }

    /** One iteration of the flush loop is one turn of the machine. */
    method OneTurn(strs: seq<int>, bufPos: nat, streamPackets: nat, calls: nat, sends: nat, env: Env, ghost f: FlushState)
      returns (strs': seq<int>, bufPos': nat, streamPackets': nat, calls': nat, sends': nat, phase: Phase)
      requires Batched() && Streamed() && Serves(env) && Scheduled(f, env) && CanTurn(f)
      requires Tracks(f, strs, streamPackets, calls, sends) && bufPos == Sum(sendBufferSize[..nPackets])
      modifies this`nPackets, this`model, sendBuffer, sendBufferSize, socket, Objects()`sentFin, Objects()`unackedSize
      ensures var g := Turn(f, env);
        && Tracks(g, strs', streamPackets', calls', sends') && phase == g.phase && f.resends <= g.resends
        && socket.writeableCallbacks == old(socket.writeableCallbacks) + Resends(number, g.resends - f.resends)
      ensures old(Mirrors()) ==> Mirrors() && Shares(old(socket.wire), old(socket.owners))
      ensures Batched() && Streamed()
      ensures phase != Returned ==> bufPos' == Sum(sendBufferSize[..nPackets])
    {
      hide Mirrors, OnlyBy, AfterWrite, AfterPacket, Table, Views, Sum, Split, Loaded, Decode, ListOk, Skips, WantsFin, Unsent;
      if Mirrors() {
        SharesNothing();
      }
      assert Resends(number, 0) == [];
      BatchCount();
      var id := strs[0];
      strs', bufPos', streamPackets', calls', sends', phase := strs[1..], bufPos, streamPackets, calls, sends, Looping;
      var skipped, reply := CallWriter(id, env, f, calls);
      if skipped {
        return;
      }
      calls' := calls + 1;
      AfterWriteFields(f, env);
      match reply {
        case WriteMore =>
        case WriteError =>
        case Congested =>
          if id != SENTINEL && strs' != [] {
            strs' := strs'[|strs'| - 1..];
          }
        case Packed(p, take) =>
          AfterPacketFrame(AfterWrite(f, env), env, id, p);
          strs', bufPos', sends', phase := PacketOut(id, p, strs', bufPos, streamPackets, sends, env, AfterWrite(f, env));
          streamPackets' := streamPackets + 1;
      }
    }

    /** The two loops that fill the list, from the stream at `mid` on and then from the first one. */
    method BuildList(ids: seq<int>, mid: nat) returns (strs: seq<int>)
      requires Streamed() && IsOrder(ids, model) && mid <= |ids| && (ids != [] ==> mid < |ids|)
      ensures strs == InitialList(ids, mid, model.streams)
    {
      hide Unfinished, Table, Views, Ascending;
      strs := [];
      if ids != [] {
        strs := ListFrom(ids[mid..], strs);
        strs := ListFrom(ids[..mid], strs);
        UnfinishedAppend(ids[mid..], ids[..mid], model.streams);
      } else {
        UnfinishedEmpty(ids[mid..] + ids[..mid], model.streams);
      }
      strs := strs + [SENTINEL];
    }

    method ListFrom(ids: seq<int>, before: seq<int>) returns (strs: seq<int>)
      requires Streamed() && forall x :: x in ids ==> x in streams
      ensures strs == before + Unfinished(ids, model.streams)
    {
      hide Table, Views, Unfinished, Stream.Valid, Stream.UnsentBytes;
      strs := before;
      UnfinishedEmpty(ids[..0], model.streams);
      for i := 0 to |ids|
        invariant strs == before + Unfinished(ids[..i], model.streams)
      {
        ghost var id := ids[i];
        assert id in ids;
        assert ids[..i + 1] == ids[..i] + [id];
        UnfinishedAppend(ids[..i], [ids[i]], model.streams);
        UnfinishedOne(ids[i], model.streams);
        ViewAt(streams, ids[i]);
        if !streams[ids[i]].sentFin {
          strs := strs + [ids[i]];
        }
      }
      assert ids[..|ids|] == ids;
    }

    /** The while loop, run to its end. */
    method RunLoop(list: seq<int>, env: Env, ghost f0: FlushState) returns (phase: Phase, sends: nat, ghost f: FlushState)
      requires Batched() && Streamed() && Serves(env) && nPackets == 0 && Sum(sendBufferSize[..nPackets]) == 0
      requires Scheduled(f0, env) && Tracks(f0, list, 0, 0, 0) && f0.phase == Looping && f0.resends == 0
      modifies this`nPackets, this`model, sendBuffer, sendBufferSize, socket, Objects()`sentFin, Objects()`unackedSize
      ensures old(Mirrors()) ==> Mirrors() && Shares(old(socket.wire), old(socket.owners))
      ensures Batched() && Streamed()
      ensures f == Run(f0, env) && f.conn == model && f.sends == sends && f.phase == phase
      ensures socket.writeableCallbacks == old(socket.writeableCallbacks) + Resends(number, f.resends)
    {
      hide Mirrors, OnlyBy, Run, Turn, Sum, Split, Table, Views, Scheduled, Loaded, Decode, CanTurn;
      if Mirrors() {
        SharesNothing();
      }
      assert Resends(number, 0) == [];
      f := f0;
      var strs, bufPos, streamPackets, calls := list, 0, 0, 0;
      phase, sends := Looping, 0;
      while strs != []
        invariant Batched() && Streamed() && Scheduled(f, env) && Run(f, env) == Run(f0, env)
        invariant Tracks(f, strs, streamPackets, calls, sends) && f.phase == phase == Looping
        invariant bufPos == Sum(sendBufferSize[..nPackets])
        invariant socket.writeableCallbacks == old(socket.writeableCallbacks) + Resends(number, f.resends)
        invariant old(Mirrors()) ==> Mirrors() && Shares(old(socket.wire), old(socket.owners))
        decreases env.budget - f.streamPackets, |f.strs|
      {
        RunStep(f, env);
        ghost var k, wire, owners := f.resends, socket.wire, socket.owners;
        strs, bufPos, streamPackets, calls, sends, phase := OneTurn(strs, bufPos, streamPackets, calls, sends, env, f);
        f := Turn(f, env);
        assert Resends(number, k) + Resends(number, f.resends - k) == Resends(number, f.resends);
        if old(Mirrors()) {
          OnlyByTrans(number, old(socket.wire), old(socket.owners), wire, owners, socket.wire, socket.owners);
        }
        if phase != Looping {  // returned from a failed send, or reached the budget
          break;
        }
      }
      RunStop(f, env);
    }

    /**
     * flush_streams. The code computes exactly what the machine does, so everything proved of the machine holds of
     * the arrays, the stream objects and the callback queue.
     */
    method FlushStreams(ids: seq<int>, mid: nat, budget: nat, writer: nat -> WriteReply, kernel: nat -> KernelReply)
      requires Batched() && Streamed() && StreamsOk(model) && Conserved(model)
      requires IsOrder(ids, model) && mid <= |ids| && (ids != [] ==> mid < |ids|) && budget >= 1
      modifies this`nPackets, this`model, sendBuffer, sendBufferSize, socket, Objects()`sentFin, Objects()`unackedSize
      ensures old(Mirrors()) ==> Mirrors() && Shares(old(socket.wire), old(socket.owners))
      ensures Batched() && Streamed()
      ensures var r := FlushRun.FlushStreams(old(model), ids, mid, Env(backend, budget, writer, kernel));
        model == r.conn && socket.writeableCallbacks == old(socket.writeableCallbacks) + Resends(number, r.resends)
    {
      hide Mirrors, OnlyBy, Run, StreamsOk, Conserved, InitialList, IsOrder, Table, Views, SendOnce, Scheduled, Split, Sum, TrySend;
      hide FlushRun.FlushStreams, Loaded, Decode, Finish;
      if Mirrors() {
        SharesNothing();
      }
      assert Resends(number, 0) == [];
      var env := Env(backend, budget, writer, kernel);
      BatchCount();
      FlushUnfolds(model, ids, mid, env);
      if nPackets > 0 {
        return;
      }
      EmptyBatch();
      var strs := BuildList(ids, mid);
      var phase, sends, f := RunLoop(strs, env, Start(model, ids, mid));
      ghost var wire, owners := socket.wire, socket.owners;
      FinalSend(phase, sends, env, f);
      if old(Mirrors()) {
        OnlyByTrans(number, old(socket.wire), old(socket.owners), wire, owners, socket.wire, socket.owners);
      }
      ResendsSum(number, f.resends, Finish(f, env).resends);
    }

    /** The send after the loop, unless the loop returned. */
    method FinalSend(phase: Phase, sends: nat, env: Env, ghost f: FlushState)
      requires Batched() && Streamed() && Serves(env) && f.conn == model && f.sends == sends && f.phase == phase
      modifies this`nPackets, this`model, sendBuffer, sendBufferSize, socket
      ensures old(Mirrors()) ==> Mirrors() && Shares(old(socket.wire), old(socket.owners))
      ensures Batched() && Streamed()
      ensures var r := Finish(f, env);
        && model == r.conn && f.resends <= r.resends
        && socket.writeableCallbacks == old(socket.writeableCallbacks) + Resends(number, r.resends - f.resends)
    {
      hide Mirrors, OnlyBy, SendOnce, TrySend, Table, Views, Loaded, Decode;
      if Mirrors() {
        SharesNothing();
      }
      assert Resends(number, 0) == [] && Resends(number, 1) == [Resend(number)];
      BatchCount();
      if phase != Returned && nPackets > 0 {
        SendFrame(model, env.backend, env.kernel(sends));
        var _ := Send(env.kernel(sends));
      }
    }

    /** The resend callback queued by a blocked send. Its entry assertion is the precondition. */
    method OnWriteable(reply: KernelReply, ids: seq<int>, mid: nat, budget: nat, writer: nat -> WriteReply, kernel: nat -> KernelReply)
      requires Batched() && Streamed() && StreamsOk(model) && Conserved(model) && nPackets > 0
      requires IsOrder(ids, model) && mid <= |ids| && (ids != [] ==> mid < |ids|) && budget >= 1
      modifies this`nPackets, this`model, sendBuffer, sendBufferSize, socket, Objects()`sentFin, Objects()`unackedSize
      ensures old(Mirrors()) ==> Mirrors() && Shares(old(socket.wire), old(socket.owners))
      ensures Batched() && Streamed()
      ensures var r := Resume(old(model), reply, ids, mid, Env(backend, budget, writer, kernel));
        model == r.conn && socket.writeableCallbacks == old(socket.writeableCallbacks) + Resends(number, r.resends)
    {
      hide Mirrors, OnlyBy, FlushRun.FlushStreams, StreamsOk, Conserved, Table, Views, Loaded, Decode, SendOnce, TrySend, Ascending;
      assert Resends(number, 0) == [] && Resends(number, 1) == [Resend(number)];
      SendConserves(model, backend, reply);
      StreamsOkFrame(model, SendOnce(model, backend, reply).0);
      var ok := Send(reply);
      if ok {
        ghost var wire, owners := socket.wire, socket.owners;
        FlushStreams(ids, mid, budget, writer, kernel);
        if old(Mirrors()) {
          OnlyByTrans(number, old(socket.wire), old(socket.owners), wire, owners, socket.wire, socket.owners);
        }
      }
    }

    // ---- what happens to streams between flushes --------------------------------------------

    /** The abstract history of every open stream is the history its object keeps, and it may wake this connection. */
    ghost predicate Linked()
      reads this, set id | id in streams :: streams[id]
    {
      && Matches(model.total, Logs(streams)) && model.total.Keys == usedIds
      && forall id :: id in streams ==> streams[id].io == io
    }

    /** The pending streams: distinct objects outside the table, not ready, never offered to the writer. */
    ghost predicate Pending()
      reads this, pendingStreams
    {
      && Distinct(pendingStreams)
      && (forall i :: 0 <= i < |pendingStreams| ==> Waits(pendingStreams[i], io))
      && (forall i :: 0 <= i < |pendingStreams| ==> pendingStreams[i] !in Objects())
    }

    /**
     * For whatever was appended or closed after the last call of the writer, a flush is coming: on the trigger, or with
     * the resend.
     */
    ghost predicate Pledged()
      reads this, io
    {
      io.active || nPackets > 0 || Covered(model)
    }

    ghost method Entered(id: int, bytes: seq<byte>, closing: bool, logs: map<int, seq<byte>>)
      requires Table(streams) && Sound(model) && id != SENTINEL && id !in model.total && Matches(model.total, logs)
      requires Views(streams) == Joined(model, id, bytes, closing).streams && Logs(streams) == logs[id := bytes]
      modifies this`model
      ensures Streamed() && Sound(model) && model == Joined(old(model), id, bytes, closing) && Matches(model.total, Logs(streams))
      ensures model.total.Keys == old(model).total.Keys + {id}
    {
      hide StreamsOk, Conserved, Table, Views, Logs, Matches;
      MatchesJoined(model.total, logs, id, bytes);
      JoinKeeps(model, id, bytes, closing);
      model := Joined(model, id, bytes, closing);
    }

    /** A stream gets its id and joins the table, with whatever was appended while it waited. */
    method Join(id: int, s: Stream)
      requires Streamed() && Sound(model) && Linked() && id != SENTINEL && id !in usedIds
      requires s.Untouched() && s.io == io && s !in Objects()
      modifies this`streams, this`model, this`usedIds, s`streamId, s`ready
      ensures Streamed() && Sound(model) && Linked() && streams == old(streams)[id := s]
      ensures model == Joined(old(model), id, old(StreamBuffer.Bytes(s.log)), old(s.isClosing))
    {
      hide StreamsOk, Conserved, Table, Views, Logs, Matches, Stream.Untouched, StreamBuffer.Bytes;
      assert id !in streams by { OpenKeys(model); }
      ghost var logs := Logs(streams);
      JoinOn(streams, s, id);
      streams := streams[id := s];
      usedIds := usedIds + {id};
      Entered(id, StreamBuffer.Bytes(s.log), s.isClosing, logs);
    }

    /** A stream that is ready at once: get_new_stream with credit left, or stream_opened. */
    method OpenStream(id: int)
      requires Streamed() && Sound(model) && Linked() && id != SENTINEL && id !in usedIds
      modifies this`streams, this`model, this`usedIds
      ensures Streamed() && Sound(model) && Linked() && model == Joined(old(model), id, [], false)
      ensures id in streams && fresh(streams[id]) && streams == old(streams)[id := streams[id]]
    {
      hide StreamsOk, Conserved, Table, Views, Logs, Matches, Stream.Valid, Stream.UnsentBytes, Stream.Acked;
      var s := new Stream(SENTINEL, io);
      Join(id, s);
    }

    /** get_new_stream without credit: the stream waits at the back. */
    method NewPending()
      requires Pending()
      modifies this`pendingStreams
      ensures Pending() && |pendingStreams| == |old(pendingStreams)| + 1 && old(pendingStreams) <= pendingStreams
      ensures var s := pendingStreams[|old(pendingStreams)|];
        fresh(s) && s.log == [] && !s.isClosing
    {
      hide Stream.Valid, Stream.UnsentBytes, Stream.Acked;
      var s := new Stream(SENTINEL, io);
      pendingStreams := pendingStreams + [s];
    }

    /** check_pending_streams, one round: ngtcp2 assigns `id` to the stream at the head. */
    method ServePending(id: int)
      requires Streamed() && Sound(model) && Linked() && Pending() && pendingStreams != [] && id != SENTINEL && id !in usedIds
      modifies this`streams, this`model, this`usedIds, this`pendingStreams, pendingStreams[0]
      ensures Streamed() && Sound(model) && Linked() && Pending()
      ensures pendingStreams == old(pendingStreams)[1..] && streams == old(streams)[id := old(pendingStreams)[0]]
      ensures model == Joined(old(model), id, old(StreamBuffer.Bytes(pendingStreams[0].log)), old(pendingStreams[0].isClosing))
    {
      hide StreamsOk, Conserved, Table, Views, Logs, Matches, Stream.Valid, Stream.UnsentBytes, Stream.Acked, Stream.Untouched, StreamBuffer.Bytes;
      var s := pendingStreams[0];
      Join(id, s);
      pendingStreams := pendingStreams[1..];
    }

    /** Bytes reach a stream, from the user or because an acknowledgement freed a chunk; or it starts closing. */
    ghost method Grown(id: int, extra: seq<byte>, close: bool, logs: map<int, seq<byte>>)
      requires Table(streams) && Sound(model) && id in model.streams && id in model.total
      requires Views(streams) == Grow(model, id, extra, close).streams
      requires id in logs && Logs(streams) == logs[id := logs[id] + extra] && Matches(model.total, logs)
      modifies this`model
      ensures Streamed() && Sound(model) && model == Grow(old(model), id, extra, close) && Matches(model.total, Logs(streams))
      ensures extra == [] && !close ==> model == old(model)
    {
      hide StreamsOk, Conserved, Table, Views, Logs;
      GrowKeeps(model, id, extra, close);
      GrowNothing(model, id);
      model := Grow(model, id, extra, close);
    }

    /** The user sends on, or closes, one of the open streams. */
    method Apply(id: int, op: UserOp) returns (ghost extra: seq<byte>)
      requires Streamed() && Sound(model) && Linked() && id in streams
      modifies this`model, streams[id], io
      ensures Streamed() && Sound(model) && Linked() && model == Grow(old(model), id, extra, op.CloseIt?)
      ensures old(io.active) || extra != [] || op.CloseIt? ==> io.active
      ensures (extra == [] && !op.CloseIt? ==> model == old(model)) && (op.SendData? ==> extra == op.view) && (op.CloseIt? ==> extra == [])
      ensures Enrolled(op, old(streams[id].senders), streams[id].senders)
    {
      hide StreamsOk, Conserved, Table, Views, Logs, Matches, Stream.Valid, Stream.UnsentBytes;
      OpenKeys(model);
      ViewAt(streams, id);
      ghost var logs := Logs(streams);
      extra := ApplyOn(streams, streams[id], id, op);
      Grown(id, extra, op.CloseIt?, logs);
    }

    /** The same on a stream that still waits. */
    method ApplyPending(i: nat, op: UserOp) returns (ghost extra: seq<byte>)
      requires Pending() && i < |pendingStreams|
      modifies pendingStreams[i], io
      ensures Pending() && (old(io.active) || op.CloseIt? ==> io.active)
      ensures var s := pendingStreams[i];
        && StreamBuffer.Bytes(s.log) == old(StreamBuffer.Bytes(s.log)) + extra && s.isClosing == (old(s.isClosing) || op.CloseIt?)
        && Enrolled(op, old(s.senders), s.senders)
      ensures (op.SendData? ==> extra == op.view) && (op.CloseIt? ==> extra == [])
    {
      hide Stream.Valid, Stream.UnsentBytes, Stream.Acked, StreamBuffer.Bytes, Enrolled;
      extra := pendingStreams[i].Apply(op);
    }

    /** stream_ack: an unknown stream is an error; otherwise chunks set free by the acknowledgement may append. */
    method StreamAck(id: int, size: nat) returns (known: bool, ghost extra: seq<byte>)
      requires Streamed() && Sound(model) && Linked() && (id in streams ==> size <= streams[id].unackedSize)
      modifies this`model, Objects(), io
      ensures Streamed() && Sound(model) && Linked() && known == (id in streams)
      ensures model == if known then Grow(old(model), id, extra, false) else old(model)
      ensures known ==> streams[id].unackedSize == old(streams[id].unackedSize) - size
      ensures (old(io.active) ==> io.active) && (known && extra != [] ==> io.active)
    {
      hide StreamsOk, Conserved, Table, Views, Logs, Matches, Stream.Valid, Stream.UnsentBytes, Stream.Acked, Stream.Buffered;
      extra := [];
      if id !in streams {
        return false, [];
      }
      OpenKeys(model);
      ViewAt(streams, id);
      ghost var logs := Logs(streams);
      extra := AckOn(streams, streams[id], id, size);
      Grown(id, extra, false, logs);
      return true, extra;
    }

    /** stream_closed takes the stream out of the table, if it is there, and wakes the connection. */
    method EraseStream(id: int)
      requires Streamed() && Sound(model) && Linked()
      modifies this`streams, this`model, io
      ensures Streamed() && Sound(model) && Linked() && (old(io.active) || id in old(streams) ==> io.active)
      ensures streams == old(streams) - {id} && model == old(model).(streams := old(model).streams - {id})
    {
      hide StreamsOk, Conserved, Table, Views, Logs;
      EraseKeeps(model, id);
      EntriesErase(streams, id);
      if id in streams {
        io.Activate();
      }
      streams := streams - {id};
      model := model.(streams := model.streams - {id});
    }

    lemma {:induction false} SharesNothing()
      requires Mirrors()
      ensures Shares(socket.wire, socket.owners)
    {
      hide Mine;
    }

    lemma {:induction false} BatchCount()
      requires Batched()
      ensures |model.batch| == nPackets
    {
    }

    lemma {:induction false} EmptyBatch()
      requires Batched() && model.batch == []
      ensures nPackets == 0 && Sum(sendBufferSize[..nPackets]) == 0
    {
    }
  }

  lemma {:induction false} ConsumedViews(c: Conn, id: int, fin: bool, n: nat, accepted: bool, views: map<int, StreamView>)
    requires n <= |Unsent(c, id)| && (id in c.streams <==> id != SENTINEL)
    requires id == SENTINEL ==> views == c.streams
    requires id != SENTINEL ==>
      var v := c.streams[id];
      var marked := if fin then c.streams[id := v.(sentFin := true)] else c.streams;
      views == if n > 0 then marked[id := marked[id].(unsent := v.unsent[n..])] else marked
    ensures Consume(c, id, fin, n, accepted).streams == views && Consume(c, id, fin, n, accepted).fates == c.fates
  {
    if id != SENTINEL {
      assert c.streams[id].unsent[0..] == c.streams[id].unsent;
    }
  }

  lemma {:induction false} UnfinishedEmpty(ids: seq<int>, streams: map<int, StreamView>)
    requires ids == []
    ensures Unfinished(ids, streams) == []
  {
  }

  lemma {:induction false} UnfinishedOne(id: int, streams: map<int, StreamView>)
    ensures Unfinished([id], streams) == if id in streams && !streams[id].sentFin then [id] else []
  {
  }

  lemma {:induction false} UnfinishedAppend(a: seq<int>, b: seq<int>, streams: map<int, StreamView>)
    ensures Unfinished(a + b, streams) == Unfinished(a, streams) + Unfinished(b, streams)
  {
    if a == [] {
      assert a + b == b;
    } else {
      var first := if a[0] in streams && !streams[a[0]].sentFin then [a[0]] else [];
      calc {
        Unfinished(a + b, streams);
        { assert (a + b)[1..] == a[1..] + b; }
        first + Unfinished(a[1..] + b, streams);
        { UnfinishedAppend(a[1..], b, streams); }
        first + (Unfinished(a[1..], streams) + Unfinished(b, streams));
        (first + Unfinished(a[1..], streams)) + Unfinished(b, streams);
      }
    }
  }

  lemma {:induction false} FlushUnfolds(c: Conn, ids: seq<int>, mid: nat, env: Env)
    requires IsOrder(ids, c) && mid <= |ids| && StreamsOk(c) && Conserved(c) && env.budget >= 1
    ensures c.batch != [] ==> FlushRun.FlushStreams(c, ids, mid, env) == FlushResult(c, 0)
    ensures c.batch == [] ==> Scheduled(Start(c, ids, mid), env)
    ensures c.batch == [] ==> FlushRun.FlushStreams(c, ids, mid, env) == Finish(Run(Start(c, ids, mid), env), env)
  {
    hide StreamsOk, Conserved, IsOrder, Finish, Run, Scheduled, Fair, Counted, Draining;
    if c.batch == [] {
      StartOk(c, ids, mid, env);
    }
  }

  lemma {:induction false} AfterWriteFields(f: FlushState, env: Env)
    requires CanTurn(f) && !Skips(f)
    ensures var g := AfterWrite(f, env);
      && g.strs == f.strs[1..] && g.calls == f.calls + 1 && g.sends == f.sends && g.streamPackets == f.streamPackets
      && g.resends == f.resends && g.phase == f.phase && g.conn.batch == f.conn.batch && g.conn.fates == f.conn.fates
  {
  }

  /** Unrolling the run by one turn, and stopping it. */
  lemma {:induction false} RunStep(f: FlushState, env: Env)
    requires Scheduled(f, env) && !Finished(f)
    ensures CanTurn(f) && Scheduled(Turn(f, env), env) && Run(Turn(f, env), env) == Run(f, env)
    ensures var g := Turn(f, env);
      g.streamPackets > f.streamPackets || (g.streamPackets == f.streamPackets && |g.strs| < |f.strs|)
  {
    ScheduledCanTurn(f, env);
    TurnKeepsSchedule(f, env);
  }

  lemma {:induction false} RunStop(f: FlushState, env: Env)
    requires Scheduled(f, env) && Finished(f)
    ensures Run(f, env) == f
  {
  }

  lemma {:induction false} OpenKeys(c: Conn)
    requires StreamsOk(c)
    ensures c.streams.Keys <= c.total.Keys && SENTINEL !in c.total
  {
    hide FinIsFinal, Written;
  }
}
