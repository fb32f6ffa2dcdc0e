/** Connection::flush_streams as a turn-by-turn machine, and what every turn keeps. */
module Flush {
  import opened Common
  import opened Datagrams
  import opened Udp
  import opened Endpoint
  import opened ConnState

  /** The pseudo stream at the end of the list: stream id -1, a null pointer in the list. */
  const SENTINEL: int := -1

  /**
   * What ngtcp2_conn_writev_stream may answer: a packet that used up to `take` of the offered bytes, 0 (congested, or
   * nothing to say), WRITE_MORE (everything offered was used and the packet has room left), or another error.
   */
  datatype WriteReply = Packed(packet: Packet, take: nat) | Congested | WriteMore | WriteError

  /** Everything a flush cannot decide itself. Oracles are indexed by the call number within the flush. */
  datatype Env = Env(backend: Backend, budget: nat, writer: nat -> WriteReply, kernel: nat -> KernelReply)

  datatype Phase = Looping | BudgetReached | Returned

  datatype FlushState = FlushState(
    conn: Conn,
    strs: seq<int>,          // the list, SENTINEL last
    streamPackets: nat,
    phase: Phase,
    calls: nat,              // writer calls so far
    sends: nat,              // send attempts so far
    resends: nat,            // when_writeable callbacks queued so far
    turns: seq<int>,         // the streams taken off the list, in order
    clean: bool)             // no stream write met congestion or an error

  // ---- one send attempt ---------------------------------------------------------------------

  function Fates(a: Attempt, batch: seq<seq<byte>>, code: int): seq<Fate>
    requires |a.left| <= |batch|
  {
    seq(|a.left|, i requires 0 <= i < |a.left| => Emitted(a.left[i])) +
    (if a.outcome == Failed then
       seq(|batch| - |a.left|, i requires 0 <= i < |batch| - |a.left| => Dropped(batch[|a.left| + i], code, |batch| - |a.left| - 1 - i))
     else [])
  }

  /** Connection::send on the abstract batch. */
  function SendOnce(c: Conn, backend: Backend, reply: KernelReply): (Conn, Outcome) {
    var a := TrySend(true, backend, c.batch, reply);
    (c.(batch := a.kept, fates := c.fates + Fates(a, c.batch, CodeOf(backend, |c.batch|, reply))), a.outcome)
  }

  lemma {:induction false} SendIs(c: Conn, backend: Backend, reply: KernelReply)
    ensures var (c', outcome) := SendOnce(c, backend, reply);
      var a := TrySend(true, backend, c.batch, reply);
      c'.batch == a.kept && outcome == a.outcome != NoSocket
  {
  }

  // ---- one turn -----------------------------------------------------------------------------

  predicate WantsFin(s: StreamView) { s.closing && !s.sentFin && s.unsent == [] }

  /** Puts a stream back in front of the sentinel. */
  function Requeue(rest: seq<int>, id: int): seq<int> {
    if rest == [] then [id] else rest[..|rest| - 1] + [id, rest[|rest| - 1]]
  }

  /** Records the writer call and marks `n` more bytes of the stream as written. */
  function Consume(c: Conn, id: int, fin: bool, n: nat, accepted: bool): Conn
    requires n <= |Unsent(c, id)|
  {
    var w := Write(id, fin, Unsent(c, id)[..n], Appended(c, id), accepted);
    var c' := c.(writes := c.writes + [w]);
    if id in c.streams then
      c'.(streams := c.streams[id := c.streams[id].(unsent := c.streams[id].unsent[n..], sentFin := c.streams[id].sentFin || fin)])
    else c'
  }

  /** Queues a packet, and sends the batch when that fills it. */
  function QueuePacket(f: FlushState, env: Env, p: seq<byte>): (FlushState, Outcome) {
    var c := f.conn.(batch := f.conn.batch + [p], produced := f.conn.produced + [p]);
    var f1 := f.(conn := c, streamPackets := f.streamPackets + 1);
    if |c.batch| == env.backend.MaxBatch() then
      var (c', outcome) := SendOnce(c, env.backend, env.kernel(f.sends));
      (f1.(conn := c', sends := f.sends + 1, resends := f.resends + if outcome == Blocked then 1 else 0), outcome)
    else (f1, Sent)
  }

  /** The part of a turn after a packet came back: queue it, and then return, stop at the budget, or go on. */
  function AfterPacket(f: FlushState, env: Env, id: int, p: seq<byte>): FlushState {
    var (g, outcome) := QueuePacket(f, env, p);
    if outcome != Sent then g.(phase := Returned)
    else if g.streamPackets == env.budget then g.(phase := BudgetReached)
    else if id == SENTINEL then g.(strs := f.strs + [SENTINEL])
    else if Unsent(g.conn, id) != [] then g.(strs := Requeue(f.strs, id))
    else g
  }

  predicate CanTurn(f: FlushState) {
    f.phase == Looping && f.strs != [] && (f.strs[0] != SENTINEL ==> f.strs[0] in f.conn.streams)
  }

  /** The stream at the head has nothing to say. */
  predicate Skips(f: FlushState)
    requires CanTurn(f)
  {
    var id := f.strs[0];
    id != SENTINEL && !WantsFin(f.conn.streams[id]) && f.conn.streams[id].unsent == []
  }

  /** Bytes the writer took, given its answer. */
  function Taken(reply: WriteReply, offered: nat): (n: nat)
    ensures n <= offered
  {
    match reply
    case Packed(_, take) => Min(take, offered)
    case WriteMore => offered
    case _ => 0
  }

  predicate Accepts(reply: WriteReply) { reply.Packed? || reply.WriteMore? }

  /** The state right after the writer call. */
  function AfterWrite(f: FlushState, env: Env): FlushState
    requires CanTurn(f) && !Skips(f)
  {
    var id := f.strs[0];
    var fin := id != SENTINEL && WantsFin(f.conn.streams[id]);
    var n := Taken(env.writer(f.calls), |Unsent(f.conn, id)|);
    f.(conn := Consume(f.conn, id, fin, n, Accepts(env.writer(f.calls))), strs := f.strs[1..], calls := f.calls + 1, turns := f.turns + [id])
  }

  /** One iteration of the loop. */
  function Turn(f: FlushState, env: Env): FlushState
    requires CanTurn(f)
  {
    var id := f.strs[0];
    if Skips(f) then f.(strs := f.strs[1..], turns := f.turns + [id])
    else
      var f1 := AfterWrite(f, env);
      match env.writer(f.calls)
      case WriteMore => f1
      case WriteError => f1.(clean := f.clean && id == SENTINEL)
      case Congested => if id == SENTINEL then f1 else f1.(strs := f1.strs[if f1.strs == [] then 0 else |f1.strs| - 1..], clean := false)
      case Packed(p, _) => AfterPacket(f1, env, id, p)
  }

  // ---- the shape of the list ----------------------------------------------------------------

  /** Live streams only: each once, each live, none finished. */
  predicate Queueable(s: seq<int>, streams: map<int, StreamView>) {
    && Distinct(s)
    && forall i :: 0 <= i < |s| ==> s[i] != SENTINEL && s[i] in streams && !streams[s[i]].sentFin
  }

  predicate ListOk(strs: seq<int>, streams: map<int, StreamView>) {
    strs == [] || (strs[|strs| - 1] == SENTINEL && Queueable(strs[..|strs| - 1], streams))
  }

  /** The loop invariant of the scheduler. */
  predicate Scheduled(f: FlushState, env: Env) {
    && ListOk(f.strs, f.conn.streams)
    && (f.phase == Looping ==> f.streamPackets < env.budget && |f.conn.batch| < env.backend.MaxBatch())
    && f.streamPackets <= env.budget && (f.phase == BudgetReached ==> f.streamPackets == env.budget)
    && SENTINEL !in f.conn.streams
  }

  lemma {:induction false} QueueableTail(strs: seq<int>, streams: map<int, StreamView>)
    requires strs != [] && ListOk(strs, streams)
    ensures ListOk(strs[1..], streams)
    ensures strs[0] == SENTINEL <==> |strs| == 1
    ensures strs[0] != SENTINEL ==> strs[1..] != [] && strs[0] !in strs[1..] && strs[0] in streams && !streams[strs[0]].sentFin
  {
    if |strs| > 1 {
      var live := strs[..|strs| - 1];
      assert strs[1..][..|strs| - 2] == live[1..];
      assert live[0] == strs[0];
      forall i | 0 <= i < |strs| - 1 ensures strs[1..][i] != strs[0] {
        assert i < |strs| - 2 ==> strs[1..][i] == live[i + 1];
      }
    }
  }

  lemma {:induction false} RequeueOk(rest: seq<int>, id: int, streams: map<int, StreamView>)
    requires rest != [] && ListOk(rest, streams) && id !in rest && id != SENTINEL && id in streams && !streams[id].sentFin
    ensures ListOk(Requeue(rest, id), streams)
  {
    var r, live := Requeue(rest, id), rest[..|rest| - 1];
    assert r[..|r| - 1] == live + [id];
    forall i | 0 <= i < |live| ensures live[i] != id {
      assert live[i] in rest;
    }
  }

  /** Changing one stream that is no longer on the list does not disturb the list. */
  lemma {:induction false} ListFrame(strs: seq<int>, streams: map<int, StreamView>, streams': map<int, StreamView>, id: int)
    requires ListOk(strs, streams) && id !in strs
    requires streams.Keys <= streams'.Keys && forall k :: k in streams && k != id ==> streams'[k] == streams[k]
    ensures ListOk(strs, streams')
  {
    if strs != [] {
      forall i | 0 <= i < |strs| - 1 ensures strs[i] != id {
        assert strs[i] in strs;
      }
    }
  }

  lemma {:induction false} ConsumeFrame(c: Conn, id: int, fin: bool, n: nat, accepted: bool)
    requires n <= |Unsent(c, id)|
    ensures var c' := Consume(c, id, fin, n, accepted);
      && c'.streams.Keys == c.streams.Keys && c'.batch == c.batch && c'.produced == c.produced && c'.fates == c.fates
      && c'.touched == c.touched && c'.total == c.total && |c'.writes| == |c.writes| + 1 && c'.writes[|c.writes|].id == id
      && (forall k :: k in c.streams && k != id ==> c'.streams[k] == c.streams[k])
      && (id in c.streams ==> c'.streams[id].sentFin == (c.streams[id].sentFin || fin))
  {
  }

  lemma {:induction false} SendFrame(c: Conn, backend: Backend, reply: KernelReply)
    ensures var (c', outcome) := SendOnce(c, backend, reply);
      && c'.streams == c.streams && c'.total == c.total && c'.writes == c.writes && c'.produced == c.produced
      && c'.touched == c.touched && c.fates <= c'.fates
      && (outcome == Sent ==> c'.batch == []) && outcome != NoSocket
  {
  }

  lemma {:induction false} QueueFrame(f: FlushState, env: Env, p: seq<byte>)
    ensures var (g, outcome) := QueuePacket(f, env, p);
      && g.conn.streams == f.conn.streams && g.conn.total == f.conn.total && g.conn.writes == f.conn.writes
      && g.conn.touched == f.conn.touched && f.conn.fates <= g.conn.fates
      && g.conn.produced == f.conn.produced + [p] && g.streamPackets == f.streamPackets + 1
      && g.strs == f.strs && g.turns == f.turns && g.calls == f.calls && g.clean == f.clean && g.phase == f.phase
      && f.resends <= g.resends <= f.resends + 1
      && (|f.conn.batch| < env.backend.MaxBatch() && outcome == Sent ==> |g.conn.batch| < env.backend.MaxBatch())
  {
    hide SendOnce;
    SendFrame(f.conn.(batch := f.conn.batch + [p], produced := f.conn.produced + [p]), env.backend, env.kernel(f.sends));
  }

  /** AfterPacket leaves the streams alone, and what it does to the schedule. */
  lemma {:induction false} AfterPacketFrame(f: FlushState, env: Env, id: int, p: seq<byte>)
    requires f.phase == Looping && f.streamPackets < env.budget && |f.conn.batch| < env.backend.MaxBatch()
    ensures var g := AfterPacket(f, env, id, p);
      && g.conn.streams == f.conn.streams && g.conn.total == f.conn.total && g.conn.writes == f.conn.writes
      && g.conn.touched == f.conn.touched && f.conn.fates <= g.conn.fates
      && g.conn.produced == f.conn.produced + [p]
      && g.turns == f.turns && g.calls == f.calls && g.clean == f.clean
      && g.streamPackets == f.streamPackets + 1 <= env.budget
      && (g.phase == Looping ==> g.streamPackets < env.budget && |g.conn.batch| < env.backend.MaxBatch())
      && (g.phase == Looping ==> g.strs == if id == SENTINEL then f.strs + [SENTINEL]
                                           else if Unsent(f.conn, id) != [] then Requeue(f.strs, id) else f.strs)
      && (g.phase != Looping ==> g.strs == f.strs) && (g.phase == BudgetReached ==> g.streamPackets == env.budget)
  {
    hide QueuePacket, Requeue;
    QueueFrame(f, env, p);
  }

  /** Every turn keeps the schedule, and the measure (budget left, list length) drops lexicographically. */
  lemma {:induction false} TurnKeepsSchedule(f: FlushState, env: Env)
    requires CanTurn(f) && Scheduled(f, env)
    ensures var g := Turn(f, env);
      && Scheduled(g, env)
      && (g.streamPackets > f.streamPackets || (g.streamPackets == f.streamPackets && |g.strs| < |f.strs|))
      && (f.strs[0] == SENTINEL ==> |f.strs| == 1)  // the assertion that the sentinel comes last
  {
    hide AfterPacket, Requeue, Taken;
    var id, rest := f.strs[0], f.strs[1..];
    QueueableTail(f.strs, f.conn.streams);
    if !Skips(f) {
      var f1 := AfterWrite(f, env);
      var fin := id != SENTINEL && WantsFin(f.conn.streams[id]);
      ConsumeFrame(f.conn, id, fin, Taken(env.writer(f.calls), |Unsent(f.conn, id)|), Accepts(env.writer(f.calls)));
      ListFrame(rest, f.conn.streams, f1.conn.streams, id);
      match env.writer(f.calls)
      case WriteMore =>
      case WriteError =>
      case Congested =>
        if id != SENTINEL {
          assert rest[|rest| - 1..] == [SENTINEL];
        }
      case Packed(p, take) =>
        AfterPacketFrame(f1, env, id, p);
        if id != SENTINEL && Unsent(f1.conn, id) != [] {
          RequeueOk(rest, id, f1.conn.streams);
        }
    }
  }

  // ---- the whole loop -----------------------------------------------------------------------

  predicate Finished(f: FlushState) { f.phase != Looping || f.strs == [] }

  lemma {:induction false} ScheduledCanTurn(f: FlushState, env: Env)
    requires Scheduled(f, env) && !Finished(f)
    ensures CanTurn(f)
  {
    QueueableTail(f.strs, f.conn.streams);
  }

  /** The loop, for a budget of at least one packet: it ends whatever the writer and the kernel do. */
  function Run(f: FlushState, env: Env): FlushState
    requires Scheduled(f, env)
    decreases env.budget - f.streamPackets, |f.strs|
  {
    if Finished(f) then f
    else
      ScheduledCanTurn(f, env);
      TurnKeepsSchedule(f, env);
      Run(Turn(f, env), env)
  }
}
