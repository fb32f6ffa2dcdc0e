/** What a flush promises about packets, stream bytes, FIN and fairness, turn by turn. */
module FlushProps {
  import opened Common
  import opened Datagrams
  import opened Udp
  import opened Endpoint
  import opened ConnState
  import opened Flush

  // ---- packets ------------------------------------------------------------------------------

  /**
   * Only a hard error drops packets, and it drops everything behind the first one it drops: each dropped packet is
   * followed by the rest of its batch, dropped with the same error.
   */
  predicate DropsWhole(fs: seq<Fate>) {
    forall i :: 0 <= i < |fs| && fs[i].Dropped? ==> DropsOn(fs, i)
  }

  predicate DropsOn(fs: seq<Fate>, i: nat)
    requires i < |fs| && fs[i].Dropped?
  {
    && fs[i].code != 0 && fs[i].code != EAGAIN
    && (fs[i].behind > 0 ==>
          i + 1 < |fs| && fs[i + 1].Dropped? && fs[i + 1].code == fs[i].code && fs[i + 1].behind == fs[i].behind - 1)
  }

  /** Packet conservation: everything produced is accounted for, in order, and the rest is queued. */
  predicate Conserved(c: Conn) { c.produced == Packets(c.fates) + c.batch && DropsWhole(c.fates) }

  lemma {:induction false} DropsAppend(a: seq<Fate>, b: seq<Fate>)
    requires DropsWhole(a) && DropsWhole(b)
    ensures DropsWhole(a + b)
  {
    forall i | 0 <= i < |a + b| && (a + b)[i].Dropped? ensures DropsOn(a + b, i) {
      if i < |a| {
        assert DropsOn(a, i);
      } else {
        assert DropsOn(b, i - |a|);
      }
    }
  }

  /** The fates of an attempt name the packets that left the batch, in order. */
  lemma {:induction false} FatesAccount(backend: Backend, batch: seq<seq<byte>>, reply: KernelReply)
    ensures var a := TrySend(true, backend, batch, reply);
      && |a.left| <= |batch|
      && var fs := Fates(a, batch, CodeOf(backend, |batch|, reply));
      Packets(fs) + a.kept == batch && DropsWhole(fs)
  {
    hide DropsWhole, CodeOf;
    AttemptConserves(true, backend, batch, reply);
    var a := TrySend(true, backend, batch, reply);
    var fs := Fates(a, batch, CodeOf(backend, |batch|, reply));
    assert Packets(fs) == if a.outcome == Failed then batch else a.left;
    TailDropped(a, batch, CodeOf(backend, |batch|, reply));
  }

  lemma {:induction false} TailDropped(a: Attempt, batch: seq<seq<byte>>, code: int)
    requires |a.left| <= |batch| && (a.outcome == Failed ==> code != 0 && code != EAGAIN)
    ensures DropsWhole(Fates(a, batch, code))
  {
    var fs := Fates(a, batch, code);
    forall i | 0 <= i < |fs| && fs[i].Dropped? ensures DropsOn(fs, i) {
      assert i >= |a.left| && a.outcome == Failed;
      assert fs[i] == Dropped(batch[i], code, |batch| - 1 - i);
      assert i + 1 < |batch| ==> fs[i + 1] == Dropped(batch[i + 1], code, |batch| - 2 - i);
    }
  }

  lemma {:induction false} FatesWire(a: Attempt, batch: seq<seq<byte>>, code: int)
    requires |a.left| <= |batch|
    ensures Wire(Fates(a, batch, code)) == a.left
  {
    hide Wire;
    var fs := Fates(a, batch, code);
    var sent, lost := fs[..|a.left|], fs[|a.left|..];
    assert fs == sent + lost;
    WireAppend(sent, lost);
    WireAll(sent);
    WireNone(lost);
    assert Packets(sent) == a.left;
  }

  /** What an attempt adds to the wire is what its fates say. */
  lemma {:induction false} SendWire(c: Conn, backend: Backend, reply: KernelReply)
    ensures Wire(SendOnce(c, backend, reply).0.fates) == Wire(c.fates) + TrySend(true, backend, c.batch, reply).left
  {
    hide Wire, Fates, TrySend, CodeOf;
    AttemptConserves(true, backend, c.batch, reply);
    var a := TrySend(true, backend, c.batch, reply);
    FatesWire(a, c.batch, CodeOf(backend, |c.batch|, reply));
    WireAppend(c.fates, Fates(a, c.batch, CodeOf(backend, |c.batch|, reply)));
  }

  /** A send attempt accounts for every packet of the batch; only a failed one drops any. */
  lemma {:induction false} SendConserves(c: Conn, backend: Backend, reply: KernelReply)
    requires Conserved(c)
    ensures var (c', outcome) := SendOnce(c, backend, reply);
      && Conserved(c')
      && (outcome == Sent ==> c'.batch == [])
      && (outcome == Failed ==> c'.batch == [])
      && (outcome == Blocked ==> c'.batch != [])
      && outcome != NoSocket
      && c'.streams == c.streams && c'.total == c.total && c'.writes == c.writes && c'.produced == c.produced && c'.touched == c.touched
  {
    AttemptConserves(true, backend, c.batch, reply);
    FatesAccount(backend, c.batch, reply);
    hide Fates, Packets, TrySend, DropsWhole, CodeOf;
    var a := TrySend(true, backend, c.batch, reply);
    var fs := Fates(a, c.batch, CodeOf(backend, |c.batch|, reply));
    PacketsAppend(c.fates, fs);
    DropsAppend(c.fates, fs);
    assert (Packets(c.fates) + Packets(fs)) + a.kept == Packets(c.fates) + (Packets(fs) + a.kept);
  }

  /** The flush-local bookkeeping: budget, packets and queued callbacks. */
  predicate Counted(f: FlushState, before: nat) {
    && Conserved(f.conn)
    && |f.conn.produced| == before + f.streamPackets
    && (f.phase != Returned ==> f.resends == 0)
    && (f.phase == Returned ==> f.resends == if f.conn.batch == [] then 0 else 1)
  }

  lemma {:induction false} AfterPacketCounts(f: FlushState, env: Env, id: int, p: seq<byte>, before: nat)
    requires f.phase == Looping && Counted(f, before)
    ensures Counted(AfterPacket(f, env, id, p), before)
  {
    hide SendOnce, Packets, Requeue, DropsWhole, Wire;
    var c := f.conn.(batch := f.conn.batch + [p], produced := f.conn.produced + [p]);
    assert f.conn.produced + [p] == Packets(f.conn.fates) + (f.conn.batch + [p]);
    SendConserves(c, env.backend, env.kernel(f.sends));
  }

  lemma {:induction false} TurnCounts(f: FlushState, env: Env, before: nat)
    requires CanTurn(f) && Counted(f, before)
    ensures Counted(Turn(f, env), before)
  {
    hide Consume, AfterPacket, Packets;
    if !Skips(f) {
      var id := f.strs[0];
      ConsumeFrame(f.conn, id, id != SENTINEL && WantsFin(f.conn.streams[id]), Taken(env.writer(f.calls), |Unsent(f.conn, id)|), Accepts(env.writer(f.calls)));
      match env.writer(f.calls)
      case Packed(p, take) => AfterPacketCounts(AfterWrite(f, env), env, id, p, before);
      case _ =>
    }
  }

  // ---- stream bytes and FIN -----------------------------------------------------------------

  /** The bytes of one stream the writer has consumed, in order. */
  function Written(ws: seq<Write>, id: int): seq<byte> {
    if ws == [] then []
    else Written(ws[..|ws| - 1], id) + if ws[|ws| - 1].id == id then ws[|ws| - 1].data else []
  }

  /** A FIN is the last write of its stream, and goes out only when nothing appended is left to write. */
  predicate FinIsFinal(ws: seq<Write>) {
    && (forall i, j :: 0 <= i < j < |ws| && ws[i].fin ==> ws[j].id != ws[i].id)
    && (forall i :: 0 <= i < |ws| && ws[i].fin ==> ws[i].data == [] && |Written(ws[..i], ws[i].id)| == ws[i].appended)
  }

  /** The stream-level invariant of a connection. */
  predicate StreamsOk(c: Conn) {
    && c.streams.Keys <= c.total.Keys && SENTINEL !in c.total
    && (forall id :: id in c.streams ==> c.total[id] == Written(c.writes, id) + c.streams[id].unsent)
    && (forall id :: id in c.total ==> Written(c.writes, id) <= c.total[id])
    && (forall i :: 0 <= i < |c.writes| ==> (c.writes[i].id == SENTINEL && !c.writes[i].fin) || c.writes[i].id in c.total)
    && (forall i :: 0 <= i < |c.writes| && c.writes[i].fin && c.writes[i].id in c.streams ==> c.streams[c.writes[i].id].sentFin)
    && FinIsFinal(c.writes)
    && (forall id :: id in c.streams && c.streams[id].sentFin ==> c.streams[id].closing)
    && (forall id :: id in c.touched ==> id in c.total && c.touched[id] <= |c.writes|)
  }

  lemma {:induction false} WrittenSnoc(ws: seq<Write>, w: Write, id: int)
    ensures Written(ws + [w], id) == Written(ws, id) + if w.id == id then w.data else []
  {
    assert (ws + [w])[..|ws|] == ws;
  }

  lemma {:induction false} FinSnoc(ws: seq<Write>, w: Write)
    requires FinIsFinal(ws)
    requires forall i :: 0 <= i < |ws| && ws[i].fin ==> ws[i].id != w.id
    requires w.fin ==> w.data == [] && |Written(ws, w.id)| == w.appended
    ensures FinIsFinal(ws + [w])
  {
    var vs := ws + [w];
    forall i | 0 <= i < |vs| && vs[i].fin
      ensures vs[i].data == [] && |Written(vs[..i], vs[i].id)| == vs[i].appended
    {
      assert vs[..i] == ws[..i];
      assert ws[..|ws|] == ws;
    }
  }

  /** A write on a listed stream (or the sentinel) keeps the byte and FIN accounting. */
  lemma {:induction false} ConsumeKeepsStreams(c: Conn, id: int, fin: bool, n: nat, accepted: bool)
    requires StreamsOk(c) && n <= |Unsent(c, id)|
    requires id == SENTINEL || (id in c.streams && !c.streams[id].sentFin)
    requires fin ==> id != SENTINEL && c.streams[id].unsent == [] && c.streams[id].closing
    ensures StreamsOk(Consume(c, id, fin, n, accepted))
  {
    hide FinIsFinal, Written;
    var c' := Consume(c, id, fin, n, accepted);
    var w := Write(id, fin, Unsent(c, id)[..n], Appended(c, id), accepted);
    forall i | 0 <= i < |c.writes| && c.writes[i].fin ensures c.writes[i].id != id {
    }
    FinSnoc(c.writes, w);
    forall k | k in c.total
      ensures Written(c'.writes, k) <= c'.total[k]
      ensures k in c'.streams ==> c'.total[k] == Written(c'.writes, k) + c'.streams[k].unsent
    {
      WrittenSnoc(c.writes, w, k);
      if k == id {
        assert c.streams[k].unsent == c.streams[k].unsent[..n] + c.streams[k].unsent[n..];
      }
    }
  }

  lemma {:induction false} TurnKeepsStreams(f: FlushState, env: Env)
    requires CanTurn(f) && Scheduled(f, env) && StreamsOk(f.conn)
    ensures StreamsOk(Turn(f, env).conn)
  {
    QueueableTail(f.strs, f.conn.streams);
    if !Skips(f) {
      var id := f.strs[0];
      var fin := id != SENTINEL && WantsFin(f.conn.streams[id]);
      ConsumeKeepsStreams(f.conn, id, fin, Taken(env.writer(f.calls), |Unsent(f.conn, id)|), Accepts(env.writer(f.calls)));
      ConsumeFrame(f.conn, id, fin, Taken(env.writer(f.calls), |Unsent(f.conn, id)|), Accepts(env.writer(f.calls)));
      match env.writer(f.calls)
      case Packed(p, take) => AfterPacketFrame(AfterWrite(f, env), env, id, p);
      case _ =>
    }
  }

  /** The FIN of a stream reached the writer and was taken. */
  predicate FinAccepted(ws: seq<Write>, id: int) {
    exists i :: 0 <= i < |ws| && ws[i].id == id && ws[i].fin && ws[i].accepted
  }

  /** There is only one FIN write, so the FIN is accepted, now or ever after, exactly when that one was. */
  lemma {:induction false} FinAcceptedIff(ws: seq<Write>, i: nat)
    requires FinIsFinal(ws) && i < |ws| && ws[i].fin
    ensures FinAccepted(ws, ws[i].id) <==> ws[i].accepted
  {
    hide Written;
    forall k | 0 <= k < |ws| && ws[k].id == ws[i].id && ws[k].fin ensures k == i {
    }
  }

  /**
   * sent_fin is set before the write, so a FIN the writer refuses, with 0 or an error, is not tried again: after the
   * turn of a stream that wants FIN, sent_fin holds whatever the answer was, and FIN is accepted exactly if it was taken.
   */
  lemma {:induction false} FinTurn(f: FlushState, env: Env)
    requires CanTurn(f) && Scheduled(f, env) && StreamsOk(f.conn) && f.strs[0] != SENTINEL && WantsFin(f.conn.streams[f.strs[0]])
    ensures var id, c := f.strs[0], Turn(f, env).conn;
      && id in c.streams && c.streams[id].sentFin
      && (FinAccepted(c.writes, id) <==> Accepts(env.writer(f.calls)))
  {
    hide StreamsOk, FinIsFinal, FinAccepted, AfterPacket;
    var id, g := f.strs[0], AfterWrite(f, env);
    var n := Taken(env.writer(f.calls), |Unsent(f.conn, id)|);
    ConsumeFrame(f.conn, id, true, n, Accepts(env.writer(f.calls)));
    QueueableTail(f.strs, f.conn.streams);
    ConsumeKeepsStreams(f.conn, id, true, n, Accepts(env.writer(f.calls)));
    assert FinIsFinal(g.conn.writes) by { FinOnce(g.conn); }
    FinAcceptedIff(g.conn.writes, |f.conn.writes|);
    match env.writer(f.calls)
    case Packed(p, take) => AfterPacketFrame(g, env, id, p);
    case _ =>
  }

  /**
   * FIN is for streams that are closing and written completely: the turn of a live stream sets sent_fin exactly then,
   * and no turn sets it for anybody else.
   */
  lemma {:induction false} FinExactly(f: FlushState, env: Env)
    requires CanTurn(f) && Scheduled(f, env)
    ensures var c, c', id := f.conn, Turn(f, env).conn, f.strs[0];
      && c'.streams.Keys == c.streams.Keys
      && (id != SENTINEL ==> (c'.streams[id].sentFin <==> c.streams[id].closing && c.streams[id].unsent == []))
      && (forall k :: k in c.streams && k != id ==> c'.streams[k] == c.streams[k])
  {
    hide AfterPacket, Consume;
    QueueableTail(f.strs, f.conn.streams);
    if !Skips(f) {
      var id := f.strs[0];
      ConsumeFrame(f.conn, id, id != SENTINEL && WantsFin(f.conn.streams[id]),
                   Taken(env.writer(f.calls), |Unsent(f.conn, id)|), Accepts(env.writer(f.calls)));
      match env.writer(f.calls)
      case Packed(p, take) => AfterPacketFrame(AfterWrite(f, env), env, id, p);
      case _ =>
    }
  }

  lemma {:induction false} FinOnce(c: Conn)
    requires StreamsOk(c)
    ensures FinIsFinal(c.writes) && forall id :: id in c.streams && c.streams[id].sentFin ==> c.streams[id].closing
  {
  }

  // ---- what happens to streams between flushes ----------------------------------------------

  ghost predicate Sound(c: Conn) { Conserved(c) && StreamsOk(c) }

  lemma {:induction false} FreshSound()
    ensures Sound(FRESH)
  {
    assert Packets([]) == [];
  }

  lemma {:induction false} JoinKeeps(c: Conn, id: int, bytes: seq<byte>, closing: bool)
    requires Sound(c) && id != SENTINEL && id !in c.total
    ensures Sound(Joined(c, id, bytes, closing))
  {
    hide FinIsFinal, Packets, DropsWhole;
    NeverWritten(c.writes, id);
    hide Written;
  }

  lemma {:induction false} NeverWritten(ws: seq<Write>, id: int)
    requires forall i :: 0 <= i < |ws| ==> ws[i].id != id
    ensures Written(ws, id) == []
  {
    if ws != [] {
      NeverWritten(ws[..|ws| - 1], id);
    }
  }

  lemma {:induction false} GrowKeeps(c: Conn, id: int, bytes: seq<byte>, close: bool)
    requires Sound(c) && id in c.streams && id in c.total
    ensures Sound(Grow(c, id, bytes, close))
  {
    hide FinIsFinal, Packets, Written, DropsWhole;
    var c', w := Grow(c, id, bytes, close), Written(c.writes, id);
    assert (w + c.streams[id].unsent) + bytes == w + (c.streams[id].unsent + bytes);
  }

  lemma {:induction false} EraseKeeps(c: Conn, id: int)
    requires Sound(c)
    ensures Sound(c.(streams := c.streams - {id}))
  {
    hide FinIsFinal, Packets, Written, DropsWhole;
  }

  // ---- fairness -----------------------------------------------------------------------------

  /** The turns taken since the last turn of `x` (all of them, if it had none). */
  function Since(turns: seq<int>, x: int): seq<int> {
    if turns == [] || turns[|turns| - 1] == x then []
    else Since(turns[..|turns| - 1], x) + [turns[|turns| - 1]]
  }

  function Live(strs: seq<int>): seq<int> {
    if strs == [] then [] else strs[..|strs| - 1]
  }

  /**
   * Round robin, seen from position p of the queue: since its last turn no stream had two turns, no stream ahead of
   * it had one, and every stream behind it had one.
   */
  predicate RoundRobinAt(live: seq<int>, turns: seq<int>, p: nat)
    requires p < |live|
  {
    var u := Since(turns, live[p]);
    && Distinct(u)
    && (forall i :: 0 <= i < p ==> live[i] !in u)
    && (live[p] in turns ==> forall i :: p < i < |live| ==> live[i] in u)
  }

  predicate RoundRobin(live: seq<int>, turns: seq<int>) {
    forall p :: 0 <= p < |live| ==> RoundRobinAt(live, turns, p)
  }

  /** Turn counts rise along the queue and spread by at most one. */
  predicate Even(live: seq<int>, turns: seq<int>) {
    forall i, j :: 0 <= i < j < |live| ==>
      multiset(turns)[live[i]] <= multiset(turns)[live[j]] <= multiset(turns)[live[i]] + 1
  }

  lemma {:induction false} SinceSnoc(turns: seq<int>, t: int, x: int)
    ensures Since(turns + [t], x) == if t == x then [] else Since(turns, x) + [t]
  {
    assert (turns + [t])[..|turns|] == turns;
  }

  /** Taking the head's turn, and putting it back (or not), keeps the round robin. */
  lemma {:induction false} RoundRobinStep(live: seq<int>, turns: seq<int>, again: bool)
    requires live != [] && Distinct(live) && RoundRobin(live, turns)
    ensures RoundRobin(live[1..] + if again then [live[0]] else [], turns + [live[0]])
  {
    var live' := live[1..] + if again then [live[0]] else [];
    forall p | 0 <= p < |live'| ensures RoundRobinAt(live', turns + [live[0]], p) {
      if p < |live| - 1 {
        assert RoundRobinAt(live, turns, p + 1);
        OthersTurn(live, turns, again, p);
      } else {
        SinceSnoc(turns, live[0], live[0]);
      }
    }
  }

  /** A stream that waits moves up by one place. */
  lemma {:induction false} OthersTurn(live: seq<int>, turns: seq<int>, again: bool, p: nat)
    requires p + 1 < |live| && Distinct(live) && RoundRobinAt(live, turns, p + 1)
    ensures RoundRobinAt(live[1..] + if again then [live[0]] else [], turns + [live[0]], p)
  {
    hide Since;
    var x, y, u := live[0], live[p + 1], Since(turns, live[p + 1]);
    var live' := live[1..] + if again then [x] else [];
    SinceSnoc(turns, x, y);
    assert live'[p] == y && Since(turns + [x], y) == u + [x];
    assert x !in u;
    forall i | 0 <= i < p ensures live'[i] !in u + [x] {
      assert live'[i] == live[i + 1];
    }
    if y in turns + [x] {
      assert y in turns;
      forall i | p < i < |live'| ensures live'[i] in u + [x] {
        if i < |live| - 1 {
          assert live'[i] == live[i + 1] && live[i + 1] in u;
        } else {
          assert live'[i] == x;
        }
      }
    }
  }

  lemma {:induction false} EvenStep(live: seq<int>, turns: seq<int>, again: bool)
    requires live != [] && Distinct(live) && Even(live, turns)
    ensures Even(live[1..] + if again then [live[0]] else [], turns + [live[0]])
  {
    var x, m := live[0], multiset(turns);
    var live' := live[1..] + if again then [x] else [];
    var m' := multiset(turns + [x]);
    assert m' == m + multiset{x};
    forall i, j | 0 <= i < j < |live'| ensures m'[live'[i]] <= m'[live'[j]] <= m'[live'[i]] + 1 {
      assert live'[i] == live[i + 1] != x && m[x] <= m[live[i + 1]] <= m[x] + 1;
      if j < |live| - 1 {
        assert live'[j] == live[j + 1] != x;
      }
    }
  }

  predicate Fair(f: FlushState) { RoundRobin(Live(f.strs), f.turns) && Even(Live(f.strs), f.turns) }

  /** What a turn does to the queue: the head leaves, goes to the back, or everybody leaves. */
  lemma {:induction false} TurnOnQueue(f: FlushState, env: Env)
    requires CanTurn(f) && Scheduled(f, env)
    ensures var g, live := Turn(f, env), Live(f.strs);
      && g.turns == f.turns + [f.strs[0]]
      && (Live(g.strs) == [] || (live != [] && live[0] == f.strs[0] && Live(g.strs) in {live[1..], live[1..] + [live[0]]}))
  {
    var id, rest, live := f.strs[0], f.strs[1..], Live(f.strs);
    QueueableTail(f.strs, f.conn.streams);
    if id != SENTINEL {
      assert live[0] == id && Live(rest) == live[1..];
      assert Live(Requeue(rest, id)) == live[1..] + [id];
    } else {
      assert Live(rest) == [] && Live([SENTINEL]) == [];
    }
    if !Skips(f) {
      var f1 := AfterWrite(f, env);
      match env.writer(f.calls)
      case Packed(p, take) =>
        ConsumeFrame(f.conn, id, id != SENTINEL && WantsFin(f.conn.streams[id]), Taken(env.writer(f.calls), |Unsent(f.conn, id)|), Accepts(env.writer(f.calls)));
        AfterPacketFrame(f1, env, id, p);
      case _ =>
    }
  }

  lemma {:induction false} TurnIsFair(f: FlushState, env: Env)
    requires CanTurn(f) && Scheduled(f, env) && Fair(f)
    ensures Fair(Turn(f, env))
  {
    var live := Live(f.strs);
    TurnOnQueue(f, env);
    if live != [] {
      RoundRobinStep(live, f.turns, false);
      RoundRobinStep(live, f.turns, true);
      EvenStep(live, f.turns, false);
      EvenStep(live, f.turns, true);
      assert live[1..] + [] == live[1..];
    }
  }

  lemma {:induction false} QueuedAreEven(f: FlushState, env: Env, y: int)
    requires Scheduled(f, env) && Fair(f) && f.strs != [] && y in f.strs[1..] && y != SENTINEL
    ensures multiset(f.turns)[f.strs[0]] <= multiset(f.turns)[y] <= multiset(f.turns)[f.strs[0]] + 1
  {
    var live := Live(f.strs);
    var j :| 0 <= j < |f.strs| - 1 && f.strs[1..][j] == y;
    assert f.strs[j + 1] == y && f.strs[|f.strs| - 1] == SENTINEL;
    assert live[j + 1] == y && live[0] == f.strs[0];
  }

  /** Between two turns of a stream every other stream that is still queued gets exactly one turn. */
  lemma {:induction false} ExactlyOneTurnBetween(f: FlushState, env: Env, y: int)
    requires Scheduled(f, env) && Fair(f) && f.strs != [] && f.strs[0] in f.turns && y in f.strs[1..] && y != SENTINEL
    ensures multiset(Since(f.turns, f.strs[0]))[y] == 1
  {
    var live, u := Live(f.strs), Since(f.turns, f.strs[0]);
    var j :| 0 <= j < |f.strs| - 1 && f.strs[1..][j] == y;
    assert f.strs[j + 1] == y && f.strs[|f.strs| - 1] == SENTINEL;
    assert live[j + 1] == y && live[0] == f.strs[0];
    assert RoundRobinAt(live, f.turns, 0);
    DistinctCount(u, y);
  }

  lemma {:induction false} DistinctCount(s: seq<int>, x: int)
    requires Distinct(s)
    ensures multiset(s)[x] == if x in s then 1 else 0
  {
    if s != [] {
      assert s == [s[0]] + s[1..];
      DistinctCount(s[1..], x);
    }
  }

  // ---- complete drain -----------------------------------------------------------------------

  /** While nothing went wrong, every listed stream is either still queued or fully written. */
  predicate Draining(f: FlushState, listed: set<int>) {
    && listed <= f.conn.streams.Keys && SENTINEL !in listed
    && (f.clean && f.phase == Looping ==> forall id :: id in listed ==> id in f.strs || f.conn.streams[id].unsent == [])
  }

  lemma {:induction false} RequeueMembers(rest: seq<int>, id: int)
    ensures forall k :: k in Requeue(rest, id) <==> k in rest || k == id
  {
    if rest != [] {
      assert rest == rest[..|rest| - 1] + [rest[|rest| - 1]];
    }
  }

  lemma {:induction false} TurnDrains(f: FlushState, env: Env, listed: set<int>)
    requires CanTurn(f) && Scheduled(f, env) && Draining(f, listed)
    ensures Draining(Turn(f, env), listed)
  {
    hide AfterPacket, Queueable, Requeue;
    var id, g := f.strs[0], Turn(f, env);
    QueueableTail(f.strs, f.conn.streams);
    if !Skips(f) {
      var f1, n := AfterWrite(f, env), Taken(env.writer(f.calls), |Unsent(f.conn, id)|);
      ConsumeFrame(f.conn, id, id != SENTINEL && WantsFin(f.conn.streams[id]), n, Accepts(env.writer(f.calls)));
      RequeueMembers(f.strs[1..], id);
      match env.writer(f.calls)
      case Packed(p, take) => AfterPacketFrame(f1, env, id, p);
      case _ =>
    }
    if g.clean && g.phase == Looping {
      forall k | k in listed ensures k in g.strs || g.conn.streams[k].unsent == [] {
        if k != id && k in f.strs {
          assert f.strs == [id] + f.strs[1..];
          assert k in f.strs[1..];
        }
      }
    }
  }
}
