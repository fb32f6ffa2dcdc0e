/** Whole flushes: the initial list, the loop run to its end, the final send. */
module FlushRun {
  import opened Common
  import opened Datagrams
  import opened Udp
  import opened Endpoint
  import opened ConnState
  import opened Flush
  import opened FlushProps

  // ---- the initial list ---------------------------------------------------------------------

  predicate Ascending(s: seq<int>) { forall i, j :: 0 <= i < j < |s| ==> s[i] < s[j] }

  /** Starting at `mid` and wrapping around, as the two list-building loops do. */
  function Rotate(ids: seq<int>, mid: nat): (r: seq<int>)
    requires mid <= |ids|
  {
    ids[mid..] + ids[..mid]
  }

  function Unfinished(ids: seq<int>, streams: map<int, StreamView>): seq<int> {
    if ids == [] then []
    else (if ids[0] in streams && !streams[ids[0]].sentFin then [ids[0]] else []) + Unfinished(ids[1..], streams)
  }

  lemma {:induction false} UnfinishedMembers(ids: seq<int>, streams: map<int, StreamView>)
    requires Distinct(ids)
    ensures Distinct(Unfinished(ids, streams))
    ensures forall x :: x in Unfinished(ids, streams) <==> x in ids && x in streams && !streams[x].sentFin
  {
    if ids != [] {
      UnfinishedMembers(ids[1..], streams);
      assert ids == [ids[0]] + ids[1..];
      assert ids[0] !in ids[1..];
      var u, v := Unfinished(ids[1..], streams), Unfinished(ids, streams);
      assert ids[0] !in u;
      forall i, j | 0 <= i < j < |v| ensures v[i] != v[j] {
        if v != u {
          assert v == [ids[0]] + u;
          assert v[j] == u[j - 1] && (i > 0 ==> v[i] == u[i - 1]);
        }
      }
    }
  }

  lemma {:induction false} RotateMembers(ids: seq<int>, mid: nat)
    requires Distinct(ids) && mid <= |ids|
    ensures Distinct(Rotate(ids, mid)) && forall x :: x in Rotate(ids, mid) <==> x in ids
  {
    assert ids == ids[..mid] + ids[mid..];
  }

  /** The list a flush starts from: every unfinished stream, from `mid` on and around, and then the sentinel. */
  function InitialList(ids: seq<int>, mid: nat, streams: map<int, StreamView>): seq<int>
    requires mid <= |ids|
  {
    Unfinished(Rotate(ids, mid), streams) + [SENTINEL]
  }

  /** Walking the ids upwards from `from` and around, `x` comes before `y`. */
  predicate CyclicBefore(from: int, x: int, y: int) {
    if x >= from then y < from || x < y else x < y < from
  }

  predicate CyclicFrom(from: int, s: seq<int>) { forall i, j :: 0 <= i < j < |s| ==> CyclicBefore(from, s[i], s[j]) }

  lemma {:induction false} RotateCyclic(ids: seq<int>, mid: nat)
    requires Ascending(ids) && mid < |ids|
    ensures CyclicFrom(ids[mid], Rotate(ids, mid))
  {
    var r := Rotate(ids, mid);
    assert forall i :: 0 <= i < |r| ==> r[i] == ids[if i < |ids| - mid then mid + i else i - (|ids| - mid)];
  }

  lemma {:induction false} UnfinishedCyclic(from: int, ids: seq<int>, streams: map<int, StreamView>)
    requires CyclicFrom(from, ids)
    ensures CyclicFrom(from, Unfinished(ids, streams)) && forall x :: x in Unfinished(ids, streams) ==> x in ids
  {
    if ids != [] {
      var rest := ids[1..];
      UnfinishedCyclic(from, rest, streams);
      var u := Unfinished(rest, streams);
      forall i | 0 <= i < |u| ensures CyclicBefore(from, ids[0], u[i]) {
        assert u[i] in u;
        var k :| 0 <= k < |rest| && rest[k] == u[i];
        assert rest[k] == ids[k + 1];
      }
    }
  }

  /** It holds every unfinished stream exactly once, walking upwards from the one at `mid` and around. */
  lemma {:induction false} InitialListOk(ids: seq<int>, mid: nat, streams: map<int, StreamView>)
    requires Ascending(ids) && mid <= |ids| && SENTINEL !in streams && forall x :: x in ids <==> x in streams
    ensures ListOk(InitialList(ids, mid, streams), streams)
    ensures forall x :: x != SENTINEL ==> (x in InitialList(ids, mid, streams) <==> x in streams && !streams[x].sentFin)
    ensures mid < |ids| ==> CyclicFrom(ids[mid], Live(InitialList(ids, mid, streams)))
  {
    if mid < |ids| {
      RotateCyclic(ids, mid);
      UnfinishedCyclic(ids[mid], Rotate(ids, mid), streams);
    }
    hide CyclicFrom;
    RotateMembers(ids, mid);
    UnfinishedMembers(Rotate(ids, mid), streams);
    var u, l := Unfinished(Rotate(ids, mid), streams), InitialList(ids, mid, streams);
    assert l[..|l| - 1] == u;
    forall i | 0 <= i < |u| ensures u[i] != SENTINEL && u[i] in streams && !streams[u[i]].sentFin {
      var x := u[i];
      assert x in u;
    }
  }

  // ---- the loop, run to its end -------------------------------------------------------------

  function Start(c: Conn, ids: seq<int>, mid: nat): FlushState
    requires mid <= |ids|
  {
    FlushState(c, InitialList(ids, mid, c.streams), 0, Looping, 0, 0, 0, [], true)
  }

  /** Everything the loop keeps. */
  predicate FlushInv(f: FlushState, env: Env, before: nat, listed: set<int>) {
    Scheduled(f, env) && Counted(f, before) && StreamsOk(f.conn) && Fair(f) && Draining(f, listed)
  }

  lemma {:induction false} TurnKeepsAll(f: FlushState, env: Env, before: nat, listed: set<int>)
    requires CanTurn(f) && FlushInv(f, env, before, listed)
    ensures FlushInv(Turn(f, env), env, before, listed)
  {
    TurnKeepsSchedule(f, env);
    TurnCounts(f, env, before);
    TurnKeepsStreams(f, env);
    TurnIsFair(f, env);
    TurnDrains(f, env, listed);
  }

  lemma {:induction false} RunKeepsAll(f: FlushState, env: Env, before: nat, listed: set<int>)
    requires FlushInv(f, env, before, listed)
    ensures FlushInv(Run(f, env), env, before, listed) && Finished(Run(f, env))
    decreases env.budget - f.streamPackets, |f.strs|
  {
    if !Finished(f) {
      ScheduledCanTurn(f, env);
      TurnKeepsSchedule(f, env);
      TurnKeepsAll(f, env, before, listed);
      RunKeepsAll(Turn(f, env), env, before, listed);
    }
  }

  // ---- what a turn and a run do with an answer ----------------------------------------------

  /** A turn takes from its stream exactly the bytes the writer consumed. */
  lemma {:induction false} TurnTakes(f: FlushState, env: Env)
    requires CanTurn(f) && Scheduled(f, env) && f.strs[0] != SENTINEL && !Skips(f)
    ensures var u, reply := f.conn.streams[f.strs[0]].unsent, env.writer(f.calls);
      Unsent(Turn(f, env).conn, f.strs[0]) ==
      if reply.WriteMore? then [] else if reply.Packed? && reply.take < |u| then u[reply.take..] else if reply.Packed? then [] else u
  {
    hide AfterPacket;
    match env.writer(f.calls)
    case Packed(p, take) => AfterPacketFrame(AfterWrite(f, env), env, f.strs[0], p);
    case _ =>
  }

  /** A stream comes up again in this flush exactly if its packet left bytes behind; only congestion costs the others their turn. */
  lemma {:induction false} TurnRequeues(f: FlushState, env: Env)
    requires CanTurn(f) && Scheduled(f, env) && f.strs[0] != SENTINEL && Turn(f, env).phase == Looping
    ensures var id, g := f.strs[0], Turn(f, env);
      && (id in g.strs <==> !Skips(f) && env.writer(f.calls).Packed? && Unsent(g.conn, id) != [])
      && (Skips(f) || !env.writer(f.calls).Congested? ==> forall y :: y in f.strs[1..] ==> y in g.strs)
  {
    hide AfterPacket;
    RequeueMembers(f.strs[1..], f.strs[0]);
    QueueableTail(f.strs, f.conn.streams);
    if !Skips(f) {
      match env.writer(f.calls)
      case Packed(p, take) => AfterPacketFrame(AfterWrite(f, env), env, f.strs[0], p);
      case Congested =>
        var rest := f.strs[1..];
        assert rest[|rest| - 1..] == [SENTINEL];
      case _ =>
    }
  }

  /** Once only the sentinel is left, only the sentinel writes. */
  lemma {:induction false} OnlySentinel(f: FlushState, env: Env)
    requires Scheduled(f, env) && (f.strs == [] || f.strs == [SENTINEL])
    ensures var ws := Run(f, env).conn.writes;
      f.conn.writes <= ws && forall i :: |f.conn.writes| <= i < |ws| ==> ws[i].id == SENTINEL
    decreases env.budget - f.streamPackets, |f.strs|
  {
    hide Turn, ListOk;
    if !Finished(f) {
      ScheduledCanTurn(f, env);
      TurnKeepsSchedule(f, env);
      TurnExtends(f, env);
      SentinelStays(f, env);
      OnlySentinel(Turn(f, env), env);
    }
  }

  lemma {:induction false} SentinelStays(f: FlushState, env: Env)
    requires CanTurn(f) && f.strs == [SENTINEL]
    ensures Turn(f, env).strs == [] || Turn(f, env).strs == [SENTINEL]
    ensures !Skips(f)
  {
    hide SendOnce, Consume;
  }

  /** Congestion ends the turns of all streams in this flush: whatever is written after it is the sentinel's. */
  lemma {:induction false} CongestionEndsStreams(f: FlushState, env: Env)
    requires CanTurn(f) && Scheduled(f, env) && f.strs[0] != SENTINEL && !Skips(f) && env.writer(f.calls).Congested?
    ensures Scheduled(Turn(f, env), env)
    ensures var g, ws := Turn(f, env), Run(Turn(f, env), env).conn.writes;
      |g.conn.writes| <= |ws| && forall i :: |g.conn.writes| <= i < |ws| ==> ws[i].id == SENTINEL
  {
    hide Run;
    QueueableTail(f.strs, f.conn.streams);
    TurnKeepsSchedule(f, env);
    var rest := f.strs[1..];
    assert rest[|rest| - 1..] == [SENTINEL];
    OnlySentinel(Turn(f, env), env);
  }

  /** While the loop goes on, every batch it sent was full: the batch is sent when it is full, and not before. */
  predicate FullBatches(f: FlushState, env: Env) {
    f.phase != Returned ==> f.streamPackets == env.backend.MaxBatch() * f.sends + |f.conn.batch|
  }

  lemma {:induction false} TurnSendsFull(f: FlushState, env: Env)
    requires CanTurn(f) && Scheduled(f, env) && FullBatches(f, env)
    ensures FullBatches(Turn(f, env), env)
  {
    hide SendOnce, Consume, Requeue;
    if !Skips(f) {
      var id := f.strs[0];
      ConsumeFrame(f.conn, id, id != SENTINEL && WantsFin(f.conn.streams[id]), Taken(env.writer(f.calls), |Unsent(f.conn, id)|), Accepts(env.writer(f.calls)));
      match env.writer(f.calls)
      case Packed(p, take) =>
        var c := AfterWrite(f, env).conn;
        SendFrame(c.(batch := c.batch + [p], produced := c.produced + [p]), env.backend, env.kernel(f.sends));
        var m := env.backend.MaxBatch();
        assert m * (f.sends + 1) == m * f.sends + m;
      case _ =>
    }
  }

  lemma {:induction false} RunSendsFull(f: FlushState, env: Env)
    requires Scheduled(f, env) && FullBatches(f, env)
    ensures FullBatches(Run(f, env), env)
    decreases env.budget - f.streamPackets, |f.strs|
  {
    hide Turn, FullBatches;
    if !Finished(f) {
      ScheduledCanTurn(f, env);
      TurnKeepsSchedule(f, env);
      TurnSendsFull(f, env);
      RunSendsFull(Turn(f, env), env);
    }
  }

  /** The iteration order of the stream map: its keys, ascending. */
  ghost predicate IsOrder(ids: seq<int>, c: Conn) { Ascending(ids) && forall x :: x in ids <==> x in c.streams }

  lemma {:induction false} StartOk(c: Conn, ids: seq<int>, mid: nat, env: Env)
    requires Conserved(c) && StreamsOk(c) && c.batch == [] && env.budget >= 1 && IsOrder(ids, c) && mid <= |ids|
    ensures FlushInv(Start(c, ids, mid), env, |c.produced|, set id | id in c.streams && !c.streams[id].sentFin)
  {
    hide StreamsOk, RoundRobin, Even, ListOk, CyclicFrom, Conserved, Rotate, Unfinished;
    OpenStreams(c);
    InitialListOk(ids, mid, c.streams);
    StartFair(Live(InitialList(ids, mid, c.streams)));
  }

  lemma {:induction false} OpenStreams(c: Conn)
    requires StreamsOk(c)
    ensures SENTINEL !in c.streams
  {
    hide FinIsFinal, Written;
  }

  lemma {:induction false} StartFair(live: seq<int>)
    ensures RoundRobin(live, []) && Even(live, [])
  {
  }

  // ---- flush_streams ------------------------------------------------------------------------

  datatype FlushResult = FlushResult(conn: Conn, resends: nat)

  /** The final batch send, unless the loop returned early. */
  function Finish(f: FlushState, env: Env): FlushResult {
    if f.phase == Returned || f.conn.batch == [] then FlushResult(f.conn, f.resends)
    else
      var (c, outcome) := SendOnce(f.conn, env.backend, env.kernel(f.sends));
      FlushResult(c, f.resends + if outcome == Blocked then 1 else 0)
  }

  ghost function FlushStreams(c: Conn, ids: seq<int>, mid: nat, env: Env): FlushResult
    requires IsOrder(ids, c) && mid <= |ids| && StreamsOk(c) && Conserved(c) && env.budget >= 1
  {
    if c.batch != [] then FlushResult(c, 0)
    else
      StartOk(c, ids, mid, env);
      Finish(Run(Start(c, ids, mid), env), env)
  }

  /**
   * A flush, whatever the writer and the kernel answer: packet conservation and the stream accounting survive, at
   * most `budget` packets are produced, and a callback is queued exactly when packets are left over.
   */
  lemma {:induction false} FlushCorrect(c: Conn, ids: seq<int>, mid: nat, env: Env)
    requires IsOrder(ids, c) && mid <= |ids| && StreamsOk(c) && Conserved(c) && env.budget >= 1
    ensures var r := FlushStreams(c, ids, mid, env);
      && Conserved(r.conn) && StreamsOk(r.conn) && Extends(c, r.conn)
      && |r.conn.produced| <= |c.produced| + env.budget
      && (c.batch == [] ==> |r.conn.writes| > |c.writes| && Covered(r.conn))
      && (c.batch != [] ==> r == FlushResult(c, 0))
      && (c.batch == [] ==> r.resends == if r.conn.batch == [] then 0 else 1)
  {
    hide Run, Finish, StreamsOk, Counted, Fair, Draining, Conserved, InitialList, ListOk;
    if c.batch == [] {
      StartOk(c, ids, mid, env);
      var f0, listed := Start(c, ids, mid), set id | id in c.streams && !c.streams[id].sentFin;
      RunKeepsAll(f0, env, |c.produced|, listed);
      assert !Finished(f0) by { StartsLooping(c, ids, mid); }
      RunWrites(f0, env);
      var f := Run(f0, env);
      FinishCounts(f, env, |c.produced|);
      NowCovered(c, Finish(f, env).conn);
    }
  }

  lemma {:induction false} StartsLooping(c: Conn, ids: seq<int>, mid: nat)
    requires mid <= |ids|
    ensures !Finished(Start(c, ids, mid)) && Start(c, ids, mid).conn == c
  {
  }

  lemma {:induction false} NowCovered(c: Conn, c': Conn)
    requires StreamsOk(c) && c'.touched == c.touched && |c'.writes| > |c.writes|
    ensures Covered(c')
  {
    hide FinIsFinal, Written;
  }

  lemma {:induction false} StreamsOkFrame(c: Conn, c': Conn)
    requires StreamsOk(c) && c'.streams == c.streams && c'.total == c.total && c'.writes == c.writes && c'.touched == c.touched
    ensures StreamsOk(c')
  {
  }

  /** The final send settles what the loop left in the batch. */
  lemma {:induction false} FinishCounts(f: FlushState, env: Env, before: nat)
    requires Counted(f, before) && f.streamPackets <= env.budget && StreamsOk(f.conn)
    ensures var r := Finish(f, env);
      && Conserved(r.conn) && StreamsOk(r.conn) && |r.conn.produced| <= before + env.budget
      && r.conn.streams == f.conn.streams && Extends(f.conn, r.conn) && r.conn.writes == f.conn.writes
      && r.resends == if r.conn.batch == [] then 0 else 1
  {
    hide SendOnce, Conserved, StreamsOk;
    SendFrame(f.conn, env.backend, env.kernel(f.sends));
    SendConserves(f.conn, env.backend, env.kernel(f.sends));
    StreamsOkFrame(f.conn, SendOnce(f.conn, env.backend, env.kernel(f.sends)).0);
  }

  /** Histories only grow. */
  ghost predicate Extends(c: Conn, c': Conn) {
    && c'.streams.Keys == c.streams.Keys && c'.total == c.total && c'.touched == c.touched
    && c.writes <= c'.writes && c.fates <= c'.fates
  }

  lemma {:induction false} TurnExtends(f: FlushState, env: Env)
    requires CanTurn(f) && Scheduled(f, env)
    ensures var g := Turn(f, env);
      && Extends(f.conn, g.conn)
      && (Skips(f) ==> g.conn == f.conn && g.phase == f.phase && g.strs == f.strs[1..])
      && (!Skips(f) ==> |g.conn.writes| == |f.conn.writes| + 1 && g.conn.writes[|f.conn.writes|].id == f.strs[0])
      && g.calls == f.calls + if Skips(f) then 0 else 1
  {
    hide AfterPacket;
    if !Skips(f) {
      var id := f.strs[0];
      ConsumeFrame(f.conn, id, id != SENTINEL && WantsFin(f.conn.streams[id]), Taken(env.writer(f.calls), |Unsent(f.conn, id)|), Accepts(env.writer(f.calls)));
      match env.writer(f.calls)
      case Packed(p, take) => AfterPacketFrame(AfterWrite(f, env), env, id, p);
      case _ =>
    }
  }

  /**
   * The loop calls the writer: at least once, whatever the list holds; and unless it stops at the budget or at a failed
   * send, whatever congestion or errors the streams met, the last call is for the sentinel and makes no packet.
   */
  lemma {:induction false} RunWrites(f: FlushState, env: Env)
    requires Scheduled(f, env)
    ensures var g := Run(f, env);
      && Extends(f.conn, g.conn)
      && (!Finished(f) ==> |g.conn.writes| > |f.conn.writes|)
      && (!Finished(f) && g.phase == Looping ==> g.conn.writes[|g.conn.writes| - 1].id == SENTINEL)
      && f.calls <= g.calls && (!Finished(f) && g.phase == Looping ==> g.calls > 0 && !env.writer(g.calls - 1).Packed?)
      && (g.phase == BudgetReached ==> g.streamPackets == env.budget)
    decreases env.budget - f.streamPackets, |f.strs|
  {
    hide Turn, ListOk;
    if !Finished(f) {
      ScheduledCanTurn(f, env);
      TurnKeepsSchedule(f, env);
      TurnExtends(f, env);
      assert Skips(f) ==> f.strs[1..] != [] by { QueueableTail(f.strs, f.conn.streams); }
      var g := Turn(f, env);
      RunWrites(g, env);
      if Finished(g) && g.phase == Looping {
        LastTurn(f, env);
      }
    }
  }

  /** A turn that empties the list was the sentinel's. */
  lemma {:induction false} LastTurn(f: FlushState, env: Env)
    requires CanTurn(f) && Scheduled(f, env) && Turn(f, env).strs == [] && Turn(f, env).phase == Looping
    ensures f.strs[0] == SENTINEL && !Skips(f) && !env.writer(f.calls).Packed?
  {
    QueueableTail(f.strs, f.conn.streams);
    if !Skips(f) {
      hide AfterPacket;
      match env.writer(f.calls)
      case Packed(p, take) =>
        AfterPacketFrame(AfterWrite(f, env), env, f.strs[0], p);
      case _ =>
    }
  }

  /**
   * Complete drain: if no stream write met congestion or an error, no mid-loop send failed and the budget was not
   * reached, then every stream that was listed has been written completely.
   */
  lemma {:induction false} CompleteDrain(c: Conn, ids: seq<int>, mid: nat, env: Env, id: int)
    requires IsOrder(ids, c) && mid <= |ids| && StreamsOk(c) && Conserved(c) && env.budget >= 1 && c.batch == []
    requires Scheduled(Start(c, ids, mid), env)
    requires Run(Start(c, ids, mid), env).clean && Run(Start(c, ids, mid), env).phase == Looping
    requires id in c.streams && !c.streams[id].sentFin
    ensures Unsent(FlushStreams(c, ids, mid, env).conn, id) == []
  {
    hide Run, Finish, StreamsOk, Counted, Fair, Conserved, Start;
    StartOk(c, ids, mid, env);
    var listed := set id | id in c.streams && !c.streams[id].sentFin;
    RunKeepsAll(Start(c, ids, mid), env, |c.produced|, listed);
    assert id in listed;
    var f := Run(Start(c, ids, mid), env);
    FinishCounts(f, env, |c.produced|);
    assert Draining(f, listed) && f.strs == [];
  }

  // ---- the resend callback ------------------------------------------------------------------

  /** The callback a blocked send leaves behind: finish the batch, and only then go back to flushing. */
  ghost function Resume(c: Conn, reply: KernelReply, ids: seq<int>, mid: nat, env: Env): FlushResult
    requires IsOrder(ids, c) && mid <= |ids| && StreamsOk(c) && Conserved(c) && env.budget >= 1
  {
    SendConserves(c, env.backend, reply);
    StreamsOkFrame(c, SendOnce(c, env.backend, reply).0);
    var (c', outcome) := SendOnce(c, env.backend, reply);
    if outcome == Sent then FlushStreams(c', ids, mid, env)
    else FlushResult(c', if outcome == Blocked then 1 else 0)
  }

  /**
   * The resend callback keeps what a flush keeps. Once everything was sent the writer is called again; after a block one
   * callback is queued; and whatever follows the send attempt comes on top of it.
   */
  lemma {:induction false} ResumeCorrect(c: Conn, reply: KernelReply, ids: seq<int>, mid: nat, env: Env)
    requires IsOrder(ids, c) && mid <= |ids| && StreamsOk(c) && Conserved(c) && env.budget >= 1
    ensures var r := Resume(c, reply, ids, mid, env);
      var (c', outcome) := SendOnce(c, env.backend, reply);
      && Conserved(r.conn) && StreamsOk(r.conn) && Extends(c', r.conn) && Extends(c, r.conn)
      && r.resends == (if r.conn.batch == [] then 0 else 1)
      && (outcome == Sent ==> |r.conn.writes| > |c.writes| && Covered(r.conn))
      && (outcome != Sent ==> r.conn == c')
  {
    hide FlushStreams, StreamsOk, Conserved, SendOnce;
    SendConserves(c, env.backend, reply);
    SendFrame(c, env.backend, reply);
    var (c', outcome) := SendOnce(c, env.backend, reply);
    StreamsOkFrame(c, c');
    if outcome == Sent {
      FlushCorrect(c', ids, mid, env);
    }
  }

  /** And what the flush after a resend drains: every unfinished stream, unless something stops it. */
  lemma {:induction false} ResumeDrains(c: Conn, reply: KernelReply, ids: seq<int>, mid: nat, env: Env, id: int)
    requires IsOrder(ids, c) && mid <= |ids| && StreamsOk(c) && Conserved(c) && env.budget >= 1
    requires SendOnce(c, env.backend, reply).1 == Sent
    requires var f := Start(SendOnce(c, env.backend, reply).0, ids, mid);
      Scheduled(f, env) && Run(f, env).clean && Run(f, env).phase == Looping
    requires id in c.streams && !c.streams[id].sentFin
    ensures Unsent(Resume(c, reply, ids, mid, env).conn, id) == []
  {
    hide FlushStreams, StreamsOk, Conserved, SendOnce, Run, Start, Scheduled;
    SendConserves(c, env.backend, reply);
    var c' := SendOnce(c, env.backend, reply).0;
    StreamsOkFrame(c, c');
    CompleteDrain(c', ids, mid, env, id);
  }

  // ---- a first packet that blocks -----------------------------------------------------------

  lemma {:induction false} RefusedSend(c: Conn, backend: Backend, reply: KernelReply)
    requires c.batch == [[0]] && reply.accept == 0
    ensures reply == KernelReply(0, 0, EAGAIN) ==> SendOnce(c, backend, reply) == (c, Blocked)
    ensures reply.errno != EAGAIN ==> SendOnce(c, backend, reply).1 == Failed && SendOnce(c, backend, reply).0.batch == []
  {
    var a := TrySend(true, backend, c.batch, reply);
    assert c.batch[0..] == c.batch;
    if reply == KernelReply(0, 0, EAGAIN) {
      assert Fates(a, c.batch, CodeOf(backend, |c.batch|, reply)) == [];
      assert c.fates + [] == c.fates;
    }
  }

  /** With one packet to send and a full socket buffer, the packet stays and a callback is queued. */
  lemma {:induction false} FirstPacketBlocks(c: Conn, env: Env)
    requires Sound(c) && c.streams == map[] && c.batch == []
    requires env.budget == 1 && env.writer(0) == Packed([0], 0) && env.kernel(0) == KernelReply(0, 0, EAGAIN)
    ensures FlushStreams(c, [], 0, env).conn.batch == [[0]] && FlushStreams(c, [], 0, env).resends == 1
  {
    hide StreamsOk, Conserved, Scheduled, SendOnce, FlushInv, Turn, Run;
    StartOk(c, [], 0, env);
    var f := Start(c, [], 0);
    FirstTurnBlocks(f, env);
    var g := Turn(f, env);
    if g.phase != Returned {
      RefusedSend(g.conn, env.backend, env.kernel(g.sends));
    }
    OneTurnRun(f, env);
  }

  lemma {:induction false} OneTurnRun(f: FlushState, env: Env)
    requires CanTurn(f) && !Finished(f) && Finished(Turn(f, env))
    requires Scheduled(f, env) || FlushInv(f, env, |f.conn.produced|, set id | id in f.conn.streams && !f.conn.streams[id].sentFin)
    ensures Scheduled(f, env) && Run(f, env) == Turn(f, env)
  {
    hide Turn;
    TurnKeepsSchedule(f, env);
  }

  lemma {:induction false} FirstTurnBlocks(f: FlushState, env: Env)
    requires f.strs == [SENTINEL] && f.phase == Looping && f.conn.batch == []
    requires f.streamPackets == 0 && f.calls == 0 && f.resends == 0 && f.sends == 0
    requires env.budget == 1 && env.writer(0) == Packed([0], 0) && env.kernel(0) == KernelReply(0, 0, EAGAIN)
    ensures CanTurn(f) && !Finished(f)
    ensures var g := Turn(f, env);
      && g.conn.batch == [[0]] && Finished(g)
      && (g.phase == Returned ==> g.resends == 1) && (g.phase != Returned ==> g.resends == 0 && g.sends == 0)
  {
    hide SendOnce, Consume;
    ConsumeFrame(f.conn, SENTINEL, false, 0, true);
    var f1 := AfterWrite(f, env);
    assert f1.conn.batch == [] && f1.conn.batch + [[0]] == [[0]];
    RefusedSend(f1.conn.(batch := [[0]], produced := f1.conn.produced + [[0]]), env.backend, env.kernel(f1.sends));
  }

  // ---- a budget of zero ---------------------------------------------------------------------

  /** `k` iterations of the loop, budget or not. */
  ghost function Turns(f: FlushState, env: Env, k: nat): FlushState
    decreases k
  {
    if k == 0 || !CanTurn(f) then f else Turns(Turn(f, env), env, k - 1)
  }

  /** Every state the loop passes through satisfies the invariant, not only the last one. */
  lemma {:induction false} EveryTurnKeepsAll(f: FlushState, env: Env, before: nat, listed: set<int>, k: nat)
    requires FlushInv(f, env, before, listed)
    ensures FlushInv(Turns(f, env, k), env, before, listed)
    decreases k
  {
    hide FlushInv, Turn;
    if k > 0 && CanTurn(f) {
      TurnKeepsAll(f, env, before, listed);
      EveryTurnKeepsAll(Turn(f, env), env, before, listed, k - 1);
    }
  }

  /**
   * Fairness of a flush, at every point of it: when a stream comes up again, every other stream still queued has had
   * exactly one turn since; and turn counts of queued streams differ by at most one.
   */
  lemma {:induction false} RoundRobinFairness(c: Conn, ids: seq<int>, mid: nat, env: Env, k: nat, y: int)
    requires Conserved(c) && StreamsOk(c) && c.batch == [] && env.budget >= 1 && IsOrder(ids, c) && mid <= |ids|
    requires var f := Turns(Start(c, ids, mid), env, k);
      f.strs != [] && y in f.strs[1..] && y != SENTINEL
    ensures var f := Turns(Start(c, ids, mid), env, k);
      && (f.strs[0] in f.turns ==> multiset(Since(f.turns, f.strs[0]))[y] == 1)
      && multiset(f.turns)[f.strs[0]] <= multiset(f.turns)[y] <= multiset(f.turns)[f.strs[0]] + 1
  {
    hide Turns, Start, StreamsOk, Conserved, Since, IsOrder, RoundRobin, Counted, Draining;
    StartOk(c, ids, mid, env);
    var listed := set id | id in c.streams && !c.streams[id].sentFin;
    EveryTurnKeepsAll(Start(c, ids, mid), env, |c.produced|, listed, k);
    var f := Turns(Start(c, ids, mid), env, k);
    QueuedAreEven(f, env, y);
    if f.strs[0] in f.turns {
      ExactlyOneTurnBetween(f, env, y);
    }
  }

  /**
   * The stop test compares with ==, so a budget of zero is no budget: against a writer that always has another
   * packet and a kernel that takes it, the loop makes any number of packets and is still running.
   */
  lemma {:induction false} ZeroBudgetNeverEnds(f: FlushState, env: Env, k: nat)
    requires env.budget == 0 && f.phase == Looping && f.strs == [SENTINEL]
    requires |f.conn.batch| < env.backend.MaxBatch()
    requires forall i :: env.writer(i) == Packed([0], 0)
    requires forall i :: env.kernel(i) == KernelReply(0, BATCH_SIZE, EAGAIN)
    ensures Turns(f, env, k).phase == Looping && Turns(f, env, k).strs == [SENTINEL]
    ensures |Turns(f, env, k).conn.produced| == |f.conn.produced| + k
    decreases k
  {
    if k > 0 {
      assert CanTurn(f) && !Skips(f);
      var f1 := AfterWrite(f, env);
      ConsumeFrame(f.conn, SENTINEL, false, 0, true);
      SentinelPacket(f1, env);
      ZeroBudgetNeverEnds(Turn(f, env), env, k - 1);
    }
  }

  lemma {:induction false} SentinelPacket(f: FlushState, env: Env)
    requires env.budget == 0 && f.phase == Looping && f.strs == []
    requires |f.conn.batch| < env.backend.MaxBatch() && env.kernel(f.sends) == KernelReply(0, BATCH_SIZE, EAGAIN)
    ensures var g := AfterPacket(f, env, SENTINEL, [0]);
      && g.phase == Looping && g.strs == [SENTINEL] && |g.conn.batch| < env.backend.MaxBatch()
      && |g.conn.produced| == |f.conn.produced| + 1
  {
    AttemptConserves(true, env.backend, f.conn.batch + [[0]], env.kernel(f.sends));
  }
}
