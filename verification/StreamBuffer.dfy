/** The send side of a stream: what is buffered, what was appended, and the chunk senders that refill it. */
module StreamBuffer {
  import opened Datagrams

  /** The keep-alive attached to a buffer; destroying a chunk asks its sender for the next one. */
  datatype Keep = Plain | Chunk(sender: nat)

  datatype Buffer = Buffer(view: seq<byte>, keep: Keep)

  /** Who appended: the user, the `done` callback of a sender, or a sender's chunk. */
  datatype Origin = ByUser | ByDone(sender: nat) | ByChunk(sender: nat)

  /** One call of append_buffer. The log of these is the history the buffers are measured against. */
  datatype Entry = Entry(view: seq<byte>, origin: Origin)

  function KeepOf(o: Origin): Keep { if o.ByChunk? then Chunk(o.sender) else Plain }

  function Flat(bufs: seq<Buffer>): seq<byte> {
    if bufs == [] then [] else bufs[0].view + Flat(bufs[1..])
  }

  /** Every byte appended, in order. */
  function Bytes(log: seq<Entry>): seq<byte> {
    if log == [] then [] else Bytes(log[..|log| - 1]) + log[|log| - 1].view
  }

  function Fresh(log: seq<Entry>): (r: seq<Buffer>)
    ensures |r| == |log| && forall i :: 0 <= i < |log| ==> r[i] == Buffer(log[i].view, KeepOf(log[i].origin))
  {
    seq(|log|, i requires 0 <= i < |log| => Buffer(log[i].view, KeepOf(log[i].origin)))
  }

  /** The buffers left after the first `released` were popped and `off` bytes of the next one were acknowledged. */
  function Rest(log: seq<Entry>, released: nat, off: nat): (r: seq<Buffer>)
    requires released <= |log| && (off > 0 ==> released < |log| && off <= |log[released].view|)
  {
    var bufs := Fresh(log[released..]);
    if off == 0 then bufs else [bufs[0].(view := bufs[0].view[off..])] + bufs[1..]
  }

  lemma {:induction false} BytesAppend(a: seq<Entry>, b: seq<Entry>)
    ensures Bytes(a + b) == Bytes(a) + Bytes(b)
  {
    if b == [] {
      assert a + b == a;
    } else {
      var b0, last := b[..|b| - 1], b[|b| - 1].view;
      calc {
        Bytes(a + b);
        { assert (a + b)[..|a + b| - 1] == a + b0; }
        Bytes(a + b0) + last;
        { BytesAppend(a, b0); }
        (Bytes(a) + Bytes(b0)) + last;
        Bytes(a) + (Bytes(b0) + last);
      }
    }
  }

  lemma {:induction false} BytesSnoc(log: seq<Entry>, e: Entry)
    ensures Bytes(log + [e]) == Bytes(log) + e.view
  {
    assert (log + [e])[..|log|] == log;
  }

  lemma {:induction false} BytesPrefix(a: seq<Entry>, b: seq<Entry>)
    requires a <= b
    ensures Bytes(a) <= Bytes(b)
  {
    assert b == a + b[|a|..];
    BytesAppend(a, b[|a|..]);
  }

  /** Behind a fixed cursor, a longer history adds the same bytes as it does in all. */
  lemma {:induction false} TailGrows(a: seq<Entry>, b: seq<Entry>, cursor: nat)
    requires a <= b && cursor <= |Bytes(a)|
    ensures cursor <= |Bytes(b)| && Bytes(a)[cursor..] <= Bytes(b)[cursor..]
    ensures Bytes(b) == Bytes(a) + Bytes(b)[cursor..][|Bytes(a)| - cursor..]
  {
    hide Bytes;
    BytesPrefix(a, b);
  }

  lemma {:induction false} FlatFresh(log: seq<Entry>)
    ensures Flat(Fresh(log)) == Bytes(log)
  {
    if log != [] {
      FlatFresh(log[1..]);
      assert Fresh(log)[1..] == Fresh(log[1..]);
      assert log == [log[0]] + log[1..];
      BytesAppend([log[0]], log[1..]);
      assert [log[0]][..0] == [];
      assert Bytes([log[0]]) == log[0].view;
    }
  }

  lemma {:induction false} FlatCons(b: Buffer, bufs: seq<Buffer>)
    ensures Flat([b] + bufs) == b.view + Flat(bufs)
  {
    assert ([b] + bufs)[1..] == bufs;
  }

  lemma {:induction false} FlatAt(bufs: seq<Buffer>, i: nat)
    requires i < |bufs|
    ensures Flat(bufs[i..]) == bufs[i].view + Flat(bufs[i + 1..])
  {
    assert bufs[i..] == [bufs[i]] + bufs[i + 1..];
    FlatCons(bufs[i], bufs[i + 1..]);
  }

  lemma {:induction false} FlatEmpty(bufs: seq<Buffer>)
    ensures bufs == [] ==> Flat(bufs) == []
  {
  }

  lemma {:induction false} FlatNonEmpty(bufs: seq<Buffer>)
    ensures |Flat(bufs)| > 0 ==> |bufs| > 0
  {
  }

  lemma {:induction false} ConcatEmpty()
    ensures Concat([]) == []
  {
  }

  lemma {:induction false} ConcatOne(p: seq<byte>)
    ensures Concat([p]) == p
  {
  }

  /** The refinement: the buffers hold exactly the appended bytes from the acknowledged offset on. */
  lemma {:induction false} RestBytes(log: seq<Entry>, released: nat, off: nat)
    requires released <= |log| && (off > 0 ==> released < |log| && off <= |log[released].view|)
    ensures |Bytes(log[..released])| + off <= |Bytes(log)|
    ensures Flat(Rest(log, released, off)) == Bytes(log)[|Bytes(log[..released])| + off..]
  {
    hide Flat, Bytes;
    assert log == log[..released] + log[released..];
    BytesAppend(log[..released], log[released..]);
    FlatFresh(log[released..]);
    if off > 0 {
      var bufs := Fresh(log[released..]);
      FlatCons(bufs[0], bufs[1..]);
      assert bufs == [bufs[0]] + bufs[1..];
      FlatCons(bufs[0].(view := bufs[0].view[off..]), bufs[1..]);
      assert Flat(Rest(log, released, off)) == bufs[0].view[off..] + Flat(bufs[1..]) == Flat(bufs)[off..];
      assert Flat(bufs)[off..] == Bytes(log)[|Bytes(log[..released])|..][off..];
    }
  }

  /** Appending reaches the log and the deque alike. */
  lemma {:induction false} RestAppend(log: seq<Entry>, released: nat, off: nat, e: Entry)
    requires released <= |log| && (off > 0 ==> released < |log| && off <= |log[released].view|)
    ensures Rest(log + [e], released, off) == Rest(log, released, off) + [Buffer(e.view, KeepOf(e.origin))]
    ensures (log + [e])[..released] == log[..released]
  {
    assert (log + [e])[released..] == log[released..] + [e];
    assert Fresh(log[released..] + [e]) == Fresh(log[released..]) + [Buffer(e.view, KeepOf(e.origin))];
  }

  /** Popping the front buffer, or trimming it. */
  lemma {:induction false} RestPop(log: seq<Entry>, released: nat, off: nat)
    requires released < |log| && off <= |log[released].view|
    ensures Rest(log, released, off) != []
    ensures Rest(log, released + 1, 0) == Rest(log, released, off)[1..]
    ensures Rest(log, released, off)[0] == Buffer(log[released].view[off..], KeepOf(log[released].origin))
    ensures |Bytes(log[..released + 1])| == |Bytes(log[..released])| + |log[released].view|
  {
    assert log[..released + 1][..released] == log[..released];
    assert Fresh(log[released..])[1..] == Fresh(log[released + 1..]);
    assert log[released..][0] == log[released];
  }

  lemma {:induction false} RestTrim(log: seq<Entry>, released: nat, off: nat, n: nat)
    requires released < |log| && off + n <= |log[released].view| && n > 0
    ensures Rest(log, released, off) != [] && n <= |Rest(log, released, off)[0].view|
    ensures Rest(log, released, off + n) ==
      [Rest(log, released, off)[0].(view := Rest(log, released, off)[0].view[n..])] + Rest(log, released, off)[1..]
  {
    RestPop(log, released, off);
    assert log[released].view[off..][n..] == log[released].view[off + n..];
    assert Fresh(log[released..])[1..] == Fresh(log[released + 1..]);
  }

  // ---- chunk senders ------------------------------------------------------------------------

  type Window = k: nat | k >= 1 witness 1

  /** A user script: what `done` does. It may send, and it may start further chunked sends. */
  datatype Action = SendBytes(view: seq<byte>) | StartChunks(plan: Plan)

  /**
   * One chunked send: `answers(i)` is what the i-th call of next_chunk returns (empty ends it), `done` what the done
   * callback does, `simultaneous` the window.
   */
  datatype Plan = Plan(answers: nat -> seq<byte>, done: seq<Action>, simultaneous: Window)

  /** A chunk_sender: `active` while next_chunk is set, `calls` and `doneRuns` count the callbacks. */
  datatype Sender = Sender(plan: Plan, calls: nat, active: bool, doneRuns: nat) {
    /** Chunks appended so far: a finished sender's last call returned nothing. */
    function Produced(): int { if active then calls else calls - 1 }
  }

  /**
   * Ghost marks: the sender whose done callback started this one (-1: the user), the log length at start and finish,
   * and how many actions of its own done callback have been run.
   */
  datatype Mark = Mark(parent: int, born: nat, end: nat, ran: nat)

  function Live(bufs: seq<Buffer>, s: nat): nat {
    if bufs == [] then 0 else (if bufs[0].keep == Chunk(s) then 1 else 0) + Live(bufs[1..], s)
  }

  lemma {:induction false} LiveSnoc(bufs: seq<Buffer>, b: Buffer, s: nat)
    ensures Live(bufs + [b], s) == Live(bufs, s) + if b.keep == Chunk(s) then 1 else 0
  {
    if bufs == [] {
      assert (bufs + [b])[1..] == [];
    } else {
      assert (bufs + [b])[1..] == bufs[1..] + [b];
      LiveSnoc(bufs[1..], b, s);
    }
  }

  /**
   * The chunk window. `target` gives the number of live chunks expected of the first senders; later ones, and all of
   * them between events, are measured against their plan.
   */
  ghost predicate Windowed(bufs: seq<Buffer>, senders: seq<Sender>, target: seq<nat>) {
    && |target| <= |senders|
    && (forall i :: 0 <= i < |bufs| && bufs[i].keep.Chunk? ==> bufs[i].keep.sender < |senders|)
    && forall s :: 0 <= s < |senders| ==>
         var t := if s < |target| then target[s] else senders[s].plan.simultaneous;
         Live(bufs, s) <= t && (senders[s].active ==> Live(bufs, s) == t)
  }

  /** The chunks a sender has appended, in log order. */
  function ChunkViews(log: seq<Entry>, s: nat): seq<seq<byte>> {
    if log == [] then []
    else ChunkViews(log[..|log| - 1], s) + if log[|log| - 1].origin == ByChunk(s) then [log[|log| - 1].view] else []
  }

  function Answers(f: nat -> seq<byte>, n: nat): (r: seq<seq<byte>>)
    ensures |r| == n && forall i :: 0 <= i < n ==> r[i] == f(i)
  {
    seq(n, i requires 0 <= i < n => f(i))
  }

  lemma {:induction false} AnswersSnoc(f: nat -> seq<byte>, n: nat)
    ensures Answers(f, n + 1) == Answers(f, n) + [f(n)]
  {
  }

  /** The log of one sender: its answers in call order, none after an empty one, and done run exactly once at the end. */
  ghost predicate SenderOk(log: seq<Entry>, s: nat, snd: Sender, m: Mark) {
    && snd.Produced() >= 0
    && ChunkViews(log, s) == Answers(snd.plan.answers, snd.Produced())
    && (forall i :: 0 <= i < snd.Produced() ==> snd.plan.answers(i) != [])
    && (!snd.active ==> snd.plan.answers(snd.calls - 1) == [])
    && snd.doneRuns == (if snd.active then 0 else 1)
    && m.born <= |log| && (!snd.active ==> m.end <= |log|)
  }

  ghost predicate OriginOk(i: nat, o: Origin, senders: seq<Sender>, marks: seq<Mark>)
    requires |marks| == |senders|
  {
    match o
    case ByUser => true
    case ByDone(s) => s < |senders| && !senders[s].active && marks[s].end <= i
    case ByChunk(s) => s < |senders| && marks[s].born <= i && (!senders[s].active ==> i < marks[s].end)
  }

  ghost predicate ParentOk(s: nat, senders: seq<Sender>, marks: seq<Mark>)
    requires |marks| == |senders| && s < |senders|
  {
    var p := marks[s].parent;
    p >= 0 ==> p < s && !senders[p].active && marks[p].end <= marks[s].born
  }

  ghost predicate Sourced(log: seq<Entry>, senders: seq<Sender>, marks: seq<Mark>) {
    && |marks| == |senders|
    && (forall s :: 0 <= s < |senders| ==> SenderOk(log, s, senders[s], marks[s]))
    && (forall s :: 0 <= s < |senders| ==> ParentOk(s, senders, marks))
    && (forall i :: 0 <= i < |log| ==> OriginOk(i, log[i].origin, senders, marks))
  }

  lemma {:induction false} ChunkViewsSnoc(log: seq<Entry>, e: Entry, s: nat)
    ensures ChunkViews(log + [e], s) == ChunkViews(log, s) + if e.origin == ByChunk(s) then [e.view] else []
  {
    assert (log + [e])[..|log|] == log;
  }

  lemma {:induction false} NoChunks(log: seq<Entry>, s: nat)
    requires forall i :: 0 <= i < |log| ==> log[i].origin != ByChunk(s)
    ensures ChunkViews(log, s) == []
  {
    if log != [] {
      NoChunks(log[..|log| - 1], s);
    }
  }

  /** Appends by others leave a sender's record alone. */
  lemma {:induction false} OtherAppend(log: seq<Entry>, e: Entry, s: nat, snd: Sender, m: Mark)
    requires SenderOk(log, s, snd, m) && e.origin != ByChunk(s)
    ensures SenderOk(log + [e], s, snd, m)
  {
    ChunkViewsSnoc(log, e, s);
  }

  lemma {:induction false} OwnAppend(log: seq<Entry>, s: nat, snd: Sender, m: Mark)
    requires SenderOk(log, s, snd, m) && snd.active && snd.plan.answers(snd.calls) != []
    ensures SenderOk(log + [Entry(snd.plan.answers(snd.calls), ByChunk(s))], s, snd.(calls := snd.calls + 1), m)
  {
    ChunkViewsSnoc(log, Entry(snd.plan.answers(snd.calls), ByChunk(s)), s);
    AnswersSnoc(snd.plan.answers, snd.calls);
    hide ChunkViews;
  }

  lemma {:induction false} OriginsSnoc(log: seq<Entry>, e: Entry, senders: seq<Sender>, marks: seq<Mark>)
    requires |marks| == |senders| && OriginOk(|log|, e.origin, senders, marks)
    requires forall i :: 0 <= i < |log| ==> OriginOk(i, log[i].origin, senders, marks)
    ensures forall i :: 0 <= i < |log + [e]| ==> OriginOk(i, (log + [e])[i].origin, senders, marks)
  {
    hide OriginOk;
  }

  /** An append by the user or by a done callback. */
  lemma {:induction false} SourcedPlain(log: seq<Entry>, senders: seq<Sender>, marks: seq<Mark>, e: Entry)
    requires Sourced(log, senders, marks) && !e.origin.ByChunk?
    requires e.origin.ByDone? ==> e.origin.sender < |senders| && !senders[e.origin.sender].active
    ensures Sourced(log + [e], senders, marks)
  {
    forall s | 0 <= s < |senders| ensures SenderOk(log + [e], s, senders[s], marks[s]) {
      OtherAppend(log, e, s, senders[s], marks[s]);
    }
    if e.origin.ByDone? {
      assert SenderOk(log, e.origin.sender, senders[e.origin.sender], marks[e.origin.sender]);
    }
    OriginsSnoc(log, e, senders, marks);
  }

  /** A sender appends its next chunk. */
  lemma {:induction false} SourcedChunk(log: seq<Entry>, senders: seq<Sender>, marks: seq<Mark>, id: nat)
    requires Sourced(log, senders, marks) && id < |senders| && senders[id].active
    requires senders[id].plan.answers(senders[id].calls) != []
    ensures var snd := senders[id];
      Sourced(log + [Entry(snd.plan.answers(snd.calls), ByChunk(id))], senders[id := snd.(calls := snd.calls + 1)], marks)
  {
    var snd := senders[id];
    var e := Entry(snd.plan.answers(snd.calls), ByChunk(id));
    var senders' := senders[id := snd.(calls := snd.calls + 1)];
    ChunkOrigins(log, senders, marks, id);
    hide OriginOk;
    assert SenderOk(log, id, snd, marks[id]);
    OwnAppend(log, id, snd, marks[id]);
    hide SenderOk;
    forall s | 0 <= s < |senders| ensures SenderOk(log + [e], s, senders'[s], marks[s]) && ParentOk(s, senders', marks) {
      assert SenderOk(log, s, senders[s], marks[s]) && ParentOk(s, senders, marks);
      if s != id {
        OtherAppend(log, e, s, senders[s], marks[s]);
      }
    }
  }

  lemma {:induction false} ChunkOrigins(log: seq<Entry>, senders: seq<Sender>, marks: seq<Mark>, id: nat)
    requires Sourced(log, senders, marks) && id < |senders| && senders[id].active
    ensures var snd := senders[id];
      var senders', log' := senders[id := snd.(calls := snd.calls + 1)], log + [Entry(snd.plan.answers(snd.calls), ByChunk(id))];
      forall i :: 0 <= i < |log'| ==> OriginOk(i, log'[i].origin, senders', marks)
  {
    var senders' := senders[id := senders[id].(calls := senders[id].calls + 1)];
    var e := Entry(senders[id].plan.answers(senders[id].calls), ByChunk(id));
    assert SenderOk(log, id, senders[id], marks[id]);
    hide SenderOk, ParentOk;
    forall i | 0 <= i < |log| ensures OriginOk(i, log[i].origin, senders', marks) {
      assert OriginOk(i, log[i].origin, senders, marks);
    }
    OriginsSnoc(log, e, senders', marks);
  }

  /** A sender's source runs dry. */
  lemma {:induction false} SourcedFinish(log: seq<Entry>, senders: seq<Sender>, marks: seq<Mark>, id: nat)
    requires Sourced(log, senders, marks) && id < |senders| && senders[id].active
    requires senders[id].plan.answers(senders[id].calls) == []
    ensures var snd := senders[id];
      Sourced(log, senders[id := snd.(calls := snd.calls + 1, active := false, doneRuns := snd.doneRuns + 1)],
              marks[id := marks[id].(end := |log|)])
  {
    hide ChunkViews;
    var snd := senders[id];
    var senders' := senders[id := snd.(calls := snd.calls + 1, active := false, doneRuns := snd.doneRuns + 1)];
    var marks' := marks[id := marks[id].(end := |log|)];
    forall s | 0 <= s < |senders| ensures SenderOk(log, s, senders'[s], marks'[s]) && ParentOk(s, senders', marks') {
      assert SenderOk(log, s, senders[s], marks[s]) && ParentOk(s, senders, marks);
    }
    forall i | 0 <= i < |log| ensures OriginOk(i, log[i].origin, senders', marks') {
      assert OriginOk(i, log[i].origin, senders, marks);
    }
  }

  /** A new chunked send, started by the user (-1) or by the done callback of `parent`. */
  lemma {:induction false} SourcedStart(log: seq<Entry>, senders: seq<Sender>, marks: seq<Mark>, plan: Plan, parent: int)
    requires Sourced(log, senders, marks)
    requires parent >= 0 ==> parent < |senders| && !senders[parent].active
    ensures Sourced(log, senders + [Sender(plan, 0, true, 0)], marks + [Mark(parent, |log|, 0, 0)])
  {
    hide ChunkViews;
    var senders', marks' := senders + [Sender(plan, 0, true, 0)], marks + [Mark(parent, |log|, 0, 0)];
    forall i | 0 <= i < |log| ensures OriginOk(i, log[i].origin, senders', marks') && log[i].origin != ByChunk(|senders|) {
      assert OriginOk(i, log[i].origin, senders, marks);
    }
    NoChunks(log, |senders|);
    forall s | 0 <= s < |senders'| ensures SenderOk(log, s, senders'[s], marks'[s]) && ParentOk(s, senders', marks') {
      if s < |senders| {
        assert SenderOk(log, s, senders[s], marks[s]) && ParentOk(s, senders, marks);
      } else if parent >= 0 {
        assert SenderOk(log, parent, senders[parent], marks[parent]);
      }
    }
  }

  /**
   * Order across chained senders: every chunk of a sender lies before everything its done callback appends, and
   * before every chunk of the sends that callback starts.
   */
  lemma {:induction false} ChunksBeforeDone(log: seq<Entry>, senders: seq<Sender>, marks: seq<Mark>, i: nat, j: nat)
    requires Sourced(log, senders, marks) && i < |log| && j < |log| && log[i].origin.ByChunk?
    requires log[j].origin == ByDone(log[i].origin.sender)
      || (log[j].origin.ByChunk? && OriginOk(j, log[j].origin, senders, marks)
          && marks[log[j].origin.sender].parent == log[i].origin.sender)
    ensures i < j
  {
    assert OriginOk(i, log[i].origin, senders, marks);
    assert OriginOk(j, log[j].origin, senders, marks);
    if log[j].origin.ByChunk? {
      assert ParentOk(log[j].origin.sender, senders, marks);
    }
  }

  lemma {:induction false} ChunkViewsMember(log: seq<Entry>, s: nat, i: nat)
    requires i < |log| && log[i].origin == ByChunk(s)
    ensures log[i].view in ChunkViews(log, s)
  {
    if i < |log| - 1 {
      ChunkViewsMember(log[..|log| - 1], s, i);
    }
  }

  /** A chunk is never empty, which is why popping an empty buffer appends nothing. */
  lemma {:induction false} ChunksNonEmpty(log: seq<Entry>, senders: seq<Sender>, marks: seq<Mark>, i: nat)
    requires Sourced(log, senders, marks) && i < |log|
    ensures log[i].origin.ByChunk? ==> log[i].view != []
  {
    if log[i].origin.ByChunk? {
      var s := log[i].origin.sender;
      ChunkViewsMember(log, s, i);
      assert OriginOk(i, log[i].origin, senders, marks);
      assert SenderOk(log, s, senders[s], marks[s]);
    }
  }

  // ---- what the done callbacks did ----------------------------------------------------------

  /** The chunked sends that the done callback of `s` started when the log had `at` entries, in order. */
  function StartsAt(senders: seq<Sender>, marks: seq<Mark>, s: nat, at: nat): seq<Action>
    requires |marks| == |senders|
  {
    if senders == [] then []
    else
      var n := |senders| - 1;
      StartsAt(senders[..n], marks[..n], s, at) +
      if marks[n].parent == s && marks[n].born == at then [StartChunks(senders[n].plan)] else []
  }

  /** Everything the done callback of `s` appended or started, in the order it happened. */
  function DoneTrace(log: seq<Entry>, senders: seq<Sender>, marks: seq<Mark>, s: nat): seq<Action>
    requires |marks| == |senders|
  {
    if log == [] then StartsAt(senders, marks, s, 0)
    else
      var n := |log| - 1;
      DoneTrace(log[..n], senders, marks, s) +
      (if log[n].origin == ByDone(s) then [SendBytes(log[n].view)] else []) + StartsAt(senders, marks, s, |log|)
  }

  /** A done callback runs its actions in order, and only after its sender has finished. */
  ghost predicate TraceOk(log: seq<Entry>, senders: seq<Sender>, marks: seq<Mark>, s: nat)
    requires |marks| == |senders| && s < |senders|
  {
    && marks[s].ran <= |senders[s].plan.done| && (senders[s].active ==> marks[s].ran == 0)
    && DoneTrace(log, senders, marks, s) == senders[s].plan.done[..marks[s].ran]
  }

  ghost predicate Traced(log: seq<Entry>, senders: seq<Sender>, marks: seq<Mark>) {
    && |marks| == |senders|
    && (forall s :: 0 <= s < |senders| ==> marks[s].born <= |log|)
    && (forall s :: 0 <= s < |senders| ==> TraceOk(log, senders, marks, s))
  }

  /** A finished sender's done callback has been run to its end. */
  ghost predicate DoneRun(senders: seq<Sender>, marks: seq<Mark>, s: nat)
    requires |marks| == |senders| && s < |senders|
  {
    !senders[s].active ==> marks[s].ran == |senders[s].plan.done|
  }

  ghost predicate AllDoneRun(senders: seq<Sender>, marks: seq<Mark>) {
    |marks| == |senders| && forall s :: 0 <= s < |senders| ==> DoneRun(senders, marks, s)
  }

  /** Between two moments: only the done callback of `p` made progress, and those of new senders have been run. */
  ghost predicate OnlyDoneOf(p: int, marks: seq<Mark>, senders': seq<Sender>, marks': seq<Mark>) {
    && |marks| <= |marks'| == |senders'|
    && (forall s :: 0 <= s < |marks| && s != p ==> marks'[s].ran == marks[s].ran)
    && (forall s :: |marks| <= s < |marks'| ==> DoneRun(senders', marks', s))
  }

  /** What a finished sender's done callback appended and started is exactly its script, in order. */
  lemma {:induction false} DoneRanExactly(log: seq<Entry>, senders: seq<Sender>, marks: seq<Mark>, s: nat)
    requires Traced(log, senders, marks) && AllDoneRun(senders, marks) && s < |senders|
    ensures !senders[s].active ==> DoneTrace(log, senders, marks, s) == senders[s].plan.done
    ensures senders[s].active ==> DoneTrace(log, senders, marks, s) == []
  {
    hide DoneTrace;
    assert TraceOk(log, senders, marks, s) && DoneRun(senders, marks, s);
    var done := senders[s].plan.done;
    assert done[..|done|] == done;
  }

  /** Two stretches in a row, the second one for the same callback or for a sender that is new. */
  lemma {:induction false} OnlyDoneThen(p: int, q: int, marks: seq<Mark>, senders1: seq<Sender>, marks1: seq<Mark>, senders2: seq<Sender>, marks2: seq<Mark>)
    requires OnlyDoneOf(p, marks, senders1, marks1) && OnlyDoneOf(q, marks1, senders2, marks2)
    requires forall s :: 0 <= s < |senders1| && s != q ==> senders2[s] == senders1[s]
    requires p < |marks| && (q == p || (|marks| <= q < |senders2| && DoneRun(senders2, marks2, q)))
    ensures OnlyDoneOf(p, marks, senders2, marks2)
  {
    forall s | |marks| <= s < |marks2| ensures DoneRun(senders2, marks2, s) {
      if s < |marks1| && s != q {
        assert DoneRun(senders1, marks1, s);
      }
    }
  }

  lemma {:induction false} SameRan(p: int, s: nat, marks: seq<Mark>, senders': seq<Sender>, marks': seq<Mark>)
    requires OnlyDoneOf(p, marks, senders', marks') && s < |marks| && s != p
    ensures marks'[s].ran == marks[s].ran
  {
  }

  lemma {:induction false} OnlyDoneStep(p: int, senders: seq<Sender>, marks: seq<Mark>)
    requires |marks| == |senders| && p < |marks|
    ensures OnlyDoneOf(p, marks, senders, OneRan(marks, p))
    ensures OnlyDoneOf(p, marks, senders, marks)
  {
  }

  lemma {:induction false} AllDoneThen(p: int, senders: seq<Sender>, marks: seq<Mark>, senders': seq<Sender>, marks': seq<Mark>)
    requires AllDoneRun(senders, marks) && OnlyDoneOf(p, marks, senders', marks')
    requires forall s :: 0 <= s < |senders| && s != p ==> senders'[s] == senders[s]
    requires p >= 0 ==> p < |senders'| && DoneRun(senders', marks', p)
    ensures AllDoneRun(senders', marks')
  {
    forall s | 0 <= s < |senders'| ensures DoneRun(senders', marks', s) {
      if s < |senders| && s != p {
        assert DoneRun(senders, marks, s);
      }
    }
  }

  lemma {:induction false} DoneRunOf(senders: seq<Sender>, marks: seq<Mark>, s: nat)
    requires AllDoneRun(senders, marks) && s < |senders|
    ensures DoneRun(senders, marks, s)
  {
  }

  lemma {:induction false} StartsSame(senders: seq<Sender>, senders': seq<Sender>, marks: seq<Mark>, marks': seq<Mark>, s: nat, at: nat)
    requires |senders| == |senders'| == |marks| == |marks'|
    requires forall k :: 0 <= k < |senders| ==>
      senders'[k].plan == senders[k].plan && marks'[k].parent == marks[k].parent && marks'[k].born == marks[k].born
    ensures StartsAt(senders', marks', s, at) == StartsAt(senders, marks, s, at)
  {
    if senders != [] {
      var n := |senders| - 1;
      StartsSame(senders[..n], senders'[..n], marks[..n], marks'[..n], s, at);
    }
  }

  lemma {:induction false} TraceSame(log: seq<Entry>, senders: seq<Sender>, senders': seq<Sender>, marks: seq<Mark>, marks': seq<Mark>, s: nat)
    requires |senders| == |senders'| == |marks| == |marks'|
    requires forall k :: 0 <= k < |senders| ==>
      senders'[k].plan == senders[k].plan && marks'[k].parent == marks[k].parent && marks'[k].born == marks[k].born
    ensures DoneTrace(log, senders', marks', s) == DoneTrace(log, senders, marks, s)
  {
    hide StartsAt;
    StartsSame(senders, senders', marks, marks', s, |log|);
    if log != [] {
      TraceSame(log[..|log| - 1], senders, senders', marks, marks', s);
    }
  }

  lemma {:induction false} StartsLate(senders: seq<Sender>, marks: seq<Mark>, s: nat, at: nat)
    requires |marks| == |senders| && forall k :: 0 <= k < |marks| ==> marks[k].born < at || marks[k].parent != s
    ensures StartsAt(senders, marks, s, at) == []
  {
    if senders != [] {
      StartsLate(senders[..|senders| - 1], marks[..|marks| - 1], s, at);
    }
  }

  lemma {:induction false} TraceAppend(log: seq<Entry>, e: Entry, senders: seq<Sender>, marks: seq<Mark>, s: nat)
    requires |marks| == |senders| && forall k :: 0 <= k < |marks| ==> marks[k].born <= |log|
    ensures DoneTrace(log + [e], senders, marks, s) ==
            DoneTrace(log, senders, marks, s) + if e.origin == ByDone(s) then [SendBytes(e.view)] else []
  {
    hide StartsAt;
    assert (log + [e])[..|log|] == log;
    StartsLate(senders, marks, s, |log| + 1);
  }

  /** A new sender shows up at the end of its parent's trace, and nowhere else. */
  lemma {:induction false} TraceStart(log: seq<Entry>, senders: seq<Sender>, marks: seq<Mark>, snd: Sender, m: Mark, s: nat)
    requires |marks| == |senders| && m.born >= |log|
    ensures DoneTrace(log, senders + [snd], marks + [m], s) ==
            DoneTrace(log, senders, marks, s) + if m.parent == s && m.born == |log| then [StartChunks(snd.plan)] else []
  {
    assert (senders + [snd])[..|senders|] == senders && (marks + [m])[..|marks|] == marks;
    if log != [] {
      TraceStart(log[..|log| - 1], senders, marks, snd, m, s);
      hide StartsAt;
    }
  }

  lemma {:induction false} TraceNone(log: seq<Entry>, senders: seq<Sender>, marks: seq<Mark>, s: nat)
    requires |marks| == |senders| && (forall k :: 0 <= k < |marks| ==> marks[k].parent != s)
    requires forall i :: 0 <= i < |log| ==> log[i].origin != ByDone(s)
    ensures DoneTrace(log, senders, marks, s) == []
  {
    hide StartsAt;
    StartsNone(senders, marks, s, |log|);
    if log != [] {
      TraceNone(log[..|log| - 1], senders, marks, s);
    }
  }

  lemma {:induction false} StartsNone(senders: seq<Sender>, marks: seq<Mark>, s: nat, at: nat)
    requires |marks| == |senders| && forall k :: 0 <= k < |marks| ==> marks[k].parent != s
    ensures StartsAt(senders, marks, s, at) == []
  {
    if senders != [] {
      StartsNone(senders[..|senders| - 1], marks[..|marks| - 1], s, at);
    }
  }

  lemma {:induction false} NotRunYet(log: seq<Entry>, senders: seq<Sender>, marks: seq<Mark>, s: nat)
    requires Traced(log, senders, marks) && s < |senders| && senders[s].active
    ensures marks[s].ran == 0
  {
    hide DoneTrace;
    assert TraceOk(log, senders, marks, s);
  }

  /** An append by the user or by a sender is nobody's done callback. */
  lemma {:induction false} TracedOther(log: seq<Entry>, senders: seq<Sender>, marks: seq<Mark>, e: Entry)
    requires Traced(log, senders, marks) && !e.origin.ByDone?
    ensures Traced(log + [e], senders, marks)
  {
    hide DoneTrace;
    forall s | 0 <= s < |senders| ensures TraceOk(log + [e], senders, marks, s) {
      assert TraceOk(log, senders, marks, s);
      TraceAppend(log, e, senders, marks, s);
    }
  }

  /** A sender makes another call, or finishes. */
  lemma {:induction false} TracedCall(log: seq<Entry>, senders: seq<Sender>, marks: seq<Mark>, id: nat, snd: Sender, end: nat)
    requires Traced(log, senders, marks) && id < |senders| && senders[id].active && snd.plan == senders[id].plan
    ensures Traced(log, senders[id := snd], marks[id := marks[id].(end := end)])
    ensures Traced(log, senders[id := snd], marks)
  {
    hide DoneTrace;
    var senders', marks' := senders[id := snd], marks[id := marks[id].(end := end)];
    forall s | 0 <= s < |senders| ensures TraceOk(log, senders', marks', s) && TraceOk(log, senders', marks, s) {
      assert TraceOk(log, senders, marks, s);
      TraceSame(log, senders, senders', marks, marks', s);
      TraceSame(log, senders, senders', marks, marks, s);
    }
  }

  function OneRan(marks: seq<Mark>, p: int): seq<Mark>
    requires p < |marks|
  {
    if p < 0 then marks else marks[p := marks[p].(ran := marks[p].ran + 1)]
  }

  lemma {:induction false} SourcedRan(log: seq<Entry>, senders: seq<Sender>, marks: seq<Mark>, p: int)
    requires Sourced(log, senders, marks) && p < |marks|
    ensures Sourced(log, senders, OneRan(marks, p))
  {
    var marks' := OneRan(marks, p);
    forall s | 0 <= s < |senders| ensures SenderOk(log, s, senders[s], marks'[s]) && ParentOk(s, senders, marks') {
      assert SenderOk(log, s, senders[s], marks[s]) && ParentOk(s, senders, marks);
    }
    forall i | 0 <= i < |log| ensures OriginOk(i, log[i].origin, senders, marks') {
      assert OriginOk(i, log[i].origin, senders, marks);
    }
  }

  /** The done callback of `p` sends bytes. */
  lemma {:induction false} TracedDone(log: seq<Entry>, senders: seq<Sender>, marks: seq<Mark>, p: nat, view: seq<byte>)
    requires Traced(log, senders, marks) && p < |senders| && !senders[p].active
    requires marks[p].ran < |senders[p].plan.done| && senders[p].plan.done[marks[p].ran] == SendBytes(view)
    ensures Traced(log + [Entry(view, ByDone(p))], senders, OneRan(marks, p))
  {
    hide DoneTrace;
    var e, marks', done := Entry(view, ByDone(p)), OneRan(marks, p), senders[p].plan.done;
    assert done[..marks[p].ran + 1] == done[..marks[p].ran] + [SendBytes(view)];
    forall s | 0 <= s < |senders| ensures TraceOk(log + [e], senders, marks', s) {
      assert TraceOk(log, senders, marks, s);
      TraceAppend(log, e, senders, marks, s);
      TraceSame(log + [e], senders, senders, marks, marks', s);
    }
  }

  /** The user, or the done callback of `parent`, starts a chunked send. */
  lemma {:induction false} TracedStart(log: seq<Entry>, senders: seq<Sender>, marks: seq<Mark>, plan: Plan, parent: int)
    requires Traced(log, senders, marks) && Sourced(log, senders, marks) && parent < |senders|
    requires parent >= 0 ==> !senders[parent].active && marks[parent].ran < |senders[parent].plan.done|
    requires parent >= 0 ==> senders[parent].plan.done[marks[parent].ran] == StartChunks(plan)
    ensures Traced(log, senders + [Sender(plan, 0, true, 0)], OneRan(marks, parent) + [Mark(parent, |log|, 0, 0)])
  {
    hide DoneTrace;
    var snd, m, marks' := Sender(plan, 0, true, 0), Mark(parent, |log|, 0, 0), OneRan(marks, parent);
    NothingYet(log, senders, marks);
    if parent >= 0 {
      var done := senders[parent].plan.done;
      assert done[..marks[parent].ran + 1] == done[..marks[parent].ran] + [StartChunks(plan)];
    }
    forall s | 0 <= s < |senders| + 1 ensures TraceOk(log, senders + [snd], marks' + [m], s) {
      TraceSame(log, senders, senders, marks, marks', s);
      TraceStart(log, senders, marks', snd, m, s);
      if s < |senders| {
        assert TraceOk(log, senders, marks, s);
      }
    }
  }

  lemma {:induction false} NothingYet(log: seq<Entry>, senders: seq<Sender>, marks: seq<Mark>)
    requires Sourced(log, senders, marks)
    ensures DoneTrace(log, senders, marks, |senders|) == []
  {
    hide DoneTrace;
    forall k | 0 <= k < |marks| ensures marks[k].parent != |senders| {
      assert ParentOk(k, senders, marks);
    }
    forall i | 0 <= i < |log| ensures log[i].origin != ByDone(|senders|) {
      assert OriginOk(i, log[i].origin, senders, marks);
    }
    TraceNone(log, senders, marks, |senders|);
  }

  // ---- what each step does to the window ----------------------------------------------------

  lemma {:induction false} WindowedPlain(bufs: seq<Buffer>, senders: seq<Sender>, target: seq<nat>, view: seq<byte>)
    requires Windowed(bufs, senders, target)
    ensures Windowed(bufs + [Buffer(view, Plain)], senders, target)
  {
    forall s | 0 <= s < |senders| ensures Live(bufs + [Buffer(view, Plain)], s) == Live(bufs, s) {
      LiveSnoc(bufs, Buffer(view, Plain), s);
    }
  }

  lemma {:induction false} WindowedChunk(bufs: seq<Buffer>, senders: seq<Sender>, target: seq<nat>, id: nat, view: seq<byte>)
    requires Windowed(bufs, senders, target) && id < |target| && senders[id].active
    ensures Windowed(bufs + [Buffer(view, Chunk(id))], senders[id := senders[id].(calls := senders[id].calls + 1)],
                     target[id := target[id] + 1])
  {
    forall s | 0 <= s < |senders|
      ensures Live(bufs + [Buffer(view, Chunk(id))], s) == Live(bufs, s) + if s == id then 1 else 0
    {
      LiveSnoc(bufs, Buffer(view, Chunk(id)), s);
    }
  }

  /** A finished sender owes nothing, so its target may be raised; finishing it needs no chunk either. */
  lemma {:induction false} WindowedIdle(bufs: seq<Buffer>, senders: seq<Sender>, target: seq<nat>, id: nat, snd: Sender)
    requires Windowed(bufs, senders, target) && id < |target| && !snd.active && snd.plan == senders[id].plan
    ensures Windowed(bufs, senders[id := snd], target[id := target[id] + 1])
  {
    hide Live;
  }

  lemma {:induction false} WindowedPop(bufs: seq<Buffer>, senders: seq<Sender>, target: seq<nat>)
    requires Windowed(bufs, senders, target) && bufs != [] && |target| == |senders|
    requires forall s :: 0 <= s < |senders| ==> target[s] == senders[s].plan.simultaneous
    ensures bufs[0].keep == Plain ==> Windowed(bufs[1..], senders, target)
    ensures bufs[0].keep.Chunk? ==> bufs[0].keep.sender < |senders|
    ensures bufs[0].keep.Chunk? ==>
              Windowed(bufs[1..], senders, target[bufs[0].keep.sender := target[bufs[0].keep.sender] - 1])
  {
    if bufs[0].keep.Chunk? {
      var t := target[bufs[0].keep.sender := target[bufs[0].keep.sender] - 1];
      forall s | 0 <= s < |senders| ensures Live(bufs[1..], s) <= t[s] && (senders[s].active ==> Live(bufs[1..], s) == t[s]) {
      }
    }
  }

  lemma {:induction false} WindowedStart(bufs: seq<Buffer>, senders: seq<Sender>, target: seq<nat>, plan: Plan)
    requires Windowed(bufs, senders, target) && |target| == |senders|
    ensures Windowed(bufs, senders + [Sender(plan, 0, true, 0)], target + [0])
  {
    LiveNone(bufs, |senders|);
  }

  lemma {:induction false} LiveNone(bufs: seq<Buffer>, s: nat)
    requires forall i :: 0 <= i < |bufs| && bufs[i].keep.Chunk? ==> bufs[i].keep.sender < s
    ensures Live(bufs, s) == 0
  {
    if bufs != [] {
      LiveNone(bufs[1..], s);
    }
  }

  /** The expected number of live chunks between events. */
  function Plans(senders: seq<Sender>): (r: seq<nat>)
    ensures |r| == |senders| && forall s :: 0 <= s < |senders| ==> r[s] == senders[s].plan.simultaneous
  {
    seq(|senders|, s requires 0 <= s < |senders| => senders[s].plan.simultaneous)
  }

  lemma {:induction false} WindowedTrim(bufs: seq<Buffer>, senders: seq<Sender>, target: seq<nat>, full: seq<nat>)
    requires Windowed(bufs, senders, full) && target <= full
    requires forall s :: |target| <= s < |full| ==> s < |senders| && full[s] == senders[s].plan.simultaneous
    ensures Windowed(bufs, senders, target)
  {
    hide Live;
  }

  /** A target that covers only the first senders says the same as one that spells the others out. */
  lemma {:induction false} WindowedExtend(bufs: seq<Buffer>, senders: seq<Sender>, target: seq<nat>)
    requires Windowed(bufs, senders, target)
    ensures Windowed(bufs, senders, target + Plans(senders)[|target|..])
  {
  }

  lemma {:induction false} WindowedFull(bufs: seq<Buffer>, senders: seq<Sender>, target: seq<nat>)
    requires Windowed(bufs, senders, target)
    requires forall s :: 0 <= s < |target| ==> s < |senders| && target[s] == senders[s].plan.simultaneous
    ensures Windowed(bufs, senders, Plans(senders))
  {
    hide Live;
  }

  lemma {:induction false} WindowedTrimFront(bufs: seq<Buffer>, senders: seq<Sender>, n: nat)
    requires bufs != [] && n <= |bufs[0].view| && Windowed(bufs, senders, Plans(senders))
    ensures Windowed([bufs[0].(view := bufs[0].view[n..])] + bufs[1..], senders, Plans(senders))
  {
    var bufs' := [bufs[0].(view := bufs[0].view[n..])] + bufs[1..];
    assert bufs'[1..] == bufs[1..];
    forall s | 0 <= s < |senders| ensures Live(bufs', s) == Live(bufs, s) {
    }
    hide Live;
  }

  lemma {:induction false} RestNonEmpty(log: seq<Entry>, released: nat, off: nat)
    requires released <= |log| && (off > 0 ==> released < |log| && off <= |log[released].view|)
    ensures Rest(log, released, off) != [] <==> released < |log|
  {
  }

  /** Bytes that are still unacknowledged are in a buffer. */
  lemma {:induction false} FrontFits(log: seq<Entry>, released: nat, off: nat, n: nat)
    requires released <= |log| && (off > 0 ==> released < |log| && off <= |log[released].view|)
    requires |Bytes(log[..released])| + off + n <= |Bytes(log)|
    ensures n > 0 ==> Rest(log, released, off) != []
    ensures Rest(log, released, off) != [] ==>
              |Bytes(log[..released])| + off + |Rest(log, released, off)[0].view| <= |Bytes(log)|
  {
    hide Rest, Bytes;
    RestNonEmpty(log, released, off);
    assert log[..|log|] == log;
    if released < |log| {
      RestPop(log, released, off);
      assert log == log[..released + 1] + log[released + 1..];
      BytesAppend(log[..released + 1], log[released + 1..]);
    }
  }
}
