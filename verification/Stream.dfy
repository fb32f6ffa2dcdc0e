/** The Stream object: user buffers, the unacked cursor, and chunked sending that re-enters `send` from acknowledge. */
module Streams {
  import opened Datagrams
  import opened StreamBuffer
  import opened ConnState
  import opened Common

  /** The connection's io_trigger event. */
  class IoTrigger {
    var active: bool

    constructor ()
      ensures !active
    {
      active := false;
    }

    /** io_ready. */
    method Activate()
      modifies this
      ensures active
    {
      active := true;
    }

    /** The event fires: it is no longer active when its handler starts. */
    method Fire()
      modifies this
      ensures !active
    {
      active := false;
    }
  }

  datatype UserOp = SendData(view: seq<byte>)
                  | SendChunked(answers: nat -> seq<byte>, done: seq<Action>, simultaneous: int)
                  | CloseIt

  /** A chunked send adds its sender, unless it asks for fewer than one chunk at a time; nothing else adds one. */
  ghost predicate Enrolled(op: UserOp, senders: seq<Sender>, senders': seq<Sender>) {
    if op.SendChunked? && op.simultaneous >= 1 then
      |senders'| > |senders| && senders'[|senders|].plan == Plan(op.answers, op.done, op.simultaneous)
    else senders' == senders
  }

  class Stream {
    const io: IoTrigger             // of the connection it belongs to
    var streamId: int
    var userBuffers: seq<Buffer>
    var unackedSize: nat            // written but not acknowledged
    var isClosing: bool
    var isShutdown: bool
    var sentFin: bool
    var ready: bool
    var senders: seq<Sender>

    ghost var log: seq<Entry>       // every append
    ghost var released: nat         // buffers popped
    ghost var off: nat              // acknowledged bytes of the front buffer
    ghost var marks: seq<Mark>

    /** The deque is exactly what the history leaves: popped buffers are fully acknowledged, and no others are. */
    ghost predicate Buffered()
      reads this
    {
      && released <= |log|
      && (off > 0 ==> released < |log| && off < |log[released].view|)
      && userBuffers == Rest(log, released, off)
    }

    ghost function Acked(): nat
      requires Buffered()
      reads this
    {
      |Bytes(log[..released])| + off
    }

    ghost predicate Consistent(target: seq<nat>)
      reads this
    {
      && Buffered()
      && |target| <= |senders| == |marks| && Sourced(log, senders, marks) && Traced(log, senders, marks)
      && Windowed(userBuffers, senders, target)
      && Acked() + unackedSize <= |Bytes(log)|
    }

    /** The object invariant between events; all windows are full or their source has finished and its done callback ran. */
    ghost predicate Valid()
      reads this
    {
      Consistent(Plans(senders)) && AllDoneRun(senders, marks) && isClosing == isShutdown
    }

    /** Nothing was ever offered to the writer, so everything appended is unsent. */
    ghost predicate Untouched()
      reads this
    {
      Valid() && Acked() == 0 && unackedSize == 0 && !sentFin && UnsentBytes() == Bytes(log)
    }

    /** Everything appended and not yet handed to the writer. */
    ghost function UnsentBytes(): seq<byte>
      requires Valid()
      reads this
    {
      Bytes(log)[Acked() + unackedSize..]
    }

    ghost function View(): StreamView
      requires Valid()
      reads this
    {
      StreamView(UnsentBytes(), isClosing, sentFin)
    }

    constructor (id: int, io: IoTrigger)
      ensures Untouched() && this.io == io && streamId == id && log == [] && userBuffers == [] && unackedSize == 0
      ensures !isClosing && !isShutdown && !sentFin && !ready && senders == []
    {
      this.io, streamId, userBuffers, unackedSize := io, id, [], 0;
      isClosing, isShutdown, sentFin, ready := false, false, false, false;
      senders, log, released, off, marks := [], [], 0, 0, [];
    }

    /** append_buffer. */
    method AppendBuffer(view: seq<byte>, keep: Keep, ghost origin: Origin)
      requires Buffered() && keep == KeepOf(origin)
      modifies this`userBuffers, this`log, io
      ensures log == old(log) + [Entry(view, origin)] && userBuffers == old(userBuffers) + [Buffer(view, keep)]
      ensures Buffered() && Acked() == old(Acked()) && |Bytes(log)| >= old(|Bytes(log)|)
      ensures io.active == (old(io.active) || ready)
    {
      hide Rest, Bytes;
      RestAppend(log, released, off, Entry(view, origin));
      BytesSnoc(log, Entry(view, origin));
      userBuffers := userBuffers + [Buffer(view, keep)];
      log := log + [Entry(view, origin)];
      if ready {
        io.Activate();
      }
    }

    /** send(), called on the loop thread. */
    method Send(view: seq<byte>)
      requires Valid()
      modifies this`userBuffers, this`log, io
      ensures Valid() && log == old(log) + [Entry(view, ByUser)]
      ensures UnsentBytes() == old(UnsentBytes()) + view && Acked() == old(Acked())
      ensures io.active == (old(io.active) || ready)
    {
      hide Sourced, Traced, AllDoneRun, Windowed, Rest, Bytes;
      SourcedPlain(log, senders, marks, Entry(view, ByUser));
      TracedOther(log, senders, marks, Entry(view, ByUser));
      WindowedPlain(userBuffers, senders, Plans(senders), view);
      BytesSnoc(log, Entry(view, ByUser));
      AppendBuffer(view, Plain, ByUser);
    }

    // ---- chunked sending --------------------------------------------------------------------

    /** queue_next_chunk: ask the source once, unless it has already finished; run `done` when it comes back empty. */
    method QueueNextChunk(id: nat, ghost target: seq<nat>)
      requires id < |target| && Consistent(target) && DoneRun(senders, marks, id)
      modifies this`userBuffers, this`log, io, this`senders, this`marks
      ensures Consistent(target[id := target[id] + 1])
      ensures old(log) <= log && Acked() == old(Acked()) && |Bytes(log)| >= old(|Bytes(log)|)
      ensures |old(senders)| <= |senders| && senders[id].plan == old(senders)[id].plan
      ensures senders[id].calls == old(senders)[id].calls + if old(senders)[id].active then 1 else 0
      ensures forall s :: 0 <= s < |old(senders)| && s != id ==> senders[s] == old(senders)[s]
      ensures DoneRun(senders, marks, id) && OnlyDoneOf(id, old(marks), senders, marks)
      ensures io.active == (old(io.active) || (ready && |log| > |old(log)|))
      decreases senders[id].plan, 0
    {
      hide Sourced, Traced, Windowed, Rest, Bytes;
      var snd := senders[id];
      if !snd.active {
        WindowedIdle(userBuffers, senders, target, id, snd);
        assert senders[id := snd] == senders;
        return;
      }
      var data := snd.plan.answers(snd.calls);
      NotRunYet(log, senders, marks, id);
      if data == [] {
        SourcedFinish(log, senders, marks, id);
        TracedCall(log, senders, marks, id, snd.(calls := snd.calls + 1, active := false, doneRuns := snd.doneRuns + 1), |log|);
        WindowedIdle(userBuffers, senders, target, id, snd.(calls := snd.calls + 1, active := false, doneRuns := snd.doneRuns + 1));
        senders := senders[id := snd.(calls := snd.calls + 1, active := false, doneRuns := snd.doneRuns + 1)];
        marks := marks[id := marks[id].(end := |log|)];
        RunDone(snd.plan.done, id, target[id := target[id] + 1]);
        return;
      }
      SourcedChunk(log, senders, marks, id);
      TracedOther(log, senders, marks, Entry(data, ByChunk(id)));
      TracedCall(log + [Entry(data, ByChunk(id))], senders, marks, id, snd.(calls := snd.calls + 1), 0);
      WindowedChunk(userBuffers, senders, target, id, data);
      senders := senders[id := snd.(calls := snd.calls + 1)];
      AppendBuffer(data, Chunk(id), ByChunk(id));
    }

    /** The done callback of sender `parent`, action by action, from where it got to up to its end. */
    method RunDone(actions: seq<Action>, parent: nat, ghost target: seq<nat>)
      requires Consistent(target) && parent < |senders| && !senders[parent].active
      requires marks[parent].ran <= |senders[parent].plan.done| && actions == senders[parent].plan.done[marks[parent].ran..]
      modifies this`userBuffers, this`log, io, this`senders, this`marks
      ensures Consistent(target)
      ensures old(log) <= log && Acked() == old(Acked()) && |Bytes(log)| >= old(|Bytes(log)|)
      ensures old(senders) <= senders
      ensures DoneRun(senders, marks, parent) && OnlyDoneOf(parent, old(marks), senders, marks)
      ensures io.active == (old(io.active) || (ready && |log| > |old(log)|))
      decreases actions, 2
    {
      hide Sourced, Traced, OnlyDoneOf, Windowed, Rest, Bytes;
      if actions == [] {
        OnlyDoneStep(parent, senders, marks);
        return;
      }
      ghost var marks0 := marks;
      match actions[0] {
        case SendBytes(view) =>
          SourcedPlain(log, senders, marks, Entry(view, ByDone(parent)));
          SourcedRan(log + [Entry(view, ByDone(parent))], senders, marks, parent);
          TracedDone(log, senders, marks, parent, view);
          WindowedPlain(userBuffers, senders, target, view);
          AppendBuffer(view, Plain, ByDone(parent));
          OnlyDoneStep(parent, senders, marks);
          marks := OneRan(marks, parent);
        case StartChunks(plan) =>
          ghost var next := actions[0];
          assert (next decreases to plan) && (actions decreases to next);
          StartSender(plan, parent, target);
      }
      ghost var senders1, marks1 := senders, marks;
      RunDone(actions[1..], parent, target);
      OnlyDoneThen(parent, parent, marks0, senders1, marks1, senders, marks);
    }

    /** chunk_sender::make: fill the window. */
    method StartSender(plan: Plan, ghost parent: int, ghost target: seq<nat>)
      requires Consistent(target) && parent < |senders|
      requires parent >= 0 ==> !senders[parent].active && marks[parent].ran < |senders[parent].plan.done|
      requires parent >= 0 ==> senders[parent].plan.done[marks[parent].ran] == StartChunks(plan)
      modifies this`userBuffers, this`log, io, this`senders, this`marks
      ensures Consistent(target)
      ensures old(log) <= log && Acked() == old(Acked()) && |Bytes(log)| >= old(|Bytes(log)|)
      ensures old(senders) <= senders && |senders| > |old(senders)| && senders[|old(senders)|].plan == plan
      ensures OnlyDoneOf(parent, old(marks), senders, marks) && (parent >= 0 ==> marks[parent].ran == old(marks)[parent].ran + 1)
      ensures io.active == (old(io.active) || (ready && |log| > |old(log)|))
      decreases plan, 1
    {
      hide Sourced, Traced, OnlyDoneOf, Windowed, Rest, Bytes;
      var id := |senders|;
      ghost var full, marks0 := target + Plans(senders)[|target|..], marks;
      Enroll(plan, parent, target, full);
      for i := 0 to plan.simultaneous
        invariant Consistent(full + [i]) && DoneRun(senders, marks, id)
        invariant old(log) <= log && Acked() == old(Acked()) && |Bytes(log)| >= old(|Bytes(log)|)
        invariant old(senders) <= senders && |senders| > id && senders[id].plan == plan
        invariant OnlyDoneOf(parent, marks0, senders, marks) && (parent >= 0 ==> marks[parent].ran == marks0[parent].ran + 1)
        invariant io.active == (old(io.active) || (ready && |log| > |old(log)|))
      {
        ghost var senders1, marks1 := senders, marks;
        QueueNextChunk(id, full + [i]);
        OnlyDoneThen(parent, id, marks0, senders1, marks1, senders, marks);
        if parent >= 0 {
          SameRan(id, parent, marks1, senders, marks);
        }
        assert (full + [i])[id := i + 1] == full + [i + 1];
      }
      WindowedTrim(userBuffers, senders, target, full + [plan.simultaneous]);
    }

    /** The new chunk_sender, with nothing queued yet. */
    method Enroll(plan: Plan, ghost parent: int, ghost target: seq<nat>, ghost full: seq<nat>)
      requires Consistent(target) && parent < |senders| && full == target + Plans(senders)[|target|..]
      requires parent >= 0 ==> !senders[parent].active && marks[parent].ran < |senders[parent].plan.done|
      requires parent >= 0 ==> senders[parent].plan.done[marks[parent].ran] == StartChunks(plan)
      modifies this`senders, this`marks
      ensures Consistent(full + [0]) && senders == old(senders) + [Sender(plan, 0, true, 0)]
      ensures OnlyDoneOf(parent, old(marks), senders, marks) && (parent >= 0 ==> marks[parent].ran == old(marks)[parent].ran + 1)
    {
      hide Sourced, Traced, Windowed, Rest, Bytes;
      SourcedRan(log, senders, marks, parent);
      SourcedStart(log, senders, OneRan(marks, parent), plan, parent);
      TracedStart(log, senders, marks, plan, parent);
      WindowedExtend(userBuffers, senders, target);
      WindowedStart(userBuffers, senders, full, plan);
      senders := senders + [Sender(plan, 0, true, 0)];
      marks := OneRan(marks, parent) + [Mark(parent, |log|, 0, 0)];
    }

    /** send_chunks, on the loop thread. Fewer than one simultaneous chunk is refused. */
    method SendChunks(answers: nat -> seq<byte>, done: seq<Action>, simultaneous: int) returns (ok: bool)
      requires Valid()
      modifies this`userBuffers, this`log, io, this`senders, this`marks
      ensures Valid() && old(log) <= log && old(senders) <= senders && ok == (simultaneous >= 1)
      ensures Acked() == old(Acked()) && (!ok ==> log == old(log) && senders == old(senders))
      ensures old(UnsentBytes()) <= UnsentBytes() && Bytes(log) == old(Bytes(log)) + UnsentBytes()[|old(UnsentBytes())|..]
      ensures ok ==> |senders| > |old(senders)| && senders[|old(senders)|].plan == Plan(answers, done, simultaneous)
      ensures io.active == (old(io.active) || (ready && |log| > |old(log)|))
    {
      hide Sourced, Traced, AllDoneRun, Windowed, Rest, Bytes;
      if simultaneous < 1 {
        return false;
      }
      ghost var before, was := Plans(senders), log;
      StartSender(Plan(answers, done, simultaneous), -1, before);
      AllDoneThen(-1, old(senders), old(marks), senders, marks);
      WindowedFull(userBuffers, senders, before);
      TailGrows(was, log, Acked() + unackedSize);
      return true;
    }

    // ---- acknowledgement --------------------------------------------------------------------

    /** Drops the front buffer. Destroying a chunk's keep-alive queues the next chunk before this returns. */
    method PopFront()
      requires Valid() && userBuffers != [] && Acked() + |userBuffers[0].view| + unackedSize <= |Bytes(log)|
      modifies this`userBuffers, this`log, io, this`senders, this`marks, this`released, this`off
      ensures Valid() && old(log) <= log && off == 0 && released == old(released) + 1
      ensures Acked() == old(Acked() + |userBuffers[0].view|) && |Bytes(log)| >= old(|Bytes(log)|)
      ensures old(userBuffers[0].view) == [] ==> log == old(log)
      ensures io.active == (old(io.active) || (ready && |log| > |old(log)|))
    {
      hide Sourced, Traced, AllDoneRun, Windowed, Rest, Bytes;
      RestNonEmpty(log, released, off);
      RestPop(log, released, off);
      ghost var target := Plans(senders);
      WindowedPop(userBuffers, senders, target);
      ChunksNonEmpty(log, senders, marks, released);
      var keep := userBuffers[0].keep;
      userBuffers := userBuffers[1..];
      released, off := released + 1, 0;
      if keep.Chunk? {
        ghost var owed := target[keep.sender := target[keep.sender] - 1];
        ghost var plans, marks0 := senders, marks;
        DoneRunOf(senders, marks, keep.sender);
        QueueNextChunk(keep.sender, owed);
        AllDoneThen(keep.sender, plans, marks0, senders, marks);
        assert owed[keep.sender := owed[keep.sender] + 1] == target;
        assert forall s :: 0 <= s < |target| ==> senders[s].plan == plans[s].plan;
        WindowedFull(userBuffers, senders, target);
      }
    }

    /** Cuts acknowledged bytes off the front buffer, of which some remain. */
    method TrimFront(bytes: nat)
      requires Valid() && userBuffers != [] && 0 < bytes < |userBuffers[0].view| && Acked() + bytes + unackedSize <= |Bytes(log)|
      modifies this`userBuffers, this`off
      ensures Valid() && Acked() == old(Acked()) + bytes
    {
      hide Sourced, Traced, AllDoneRun, Windowed, Rest, Bytes;
      RestNonEmpty(log, released, off);
      RestPop(log, released, off);
      RestTrim(log, released, off, bytes);
      WindowedTrimFront(userBuffers, senders, bytes);
      userBuffers := [userBuffers[0].(view := userBuffers[0].view[bytes..])] + userBuffers[1..];
      off := off + bytes;
      assert Buffered();
    }

    /**
     * acknowledge: exactly `bytes` leave the front, whatever the destroyed chunks append meanwhile; buffers are
     * released exactly when all their bytes are acknowledged (an empty buffer waits for the next acknowledgement).
     */
    method Acknowledge(bytes: nat)
      requires Valid() && bytes <= unackedSize
      modifies this`userBuffers, this`log, io, this`senders, this`marks, this`released, this`off, this`unackedSize
      ensures Valid() && old(log) <= log
      ensures Acked() == old(Acked()) + bytes && unackedSize == old(unackedSize) - bytes
      ensures released >= old(released) && |Bytes(log[..released])| <= Acked()
      ensures old(UnsentBytes()) <= UnsentBytes() && Bytes(log) == old(Bytes(log)) + UnsentBytes()[|old(UnsentBytes())|..]
      ensures io.active == (old(io.active) || (ready && |log| > |old(log)|))
    {
      hide Sourced, Traced, AllDoneRun, Windowed, Rest, Bytes;
      ghost var was, cursor := log, Acked() + unackedSize;
      unackedSize := unackedSize - bytes;
      var left := bytes;
      FrontFits(log, released, off, left);
      while left > 0 && left >= |userBuffers[0].view|
        invariant Valid() && old(log) <= log && released >= old(released) && unackedSize == old(unackedSize) - bytes
        invariant 0 <= left <= bytes && Acked() + left == old(Acked()) + bytes
        invariant Acked() + left + unackedSize <= |Bytes(log)|
        invariant left > 0 ==> userBuffers != []
        invariant io.active == (old(io.active) || (ready && |log| > |old(log)|))
        decreases left, |log| - released
      {
        left := left - |userBuffers[0].view|;
        PopFront();
        FrontFits(log, released, off, left);
      }
      if left > 0 {
        TrimFront(left);
      }
      TailGrows(was, log, cursor);
    }

    // ---- observers and the write cursor -----------------------------------------------------

    method Size() returns (sum: nat)
      ensures sum == |Flat(userBuffers)|
    {
      sum := 0;
      for i := 0 to |userBuffers|
        invariant sum + |Flat(userBuffers[i..])| == |Flat(userBuffers)|
      {
        FlatAt(userBuffers, i);
        sum := sum + |userBuffers[i].view|;
      }
      assert userBuffers[|userBuffers|..] == [];
    }

    method Unsent() returns (n: nat)
      requires Valid()
      ensures n == |UnsentBytes()|
    {
      RestBytes(log, released, off);
      var size := Size();
      n := size - unackedSize;
    }

    /** wrote: the writer consumed the next `bytes` bytes. */
    method Wrote(bytes: nat)
      requires Valid() && bytes <= |UnsentBytes()|
      modifies this`unackedSize
      ensures Valid() && UnsentBytes() == old(UnsentBytes())[bytes..]
      ensures unackedSize == old(unackedSize) + bytes && Acked() == old(Acked())
    {
      hide Sourced, Traced, AllDoneRun, Windowed, Rest, Bytes;
      unackedSize := unackedSize + bytes;
    }

    /** ngtcp2 has assigned the id, and the stream may trigger the connection from now on. */
    method SetReady(id: int)
      requires Valid()
      modifies this`streamId, this`ready
      ensures Valid() && streamId == id && ready && UnsentBytes() == old(UnsentBytes()) && (old(Untouched()) ==> Untouched())
    {
      hide Sourced, Traced, AllDoneRun, Windowed, Rest, Bytes;
      streamId, ready := id, true;
    }

    /** Stream::close: takes effect once, and wakes the connection in any case. */
    method Close()
      requires Valid()
      modifies this`isClosing, this`isShutdown, io
      ensures Valid() && isClosing && UnsentBytes() == old(UnsentBytes()) && io.active
    {
      hide Sourced, Traced, AllDoneRun, Windowed, Rest, Bytes;
      if isShutdown {
      } else if isClosing {
      } else {
        isClosing, isShutdown := true, true;
      }
      io.Activate();
    }

    /** Anything the user may do. What is appended shows up behind the unsent bytes, and wakes a ready stream's connection. */
    method Apply(op: UserOp) returns (ghost extra: seq<byte>)
      requires Valid()
      modifies this`userBuffers, this`log, this`senders, this`marks, this`isClosing, this`isShutdown, io
      ensures Valid() && old(log) <= log && Acked() == old(Acked()) && isClosing == (old(isClosing) || op.CloseIt?)
      ensures Bytes(log) == old(Bytes(log)) + extra && UnsentBytes() == old(UnsentBytes()) + extra
      ensures io.active == (old(io.active) || op.CloseIt? || (ready && |log| > |old(log)|)) && (|log| == |old(log)| ==> extra == [])
      ensures (op.SendData? ==> extra == op.view) && (op.CloseIt? ==> extra == []) && Enrolled(op, old(senders), senders)
      ensures old(Untouched()) ==> Untouched()
    {
      hide Sourced, Traced, AllDoneRun, Windowed, Rest, Bytes;
      extra := [];
      ghost var was := UnsentBytes();
      match op {
        case SendData(view) =>
          BytesSnoc(log, Entry(view, ByUser));
          Send(view);
          extra := view;
        case SendChunked(answers, done, simultaneous) =>
          var _ := SendChunks(answers, done, simultaneous);
          extra := UnsentBytes()[|was|..];
          assert |log| == |old(log)| ==> log == old(log);
        case CloseIt =>
          Close();
      }
    }

    method SetSentFin()
      requires Valid()
      modifies this`sentFin
      ensures Valid() && sentFin && UnsentBytes() == old(UnsentBytes())
    {
      hide Sourced, Traced, AllDoneRun, Windowed, Rest, Bytes;
      sentFin := true;
    }

    /** get_buffer_it: the buffer holding the byte at `offset`, read in the source's own order of tests. */
    static method GetBufferIt(bufs: seq<Buffer>, offset: nat) returns (it: nat, rest: nat)
      requires offset < |Flat(bufs)|
      ensures it < |bufs| && rest <= |bufs[it].view|
      ensures bufs[it].view[rest..] + Flat(bufs[it + 1..]) == Flat(bufs)[offset..]
    {
      hide Flat;
      it, rest := 0, offset;
      assert bufs[0..] == bufs;
      FlatNonEmpty(bufs);
      while rest >= |bufs[it].view| && it != |bufs| && rest != 0
        invariant it < |bufs| && rest < |Flat(bufs[it..])| && Flat(bufs[it..])[rest..] == Flat(bufs)[offset..]
        decreases |bufs| - it
      {
        FlatAt(bufs, it);
        assert Flat(bufs[it..])[rest..] == Flat(bufs[it + 1..])[rest - |bufs[it].view|..];
        FlatNonEmpty(bufs[it + 1..]);
        rest := rest - |bufs[it].view|;
        it := it + 1;
      }
      FlatAt(bufs, it);
      assert Flat(bufs[it..])[rest..] == bufs[it].view[rest..] + Flat(bufs[it + 1..]);
    }

    /** The vectors from buffer `it` on, the first one cut at `offset`. */
    static method VectorsFrom(bufs: seq<Buffer>, first: nat, offset: nat) returns (nbufs: seq<seq<byte>>)
      requires first < |bufs| && offset <= |bufs[first].view|
      ensures nbufs != [] && Concat(nbufs) == bufs[first].view[offset..] + Flat(bufs[first + 1..])
    {
      hide Flat, Concat;
      nbufs := [bufs[first].view[offset..]];
      ConcatOne(nbufs[0]);
      var it := first + 1;
      while it != |bufs|
        invariant it <= |bufs| && nbufs != []
        invariant Concat(nbufs) + Flat(bufs[it..]) == bufs[first].view[offset..] + Flat(bufs[first + 1..])
        decreases |bufs| - it
      {
        FlatAt(bufs, it);
        ConcatAppend(nbufs, [bufs[it].view]);
        ConcatOne(bufs[it].view);
        assert Concat(nbufs) + (bufs[it].view + Flat(bufs[it + 1..])) == (Concat(nbufs) + bufs[it].view) + Flat(bufs[it + 1..]);
        nbufs := nbufs + [bufs[it].view];
        it := it + 1;
      }
      FlatEmpty(bufs[it..]);
    }

    /** pending: vectors that flatten to exactly the bytes not yet written, and none at all when there are none. */
    method Pending() returns (nbufs: seq<seq<byte>>)
      requires Valid()
      ensures Concat(nbufs) == UnsentBytes() && (nbufs == [] <==> UnsentBytes() == [])
    {
      hide Sourced, Traced, AllDoneRun, Windowed, Rest, Bytes, Flat, Concat;
      RestBytes(log, released, off);
      var unsent := Unsent();
      if userBuffers == [] || unsent == 0 {
        FlatEmpty(userBuffers);
        ConcatEmpty();
        return [];
      }
      assert Flat(userBuffers)[unackedSize..] == UnsentBytes();
      var it, offset := GetBufferIt(userBuffers, unackedSize);
      nbufs := VectorsFrom(userBuffers, it, offset);
    }
  }

  /** One thing that can happen to a stream's send side. The writer takes, and the peer acknowledges, at most what is there. */
  datatype StreamEvent = UserSend(view: seq<byte>)
                       | UserChunks(answers: nat -> seq<byte>, done: seq<Action>, simultaneous: int)
                       | WriterTakes(n: nat)
                       | PeerAcks(n: nat)

  /** The writer takes the first bytes of what is pending. */
  method Take(s: Stream, n: nat) returns (taken: seq<byte>)
    requires s.Valid()
    modifies s`unackedSize
    ensures s.Valid() && s.Acked() == old(s.Acked()) && s.unackedSize == old(s.unackedSize) + |taken|
    ensures |taken| == Min(n, old(|s.UnsentBytes()|))
    ensures taken == Bytes(s.log)[s.Acked() + old(s.unackedSize)..s.Acked() + s.unackedSize]
  {
    hide Sourced, Traced, AllDoneRun, Windowed, Rest, Bytes, Concat;
    var offered := s.Pending();
    var bytes := Concat(offered);
    taken := bytes[..if n < |bytes| then n else |bytes|];
    ghost var from := s.Acked() + s.unackedSize;
    assert bytes == Bytes(s.log)[from..];
    s.Wrote(|taken|);
    assert taken == Bytes(s.log)[from..][..|taken|] == Bytes(s.log)[from..from + |taken|];
  }

  /** A stream's history and cursors. */
  datatype Snap = Snap(log: seq<Entry>, senders: seq<Sender>, acked: nat, unacked: nat)

  ghost function Now(s: Stream): Snap
    requires s.Buffered()
    reads s
  {
    Snap(s.log, s.senders, s.Acked(), s.unackedSize)
  }

  /** What one event does: appends at the end, and moves exactly the cursor it is about. */
  ghost predicate StreamEffect(e: StreamEvent, a: Snap, b: Snap) {
    match e
    case UserSend(view) => b == a.(log := a.log + [Entry(view, ByUser)])
    case UserChunks(answers, done, simultaneous) =>
      && a.log <= b.log && b.acked == a.acked && b.unacked == a.unacked
      && Enrolled(SendChunked(answers, done, simultaneous), a.senders, b.senders) && (simultaneous < 1 ==> b == a)
    case WriterTakes(n) =>
      && a.acked + a.unacked <= |Bytes(a.log)|
      && b == a.(unacked := a.unacked + Min(n, |Bytes(a.log)| - a.acked - a.unacked))
    case PeerAcks(n) =>
      a.log <= b.log && b.acked == a.acked + Min(n, a.unacked) && b.unacked == a.unacked - Min(n, a.unacked)
  }

  ghost predicate StreamHistory(events: seq<StreamEvent>, trail: seq<Snap>) {
    |trail| == |events| + 1 && forall i :: 0 <= i < |events| ==> StreamEffect(events[i], trail[i], trail[i + 1])
  }

  lemma {:induction false} StreamHistoryNext(events: seq<StreamEvent>, i: nat, trail: seq<Snap>, b: Snap)
    requires i < |events| && StreamHistory(events[..i], trail) && StreamEffect(events[i], trail[i], b)
    ensures StreamHistory(events[..i + 1], trail + [b])
  {
    hide StreamEffect;
    var longer := trail + [b];
    forall k | 0 <= k < i + 1 ensures StreamEffect(events[..i + 1][k], longer[k], longer[k + 1]) {
      if k < i {
        assert StreamEffect(events[..i][k], trail[k], trail[k + 1]);
      }
    }
  }

  /** One event; what the writer takes is returned. */
  method ServeStream(s: Stream, e: StreamEvent) returns (taken: seq<byte>)
    requires s.Valid()
    modifies s, s.io
    ensures s.Valid() && old(s.log) <= s.log && StreamEffect(e, old(Now(s)), Now(s))
    ensures old(s.Acked() + s.unackedSize) + |taken| == s.Acked() + s.unackedSize
    ensures taken == Bytes(s.log)[old(s.Acked() + s.unackedSize)..s.Acked() + s.unackedSize]
    ensures s.ready == old(s.ready) && s.io.active == (old(s.io.active) || (s.ready && |s.log| > |old(s.log)|))
  {
    hide Sourced, Traced, AllDoneRun, Windowed, Rest, Bytes, Concat;
    taken := [];
    match e {
      case UserSend(view) => s.Send(view);
      case UserChunks(answers, done, simultaneous) => var _ := s.SendChunks(answers, done, simultaneous);
      case WriterTakes(n) => taken := Take(s, n);
      case PeerAcks(n) => s.Acknowledge(if n < s.unackedSize then n else s.unackedSize);
    }
  }

  /**
   * Every run of a stream's send side: whatever the writer consumed, taken together, is the next stretch of everything
   * appended, however appends, chunk refills and acknowledgements interleave; every event did what it says; and what
   * the done callbacks of finished senders appended and started is exactly their scripts.
   */
  method RunStream(s: Stream, events: seq<StreamEvent>) returns (consumed: seq<byte>, ghost trail: seq<Snap>)
    requires s.Valid()
    modifies s, s.io
    ensures s.Valid() && old(s.log) <= s.log
    ensures StreamHistory(events, trail) && trail[0] == old(Now(s)) && trail[|events|] == Now(s)
    ensures s.ready == old(s.ready) && s.io.active == (old(s.io.active) || (s.ready && |s.log| > |old(s.log)|))
    ensures old(s.Acked() + s.unackedSize) + |consumed| == s.Acked() + s.unackedSize
    ensures forall k :: 0 <= k < |s.senders| ==>
      |s.marks| == |s.senders| && DoneTrace(s.log, s.senders, s.marks, k) == if s.senders[k].active then [] else s.senders[k].plan.done
    ensures consumed == Bytes(s.log)[old(s.Acked() + s.unackedSize)..s.Acked() + s.unackedSize]
  {
    hide Sourced, Traced, AllDoneRun, Windowed, Rest, Bytes, DoneTrace, StreamHistory, StreamEffect;
    consumed, trail := [], [Now(s)];
    ghost var start := s.Acked() + s.unackedSize;
    NoHistory(events, Now(s));
    for i := 0 to |events|
      invariant s.Valid() && old(s.log) <= s.log
      invariant s.ready == old(s.ready) && s.io.active == (old(s.io.active) || (s.ready && |s.log| > |old(s.log)|))
      invariant StreamHistory(events[..i], trail) && |trail| == i + 1 && trail[0] == old(Now(s)) && trail[i] == Now(s)
      invariant start + |consumed| == s.Acked() + s.unackedSize
      invariant consumed == Bytes(s.log)[start..start + |consumed|]
    {
      ghost var log := s.log;
      var taken := ServeStream(s, events[i]);
      StreamHistoryNext(events, i, trail, Now(s));
      trail := trail + [Now(s)];
      BytesPrefix(log, s.log);
      consumed := consumed + taken;
      assert consumed == Bytes(s.log)[start..start + |consumed|];
    }
    assert events[..|events|] == events;
    DonesRan(s);
  }

  lemma {:induction false} NoHistory(events: seq<StreamEvent>, a: Snap)
    ensures StreamHistory(events[..0], [a])
  {
  }

  lemma {:induction false} DonesRan(s: Stream)
    requires s.Valid()
    ensures forall k :: 0 <= k < |s.senders| ==>
      |s.marks| == |s.senders| && DoneTrace(s.log, s.senders, s.marks, k) == if s.senders[k].active then [] else s.senders[k].plan.done
  {
    hide Sourced, Traced, AllDoneRun, Windowed, Rest, Bytes, DoneTrace;
    forall k | 0 <= k < |s.senders|
      ensures DoneTrace(s.log, s.senders, s.marks, k) == if s.senders[k].active then [] else s.senders[k].plan.done
    {
      DoneRanExactly(s.log, s.senders, s.marks, k);
    }
  }
}
