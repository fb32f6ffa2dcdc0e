/** The UDP socket object: what it has put on the wire, and who waits for it to become writeable. */
module Socket {
  import opened Common
  import opened Datagrams
  import opened Gso
  import opened Udp
  import opened Callbacks

  /** How many messages have a non-zero msg_len: the return value of sendmmsg. */
  function Touched(lens: seq<nat>): nat {
    if lens == [] then 0 else (if lens[0] > 0 then 1 else 0) + Touched(lens[1..])
  }

  /** One header per packet, without control blocks. */
  function PlainMsgs(ps: seq<seq<byte>>): (r: seq<Msg>)
    ensures |r| == |ps| && forall i :: 0 <= i < |ps| ==> r[i] == Msg(ps[i], 0)
  {
    seq(|ps|, i requires 0 <= i < |ps| => Msg(ps[i], 0))
  }

  lemma {:induction false} TouchedZero(k: nat)
    ensures Touched(Repeat(0, k)) == 0
  {
    if k > 0 {
      TouchedZero(k - 1);
      assert Repeat(0, k)[1..] == Repeat(0, k - 1);
    }
  }

  lemma {:induction false} PlainFirst(p: seq<byte>, ms: seq<Msg>, accept: nat)
    requires ms != [] && ms[0] == Msg(p, 0) && |p| > 0
    ensures accept == 0 ==> KernelLens(ms, accept) == [0] + Repeat(0, |ms| - 1)
    ensures accept > 0 ==> KernelLens(ms, accept) == [|p|] + KernelLens(ms[1..], accept - 1)
    ensures AllOnWire(ms) == [p] + AllOnWire(ms[1..])
  {
    assert OnWire(ms[0]) == [p];
    assert [p][..0] == [];
    hide Concat, OnWire;
    assert |Concat([])| == 0 by { ConcatLength([]); assert Lengths([]) == []; }
  }

  lemma {:induction false} TouchedCons(x: nat, lens: seq<nat>)
    ensures Touched([x] + lens) == (if x > 0 then 1 else 0) + Touched(lens)
  {
    assert ([x] + lens)[1..] == lens;
  }

  /** Without GSO every message is one datagram, so the return value of sendmmsg is the number of packets sent. */
  lemma {:induction false} PlainSendmmsg(ps: seq<seq<byte>>, accept: nat)
    requires forall i :: 0 <= i < |ps| ==> |ps[i]| > 0
    ensures AllOnWire(PlainMsgs(ps)) == ps
    ensures Touched(KernelLens(PlainMsgs(ps), accept)) == Min(accept, |ps|)
  {
    if ps != [] {
      var ms := PlainMsgs(ps);
      assert ms[1..] == PlainMsgs(ps[1..]);
      PlainFirst(ps[0], ms, accept);
      PlainSendmmsg(ps[1..], if accept == 0 then 0 else accept - 1);
      TouchedZero(|ps| - 1);
      TouchedCons(0, Repeat(0, |ps| - 1));
      TouchedCons(|ps[0]|, KernelLens(ms[1..], if accept == 0 then 0 else accept - 1));
      hide KernelLens, Touched, AllOnWire;
    }
  }

  class UdpSocket {
    const backend: Backend
    ghost var wire: seq<seq<byte>>        // every datagram that left the host, in order
    ghost var owners: seq<int>            // who sent each of them: a connection's number, or -1 for a one-shot packet
    var writeableCallbacks: seq<Callback>
    var armed: bool                       // the write event has been added

    constructor (backend: Backend)
      ensures this.backend == backend && wire == [] && owners == [] && writeableCallbacks == [] && !armed
    {
      this.backend, wire, owners, writeableCallbacks, armed := backend, [], [], [], false;
    }

    method WhenWriteable(callback: Callback)
      modifies this`writeableCallbacks, this`armed
      ensures writeableCallbacks == old(writeableCallbacks) + [callback] && armed
    {
      writeableCallbacks := writeableCallbacks + [callback];
      armed := true;
    }

    /** Records who sent what has just been added to the wire. */
    ghost method Attribute(who: int, before: seq<seq<byte>>, sent: seq<seq<byte>>)
      requires |owners| == |before| && wire == before + sent
      modifies this`owners
      ensures owners == old(owners) + Tags(who, |sent|) && OnlyBy(who, before, old(owners), wire, owners)
      ensures |wire| == |owners| && Mine(wire, owners, who) == Mine(before, old(owners), who) + sent
    {
      OnlyByAppend(who, before, owners, sent);
      owners := owners + Tags(who, |sent|);
    }

    /** The start of the write-event handler: the event is spent, and the queue moves out before any callback runs. */
    method TakeCallbacks() returns (callbacks: seq<Callback>)
      modifies this`writeableCallbacks, this`armed
      ensures callbacks == old(writeableCallbacks) && writeableCallbacks == [] && !armed
    {
      armed := false;
      callbacks := writeableCallbacks;
      writeableCallbacks := [];
    }

    /** The kernel side of sendmmsg, attempt by attempt. */
    method SysSendmmsg(msgs: seq<Msg>, reply: KernelReply, attempt: nat) returns (rv: int, errno: int, lens: seq<nat>)
      modifies this`wire
      ensures |lens| == |msgs|
      ensures attempt < reply.interrupts ==> rv == -1 && errno == EINTR && wire == old(wire)
      ensures attempt >= reply.interrupts ==>
        && lens == KernelLens(msgs, reply.accept)
        && (reply.accept == 0 ==> rv == -1 && errno == reply.errno)
        && (reply.accept > 0 ==> rv == Touched(lens) && errno == 0)
        && wire == old(wire) + AllOnWire(msgs)[..Min(reply.accept, |AllOnWire(msgs)|)]
    {
      if attempt < reply.interrupts {
        rv, errno, lens := -1, EINTR, Repeat(0, |msgs|);
      } else {
        lens := KernelLens(msgs, reply.accept);
        rv, errno := if reply.accept == 0 then -1 else Touched(lens), if reply.accept == 0 then reply.errno else 0;
        wire := wire + AllOnWire(msgs)[..Min(reply.accept, |AllOnWire(msgs)|)];
      }
    }

    /** The retry loop around it. */
    method RetrySendmmsg(msgs: seq<Msg>, reply: KernelReply) returns (rv: int, errno: int, lens: seq<nat>)
      modifies this`wire
      ensures lens == KernelLens(msgs, reply.accept)
      ensures reply.accept == 0 ==> rv == -1 && errno == reply.errno
      ensures reply.accept > 0 ==> rv == Touched(lens) && errno == 0
      ensures wire == old(wire) + AllOnWire(msgs)[..Min(reply.accept, |AllOnWire(msgs)|)]
    {
      var attempt := 0;
      rv, errno, lens := SysSendmmsg(msgs, reply, attempt);
      while rv == -1 && errno == EINTR
        invariant attempt <= reply.interrupts && |lens| == |msgs|
        invariant attempt < reply.interrupts ==> rv == -1 && errno == EINTR && wire == old(wire)
        invariant attempt == reply.interrupts ==>
          && lens == KernelLens(msgs, reply.accept)
          && (reply.accept == 0 ==> rv == -1 && errno == reply.errno)
          && (reply.accept > 0 ==> rv == Touched(lens) && errno == 0)
          && wire == old(wire) + AllOnWire(msgs)[..Min(reply.accept, |AllOnWire(msgs)|)]
        decreases reply.interrupts - attempt
      {
        attempt := attempt + 1;
        rv, errno, lens := SysSendmmsg(msgs, reply, attempt);
      }
    }

    /** Turns the kernel's byte counts into a packet count; the three inner assertions are the source's own. */
    static method CountSent(a: GsoArrays, msgCount: nat, lens: seq<nat>, ghost gs: seq<Group>) returns (sent: nat)
      requires a.Shape() && msgCount == |gs| <= BATCH_SIZE && a.Holds(gs) && MaximalRuns(gs) && WholePrefix(gs, lens)
      ensures sent == SentCount(gs, lens)
    {
      hide SentCount, GroupBytes, MaximalRuns, Vectors;
      sent := 0;
      var foundUnsent := false;
      assert gs[0..] == gs && lens[0..] == lens;
      for i := 0 to msgCount
        invariant sent + SentCount(gs[i..], lens[i..]) == SentCount(gs, lens)
        invariant foundUnsent ==> forall j :: i <= j < |gs| ==> lens[j] == 0
      {
        CountStep(gs, lens, i);
        VectorLength(gs, i);
        assert a.iovs[i] == a.iovs[..|gs|][i];
        if lens[i] < a.iovs[i].len {
          assert !foundUnsent || lens[i] == 0;
          foundUnsent := true;
          assert lens[i] % a.sizes[i] == 0;
          sent := sent + lens[i] / a.sizes[i];
        } else {
          assert !foundUnsent;
          sent := sent + a.counts[i];
        }
      }
      CountEnd(gs[msgCount..], lens[msgCount..]);
    }

    /** The GSO back end. */
    method SendGso(buf: seq<byte>, bufsize: seq<nat>, reply: KernelReply) returns (code: int, sent: nat)
      requires Sum(bufsize) <= |buf| && 1 <= |bufsize| <= BATCH_SIZE
      requires forall i :: 0 <= i < |bufsize| ==> 0 < bufsize[i] <= 0xFFFF
      modifies this`wire
      ensures sent == SentOf(|bufsize|, reply) && code == CodeOf(SendmmsgGso, |bufsize|, reply)
      ensures wire == old(wire) + Split(buf, bufsize)[..sent]
    {
      var a, msgCount, gs := BuildGroups(bufsize);
      TotalIsSum(gs);
      forall j | 0 <= j < |gs|
        ensures a.iovs[j].base + a.iovs[j].len <= |buf| && -1 <= a.control[j] < BATCH_SIZE && Header(buf, a, j) == MsgsOf(buf, gs)[j]
      {
        HeadersDenote(buf, a, gs, j);
      }
      var msgs := seq(msgCount, j requires 0 <= j < msgCount => Header(buf, a, j));
      assert msgs == MsgsOf(buf, gs);
      GroupingKeepsDatagrams(buf, gs);
      KernelLensWhole(buf, gs, reply.accept);
      var rv, errno, lens := RetrySendmmsg(msgs, reply);
      sent := 0;
      if rv >= 0 {
        sent := CountSent(a, msgCount, lens, gs);
      }
      code := if rv < 0 then errno else 0;
    }

    /** sendmmsg without GSO. */
    method SendBatch(buf: seq<byte>, bufsize: seq<nat>, reply: KernelReply) returns (code: int, sent: nat)
      requires Sum(bufsize) <= |buf| && 1 <= |bufsize| <= BATCH_SIZE
      requires forall i :: 0 <= i < |bufsize| ==> 0 < bufsize[i]
      modifies this`wire
      ensures sent == SentOf(|bufsize|, reply) && code == CodeOf(Sendmmsg, |bufsize|, reply)
      ensures wire == old(wire) + Split(buf, bufsize)[..sent]
    {
      ghost var ps := Split(buf, bufsize);
      var msgs, nextBuf := [], 0;
      for i := 0 to |bufsize|
        invariant nextBuf == Sum(bufsize[..i]) <= |buf| && |msgs| == i && wire == old(wire)
        invariant forall j :: 0 <= j < i ==> msgs[j] == Msg(ps[j], 0)
      {
        SplitAt(buf, bufsize, i);
        msgs := msgs + [Msg(buf[nextBuf..nextBuf + bufsize[i]], 0)];
        nextBuf := nextBuf + bufsize[i];
      }
      assert msgs == PlainMsgs(ps);
      PackedOfSplit(buf, bufsize);
      assert forall i :: 0 <= i < |ps| ==> |ps[i]| == Lengths(ps)[i] == bufsize[i];
      PlainSendmmsg(ps, reply.accept);
      assert AllOnWire(msgs) == ps;
      var rv, errno, lens := RetrySendmmsg(msgs, reply);
      sent := if rv >= 0 then rv else 0;
      code := if rv < 0 then errno else 0;
    }

    /** One sendmsg: packet `i` leaves the host unless the kernel has stopped taking packets. */
    method SysSendmsg(data: seq<byte>, i: nat, reply: KernelReply) returns (rv: int, errno: int)
      modifies this`wire
      ensures i < reply.accept ==> rv == |data| && errno == 0 && wire == old(wire) + [data]
      ensures i >= reply.accept ==> rv == -1 && wire == old(wire) && errno == if reply.interrupts > 0 then EINTR else reply.errno
    {
      if i < reply.accept {
        rv, errno := |data|, 0;
        wire := wire + [data];
      } else {
        rv, errno := -1, if reply.interrupts > 0 then EINTR else reply.errno;
      }
    }

    /** Plain sendmsg in a loop. */
    method SendLoop(buf: seq<byte>, bufsize: seq<nat>, reply: KernelReply) returns (code: int, sent: nat)
      requires Sum(bufsize) <= |buf| && 1 <= |bufsize|
      modifies this`wire
      ensures sent == SentOf(|bufsize|, reply) && code == CodeOf(SendmsgLoop, |bufsize|, reply)
      ensures wire == old(wire) + Split(buf, bufsize)[..sent]
    {
      ghost var ps := Split(buf, bufsize);
      var rv, errno, nextBuf, i := 0, 0, 0, 0;
      sent := 0;
      while i < |bufsize|
        invariant 0 <= i == sent <= |bufsize| && sent <= reply.accept && rv >= 0
        invariant nextBuf == Sum(bufsize[..i]) <= |buf|
        invariant wire == old(wire) + ps[..sent]
      {
        SplitAt(buf, bufsize, i);
        rv, errno := SysSendmsg(buf[nextBuf..nextBuf + bufsize[i]], i, reply);
        nextBuf := nextBuf + bufsize[i];
        if rv < 0 {
          break;
        }
        sent := sent + 1;
        i := i + 1;
        assert ps[..i] == ps[..i - 1] + [ps[i - 1]];
      }
      code := if rv < 0 then errno else 0;
    }

    /** UDPSocket::send: whichever back end is compiled in, exactly the first `sent` packets leave, unchanged and in order. */
    method Send(buf: seq<byte>, bufsize: seq<nat>, reply: KernelReply) returns (res: IoResult, sent: nat)
      requires Sum(bufsize) <= |buf| && 1 <= |bufsize| <= BATCH_SIZE
      requires forall i :: 0 <= i < |bufsize| ==> 0 < bufsize[i] <= 0xFFFF
      modifies this`wire
      ensures sent == SentOf(|bufsize|, reply) && res.code == CodeOf(backend, |bufsize|, reply)
      ensures wire == old(wire) + Split(buf, bufsize)[..sent]
    {
      var code: int;
      match backend {
        case SendmsgLoop => code, sent := SendLoop(buf, bufsize, reply);
        case Sendmmsg => code, sent := SendBatch(buf, bufsize, reply);
        case SendmmsgGso => code, sent := SendGso(buf, bufsize, reply);
      }
      res := IoResult(code);
    }
  }

  lemma {:induction false} CountEnd(gs: seq<Group>, lens: seq<nat>)
    requires gs == [] && lens == []
    ensures SentCount(gs, lens) == 0
  {
  }

  lemma {:induction false} CountStep(gs: seq<Group>, lens: seq<nat>, i: nat)
    requires WholePrefix(gs, lens) && MaximalRuns(gs) && i < |gs|
    ensures GroupBytes(gs[i]) >= 1
    ensures SentCount(gs[i..], lens[i..])
         == (if lens[i] < GroupBytes(gs[i]) then lens[i] / gs[i].size else gs[i].count) + SentCount(gs[i + 1..], lens[i + 1..])
  {
    assert gs[i..][0] == gs[i] && gs[i..][1..] == gs[i + 1..] && lens[i..][1..] == lens[i + 1..];
    BytesPositive(gs[i]);
  }

  lemma {:induction false} VectorLength(gs: seq<Group>, i: nat)
    requires i < |gs|
    ensures Vectors(gs, 0)[i].len == GroupBytes(gs[i])
  {
    VectorLengthFrom(gs, i, 0);
  }

  lemma {:induction false} VectorLengthFrom(gs: seq<Group>, i: nat, base: nat)
    requires i < |gs|
    ensures Vectors(gs, base)[i].len == GroupBytes(gs[i])
  {
    if i > 0 {
      VectorLengthFrom(gs[1..], i - 1, base + GroupBytes(gs[0]));
    }
  }

  /** Where packet `i` sits in the packed buffer. */
  lemma {:induction false} SplitAt(buf: seq<byte>, sizes: seq<nat>, i: nat)
    requires Sum(sizes) <= |buf| && i < |sizes|
    ensures Sum(sizes[..i]) + sizes[i] == Sum(sizes[..i + 1]) <= |buf|
    ensures Split(buf, sizes)[i] == buf[Sum(sizes[..i])..Sum(sizes[..i + 1])]
  {
    assert sizes[..i + 1] == sizes[..i] + [sizes[i]];
    SumAppend(sizes[..i], [sizes[i]]);
    SplitDrop(buf, sizes, i + 1);
    SplitDrop(buf, sizes, i);
    assert sizes[i..][0] == sizes[i];
  }
}
