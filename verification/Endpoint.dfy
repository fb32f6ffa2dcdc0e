/** Endpoint::send_packets: one attempt to send the batch, and in-place compaction after a partial send. */
module Endpoint {
  import opened Datagrams
  import opened Udp
  import opened Socket

  datatype Outcome = Sent | Blocked | Failed | NoSocket

  /** What one attempt does to a batch: the packets that leave, the packets that stay queued, and the verdict. */
  datatype Attempt = Attempt(left: seq<seq<byte>>, kept: seq<seq<byte>>, outcome: Outcome)

  /** The batch-level meaning of send_packets. The hard-error branch drops what was not sent. */
  function TrySend(open: bool, backend: Backend, batch: seq<seq<byte>>, reply: KernelReply): Attempt {
    var sent, code := SentOf(|batch|, reply), CodeOf(backend, |batch|, reply);
    if !open then Attempt([], batch, NoSocket)
    else if code != 0 && code != EAGAIN then Attempt(batch[..sent], [], Failed)
    else if sent < |batch| then Attempt(batch[..sent], batch[sent..], Blocked)
    else Attempt(batch, [], Sent)
  }

  /**
   * No packet is lost, duplicated or reordered by an attempt unless it fails; then exactly the tail behind the sent
   * prefix is dropped. A verdict of Sent empties the batch, Blocked leaves something to resend.
   */
  lemma {:induction false} AttemptConserves(open: bool, backend: Backend, batch: seq<seq<byte>>, reply: KernelReply)
    ensures var a := TrySend(open, backend, batch, reply);
      && (a.outcome != Failed ==> a.left + a.kept == batch)
      && (a.outcome == Failed ==> a.left <= batch && a.kept == [])
      && (a.outcome == Sent ==> a.kept == [])
      && (a.outcome == Blocked ==> a.kept != [])
      && (a.outcome == NoSocket <==> !open)
      && (a.outcome == Failed <==> open && CodeOf(backend, |batch|, reply) != 0 && CodeOf(backend, |batch|, reply) != EAGAIN)
  {
    var a := TrySend(open, backend, batch, reply);
    if open && a.outcome == Blocked {
      var sent := SentOf(|batch|, reply);
      assert batch[..sent] + batch[sent..] == batch;
    }
  }

  /** The batch as the connection's arrays encode it. */
  ghost function Decode(buf: array<byte>, bufsize: array<nat>, n: nat): (r: seq<seq<byte>>)
    requires n <= bufsize.Length && Sum(bufsize[..n]) <= buf.Length
    reads buf, bufsize
    ensures |r| == n
  {
    Split(buf[..], bufsize[..n])
  }

  ghost predicate Loaded(buf: array<byte>, bufsize: array<nat>, n: nat)
    reads buf, bufsize
  {
    && n <= bufsize.Length <= BATCH_SIZE
    && Sum(bufsize[..n]) <= buf.Length
    && forall i :: 0 <= i < n ==> 0 < bufsize[i] <= MAX_PAYLOAD
  }

  /** std::accumulate over a stretch of the size array. */
  method Accumulate(a: array<nat>, lo: nat, hi: nat) returns (total: nat)
    requires lo <= hi <= a.Length
    ensures total == Sum(a[lo..hi])
  {
    total := 0;
    for i := lo to hi
      invariant total == Sum(a[lo..i])
    {
      assert a[lo..i + 1] == a[lo..i] + [a[i]];
      SumAppend(a[lo..i], [a[i]]);
      total := total + a[i];
    }
  }

  /** Shifts the packets from `sent` on to the front of both arrays. */
  method Compact(buf: array<byte>, bufsize: array<nat>, n: nat, sent: nat)
    requires sent <= n <= bufsize.Length && Sum(bufsize[..n]) <= buf.Length
    modifies buf, bufsize
    ensures bufsize[..n - sent] == old(bufsize[sent..n])
    ensures Sum(bufsize[..n - sent]) <= buf.Length
    ensures Decode(buf, bufsize, n - sent) == old(Decode(buf, bufsize, n))[sent..]
  {
    hide Split, Sum;
    ghost var bytes, sizes := buf[..], bufsize[..n];
    SplitDrop(bytes, sizes, sent);
    assert sizes[..sent] == bufsize[0..sent] && sizes[sent..] == bufsize[sent..n];
    var offset := Accumulate(bufsize, 0, sent);
    var len := Accumulate(bufsize, sent, n);
    forall i | 0 <= i < len {  // memmove
      buf[i] := buf[offset + i];
    }
    assert buf[..len] == bytes[offset..][..len];
    for i := 0 to n - sent
      invariant forall j :: 0 <= j < i ==> bufsize[j] == sizes[sent + j]
      invariant forall j :: i <= j < n ==> bufsize[j] == sizes[j]
      invariant buf[..len] == bytes[offset..][..len]
    {
      bufsize[i] := bufsize[sent + i];
    }
    assert bufsize[..n - sent] == sizes[sent..];
    assert buf[..][..len] == buf[..len];
    SplitIgnoresTail(buf[..], bytes[offset..], sizes[sent..]);
  }

  /**
   * send_packets. A missing socket leaves the batch and its count alone, although the result is a failure that is
   * not a block.
   */
  method SendPackets(socket: UdpSocket?, buf: array<byte>, bufsize: array<nat>, n: nat, reply: KernelReply)
    returns (res: IoResult, n': nat)
    requires 1 <= n && Loaded(buf, bufsize, n)
    modifies buf, bufsize, if socket == null then {} else {socket}
    ensures Loaded(buf, bufsize, n')
    ensures var a := TrySend(socket != null, if socket == null then SendmsgLoop else socket.backend, old(Decode(buf, bufsize, n)), reply);
      && Decode(buf, bufsize, n') == a.kept
      && res.Blocked() == (a.outcome == Blocked)
      && res.Failure() == (a.outcome != Sent)
      && (socket != null ==> socket.wire == old(socket.wire) + a.left)
    ensures socket != null ==>
      && socket.armed == old(socket.armed) && socket.writeableCallbacks == old(socket.writeableCallbacks)
      && socket.owners == old(socket.owners)
  {
    if socket == null {
      return IoResult(EBADF), n;
    }
    var ret, sent := socket.Send(buf[..], bufsize[..n], reply);
    if ret.Failure() && !ret.Blocked() {
      return ret, 0;
    }
    if sent < n {
      n' := n;
      if sent > 0 {
        Compact(buf, bufsize, n, sent);
        n' := n - sent;
      }
      assert forall i :: 0 <= i < n' ==> bufsize[i] == bufsize[..n'][i];
      return IoResult(EAGAIN), n';
    }
    return ret, 0;
  }
}
