/** The abstract state of a connection: its streams, its queued batch, and the histories the properties speak about. */
module ConnState {
  import opened Datagrams

  /** A stream as the flush loop sees it. */
  datatype StreamView = StreamView(unsent: seq<byte>, closing: bool, sentFin: bool)

  /**
   * One call of the writer: the stream, the FIN flag, the bytes it consumed, how many had been appended so far, and
   * whether the writer took the call at all (a packet or WRITE_MORE) rather than answer 0 or an error.
   */
  datatype Write = Write(id: int, fin: bool, data: seq<byte>, appended: nat, accepted: bool)

  /** What became of a packet. A dropped one knows the error, and how many packets of its batch were behind it. */
  datatype Fate = Emitted(packet: seq<byte>) | Dropped(packet: seq<byte>, code: int, behind: nat)

  datatype Conn = Conn(
    streams: map<int, StreamView>,
    batch: seq<seq<byte>>,
    total: map<int, seq<byte>>,     // every byte ever appended, per stream
    writes: seq<Write>,             // every call of the writer
    produced: seq<seq<byte>>,       // every packet the writer returned
    fates: seq<Fate>,               // what became of the packets that left the batch
    touched: map<int, nat>)         // writer calls made before the last append to a stream, or its close

  const FRESH: Conn := Conn(map[], [], map[], [], [], [], map[])

  /** The writer has been called since anything was last appended to an open stream, or one was closed. */
  predicate Covered(c: Conn) {
    forall id :: id in c.streams && id in c.touched ==> c.touched[id] < |c.writes|
  }

  function Touch(c: Conn, id: int, bytes: seq<byte>, close: bool): map<int, nat> {
    if bytes == [] && !close then c.touched else c.touched[id := |c.writes|]
  }

  function Unsent(c: Conn, id: int): seq<byte> {
    if id in c.streams then c.streams[id].unsent else []
  }

  function Appended(c: Conn, id: int): nat {
    if id in c.total then |c.total[id]| else 0
  }

  /** A stream joins the table, with whatever was appended (and maybe closed) while it waited for its id. */
  function Joined(c: Conn, id: int, bytes: seq<byte>, closing: bool): (r: Conn)
    ensures r.batch == c.batch && r.fates == c.fates
  {
    c.(streams := c.streams[id := StreamView(bytes, closing, false)], total := c.total[id := bytes],
       touched := Touch(c, id, bytes, closing))
  }

  /** Bytes are appended to a stream, or it starts closing. */
  function Grow(c: Conn, id: int, bytes: seq<byte>, close: bool): (r: Conn)
    requires id in c.streams && id in c.total
    ensures r.total.Keys == c.total.Keys && r.streams.Keys == c.streams.Keys && r.batch == c.batch && r.fates == c.fates
  {
    var v := c.streams[id];
    c.(streams := c.streams[id := v.(unsent := v.unsent + bytes, closing := v.closing || close)],
       total := c.total[id := c.total[id] + bytes],
       touched := Touch(c, id, bytes, close))
  }

  // ---- packets and the wire -----------------------------------------------------------------

  function Packets(fs: seq<Fate>): (r: seq<seq<byte>>)
    ensures |r| == |fs| && forall i :: 0 <= i < |fs| ==> r[i] == fs[i].packet
  {
    seq(|fs|, i requires 0 <= i < |fs| => fs[i].packet)
  }

  lemma {:induction false} PacketsAppend(a: seq<Fate>, b: seq<Fate>)
    ensures Packets(a + b) == Packets(a) + Packets(b)
  {
  }

  /** The packets that reached the wire. */
  function Wire(fs: seq<Fate>): seq<seq<byte>> {
    if fs == [] then [] else (if fs[0].Emitted? then [fs[0].packet] else []) + Wire(fs[1..])
  }

  lemma {:induction false} WireAll(fs: seq<Fate>)
    requires forall i :: 0 <= i < |fs| ==> fs[i].Emitted?
    ensures Wire(fs) == Packets(fs)
  {
    if fs != [] {
      WireAll(fs[1..]);
      assert Packets(fs) == [fs[0].packet] + Packets(fs[1..]);
    }
  }

  lemma {:induction false} WireNone(fs: seq<Fate>)
    requires forall i :: 0 <= i < |fs| ==> fs[i].Dropped?
    ensures Wire(fs) == []
  {
    if fs != [] {
      WireNone(fs[1..]);
    }
  }

  lemma {:induction false} WireAppend(a: seq<Fate>, b: seq<Fate>)
    ensures Wire(a + b) == Wire(a) + Wire(b)
  {
    if a == [] {
      assert a + b == b;
    } else {
      var first := if a[0].Emitted? then [a[0].packet] else [];
      calc {
        Wire(a + b);
        { assert (a + b)[1..] == a[1..] + b; }
        first + Wire(a[1..] + b);
        { WireAppend(a[1..], b); }
        first + (Wire(a[1..]) + Wire(b));
        (first + Wire(a[1..])) + Wire(b);
      }
    }
  }

  lemma {:induction false} WirePrefix(a: seq<Fate>, b: seq<Fate>)
    requires a <= b
    ensures Wire(a) <= Wire(b)
  {
    hide Wire;
    assert b == a + b[|a|..];
    WireAppend(a, b[|a|..]);
  }

  lemma {:induction false} WireShort(fs: seq<Fate>, drop: int)
    requires 0 <= drop < |fs| ==> fs[drop].Dropped?
    ensures |Wire(fs)| <= |fs| && (0 <= drop < |fs| ==> |Wire(fs)| < |fs|)
  {
    if fs != [] {
      WireShort(fs[1..], drop - 1);
    }
  }

  /** Nothing is missing on the wire exactly when nothing was dropped. */
  lemma {:induction false} WireComplete(fs: seq<Fate>)
    ensures Wire(fs) == Packets(fs) <==> forall i :: 0 <= i < |fs| ==> fs[i].Emitted?
    ensures |Wire(fs)| <= |fs|
  {
    hide Wire;
    WireShort(fs, -1);
    if i :| 0 <= i < |fs| && fs[i].Dropped? {
      WireShort(fs, i);
    } else {
      WireAll(fs);
    }
  }
}
