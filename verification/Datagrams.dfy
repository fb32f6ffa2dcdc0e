/** Bytes, byte strings cut into datagrams, and the arithmetic of a packed batch buffer. */
module Datagrams {

  newtype byte = x: int | 0 <= x < 256

  // NGTCP2_MAX_PMTUD_UDP_PAYLOAD_SIZE, the largest packet the writer may produce.
  const MAX_PAYLOAD: nat := 1452
  // DATAGRAM_BATCH_SIZE, the capacity of every batch array.
  const BATCH_SIZE: nat := 24

  /** A packet as the writer hands it over: never empty, never above the payload limit. */
  type Packet = p: seq<byte> | 1 <= |p| <= MAX_PAYLOAD witness [0]

  function Sum(xs: seq<nat>): nat {
    if xs == [] then 0 else xs[0] + Sum(xs[1..])
  }

  function Concat(ps: seq<seq<byte>>): seq<byte> {
    if ps == [] then [] else ps[0] + Concat(ps[1..])
  }

  function Lengths(ps: seq<seq<byte>>): (r: seq<nat>)
    ensures |r| == |ps| && forall i :: 0 <= i < |ps| ==> r[i] == |ps[i]|
  {
    seq(|ps|, i requires 0 <= i < |ps| => |ps[i]|)
  }

  /** The datagrams packed back to back at the start of `buf`, with the given sizes. */
  function Split(buf: seq<byte>, sizes: seq<nat>): (r: seq<seq<byte>>)
    requires Sum(sizes) <= |buf|
    ensures |r| == |sizes|
  {
    if sizes == [] then [] else [buf[..sizes[0]]] + Split(buf[sizes[0]..], sizes[1..])
  }

  lemma {:induction false} SumAppend(a: seq<nat>, b: seq<nat>)
    ensures Sum(a + b) == Sum(a) + Sum(b)
  {
    if a == [] {
      assert a + b == b;
    } else {
      SumAppend(a[1..], b);
      assert (a + b)[1..] == a[1..] + b;
    }
  }

  lemma {:induction false} ConcatAppend(a: seq<seq<byte>>, b: seq<seq<byte>>)
    ensures Concat(a + b) == Concat(a) + Concat(b)
  {
    if a == [] {
      assert a + b == b;
    } else {
      calc {
        Concat(a + b);
        { assert (a + b)[1..] == a[1..] + b; }
        a[0] + Concat(a[1..] + b);
        { ConcatAppend(a[1..], b); }
        a[0] + (Concat(a[1..]) + Concat(b));
        Concat(a) + Concat(b);
      }
    }
  }

  lemma {:induction false} ConcatLength(ps: seq<seq<byte>>)
    ensures |Concat(ps)| == Sum(Lengths(ps))
  {
    if ps != [] {
      ConcatLength(ps[1..]);
      assert Lengths(ps)[1..] == Lengths(ps[1..]);
    }
  }

  lemma {:induction false} SumBound(xs: seq<nat>, m: nat)
    requires forall i :: 0 <= i < |xs| ==> xs[i] <= m
    ensures Sum(xs) <= |xs| * m
  {
    if xs != [] {
      SumBound(xs[1..], m);
      assert |xs| * m == m + (|xs| - 1) * m;
    }
  }

  /** Reading back a packed buffer returns exactly the packets that were packed, whatever lies behind them. */
  lemma {:induction false} SplitOfPacked(ps: seq<seq<byte>>, rest: seq<byte>)
    ensures Sum(Lengths(ps)) <= |Concat(ps) + rest|
    ensures Split(Concat(ps) + rest, Lengths(ps)) == ps
  {
    ConcatLength(ps);
    if ps != [] {
      var buf := Concat(ps) + rest;
      SplitOfPacked(ps[1..], rest);
      assert Lengths(ps)[1..] == Lengths(ps[1..]);
      assert buf[|ps[0]|..] == Concat(ps[1..]) + rest;
      assert buf[..|ps[0]|] == ps[0];
    }
  }

  /** Packing what was read back restores the occupied part of the buffer and the size array. */
  lemma {:induction false} PackedOfSplit(buf: seq<byte>, sizes: seq<nat>)
    requires Sum(sizes) <= |buf|
    ensures Concat(Split(buf, sizes)) == buf[..Sum(sizes)]
    ensures Lengths(Split(buf, sizes)) == sizes
  {
    if sizes != [] {
      var rest := buf[sizes[0]..];
      PackedOfSplit(rest, sizes[1..]);
      assert buf[..Sum(sizes)] == buf[..sizes[0]] + rest[..Sum(sizes[1..])];
      var ps := Split(buf, sizes);
      assert ps[1..] == Split(rest, sizes[1..]);
      forall i | 0 <= i < |sizes| ensures |ps[i]| == sizes[i] {
        if i > 0 {
          assert Lengths(ps[1..])[i - 1] == sizes[1..][i - 1];
        }
      }
    }
  }

  /** Only the occupied bytes matter. */
  lemma {:induction false} SplitIgnoresTail(a: seq<byte>, b: seq<byte>, sizes: seq<nat>)
    requires Sum(sizes) <= |a| && Sum(sizes) <= |b|
    requires a[..Sum(sizes)] == b[..Sum(sizes)]
    ensures Split(a, sizes) == Split(b, sizes)
  {
    var ps := Split(b, sizes);
    PackedOfSplit(b, sizes);
    assert a == Concat(ps) + a[Sum(sizes)..];
    SplitOfPacked(ps, a[Sum(sizes)..]);
  }

  /** Skipping the bytes of the first `k` datagrams leaves exactly the remaining datagrams. */
  lemma {:induction false} SplitDrop(buf: seq<byte>, sizes: seq<nat>, k: nat)
    requires Sum(sizes) <= |buf| && k <= |sizes|
    ensures Sum(sizes[..k]) + Sum(sizes[k..]) == Sum(sizes)
    ensures Split(buf[Sum(sizes[..k])..], sizes[k..]) == Split(buf, sizes)[k..]
  {
    if k == 0 {
      assert sizes[k..] == sizes && buf[0..] == buf;
    } else {
      var n, rest := sizes[0], buf[sizes[0]..];
      SplitDrop(rest, sizes[1..], k - 1);
      assert sizes[..k][1..] == sizes[1..][..k - 1];
      assert sizes[1..][k - 1..] == sizes[k..];
      assert rest[Sum(sizes[1..][..k - 1])..] == buf[Sum(sizes[..k])..];
    }
  }

  /** The first `k` sizes decode to the first `k` datagrams. */
  lemma {:induction false} SplitTake(buf: seq<byte>, sizes: seq<nat>, k: nat)
    requires Sum(sizes) <= |buf| && k <= |sizes|
    ensures Sum(sizes[..k]) <= Sum(sizes)
    ensures Split(buf, sizes[..k]) == Split(buf, sizes)[..k]
  {
    if k > 0 {
      SplitTake(buf[sizes[0]..], sizes[1..], k - 1);
      assert sizes[..k][1..] == sizes[1..][..k - 1];
    }
  }

  /** Writing one more packet behind the occupied bytes appends it to the decoded batch. */
  lemma {:induction false} SplitAppend(before: seq<byte>, buf: seq<byte>, sizes: seq<nat>, p: seq<byte>)
    requires Sum(sizes) + |p| <= |buf| && Sum(sizes) <= |before|
    requires buf[..Sum(sizes)] == before[..Sum(sizes)]
    requires buf[Sum(sizes)..Sum(sizes) + |p|] == p
    ensures Sum(sizes + [|p|]) == Sum(sizes) + |p|
    ensures Split(buf, sizes + [|p|]) == Split(before, sizes) + [p]
  {
    SumAppend(sizes, [|p|]);
    if sizes == [] {
      assert buf[..|p|] == p;
    } else {
      var n := sizes[0];
      assert (sizes + [|p|])[1..] == sizes[1..] + [|p|];
      assert buf[..n] == buf[..Sum(sizes)][..n] == before[..n];
      assert buf[n..][..Sum(sizes[1..])] == buf[..Sum(sizes)][n..] == before[n..][..Sum(sizes[1..])];
      SplitAppend(before[n..], buf[n..], sizes[1..], p);
    }
  }
}
