/** Generic segmentation offload: run-length grouping of a batch and what the kernel makes of it. */
module Gso {
  import opened Datagrams

  /** `count` consecutive packets of `size` bytes each. */
  datatype Group = Group(size: nat, count: nat)

  /** One message header: its bytes, and the UDP_SEGMENT control value (0 when there is no control block). */
  datatype Msg = Msg(data: seq<byte>, segment: nat)

  function Repeat(n: nat, k: nat): (r: seq<nat>)
    ensures |r| == k && forall i :: 0 <= i < k ==> r[i] == n
  {
    seq(k, _ => n)
  }

  function Expand(gs: seq<Group>): seq<nat> {
    if gs == [] then [] else Repeat(gs[0].size, gs[0].count) + Expand(gs[1..])
  }

  function GroupBytes(g: Group): nat { g.size * g.count }

  /** Non-empty groups of non-empty packets, and no two neighbours that could have been one group. */
  predicate MaximalRuns(gs: seq<Group>) {
    && (forall j :: 0 <= j < |gs| ==> gs[j].size >= 1 && gs[j].count >= 1)
    && (forall j :: 0 < j < |gs| ==> gs[j - 1].size != gs[j].size)
  }

  /** How the kernel cuts one message into datagrams. */
  function Segment(data: seq<byte>, size: nat): seq<seq<byte>>
    requires size > 0
    decreases |data|
  {
    if |data| <= size then [data] else [data[..size]] + Segment(data[size..], size)
  }

  function OnWire(m: Msg): seq<seq<byte>> {
    if m.segment == 0 then [m.data] else Segment(m.data, m.segment)
  }

  function AllOnWire(ms: seq<Msg>): seq<seq<byte>> {
    if ms == [] then [] else OnWire(ms[0]) + AllOnWire(ms[1..])
  }

  function Total(gs: seq<Group>): nat { if gs == [] then 0 else GroupBytes(gs[0]) + Total(gs[1..]) }

  /** The message headers the grouping builds over the packed buffer. */
  function MsgsOf(buf: seq<byte>, gs: seq<Group>): (r: seq<Msg>)
    requires Total(gs) <= |buf|
    ensures |r| == |gs|
  {
    if gs == [] then [] else
      var len := GroupBytes(gs[0]);
      [Msg(buf[..len], if gs[0].count > 1 then gs[0].size else 0)] + MsgsOf(buf[len..], gs[1..])
  }

  lemma {:induction false} SumRepeat(n: nat, k: nat)
    ensures Sum(Repeat(n, k)) == n * k
  {
    if k > 0 {
      SumRepeat(n, k - 1);
      assert Repeat(n, k)[1..] == Repeat(n, k - 1);
      assert n * k == n + n * (k - 1);
    }
  }

  lemma {:induction false} TotalIsSum(gs: seq<Group>)
    ensures Sum(Expand(gs)) == Total(gs)
  {
    if gs != [] {
      TotalIsSum(gs[1..]);
      SumRepeat(gs[0].size, gs[0].count);
      SumAppend(Repeat(gs[0].size, gs[0].count), Expand(gs[1..]));
    }
  }

  lemma {:induction false} ExpandSnoc(gs: seq<Group>, g: Group)
    ensures Expand(gs + [g]) == Expand(gs) + Repeat(g.size, g.count)
  {
    if gs == [] {
      assert (gs + [g])[1..] == [];
    } else {
      ExpandSnoc(gs[1..], g);
      assert (gs + [g])[1..] == gs[1..] + [g];
    }
  }

  /** Every group holds a packet; a group of two or more leaves a slot free. */
  lemma {:induction false} ExpandLength(gs: seq<Group>)
    requires forall j :: 0 <= j < |gs| ==> gs[j].count >= 1
    ensures |gs| <= |Expand(gs)|
    ensures (exists j :: 0 <= j < |gs| && gs[j].count > 1) ==> |gs| < |Expand(gs)|
  {
    if gs != [] {
      ExpandLength(gs[1..]);
      if j :| 0 <= j < |gs| && gs[j].count > 1 && j > 0 {
        assert gs[1..][j - 1].count > 1;
      }
    }
  }

  /** A size list has only one decomposition into maximal runs, so the grouping loop has no freedom. */
  lemma {:induction false} GroupingUnique(a: seq<Group>, b: seq<Group>)
    requires MaximalRuns(a) && MaximalRuns(b) && Expand(a) == Expand(b)
    ensures a == b
  {
    ExpandLength(a);
    ExpandLength(b);
    if a != [] && b != [] {
      FirstRun(a, b);
      FirstRun(b, a);
      var n := a[0].count;
      assert Expand(a)[n..] == Expand(a[1..]);
      assert Expand(b)[n..] == Expand(b[1..]);
      GroupingUnique(a[1..], b[1..]);
    }
  }

  lemma {:induction false} FirstRun(a: seq<Group>, b: seq<Group>)
    requires a != [] && b != [] && MaximalRuns(a) && MaximalRuns(b) && Expand(a) == Expand(b)
    ensures a[0].size == b[0].size && a[0].count >= b[0].count
  {
    assert Expand(a)[0] == a[0].size;
    assert Expand(b)[0] == b[0].size;
    var n := a[0].count;
    assert n < b[0].count ==> n < |Expand(b)| && Expand(b)[n] == b[0].size;
    if |a| > 1 {
      assert Expand(a)[n] == Expand(a[1..])[0] == a[1].size;
    } else {
      assert Expand(a[1..]) == [];
    }
  }

  lemma {:induction false} SegmentIsSplit(data: seq<byte>, size: nat, count: nat)
    requires size >= 1 && count >= 1 && |data| == size * count
    ensures Sum(Repeat(size, count)) == |data|
    ensures Segment(data, size) == Split(data, Repeat(size, count))
  {
    SumRepeat(size, count);
    assert Repeat(size, count)[1..] == Repeat(size, count - 1);
    assert size * count == size + size * (count - 1);
    if count == 1 {
      assert data[..size] == data;
    } else {
      assert size * (count - 1) >= size by { MulGe(size, count - 1); }
      SegmentIsSplit(data[size..], size, count - 1);
    }
  }

  lemma {:induction false} MulGe(a: nat, b: nat)
    requires b >= 1
    ensures a * b >= a
  {
    assert a * b == a + a * (b - 1);
  }

  lemma {:induction false} SplitAcross(buf: seq<byte>, a: seq<nat>, b: seq<nat>)
    requires Sum(a + b) <= |buf|
    ensures Sum(a + b) == Sum(a) + Sum(b)
    ensures Split(buf, a + b) == Split(buf[..Sum(a)], a) + Split(buf[Sum(a)..], b)
  {
    SumAppend(a, b);
    assert (a + b)[..|a|] == a && (a + b)[|a|..] == b;
    SplitTake(buf, a + b, |a|);
    SplitDrop(buf, a + b, |a|);
    SplitIgnoresTail(buf, buf[..Sum(a)], a);
  }

  /** Segmentation of the grouped messages is the same datagram sequence as sending the packets one by one. */
  lemma {:induction false} GroupingKeepsDatagrams(buf: seq<byte>, gs: seq<Group>)
    requires MaximalRuns(gs) && Total(gs) <= |buf|
    ensures Sum(Expand(gs)) == Total(gs)
    ensures AllOnWire(MsgsOf(buf, gs)) == Split(buf, Expand(gs))
  {
    TotalIsSum(gs);
    if gs != [] {
      var g := gs[0];
      SumRepeat(g.size, g.count);
      var len := GroupBytes(g);
      GroupingKeepsDatagrams(buf[len..], gs[1..]);
      SplitAcross(buf, Repeat(g.size, g.count), Expand(gs[1..]));
      GroupOnWire(buf[..len], g);
      assert MsgsOf(buf, gs)[1..] == MsgsOf(buf[len..], gs[1..]);
    }
  }

  lemma {:induction false} GroupOnWire(data: seq<byte>, g: Group)
    requires g.size >= 1 && g.count >= 1 && |data| == GroupBytes(g)
    ensures Sum(Repeat(g.size, g.count)) == |data|
    ensures OnWire(Msg(data, if g.count > 1 then g.size else 0)) == Split(data, Repeat(g.size, g.count))
  {
    SegmentIsSplit(data, g.size, g.count);
    if g.count == 1 {
      assert Segment(data, g.size) == [data];
    }
  }

  // ---- partial acceptance -------------------------------------------------------------------

  /** The kernel's per-message byte counts describe a prefix of the batch in whole packets. */
  predicate WholePrefix(gs: seq<Group>, lens: seq<nat>) {
    && |lens| == |gs|
    && (forall j :: 0 <= j < |gs| ==> gs[j].size >= 1 && lens[j] <= GroupBytes(gs[j]) && lens[j] % gs[j].size == 0)
    && (forall i, j :: 0 <= i < j < |gs| && lens[i] < GroupBytes(gs[i]) ==> lens[j] == 0)
  }

  /** The datagrams behind those byte counts: the first `lens[j]` bytes of message j, segmented. */
  function Accepted(ms: seq<Msg>, lens: seq<nat>): seq<seq<byte>>
    requires |ms| == |lens| && forall j :: 0 <= j < |ms| ==> lens[j] <= |ms[j].data|
  {
    if ms == [] then []
    else (if lens[0] == 0 then [] else OnWire(Msg(ms[0].data[..lens[0]], ms[0].segment))) + Accepted(ms[1..], lens[1..])
  }

  /** The number of packets in the accepted prefix, as UDPSocket::send adds it up. */
  function SentCount(gs: seq<Group>, lens: seq<nat>): nat
    requires |gs| == |lens| && forall j :: 0 <= j < |gs| ==> gs[j].size >= 1
  {
    if gs == [] then 0
    else (if lens[0] < GroupBytes(gs[0]) then lens[0] / gs[0].size else gs[0].count) + SentCount(gs[1..], lens[1..])
  }

  lemma {:induction false} BytesPositive(g: Group)
    requires g.size >= 1 && g.count >= 1
    ensures GroupBytes(g) >= 1
  {
    MulGe(g.size, g.count);
  }

  lemma {:induction false} NothingSent(gs: seq<Group>, lens: seq<nat>, ms: seq<Msg>)
    requires |gs| == |lens| == |ms| && forall j :: 0 <= j < |gs| ==> gs[j].size >= 1 && gs[j].count >= 1 && lens[j] == 0
    ensures SentCount(gs, lens) == 0 && Accepted(ms, lens) == [] && Sum(lens) == 0
  {
    if gs != [] {
      NothingSent(gs[1..], lens[1..], ms[1..]);
      BytesPositive(gs[0]);
      assert 0 / gs[0].size == 0;
    }
  }

  lemma {:induction false} MsgLengths(buf: seq<byte>, gs: seq<Group>, j: nat)
    requires Total(gs) <= |buf| && j < |gs|
    ensures |MsgsOf(buf, gs)[j].data| == GroupBytes(gs[j])
  {
    TotalIsSum(gs);
    if j > 0 {
      MsgLengths(buf[GroupBytes(gs[0])..], gs[1..], j - 1);
    }
  }

  lemma {:induction false} MulMono(a: nat, b: nat, c: nat)
    ensures b <= c ==> a * b <= a * c
  {
    if b <= c {
      assert a * c == a * b + a * (c - b);
    }
  }

  lemma {:induction false} DivMul(len: nat, size: nat, count: nat) returns (q: nat)
    requires size >= 1 && len % size == 0 && len <= size * count
    ensures q == len / size && len == size * q && q <= count
    ensures len < size * count <==> q < count
  {
    q := len / size;
    assert len == size * q;
    MulMono(size, q + 1, count);
    assert size * (q + 1) == len + size;
    MulMono(size, count, q);
    MulMono(size, count + 1, q);
    assert size * (count + 1) == size * count + size;
  }

  lemma {:induction false} WholePrefixTail(gs: seq<Group>, lens: seq<nat>)
    requires gs != [] && WholePrefix(gs, lens)
    ensures WholePrefix(gs[1..], lens[1..])
    ensures lens[0] < GroupBytes(gs[0]) ==> forall j :: 0 <= j < |gs| - 1 ==> lens[1..][j] == 0
  {
  }

  /** What one call of send may claim about an accepted prefix. */
  predicate SentIs(buf: seq<byte>, gs: seq<Group>, lens: seq<nat>, sent: nat)
    requires Total(gs) <= |buf| && Sum(Expand(gs)) <= |buf| && |lens| == |gs|
    requires forall j :: 0 <= j < |gs| ==> lens[j] <= |MsgsOf(buf, gs)[j].data|
  {
    && sent <= |Expand(gs)|
    && Accepted(MsgsOf(buf, gs), lens) == Split(buf, Expand(gs))[..sent]
    && Sum(Expand(gs)[..sent]) == Sum(lens)
  }

  lemma {:induction false} LensFit(buf: seq<byte>, gs: seq<Group>, lens: seq<nat>)
    requires Total(gs) <= |buf| && WholePrefix(gs, lens)
    ensures forall j :: 0 <= j < |gs| ==> lens[j] <= |MsgsOf(buf, gs)[j].data|
  {
    forall j | 0 <= j < |gs| ensures lens[j] <= |MsgsOf(buf, gs)[j].data| {
      MsgLengths(buf, gs, j);
    }
  }

  /**
   * Sent-count correctness: whatever whole-packet prefix the kernel took, the computed count is the number of
   * original packets in it, those packets are exactly what left the host, and their sizes add up to the
   * accepted bytes.
   */
  lemma {:induction false} SentCountCorrect(buf: seq<byte>, gs: seq<Group>, lens: seq<nat>)
    requires MaximalRuns(gs) && Total(gs) <= |buf| && WholePrefix(gs, lens)
    ensures Sum(Expand(gs)) == Total(gs)
    ensures forall j :: 0 <= j < |gs| ==> lens[j] <= |MsgsOf(buf, gs)[j].data|
    ensures SentIs(buf, gs, lens, SentCount(gs, lens))
  {
    hide SentIs, MsgsOf;
    TotalIsSum(gs);
    LensFit(buf, gs, lens);
    if gs == [] {
      SentNothing(buf, gs, lens);
    } else {
      var q := FirstCount(gs, lens);
      if q < gs[0].count {
        PartialFirst(buf, gs, lens, q);
      } else {
        WholePrefixTail(gs, lens);
        SentCountCorrect(buf[lens[0]..], gs[1..], lens[1..]);
        FullFirst(buf, gs, lens, SentCount(gs[1..], lens[1..]));
      }
    }
  }

  lemma {:induction false} SentNothing(buf: seq<byte>, gs: seq<Group>, lens: seq<nat>)
    requires gs == [] && WholePrefix(gs, lens)
    ensures SentIs(buf, gs, lens, 0)
  {
  }

  lemma {:induction false} FirstCount(gs: seq<Group>, lens: seq<nat>) returns (q: nat)
    requires gs != [] && WholePrefix(gs, lens)
    ensures lens[0] == gs[0].size * q && q <= gs[0].count
    ensures lens[0] < GroupBytes(gs[0]) <==> q < gs[0].count
    ensures SentCount(gs, lens) == q + SentCount(gs[1..], lens[1..])
  {
    q := DivMul(lens[0], gs[0].size, gs[0].count);
  }

  lemma {:induction false} PartialFirst(buf: seq<byte>, gs: seq<Group>, lens: seq<nat>, q: nat)
    requires gs != [] && MaximalRuns(gs) && Total(gs) <= |buf| && WholePrefix(gs, lens)
    requires lens[0] == gs[0].size * q && q < gs[0].count && lens[0] < GroupBytes(gs[0])
    ensures Sum(Expand(gs)) == Total(gs)
    ensures forall j :: 0 <= j < |gs| ==> lens[j] <= |MsgsOf(buf, gs)[j].data|
    ensures SentIs(buf, gs, lens, q) && SentCount(gs[1..], lens[1..]) == 0
  {
    TotalIsSum(gs);
    LensFit(buf, gs, lens);
    var g, len, ms := gs[0], GroupBytes(gs[0]), MsgsOf(buf, gs);
    WholePrefixTail(gs, lens);
    NothingSent(gs[1..], lens[1..], ms[1..]);
    PartialGroup(buf[..len], g, q);
    SplitAcross(buf, Repeat(g.size, g.count), Expand(gs[1..]));
    SumRepeat(g.size, q);
    assert Expand(gs)[..q] == Repeat(g.size, q);
    assert Split(buf, Expand(gs))[..q] == Split(buf[..len], Repeat(g.size, g.count))[..q];
  }

  lemma {:induction false} FullFirst(buf: seq<byte>, gs: seq<Group>, lens: seq<nat>, k: nat)
    requires gs != [] && MaximalRuns(gs) && WholePrefix(gs, lens) && lens[0] == GroupBytes(gs[0])
    requires Total(gs) <= |buf| && Sum(Expand(gs[1..])) == Total(gs[1..])
    requires forall j :: 0 <= j < |gs| - 1 ==> lens[1..][j] <= |MsgsOf(buf[lens[0]..], gs[1..])[j].data|
    requires SentIs(buf[lens[0]..], gs[1..], lens[1..], k)
    ensures Sum(Expand(gs)) == Total(gs)
    ensures forall j :: 0 <= j < |gs| ==> lens[j] <= |MsgsOf(buf, gs)[j].data|
    ensures SentIs(buf, gs, lens, gs[0].count + k)
  {
    hide Split, Accepted, MsgsOf;
    TotalIsSum(gs);
    LensFit(buf, gs, lens);
    var g, len := gs[0], lens[0];
    var first, rest := Repeat(g.size, g.count), Expand(gs[1..]);
    SumRepeat(g.size, g.count);
    assert Expand(gs) == first + rest;
    assert (first + rest)[..g.count + k] == first + rest[..k];
    SumAppend(first, rest[..k]);
    assert Sum(Expand(gs)[..g.count + k]) == Sum(lens);
    SplitAcross(buf, first, rest);
    AcceptedCons(buf, gs, lens);
    assert Split(buf, Expand(gs))[..g.count + k] == Split(buf[..len], first) + Split(buf[len..], rest)[..k];
  }

  lemma {:induction false} AcceptedCons(buf: seq<byte>, gs: seq<Group>, lens: seq<nat>)
    requires gs != [] && MaximalRuns(gs) && |lens| == |gs| && lens[0] == GroupBytes(gs[0]) && Total(gs) <= |buf|
    requires forall j :: 0 <= j < |gs| ==> lens[j] <= |MsgsOf(buf, gs)[j].data|
    ensures Sum(Repeat(gs[0].size, gs[0].count)) == lens[0]
    ensures forall j :: 0 <= j < |gs| - 1 ==> lens[1..][j] <= |MsgsOf(buf[lens[0]..], gs[1..])[j].data|
    ensures Accepted(MsgsOf(buf, gs), lens)
         == Split(buf[..lens[0]], Repeat(gs[0].size, gs[0].count)) + Accepted(MsgsOf(buf[lens[0]..], gs[1..]), lens[1..])
  {
    var g, ms := gs[0], MsgsOf(buf, gs);
    assert ms[1..] == MsgsOf(buf[lens[0]..], gs[1..]);
    GroupOnWire(buf[..lens[0]], g);
    BytesPositive(g);
    assert ms[0].data[..lens[0]] == buf[..lens[0]];
  }

  lemma {:induction false} PartialGroup(data: seq<byte>, g: Group, q: nat)
    requires g.size >= 1 && g.count >= 1 && |data| == GroupBytes(g) && q < g.count
    ensures Sum(Repeat(g.size, g.count)) == |data| && g.size * q <= |data|
    ensures (if g.size * q == 0 then [] else OnWire(Msg(data[..g.size * q], if g.count > 1 then g.size else 0)))
            == Split(data, Repeat(g.size, g.count))[..q]
  {
    SumRepeat(g.size, g.count);
    SumRepeat(g.size, q);
    assert g.size * g.count == g.size * q + g.size * (g.count - q);
    var sizes := Repeat(g.size, g.count);
    assert sizes[..q] == Repeat(g.size, q);
    SplitTake(data, sizes, q);
    if q > 0 {
      MulGe(g.size, q);
      SegmentIsSplit(data[..g.size * q], g.size, q);
      SplitIgnoresTail(data, data[..g.size * q], Repeat(g.size, q));
    }
  }
}
