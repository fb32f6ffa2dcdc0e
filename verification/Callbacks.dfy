/** The queue of writeable callbacks, shared by all connections of an endpoint and by its one-shot packets. */
module Callbacks {
  import opened Datagrams

  /** What can wait for the socket to become writeable. */
  datatype Callback = Resend(conn: nat) | OneShot(packet: Packet)

  function Resends(c: nat, k: nat): (r: seq<Callback>)
    ensures |r| == k && forall i :: 0 <= i < k ==> r[i] == Resend(c)
  {
    seq(k, _ => Resend(c))
  }

  lemma {:induction false} ResendsSum(c: nat, a: nat, b: nat)
    requires a <= b
    ensures Resends(c, a) + Resends(c, b - a) == Resends(c, b)
  {
  }

  function OneShots(cs: seq<Callback>): multiset<seq<byte>> {
    if cs == [] then multiset{}
    else OneShots(cs[1..]) + if cs[0].OneShot? then multiset{cs[0].packet} else multiset{}
  }

  /** A connection has packets left over exactly when one resend callback of its own is waiting. */
  predicate BlockedIffWaiting(busy: seq<bool>, waiting: seq<Callback>, c: nat)
    requires c < |busy|
  {
    multiset(waiting)[Resend(c)] == if busy[c] then 1 else 0
  }

  /**
   * The callbacks that wait, queued or taken out by a running handler, against what they wait for: `busy` says which
   * connections have packets left over, and every one-shot packet submitted is settled or waits.
   */
  ghost predicate Paired(busy: seq<bool>, waiting: seq<Callback>, submitted: multiset<seq<byte>>, settled: multiset<seq<byte>>) {
    && (forall c :: 0 <= c < |busy| ==> BlockedIffWaiting(busy, waiting, c))
    && (forall i :: 0 <= i < |waiting| && waiting[i].Resend? ==> waiting[i].conn < |busy|)
    && submitted == settled + OneShots(waiting)
  }

  lemma {:induction false} OneShotsAppend(a: seq<Callback>, b: seq<Callback>)
    ensures OneShots(a + b) == OneShots(a) + OneShots(b)
  {
    if a == [] {
      assert a + b == b;
    } else {
      var first := if a[0].OneShot? then multiset{a[0].packet} else multiset{};
      assert OneShots(a + b) == OneShots(a[1..] + b) + first by { assert (a + b)[1..] == a[1..] + b; }
      OneShotsAppend(a[1..], b);
      SumsSwap(OneShots(a[1..]), OneShots(b), first);
    }
  }

  lemma {:induction false} SumsSwap(a: multiset<seq<byte>>, b: multiset<seq<byte>>, c: multiset<seq<byte>>)
    ensures a + b + c == (a + c) + b
  {
  }

  lemma {:induction false} SingleCallback(cb: Callback)
    ensures OneShots([cb]) == if cb.OneShot? then multiset{cb.packet} else multiset{}
  {
    assert [cb][1..] == [];
  }

  /** A callback joins anywhere in the waiting list. */
  lemma {:induction false} Insert(a: seq<Callback>, cb: Callback, b: seq<Callback>)
    ensures multiset(a + [cb] + b) == multiset(a + b) + multiset{cb}
    ensures OneShots(a + [cb] + b) == OneShots(a + b) + OneShots([cb])
  {
    hide OneShots;
    OneShotsAppend(a, b);
    OneShotsAppend(a, [cb]);
    OneShotsAppend(a + [cb], b);
    SumsSwap(OneShots(a), OneShots(b), OneShots([cb]));
    assert multiset(a + [cb] + b) == multiset(a) + multiset([cb]) + multiset(b);
  }

  lemma {:induction false} InsertBounds(a: seq<Callback>, cb: Callback, b: seq<Callback>, n: nat)
    ensures (forall i :: 0 <= i < |a + [cb] + b| && (a + [cb] + b)[i].Resend? ==> (a + [cb] + b)[i].conn < n) <==>
            (cb.Resend? ==> cb.conn < n) && (forall i :: 0 <= i < |a + b| && (a + b)[i].Resend? ==> (a + b)[i].conn < n)
  {
    var w, v := a + [cb] + b, a + b;
    assert forall i :: 0 <= i < |v| ==> v[i] == w[if i < |a| then i else i + 1];
    assert forall i :: 0 <= i < |w| && i != |a| ==> w[i] == v[if i < |a| then i else i - 1];
    assert w[|a|] == cb;
  }

  /**
   * A resend callback that leaves the list, wherever it is, was the only one of its connection and finds packets to
   * send, as the assertion on entry to Connection::send demands.
   */
  lemma {:induction false} ResendLeaves(busy: seq<bool>, a: seq<Callback>, c: nat, b: seq<Callback>,
                                        submitted: multiset<seq<byte>>, settled: multiset<seq<byte>>)
    requires Paired(busy, a + [Resend(c)] + b, submitted, settled)
    ensures c < |busy| && busy[c] && Paired(busy[c := false], a + b, submitted, settled)
  {
    hide OneShots;
    Insert(a, Resend(c), b);
    InsertBounds(a, Resend(c), b, |busy|);
    SingleCallback(Resend(c));
    var with, without := a + [Resend(c)] + b, a + b;
    assert with[|a|] == Resend(c);
    assert BlockedIffWaiting(busy, with, c);
    var idle := busy[c := false];
    forall k | 0 <= k < |busy| ensures BlockedIffWaiting(idle, without, k) {
      assert BlockedIffWaiting(busy, with, k);
    }
  }

  /** A connection without packets left over blocks, and its callback joins. */
  lemma {:induction false} ResendJoins(busy: seq<bool>, a: seq<Callback>, c: nat, b: seq<Callback>,
                                       submitted: multiset<seq<byte>>, settled: multiset<seq<byte>>)
    requires c < |busy| && Paired(busy[c := false], a + b, submitted, settled)
    ensures Paired(busy[c := true], a + [Resend(c)] + b, submitted, settled)
  {
    hide OneShots;
    Insert(a, Resend(c), b);
    InsertBounds(a, Resend(c), b, |busy|);
    SingleCallback(Resend(c));
    var with, without := a + [Resend(c)] + b, a + b;
    var idle, blocked := busy[c := false], busy[c := true];
    assert BlockedIffWaiting(idle, without, c);
    forall k | 0 <= k < |busy| ensures BlockedIffWaiting(blocked, with, k) {
      assert BlockedIffWaiting(idle, without, k);
    }
  }

  /** A one-shot packet waits, or is settled. */
  lemma {:induction false} OneShotPairs(busy: seq<bool>, a: seq<Callback>, p: Packet, b: seq<Callback>,
                                        submitted: multiset<seq<byte>>, settled: multiset<seq<byte>>)
    ensures Paired(busy, a + [OneShot(p)] + b, submitted, settled) <==> Paired(busy, a + b, submitted, settled + multiset{p})
  {
    hide OneShots;
    Insert(a, OneShot(p), b);
    InsertBounds(a, OneShot(p), b, |busy|);
    SingleCallback(OneShot(p));
    var with, without := a + [OneShot(p)] + b, a + b;
    SumsSwap(settled, OneShots(without), multiset{p});
    assert settled + (OneShots(without) + multiset{p}) == settled + OneShots(without) + multiset{p};
    forall k | 0 <= k < |busy| ensures BlockedIffWaiting(busy, with, k) <==> BlockedIffWaiting(busy, without, k) {
    }
  }

  /** Packets left over by a flush or a resend of connection `c`, which had none of its callbacks waiting. */
  lemma {:induction false} LandPairs(busy: seq<bool>, callbacks: seq<Callback>, running: seq<Callback>, c: nat, k: nat,
                                     submitted: multiset<seq<byte>>, settled: multiset<seq<byte>>)
    requires c < |busy| && k <= 1 && Paired(busy[c := false], callbacks + running, submitted, settled)
    ensures Paired(busy[c := k == 1], (callbacks + Resends(c, k)) + running, submitted, settled)
  {
    hide Paired;
    if k == 0 {
      assert callbacks + Resends(c, 0) == callbacks;
    } else {
      assert Resends(c, 1) == [Resend(c)];
      ResendJoins(busy, callbacks, c, running, submitted, settled);
    }
  }

  lemma {:induction false} SubmitPairs(busy: seq<bool>, waiting: seq<Callback>, p: seq<byte>, submitted: multiset<seq<byte>>, settled: multiset<seq<byte>>)
    requires Paired(busy, waiting, submitted, settled)
    ensures Paired(busy, waiting, submitted + multiset{p}, settled + multiset{p})
  {
    hide OneShots, BlockedIffWaiting;
    SumsSwap(settled, OneShots(waiting), multiset{p});
  }

  /** No connection has two callbacks among those taken out, and every one with packets left over has one waiting. */
  lemma {:induction false} OnceEach(busy: seq<bool>, waiting: seq<Callback>, submitted: multiset<seq<byte>>, settled: multiset<seq<byte>>)
    requires Paired(busy, waiting, submitted, settled)
    ensures forall i, j :: 0 <= i < j < |waiting| && waiting[i].Resend? ==> waiting[i] != waiting[j]
    ensures forall c :: 0 <= c < |busy| ==> (busy[c] <==> Resend(c) in waiting)
  {
    hide OneShots;
    forall i, j | 0 <= i < j < |waiting| && waiting[i].Resend? ensures waiting[i] != waiting[j] {
      assert BlockedIffWaiting(busy, waiting, waiting[i].conn);
      if waiting[i] == waiting[j] {
        TwiceCounts(waiting, i, j);
      }
    }
    forall c | 0 <= c < |busy| ensures busy[c] <==> Resend(c) in waiting {
      assert BlockedIffWaiting(busy, waiting, c);
    }
  }

  lemma {:induction false} TwiceCounts(cs: seq<Callback>, i: nat, j: nat)
    requires i < j < |cs| && cs[i] == cs[j]
    ensures multiset(cs)[cs[i]] >= 2
  {
    assert cs == cs[..i] + [cs[i]] + cs[i + 1..j] + [cs[j]] + cs[j + 1..];
  }

  /** A new connection has nothing to resend. */
  lemma {:induction false} ConnectPairs(busy: seq<bool>, waiting: seq<Callback>, submitted: multiset<seq<byte>>, settled: multiset<seq<byte>>)
    requires Paired(busy, waiting, submitted, settled)
    ensures Paired(busy + [false], waiting, submitted, settled)
  {
    hide OneShots;
    forall c | 0 <= c < |busy + [false]| ensures BlockedIffWaiting(busy + [false], waiting, c) {
      if c < |busy| {
        assert BlockedIffWaiting(busy, waiting, c);
      } else {
        assert Resend(c) !in waiting;
      }
    }
  }

  // ---- who put a datagram on the shared wire ------------------------------------------------

  /** The datagrams of one sender, in order. */
  ghost function Mine(wire: seq<seq<byte>>, owners: seq<int>, k: int): seq<seq<byte>>
    requires |wire| == |owners|
  {
    if wire == [] then []
    else
      var n := |wire| - 1;
      Mine(wire[..n], owners[..n], k) + if owners[n] == k then [wire[n]] else []
  }

  function Tags(who: int, n: nat): (r: seq<int>)
    ensures |r| == n && forall i :: 0 <= i < n ==> r[i] == who
  {
    seq(n, _ => who)
  }

  lemma {:induction false} MineAppend(wire: seq<seq<byte>>, owners: seq<int>, add: seq<seq<byte>>, who: int, k: int)
    requires |wire| == |owners|
    ensures Mine(wire + add, owners + Tags(who, |add|), k) == Mine(wire, owners, k) + if k == who then add else []
  {
    if add == [] {
      assert wire + add == wire && owners + Tags(who, |add|) == owners;
    } else {
      var n := |add| - 1;
      var w, o := wire + add, owners + Tags(who, |add|);
      assert w[..|w| - 1] == wire + add[..n] && o[..|o| - 1] == owners + Tags(who, n);
      MineAppend(wire, owners, add[..n], who, k);
      assert add == add[..n] + [add[n]];
    }
  }

  /** Between two states of the wire only `who` sent anything. */
  ghost predicate OnlyBy(who: int, wire: seq<seq<byte>>, owners: seq<int>, wire': seq<seq<byte>>, owners': seq<int>) {
    && |wire| == |owners| && |wire'| == |owners'|
    && forall k :: k != who ==> Mine(wire', owners', k) == Mine(wire, owners, k)
  }

  lemma {:induction false} OnlyByTrans(who: int, w0: seq<seq<byte>>, o0: seq<int>, w1: seq<seq<byte>>, o1: seq<int>, w2: seq<seq<byte>>, o2: seq<int>)
    requires OnlyBy(who, w0, o0, w1, o1) && OnlyBy(who, w1, o1, w2, o2)
    ensures OnlyBy(who, w0, o0, w2, o2)
  {
    hide Mine;
  }

  lemma {:induction false} OnlyByAppend(who: int, wire: seq<seq<byte>>, owners: seq<int>, add: seq<seq<byte>>)
    requires |wire| == |owners|
    ensures OnlyBy(who, wire, owners, wire + add, owners + Tags(who, |add|))
    ensures Mine(wire + add, owners + Tags(who, |add|), who) == Mine(wire, owners, who) + add
  {
    hide Mine;
    forall k ensures k != who ==> Mine(wire + add, owners + Tags(who, |add|), k) == Mine(wire, owners, k) {
      MineAppend(wire, owners, add, who, k);
    }
    MineAppend(wire, owners, add, who, who);
  }
}
