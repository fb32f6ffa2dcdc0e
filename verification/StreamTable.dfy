/** The stream table of a connection: local stream credit, the pending queue, and the life of every stream object. */
module StreamTable {
  import opened Common

  /**
   * A Stream object by what the table operations read and write. `local` streams are ours; `id` is -1 until ngtcp2
   * assigns one. `calls` counts runs of the close callback. The last four flags are history: `closedHere` says close()
   * took effect, `erased` that stream_closed found the stream, `refused` that the open callback turned it away, and
   * `orphaned` that the connection was destroyed while it still held the stream.
   */
  datatype Rec = Rec(local: bool, id: int, ready: bool, closing: bool, shutdown: bool, calls: nat,
                     destroyed: bool, closedHere: bool, erased: bool, refused: bool, orphaned: bool)

  function NewLocal(): Rec { Rec(true, -1, false, false, false, 0, false, false, false, false, false) }

  function NewRemote(id: int): Rec { Rec(false, id, true, false, false, 0, false, false, false, false, false) }

  /** stream_closed and ~Stream: run the close callback unless the stream was closing already. */
  function End(r: Rec): Rec {
    r.(closing := true, shutdown := true, calls := r.calls + if r.closing then 0 else 1)
  }

  /**
   * Close-once. The close callback runs at most once, never if close() took effect, and exactly once if the stream
   * ended without that.
   */
  predicate CloseOnce(r: Rec) {
    && r.closing == r.shutdown
    && r.calls <= 1
    && (r.closedHere ==> r.closing && r.calls == 0)
    && ((r.erased || r.destroyed) && !r.closedHere ==> r.calls == 1)
    && (if r.closing then r.closedHere || r.calls == 1 else r.calls == 0)
  }

  /** uint64 to int, as the call of check_pending_streams narrows its argument. */
  function Narrow(x: nat): int {
    var m := x % 0x1_0000_0000;
    if m < 0x8000_0000 then m else m - 0x1_0000_0000
  }

  function Max0(x: int): nat { if x < 0 then 0 else x }

  /** How many pending streams an extension to `credit` releases. */
  function Released(waiting: nat, credit: nat): nat { Min(waiting, Max0(Narrow(credit))) }

  /**
   * After an extension nobody waits while credit is left, exactly when the credit survives the narrowing, or the
   * narrowed value still covers everybody who waits.
   */
  lemma {:induction false} ReleaseSuffices(waiting: nat, credit: nat)
    ensures Released(waiting, credit) <= credit
    ensures waiting == Released(waiting, credit) || credit == Released(waiting, credit)
       <==> credit < 0x8000_0000 || waiting <= Max0(Narrow(credit))
  {
    assert credit == 0x1_0000_0000 * (credit / 0x1_0000_0000) + credit % 0x1_0000_0000;
  }

  /** A credit of 2^32 is narrowed to zero: one waiting stream stays behind although there is room for it. */
  lemma {:induction false} NarrowingStarves()
    ensures Released(1, 0x1_0000_0000) == 0
  {
    assert Narrow(0x1_0000_0000) == 0;
  }

  /** Where a stream object is kept. */
  predicate InTable(recs: seq<Rec>, streams: map<int, nat>, h: nat)
    requires h < |recs|
  {
    recs[h].id in streams && streams[recs[h].id] == h
  }

  /** One stream object against the tables: it is in exactly the place its state calls for. */
  predicate Placed(recs: seq<Rec>, streams: map<int, nat>, pending: seq<nat>, h: nat)
    requires h < |recs|
  {
    var r := recs[h];
    && (r.id < 0 ==> r.local && !r.erased && !r.refused && !r.ready)
    && (r.refused ==> !r.local && r.closedHere && !r.erased && !r.orphaned)
    && (r.orphaned ==> !r.erased)
    && (r.destroyed ==> r.erased || r.refused || r.orphaned)
    && (h in pending <==> r.id < 0 && !r.orphaned)
    && (InTable(recs, streams, h) <==> r.id >= 0 && !r.erased && !r.refused && !r.orphaned)
    && (r.id >= 0 && !r.refused ==> r.ready)
  }

  /** Bidirectional stream ids (section 2.1 of RFC 9000): the low bit names the initiator, ours count up by four. */
  predicate Numbered(recs: seq<Rec>, base: nat, served: nat) {
    && (forall h :: 0 <= h < |recs| && recs[h].id >= 0 ==>
          if recs[h].local then recs[h].id % 4 == base && recs[h].id < base + 4 * served else recs[h].id % 4 == 1 - base)
    && (forall h, k :: 0 <= h < k < |recs| && recs[h].id >= 0 ==> recs[h].id != recs[k].id)
  }

  ghost predicate Consistent(recs: seq<Rec>, streams: map<int, nat>, pending: seq<nat>, base: nat, served: nat) {
    && base <= 1
    && (forall h :: 0 <= h < |recs| ==> CloseOnce(recs[h]) && Placed(recs, streams, pending, h))
    && (forall i :: 0 <= i < |pending| ==> pending[i] < |recs|) && Distinct(pending)
    && (forall id :: id in streams ==> streams[id] < |recs| && recs[streams[id]].id == id)
    && Numbered(recs, base, served)
  }

  /** First come, first served: ids rise in creation order, and whoever waits came after everybody who was served. */
  predicate Orderly(recs: seq<Rec>, pending: seq<nat>) {
    && (forall h, k :: 0 <= h < k < |recs| && recs[h].local && recs[k].local && recs[h].id >= 0 && recs[k].id >= 0 ==> recs[h].id < recs[k].id)
    && (forall i, h :: 0 <= i < |pending| && 0 <= h < |recs| && recs[h].local && recs[h].id >= 0 ==> h < pending[i])
    && (forall i, j :: 0 <= i < j < |pending| ==> pending[i] < pending[j])
  }

  /** And nobody waits while there is credit (section 4.6 of RFC 9000), so a new stream never overtakes a waiting one. */
  predicate InOrder(recs: seq<Rec>, pending: seq<nat>, credit: nat) {
    Orderly(recs, pending) && (pending != [] ==> credit == 0)
  }

  function Ids(recs: seq<Rec>): set<int> { set h | 0 <= h < |recs| :: recs[h].id }

  /**
   * `ended` are the streams stream_closed was called for. It finds them unless the open callback had refused them, and
   * peer credit goes back, once, exactly for the remote ones it finds.
   */
  predicate Returned(recs: seq<Rec>, returned: multiset<int>, ended: set<int>) {
    && (forall h :: 0 <= h < |recs| && recs[h].id >= 0 ==> (recs[h].erased <==> recs[h].id in ended && !recs[h].refused))
    && (forall h :: 0 <= h < |recs| && recs[h].id >= 0 ==> returned[recs[h].id] == if recs[h].erased && !recs[h].local then 1 else 0)
    && (forall id :: id in returned ==> id >= 0 && id in Ids(recs))
    && (forall id :: id in ended ==> id >= 0 && id in Ids(recs))
  }

  /** What the records say about close() is what was recorded when it was called. */
  predicate Shut(recs: seq<Rec>, shut: set<nat>) {
    && (forall h :: 0 <= h < |recs| ==> (recs[h].closedHere <==> h in shut))
    && (forall h :: h in shut ==> h < |recs|)
  }

  /** The connection lets go of a stream it holds: unless the user keeps a handle, the object is destroyed with it. */
  function Orphan(r: Rec, kept: bool): Rec {
    if kept then r.(orphaned := true) else End(r).(orphaned := true, destroyed := true)
  }

  /** Losing the connection keeps close-once: a destroyed stream has had its one call, unless it was closed here. */
  lemma {:induction false} OrphanOnce(r: Rec, kept: bool)
    requires CloseOnce(r)
    ensures var r' := Orphan(r, kept);
      && CloseOnce(r') && r'.id == r.id && r'.local == r.local && r'.erased == r.erased && r'.refused == r.refused
      && r'.ready == r.ready && r'.closedHere == r.closedHere && (r.destroyed || !kept <==> r'.destroyed)
      && (!kept ==> r'.calls == if r.closedHere then 0 else 1)
  {
  }

  /** Replacing one record by one with the same place. */
  lemma {:induction false} ReplaceKeeps(recs: seq<Rec>, h: nat, r: Rec, streams: map<int, nat>, pending: seq<nat>, base: nat, served: nat)
    requires Consistent(recs, streams, pending, base, served) && h < |recs| && CloseOnce(r) && (r.closedHere || !recs[h].closedHere)
    requires r.local == recs[h].local && r.id == recs[h].id && r.ready == recs[h].ready
    requires r.destroyed == recs[h].destroyed && r.erased == recs[h].erased && r.refused == recs[h].refused && r.orphaned == recs[h].orphaned
    ensures Consistent(recs[h := r], streams, pending, base, served)
  {
    hide CloseOnce;
    var recs' := recs[h := r];
    forall k | 0 <= k < |recs| ensures CloseOnce(recs'[k]) && Placed(recs', streams, pending, k) {
      assert Placed(recs, streams, pending, k);
    }
  }

  lemma {:induction false} ReplaceReturned(recs: seq<Rec>, h: nat, r: Rec, returned: multiset<int>, ended: set<int>)
    requires Returned(recs, returned, ended) && h < |recs| && r.id == recs[h].id && r.local == recs[h].local && r.erased == recs[h].erased && r.refused == recs[h].refused
    ensures Returned(recs[h := r], returned, ended)
  {
    var recs' := recs[h := r];
    assert forall k :: 0 <= k < |recs| ==> recs'[k].id == recs[k].id;
    assert Ids(recs') == Ids(recs);
  }

  // ---- a new object joins the records -------------------------------------------------------

  lemma {:induction false} NumberedAdd(recs: seq<Rec>, r: Rec, base: nat, served: nat)
    requires Numbered(recs, base, served) && (r.id >= 0 ==> forall k :: 0 <= k < |recs| ==> recs[k].id != r.id)
    requires r.id >= 0 ==> if r.local then r.id % 4 == base && r.id < base + 4 * served else r.id % 4 == 1 - base
    ensures Numbered(recs + [r], base, served)
  {
  }

  /** The others stay where they are. */
  lemma {:induction false} PlacedAdd(recs: seq<Rec>, r: Rec, streams: map<int, nat>, streams': map<int, nat>, pending: seq<nat>, pending': seq<nat>, k: nat)
    requires k < |recs| && Placed(recs, streams, pending, k) && (k in pending' <==> k in pending)
    requires streams' == streams || (streams' == streams[r.id := |recs|] && recs[k].id != r.id)
    ensures Placed(recs + [r], streams', pending', k)
  {
  }

  /** A local stream without credit waits at the back of the queue. */
  lemma {:induction false} AddWaiting(recs: seq<Rec>, streams: map<int, nat>, pending: seq<nat>, base: nat, served: nat)
    requires Consistent(recs, streams, pending, base, served)
    ensures Consistent(recs + [NewLocal()], streams, pending + [|recs|], base, served)
  {
    hide Numbered, Placed;
    var r, h, pending' := NewLocal(), |recs|, pending + [|recs|];
    NumberedAdd(recs, r, base, served);
    assert h !in pending;
    forall k | 0 <= k < |recs + [r]| ensures CloseOnce((recs + [r])[k]) && Placed(recs + [r], streams, pending', k) {
      if k < h {
        PlacedAdd(recs, r, streams, streams, pending, pending', k);
      } else {
        PlacedWaiting(recs, streams, pending);
      }
    }
  }

  lemma {:induction false} PlacedWaiting(recs: seq<Rec>, streams: map<int, nat>, pending: seq<nat>)
    requires forall id :: id in streams ==> streams[id] < |recs|
    ensures Placed(recs + [NewLocal()], streams, pending + [|recs|], |recs|)
  {
  }

  /** A stream with an id joins the table, or was refused and is gone already. */
  lemma {:induction false} AddServed(recs: seq<Rec>, r: Rec, streams: map<int, nat>, pending: seq<nat>, base: nat, served: nat)
    requires Consistent(recs, streams, pending, base, served) && CloseOnce(r) && r.id >= 0 && r.ready && !r.erased && !r.orphaned
    requires forall k :: 0 <= k < |recs| ==> recs[k].id != r.id
    requires if r.local then r.id % 4 == base && r.id < base + 4 * served else r.id % 4 == 1 - base
    requires r.refused == r.destroyed && (r.refused ==> !r.local && r.closedHere)
    ensures Consistent(recs + [r], if r.refused then streams else streams[r.id := |recs|], pending, base, served)
  {
    hide Numbered, Placed, CloseOnce;
    var streams' := if r.refused then streams else streams[r.id := |recs|];
    NumberedAdd(recs, r, base, served);
    assert |recs| !in pending;
    forall k | 0 <= k < |recs + [r]| ensures CloseOnce((recs + [r])[k]) && Placed(recs + [r], streams', pending, k) {
      if k < |recs| {
        PlacedAdd(recs, r, streams, streams', pending, pending, k);
      } else {
        PlacedServed(recs, r, streams, pending);
      }
    }
  }

  lemma {:induction false} PlacedServed(recs: seq<Rec>, r: Rec, streams: map<int, nat>, pending: seq<nat>)
    requires r.id >= 0 && r.ready && !r.erased && !r.orphaned && r.refused == r.destroyed && (r.refused ==> !r.local && r.closedHere)
    requires |recs| !in pending && forall id :: id in streams ==> streams[id] < |recs|
    ensures Placed(recs + [r], if r.refused then streams else streams[r.id := |recs|], pending, |recs|)
  {
  }

  lemma {:induction false} AddReturned(recs: seq<Rec>, r: Rec, returned: multiset<int>, ended: set<int>)
    requires Returned(recs, returned, ended) && !r.erased && (r.id >= 0 ==> forall k :: 0 <= k < |recs| ==> recs[k].id != r.id)
    ensures Returned(recs + [r], returned, ended)
  {
    var recs' := recs + [r];
    assert forall k :: 0 <= k < |recs| ==> recs'[k] == recs[k];
    assert recs'[|recs|] == r;
    assert Ids(recs') == Ids(recs) + {r.id};
  }

  // ---- ngtcp2 opens the stream at the head of the pending queue -----------------------------

  lemma {:induction false} FreshId(recs: seq<Rec>, streams: map<int, nat>, pending: seq<nat>, base: nat, served: nat)
    requires Consistent(recs, streams, pending, base, served)
    ensures forall k :: 0 <= k < |recs| ==> recs[k].id != base + 4 * served
    ensures (base + 4 * served) % 4 == base && base + 4 * served !in streams
    ensures Numbered(recs, base, served + 1)
  {
    hide Placed, CloseOnce;
    assert (base + 4 * served) % 4 == base;
  }

  lemma {:induction false} NumberedServe(recs: seq<Rec>, h: nat, base: nat, served: nat)
    requires h < |recs| && recs[h].local && Numbered(recs, base, served + 1) && (base + 4 * served) % 4 == base
    requires forall k :: 0 <= k < |recs| ==> recs[k].id != base + 4 * served
    ensures Numbered(recs[h := recs[h].(id := base + 4 * served, ready := true)], base, served + 1)
  {
  }

  lemma {:induction false} PlacedServe(recs: seq<Rec>, streams: map<int, nat>, pending: seq<nat>, id: int, k: nat)
    requires pending != [] && pending[0] < |recs| && Distinct(pending) && id >= 0 && id !in streams
    requires k < |recs| && Placed(recs, streams, pending, k) && Placed(recs, streams, pending, pending[0]) && recs[k].id != id
    ensures Placed(recs[pending[0] := recs[pending[0]].(id := id, ready := true)], streams[id := pending[0]], pending[1..], k)
  {
    assert pending[0] !in pending[1..];
    assert k != pending[0] ==> (k in pending[1..] <==> k in pending);
  }

  lemma {:induction false} SameCloseOnce(r: Rec, id: int)
    requires CloseOnce(r)
    ensures CloseOnce(r.(id := id, ready := true))
  {
  }

  lemma {:induction false} ServeFirst(recs: seq<Rec>, streams: map<int, nat>, pending: seq<nat>, base: nat, served: nat)
    requires Consistent(recs, streams, pending, base, served) && pending != []
    ensures var h, id := pending[0], base + 4 * served;
      Consistent(recs[h := recs[h].(id := id, ready := true)], streams[id := h], pending[1..], base, served + 1)
  {
    var h, id := pending[0], base + 4 * served;
    FreshId(recs, streams, pending, base, served);
    assert Placed(recs, streams, pending, h) && CloseOnce(recs[h]);
    assert recs[h].local && recs[h].id < 0;
    hide Numbered, Placed, CloseOnce;
    var recs', streams' := recs[h := recs[h].(id := id, ready := true)], streams[id := h];
    NumberedServe(recs, h, base, served);
    SameCloseOnce(recs[h], id);
    forall k | 0 <= k < |recs| ensures CloseOnce(recs'[k]) && Placed(recs', streams', pending[1..], k) {
      PlacedServe(recs, streams, pending, id, k);
    }
    forall x | x in streams' ensures streams'[x] < |recs'| && recs'[streams'[x]].id == x {
      assert x != id ==> recs[streams[x]].id == x;
    }
  }

  /** The first `k` of the queue were served, with the next ids in order, and nothing else happened to any stream. */
  predicate ServedFirst(recs: seq<Rec>, pending: seq<nat>, k: nat, base: nat, served: nat, recs': seq<Rec>) {
    && |recs'| == |recs| && k <= |pending|
    && (forall i :: 0 <= i < k && pending[i] < |recs| ==>
          recs'[pending[i]] == recs[pending[i]].(id := base + 4 * (served + i), ready := true))
    && (forall h :: 0 <= h < |recs| && h !in pending[..k] ==> recs'[h] == recs[h])
  }

  lemma {:induction false} ServedNone(recs: seq<Rec>, pending: seq<nat>, base: nat, served: nat)
    ensures ServedFirst(recs, pending, 0, base, served, recs)
  {
  }

  lemma {:induction false} ServedOneMore(recs: seq<Rec>, pending: seq<nat>, k: nat, base: nat, served: nat, recs': seq<Rec>)
    requires ServedFirst(recs, pending, k, base, served, recs') && k < |pending| && pending[k] < |recs| && Distinct(pending)
    ensures ServedFirst(recs, pending, k + 1, base, served, recs'[pending[k] := recs'[pending[k]].(id := base + 4 * (served + k), ready := true)])
  {
    assert pending[..k + 1] == pending[..k] + [pending[k]];
    forall i | 0 <= i < k ensures pending[i] != pending[k] {
    }
    assert pending[k] !in pending[..k];
  }

  // ---- a stream leaves ----------------------------------------------------------------------

  lemma {:induction false} PlacedErase(recs: seq<Rec>, h: nat, r: Rec, streams: map<int, nat>, pending: seq<nat>, k: nat)
    requires h < |recs| && k < |recs| && Placed(recs, streams, pending, k) && Placed(recs, streams, pending, h) && InTable(recs, streams, h)
    requires r == End(recs[h]).(erased := true) && (k != h ==> recs[k].id != recs[h].id)
    ensures Placed(recs[h := r], streams - {recs[h].id}, pending, k)
  {
  }

  lemma {:induction false} EraseKeeps(recs: seq<Rec>, streams: map<int, nat>, pending: seq<nat>, base: nat, served: nat, id: int)
    requires Consistent(recs, streams, pending, base, served) && id in streams
    ensures var h := streams[id];
      Consistent(recs[h := End(recs[h]).(erased := true)], streams - {id}, pending, base, served)
  {
    var h := streams[id];
    var r := End(recs[h]).(erased := true);
    var recs' := recs[h := r];
    assert CloseOnce(recs[h]) && Placed(recs, streams, pending, h);
    assert CloseOnce(r) && recs[h].id >= 0;
    forall k | 0 <= k < |recs| && k != h ensures recs[k].id != recs[h].id {
    }
    hide Placed, CloseOnce, End;
    assert forall k :: 0 <= k < |recs| ==> recs'[k].id == recs[k].id && recs'[k].local == recs[k].local by { EndSame(recs[h]); }
    forall k | 0 <= k < |recs| ensures CloseOnce(recs'[k]) && Placed(recs', streams - {id}, pending, k) {
      PlacedErase(recs, h, r, streams, pending, k);
    }
  }

  lemma {:induction false} EndSame(r: Rec)
    ensures End(r).id == r.id && End(r).local == r.local && End(r).erased == r.erased
  {
  }

  lemma {:induction false} UniqueId(recs: seq<Rec>, base: nat, served: nat, h: nat)
    requires Numbered(recs, base, served) && h < |recs| && recs[h].id >= 0
    ensures forall k :: 0 <= k < |recs| && k != h ==> recs[k].id != recs[h].id
  {
  }

  lemma {:induction false} EraseReturned(recs: seq<Rec>, h: nat, returned: multiset<int>, ended: set<int>, base: nat, served: nat)
    requires Returned(recs, returned, ended) && Numbered(recs, base, served)
    requires h < |recs| && recs[h].id >= 0 && !recs[h].erased && !recs[h].refused
    ensures Returned(recs[h := End(recs[h]).(erased := true)],
                     if recs[h].local then returned else returned + multiset{recs[h].id}, ended + {recs[h].id})
  {
    hide Numbered;
    UniqueId(recs, base, served, h);
    var recs' := recs[h := End(recs[h]).(erased := true)];
    assert forall k :: 0 <= k < |recs| ==> recs'[k].id == recs[k].id;
    assert Ids(recs') == Ids(recs) && recs[h].id in Ids(recs);
  }

  /** A stream that ended but is not in the table was found before, or had been refused. */
  lemma {:induction false} MissedReturned(recs: seq<Rec>, streams: map<int, nat>, pending: seq<nat>, base: nat, served: nat,
                                          returned: multiset<int>, ended: set<int>, id: int)
    requires Consistent(recs, streams, pending, base, served) && Returned(recs, returned, ended)
    requires id !in streams && id in Ids(recs) && id >= 0 && forall h :: 0 <= h < |recs| ==> !recs[h].orphaned
    ensures Returned(recs, returned, ended + {id})
  {
    hide CloseOnce, Numbered;
    forall h | 0 <= h < |recs| && recs[h].id == id ensures recs[h].erased || recs[h].refused {
      assert Placed(recs, streams, pending, h);
    }
  }

  /** An object nobody keeps any more is destroyed. */
  lemma {:induction false} DestroyKeeps(recs: seq<Rec>, streams: map<int, nat>, pending: seq<nat>, base: nat, served: nat, h: nat)
    requires Consistent(recs, streams, pending, base, served) && h < |recs| && h !in pending && !InTable(recs, streams, h)
    ensures Consistent(recs[h := End(recs[h]).(destroyed := true)], streams, pending, base, served)
  {
    var recs' := recs[h := End(recs[h]).(destroyed := true)];
    assert CloseOnce(recs[h]) && Placed(recs, streams, pending, h);
    assert CloseOnce(recs'[h]);
    hide CloseOnce;
    forall k | 0 <= k < |recs| ensures CloseOnce(recs'[k]) && Placed(recs', streams, pending, k) {
      assert Placed(recs, streams, pending, k) && CloseOnce(recs[k]);
    }
  }

  // ---- the connection goes away -------------------------------------------------------------

  predicate Held(recs: seq<Rec>, streams: map<int, nat>, pending: seq<nat>, h: nat)
    requires h < |recs|
  {
    h in pending || InTable(recs, streams, h)
  }

  /** Of the streams held at first, exactly those not held any more were let go. */
  predicate Drained(recs: seq<Rec>, streams: map<int, nat>, pending: seq<nat>,
                    recs': seq<Rec>, streams': map<int, nat>, pending': seq<nat>, kept: set<nat>) {
    && |recs'| == |recs|
    && forall h :: 0 <= h < |recs| ==>
      && (Held(recs, streams', pending', h) ==> Held(recs, streams, pending, h))
      && recs'[h] == if Held(recs, streams, pending, h) && !Held(recs, streams', pending', h) then Orphan(recs[h], h in kept) else recs[h]
  }

  lemma {:induction false} PlacedOrphan(recs: seq<Rec>, streams: map<int, nat>, streams': map<int, nat>, pending: seq<nat>, pending': seq<nat>,
                                        h: nat, r: Rec, k: nat)
    requires h < |recs| && k < |recs| && Placed(recs, streams, pending, k) && Placed(recs, streams, pending, h) && Held(recs, streams, pending, h)
    requires r == Orphan(recs[h], true) || r == Orphan(recs[h], false)
    requires h !in pending' && !InTable(recs, streams', h)
    requires k != h ==> (k in pending <==> k in pending') && (InTable(recs, streams, k) <==> InTable(recs, streams', k))
    ensures Placed(recs[h := r], streams', pending', k)
  {
  }

  /** Letting go of a held stream: the head of the queue, or an entry of the table. */
  lemma {:induction false} OrphanKeeps(recs: seq<Rec>, streams: map<int, nat>, streams': map<int, nat>, pending: seq<nat>, pending': seq<nat>,
                                       base: nat, served: nat, h: nat, kept: bool)
    requires Consistent(recs, streams, pending, base, served) && h < |recs| && Held(recs, streams, pending, h)
    requires if h in pending then h == pending[0] && pending' == pending[1..] && streams' == streams
             else pending' == pending && streams' == streams - {recs[h].id}
    ensures Consistent(recs[h := Orphan(recs[h], kept)], streams', pending', base, served)
  {
    var r := Orphan(recs[h], kept);
    var recs' := recs[h := r];
    assert CloseOnce(recs[h]) && Placed(recs, streams, pending, h);
    OrphanOnce(recs[h], kept);
    hide CloseOnce, Orphan;
    assert forall k :: 0 <= k < |recs| && k != h && recs[k].id >= 0 ==> recs[k].id != recs[h].id;
    hide Placed;
    forall k | 0 <= k < |recs| ensures CloseOnce(recs'[k]) && Placed(recs', streams', pending', k) {
      PlacedOrphan(recs, streams, streams', pending, pending', h, r, k);
    }
  }

  /** One more stream was let go. */
  lemma {:induction false} DrainStep(recs: seq<Rec>, streams: map<int, nat>, pending: seq<nat>,
                                     recs1: seq<Rec>, streams1: map<int, nat>, pending1: seq<nat>,
                                     streams2: map<int, nat>, pending2: seq<nat>, kept: set<nat>, h: nat)
    requires Drained(recs, streams, pending, recs1, streams1, pending1, kept)
    requires h < |recs| && Held(recs, streams1, pending1, h) && !Held(recs, streams2, pending2, h)
    requires forall k :: 0 <= k < |recs| && k != h ==> (Held(recs, streams2, pending2, k) <==> Held(recs, streams1, pending1, k))
    ensures recs1[h] == recs[h]
    ensures Drained(recs, streams, pending, recs1[h := Orphan(recs1[h], h in kept)], streams2, pending2, kept)
  {
    hide Held, Orphan;
  }

  lemma {:induction false} SameIds(recs: seq<Rec>, streams: map<int, nat>, pending: seq<nat>,
                                   recs1: seq<Rec>, streams1: map<int, nat>, pending1: seq<nat>, kept: set<nat>)
    requires Drained(recs, streams, pending, recs1, streams1, pending1, kept)
    ensures |recs1| == |recs| && forall h :: 0 <= h < |recs| ==> recs1[h].id == recs[h].id
  {
    hide Held;
  }

  /** Who is held once the head of the queue, or one entry of the table, is gone. */
  lemma {:induction false} HeldAfter(recs: seq<Rec>, streams: map<int, nat>, pending: seq<nat>, base: nat, served: nat, h: nat)
    requires Consistent(recs, streams, pending, base, served) && h < |recs| && Held(recs, streams, pending, h)
    requires h in pending ==> h == pending[0]
    ensures var pending' := if h in pending then pending[1..] else pending;
      var streams' := if h in pending then streams else streams - {recs[h].id};
      && !Held(recs, streams', pending', h)
      && forall k :: 0 <= k < |recs| && k != h ==> (Held(recs, streams', pending', k) <==> Held(recs, streams, pending, k))
  {
    hide CloseOnce, Numbered;
    assert Placed(recs, streams, pending, h);
  }

  /** A table or queue that is not empty holds somebody. */
  lemma {:induction false} SomeoneHeld(recs: seq<Rec>, streams: map<int, nat>, pending: seq<nat>, base: nat, served: nat)
    requires Consistent(recs, streams, pending, base, served)
    ensures Distinct(pending) && (pending != [] ==> pending[0] < |recs| && pending[0] in pending)
    ensures forall id :: id in streams ==> streams[id] < |recs| && recs[streams[id]].id == id && InTable(recs, streams, streams[id]) && streams[id] !in pending
  {
    hide CloseOnce, Numbered;
    forall id | id in streams ensures streams[id] !in pending {
      assert Placed(recs, streams, pending, streams[id]);
    }
  }

  // ---- order --------------------------------------------------------------------------------

  lemma {:induction false} OrderReplace(recs: seq<Rec>, h: nat, r: Rec, pending: seq<nat>)
    requires Orderly(recs, pending) && h < |recs| && r.id == recs[h].id && r.local == recs[h].local
    ensures Orderly(recs[h := r], pending)
  {
  }

  lemma {:induction false} OrderTail(recs: seq<Rec>, pending: seq<nat>)
    requires Orderly(recs, pending) && pending != []
    ensures Orderly(recs, pending[1..])
  {
    forall i, h | 0 <= i < |pending| - 1 && 0 <= h < |recs| && recs[h].local && recs[h].id >= 0 ensures h < pending[1..][i] {
      assert pending[1..][i] == pending[i + 1];
    }
  }

  lemma {:induction false} OrderWaiting(recs: seq<Rec>, pending: seq<nat>)
    requires Orderly(recs, pending) && forall i :: 0 <= i < |pending| ==> pending[i] < |recs|
    ensures Orderly(recs + [NewLocal()], pending + [|recs|])
  {
  }

  lemma {:induction false} OrderServed(recs: seq<Rec>, r: Rec, pending: seq<nat>, base: nat, served: nat)
    requires Orderly(recs, pending) && Numbered(recs, base, served) && r.id >= 0
    requires r.local ==> pending == [] && r.id == base + 4 * served
    ensures Orderly(recs + [r], pending)
  {
  }

  lemma {:induction false} OrderFirst(recs: seq<Rec>, pending: seq<nat>, base: nat, served: nat)
    requires Orderly(recs, pending) && pending != [] && pending[0] < |recs| && Numbered(recs, base, served)
    ensures Orderly(recs[pending[0] := recs[pending[0]].(id := base + 4 * served, ready := true)], pending[1..])
  {
    var recs' := recs[pending[0] := recs[pending[0]].(id := base + 4 * served, ready := true)];
    forall i, h | 0 <= i < |pending| - 1 && 0 <= h < |recs'| && recs'[h].local && recs'[h].id >= 0 ensures h < pending[1..][i] {
      assert pending[1..][i] == pending[i + 1];
    }
  }

  class Table {
    const base: nat                 // 0 for a client, 1 for a server
    var recs: seq<Rec>              // every stream object ever made, in creation order
    var streams: map<int, nat>      // id to object
    var pending: seq<nat>
    var credit: nat                 // ngtcp2_conn_get_streams_bidi_left
    var served: nat                 // local streams ngtcp2 has opened
    var returned: multiset<int>     // remote ids for which ngtcp2_conn_extend_max_streams_bidi was called
    var gone: bool                  // the connection has been destroyed
    ghost var ended: set<int>       // known ids stream_closed was called for
    ghost var shut: set<nat>        // objects on which close() took effect

    ghost predicate Valid()
      reads this
    {
      && Consistent(recs, streams, pending, base, served) && Returned(recs, returned, ended)
      && (!gone ==> forall h :: 0 <= h < |recs| ==> !recs[h].orphaned)
      && Shut(recs, shut)
    }

    constructor (server: bool, credit: nat)
      ensures Valid() && InOrder(recs, pending, this.credit) && recs == [] && this.credit == credit && returned == multiset{} && !gone && ended == {} && shut == {}
    {
      base := if server then 1 else 0;
      recs, streams, pending, this.credit, served, returned, gone, ended, shut := [], map[], [], credit, 0, multiset{}, false, {}, {};
    }

    /** Stream::close: local, takes effect once, and never runs the close callback. */
    method Close(h: nat)
      requires Valid() && h < |recs|
      modifies this`recs, this`shut
      ensures Valid() && recs == old(recs)[h := if old(recs)[h].closing then old(recs)[h]
                                                else old(recs)[h].(closing := true, shutdown := true, closedHere := true)]
      ensures shut == if old(recs)[h].closing then old(shut) else old(shut) + {h}
      ensures Orderly(old(recs), pending) ==> Orderly(recs, pending)
    {
      hide Numbered, Placed, Returned, Orderly;
      var r := recs[h];
      assert CloseOnce(r);
      if r.shutdown {
      } else if r.closing {
      } else {
        var r' := r.(closing := true, shutdown := true, closedHere := true);
        ReplaceKeeps(recs, h, r', streams, pending, base, served);
        ReplaceReturned(recs, h, r', returned, ended);
        if Orderly(recs, pending) {
          OrderReplace(recs, h, r', pending);
        }
        recs, shut := recs[h := r'], shut + {h};
      }
    }

    /** get_new_stream: open at once if there is credit, wait otherwise. */
    method GetNewStream() returns (h: nat)
      requires Valid() && !gone
      modifies this`recs, this`streams, this`pending, this`credit, this`served
      ensures Valid() && h == |old(recs)|
      ensures old(credit) > 0 ==>
        && recs == old(recs) + [NewLocal().(id := base + 4 * old(served), ready := true)] && pending == old(pending)
        && streams == old(streams)[base + 4 * old(served) := h] && credit == old(credit) - 1 && served == old(served) + 1
      ensures old(credit) == 0 ==>
        && recs == old(recs) + [NewLocal()] && pending == old(pending) + [h]
        && streams == old(streams) && credit == 0 && served == old(served)
      ensures InOrder(old(recs), old(pending), old(credit)) ==> InOrder(recs, pending, credit)
    {
      hide Numbered, Placed, Returned, Orderly;
      h := |recs|;
      ghost var ordered := Orderly(recs, pending);
      if credit > 0 {
        var r := NewLocal().(id := base + 4 * served, ready := true);
        FreshId(recs, streams, pending, base, served);
        WiderNumbers(recs, streams, pending, base, served);
        AddServed(recs, r, streams, pending, base, served + 1);
        AddReturned(recs, r, returned, ended);
        if ordered && pending == [] {
          OrderServed(recs, r, pending, base, served);
        }
        recs, streams, credit, served := recs + [r], streams[r.id := h], credit - 1, served + 1;
      } else {
        AddWaiting(recs, streams, pending, base, served);
        AddReturned(recs, NewLocal(), returned, ended);
        if ordered {
          OrderWaiting(recs, pending);
        }
        recs, pending := recs + [NewLocal()], pending + [h];
      }
    }

    /** ngtcp2 opens the stream at the head of the queue: it gets the next id, and nothing else about it changes. */
    method ServeOne()
      requires Valid() && !gone && pending != [] && credit > 0
      modifies this`recs, this`streams, this`pending, this`credit, this`served
      ensures Valid() && pending == old(pending)[1..] && credit == old(credit) - 1 && served == old(served) + 1
      ensures var h, id := old(pending)[0], base + 4 * old(served);
        && h < |old(recs)| && recs == old(recs)[h := old(recs)[h].(id := id, ready := true)]
        && streams == old(streams)[id := h]
      ensures Orderly(old(recs), old(pending)) ==> Orderly(recs, pending)
    {
      hide Numbered, Placed, Returned, Orderly, CloseOnce;
      var h, id := pending[0], base + 4 * served;
      ServeFirst(recs, streams, pending, base, served);
      ServeReturned(recs, streams, pending, base, served, returned, ended);
      if Orderly(recs, pending) {
        OrderFirst(recs, pending, base, served);
      }
      recs := recs[h := recs[h].(id := id, ready := true)];
      streams := streams[id := h];
      pending := pending[1..];
      credit, served := credit - 1, served + 1;
    }

    /** check_pending_streams: serve from the front, at most `available` of them and only while there is credit. */
    method CheckPendingStreams(available: int)
      requires Valid() && !gone
      modifies this`recs, this`streams, this`pending, this`credit, this`served
      ensures Valid() && |recs| == |old(recs)|
      ensures var k := Min(Min(|old(pending)|, Max0(available)), old(credit));
        && pending == old(pending)[k..] && credit == old(credit) - k && served == old(served) + k
        && ServedFirst(old(recs), old(pending), k, base, old(served), recs)
      ensures Orderly(old(recs), old(pending)) ==> Orderly(recs, pending)
    {
      hide Consistent, Returned, Orderly, ServedFirst, Shut;
      assert Distinct(pending) by { SomeoneHeld(recs, streams, pending, base, served); }
      var popped := 0;
      ServedNone(recs, pending, base, served);
      while pending != [] && popped < available
        invariant Valid() && |recs| == |old(recs)|
        invariant 0 <= popped <= Min(Min(|old(pending)|, Max0(available)), old(credit))
        invariant pending == old(pending)[popped..] && credit == old(credit) - popped && served == old(served) + popped
        invariant ServedFirst(old(recs), old(pending), popped, base, old(served), recs)
        invariant Orderly(old(recs), old(pending)) ==> Orderly(recs, pending)
      {
        if credit == 0 {
          return;
        }
        SomeoneHeld(recs, streams, pending, base, served);
        ServedOneMore(old(recs), old(pending), popped, base, old(served), recs);
        ServeOne();
        popped := popped + 1;
      }
    }

    /**
     * extend_max_local_streams_bidi, called by ngtcp2 after the peer raised the limit. Order survives exactly when the
     * credit survives its narrowing to int, or the narrowed value covers everybody who waits.
     */
    method ExtendMaxLocalStreams(extra: nat)
      requires Valid() && !gone
      modifies this`recs, this`streams, this`pending, this`credit, this`served
      ensures Valid() && |recs| == |old(recs)|
      ensures var k := Released(|old(pending)|, old(credit) + extra);
        && k <= |old(pending)| && pending == old(pending)[k..] && credit == old(credit) + extra - k && served == old(served) + k
        && ServedFirst(old(recs), old(pending), k, base, old(served), recs)
      ensures InOrder(old(recs), old(pending), old(credit)) ==>
        (InOrder(recs, pending, credit) <==>
          old(credit) + extra < 0x8000_0000 || |old(pending)| <= Max0(Narrow(old(credit) + extra)))
    {
      hide Numbered, Placed, Returned, Orderly, Consistent, Narrow, ServedFirst, Shut;
      ServedNone(recs, pending, base, served);
      credit := credit + extra;
      ReleaseSuffices(|pending|, credit);
      NarrowZero();
      var remaining := credit;
      if remaining > 0 {
        CheckPendingStreams(Narrow(remaining));
      }
    }

    /** stream_opened: the peer's stream `id`; a non-zero answer of the open callback closes it and drops it. */
    method StreamOpened(id: int, refuse: bool)
      requires Valid() && !gone && id >= 0 && id % 4 == 1 - base && id !in Ids(recs)
      modifies this`recs, this`streams, this`shut
      ensures Valid() && shut == if refuse then old(shut) + {|old(recs)|} else old(shut)
      ensures recs == old(recs) + [if refuse then NewRemote(id).(closing := true, shutdown := true, closedHere := true, refused := true, destroyed := true)
                                   else NewRemote(id)]
      ensures streams == if refuse then old(streams) else old(streams)[id := |old(recs)|]
      ensures Orderly(old(recs), pending) ==> Orderly(recs, pending)
    {
      hide Numbered, Placed, Returned, Orderly;
      var r := NewRemote(id);
      if refuse {
        r := r.(closing := true, shutdown := true, closedHere := true, refused := true, destroyed := true);
      }
      forall k | 0 <= k < |recs| ensures recs[k].id != id {
        assert recs[k].id in Ids(recs);
      }
      AddServed(recs, r, streams, pending, base, served);
      AddReturned(recs, r, returned, ended);
      if Orderly(recs, pending) {
        OrderServed(recs, r, pending, base, served);
      }
      if !refuse {
        streams := streams[id := |recs|];
      } else {
        shut := shut + {|recs|};
      }
      recs := recs + [r];
    }

    /** stream_closed, for stream_close and stream_reset alike. An unknown id (refused or already erased) is ignored. */
    method StreamClosed(id: int)
      requires Valid() && !gone
      modifies this`recs, this`streams, this`returned, this`ended
      ensures Valid() && ended == if id >= 0 && id in Ids(old(recs)) then old(ended) + {id} else old(ended)
      ensures id !in old(streams) ==> recs == old(recs) && streams == old(streams) && returned == old(returned)
      ensures id in old(streams) ==>
        var h := old(streams)[id];
        && h < |old(recs)| && recs == old(recs)[h := End(old(recs)[h]).(erased := true)] && streams == old(streams) - {id}
        && returned == if old(recs)[h].local then old(returned) else old(returned) + multiset{id}
      ensures Orderly(old(recs), pending) ==> Orderly(recs, pending)
    {
      hide Numbered, Placed, Returned, Orderly;
      if id !in streams {
        if id >= 0 && id in Ids(recs) {
          MissedReturned(recs, streams, pending, base, served, returned, ended, id);
          ended := ended + {id};
        }
        return;
      }
      var h := streams[id];
      var r := End(recs[h]).(erased := true);
      EraseKeeps(recs, streams, pending, base, served, id);
      InTableIs(recs, streams, pending, base, served, id);
      EraseReturned(recs, h, returned, ended, base, served);
      if Orderly(recs, pending) {
        OrderReplace(recs, h, r, pending);
      }
      if !recs[h].local {
        returned := returned + multiset{id};
      }
      recs, ended := recs[h := r], ended + {id};
      streams := streams - {id};
    }

    /**
     * ~Stream, once neither the table nor the pending queue holds the object. For a stream the connection left behind
     * this is what runs the close callback.
     */
    method Destroy(h: nat)
      requires Valid() && h < |recs| && h !in pending && !InTable(recs, streams, h)
      modifies this`recs
      ensures Valid() && recs == old(recs)[h := End(old(recs)[h]).(destroyed := true)]
      ensures Orderly(old(recs), pending) ==> Orderly(recs, pending)
    {
      hide Numbered, Placed, Returned, Orderly;
      var r := End(recs[h]).(destroyed := true);
      DestroyKeeps(recs, streams, pending, base, served, h);
      ReplaceReturned(recs, h, r, returned, ended);
      if Orderly(recs, pending) {
        OrderReplace(recs, h, r, pending);
      }
      recs := recs[h := r];
    }

    /** A container of the connection gives up one stream. */
    method Release(h: nat, kept: bool)
      requires Valid() && gone && h < |recs| && Held(recs, streams, pending, h) && (h in pending ==> h == pending[0])
      modifies this`recs, this`streams, this`pending
      ensures Valid() && recs == old(recs)[h := Orphan(old(recs)[h], kept)]
      ensures pending == if h in old(pending) then old(pending)[1..] else old(pending)
      ensures streams == if h in old(pending) then old(streams) else old(streams) - {old(recs)[h].id}
      ensures Orderly(old(recs), old(pending)) ==> Orderly(recs, pending)
    {
      hide Numbered, Placed, Returned, Orderly, Orphan, CloseOnce;
      var r, queued, id := Orphan(recs[h], kept), h in pending, recs[h].id;
      OrphanKeeps(recs, streams, if queued then streams else streams - {id}, pending, if queued then pending[1..] else pending, base, served, h, kept);
      OrphanOnce(recs[h], kept) by { assert CloseOnce(recs[h]); }
      ReplaceReturned(recs, h, r, returned, ended);
      if Orderly(recs, pending) {
        OrderReplace(recs, h, r, pending);
        if queued {
          OrderTail(recs[h := r], pending);
        }
      }
      recs := recs[h := r];
      if queued {
        pending := pending[1..];
      } else {
        streams := streams - {id};
      }
    }

    /**
     * The connection is destroyed: first the pending queue goes, then the table, stream by stream. Every stream still
     * held there is destroyed on the spot unless the user keeps a handle on it.
     */
    method Teardown(kept: set<nat>)
      requires Valid() && !gone
      modifies this`recs, this`streams, this`pending, this`gone
      ensures Valid() && gone && streams == map[] && pending == []
      ensures Drained(old(recs), old(streams), old(pending), recs, map[], [], kept)
      ensures Orderly(old(recs), old(pending)) ==> Orderly(recs, pending)
    {
      hide Consistent, Returned, Orderly, Orphan, CloseOnce, Drained;
      gone := true;
      NothingDrained(recs, streams, pending, kept);
      while pending != [] || streams.Keys != {}
        invariant Valid() && gone && Drained(old(recs), old(streams), old(pending), recs, streams, pending, kept)
        invariant Orderly(old(recs), old(pending)) ==> Orderly(recs, pending)
        decreases |pending|, |streams|
      {
        SomeoneHeld(recs, streams, pending, base, served);
        var h;
        if pending != [] {
          h := pending[0];
        } else {
          SomeElement(streams.Keys);
          var id :| id in streams.Keys;
          h := streams[id];
        }
        HeldAfter(recs, streams, pending, base, served, h);
        ghost var recs1, streams1, pending1 := recs, streams, pending;
        SameIds(old(recs), old(streams), old(pending), recs1, streams1, pending1, kept);
        Release(h, h in kept);
        DrainStep(old(recs), old(streams), old(pending), recs1, streams1, pending1, streams, pending, kept, h);
      }
    }
  }

  lemma {:induction false} NothingDrained(recs: seq<Rec>, streams: map<int, nat>, pending: seq<nat>, kept: set<nat>)
    ensures Drained(recs, streams, pending, recs, streams, pending, kept)
  {
    hide Held, Orphan;
  }

  lemma {:induction false} NarrowZero()
    ensures Narrow(0) == 0
  {
  }

  lemma {:induction false} InTableIs(recs: seq<Rec>, streams: map<int, nat>, pending: seq<nat>, base: nat, served: nat, id: int)
    requires Consistent(recs, streams, pending, base, served) && id in streams
    ensures streams[id] < |recs| && recs[streams[id]].id == id >= 0 && !recs[streams[id]].erased && !recs[streams[id]].refused && Numbered(recs, base, served)
  {
    hide CloseOnce, Numbered;
    assert Placed(recs, streams, pending, streams[id]);
  }

  lemma {:induction false} WiderNumbers(recs: seq<Rec>, streams: map<int, nat>, pending: seq<nat>, base: nat, served: nat)
    requires Consistent(recs, streams, pending, base, served)
    ensures Consistent(recs, streams, pending, base, served + 1)
  {
    hide Placed, CloseOnce;
  }

  lemma {:induction false} ServeReturned(recs: seq<Rec>, streams: map<int, nat>, pending: seq<nat>, base: nat, served: nat, returned: multiset<int>, ended: set<int>)
    requires Consistent(recs, streams, pending, base, served) && Returned(recs, returned, ended) && pending != []
    ensures Returned(recs[pending[0] := recs[pending[0]].(id := base + 4 * served, ready := true)], returned, ended)
  {
    var h := pending[0];
    var r := recs[h].(id := base + 4 * served, ready := true);
    assert Placed(recs, streams, pending, h);
    FreshId(recs, streams, pending, base, served);
    hide Placed, CloseOnce, Numbered, Returned;
    assert base + 4 * served !in Ids(recs);
    NewIdReturned(recs, h, r, returned, ended);
  }

  lemma {:induction false} NewIdReturned(recs: seq<Rec>, h: nat, r: Rec, returned: multiset<int>, ended: set<int>)
    requires Returned(recs, returned, ended) && h < |recs| && recs[h].id < 0 && !r.erased && r.local && r.id !in Ids(recs)
    ensures Returned(recs[h := r], returned, ended)
  {
    IdsKept(recs, h, r);
    hide Ids;
  }

  lemma {:induction false} IdsKept(recs: seq<Rec>, h: nat, r: Rec)
    requires h < |recs| && recs[h].id < 0
    ensures forall id :: id >= 0 && id in Ids(recs) ==> id in Ids(recs[h := r])
  {
    var recs' := recs[h := r];
    forall id | id >= 0 && id in Ids(recs) ensures id in Ids(recs') {
      var k :| 0 <= k < |recs| && recs[k].id == id;
      assert recs'[k].id == id;
    }
  }

  /** Anything that can happen to the streams of a connection. */
  datatype TableEvent = NewStream | Extend(extra: nat) | PeerOpens(id: int, refuse: bool) | PeerEnds(id: int)
                      | LocalClose(h: nat) | LetGo(h: nat) | Vanish(kept: set<nat>)

  function TotalExtra(es: seq<TableEvent>): nat {
    if es == [] then 0 else TotalExtra(es[..|es| - 1]) + if es[|es| - 1].Extend? then es[|es| - 1].extra else 0
  }

  lemma {:induction false} ExtraStep(es: seq<TableEvent>, i: nat)
    requires i < |es|
    ensures TotalExtra(es[..i + 1]) == TotalExtra(es[..i]) + if es[i].Extend? then es[i].extra else 0
    ensures TotalExtra(es[..i + 1]) <= TotalExtra(es)
    decreases |es| - i
  {
    assert es[..i + 1][..i] == es[..i];
    if i + 1 < |es| {
      ExtraStep(es, i + 1);
    } else {
      assert es[..i + 1] == es;
    }
  }

  /** The table at one moment. */
  datatype State = State(recs: seq<Rec>, streams: map<int, nat>, pending: seq<nat>, credit: nat, served: nat, returned: multiset<int>, gone: bool)

  ghost function Now(t: Table): State
    reads t
  {
    State(t.recs, t.streams, t.pending, t.credit, t.served, t.returned, t.gone)
  }

  predicate MayOpen(id: int, base: nat, a: State) { id >= 0 && id % 4 == 1 - base && id !in Ids(a.recs) }

  /** What one event does to the table; a connection that is gone does nothing any more. */
  ghost predicate TableEffect(e: TableEvent, base: nat, a: State, b: State) {
    match e
    case NewStream =>
      var h, id := |a.recs|, base + 4 * a.served;
      if a.gone then b == a
      else if a.credit > 0 then
        b == a.(recs := a.recs + [NewLocal().(id := id, ready := true)], streams := a.streams[id := h], credit := a.credit - 1, served := a.served + 1)
      else b == a.(recs := a.recs + [NewLocal()], pending := a.pending + [h])
    case Extend(extra) =>
      var k := Released(|a.pending|, a.credit + extra);
      if a.gone then b == a
      else
        && k <= |a.pending| && ServedFirst(a.recs, a.pending, k, base, a.served, b.recs) && b.pending == a.pending[k..]
        && b.credit == a.credit + extra - k && b.served == a.served + k && b.returned == a.returned && !b.gone
    case PeerOpens(id, refuse) =>
      if a.gone || !MayOpen(id, base, a) then b == a
      else if refuse then
        b == a.(recs := a.recs + [NewRemote(id).(closing := true, shutdown := true, closedHere := true, refused := true, destroyed := true)])
      else b == a.(recs := a.recs + [NewRemote(id)], streams := a.streams[id := |a.recs|])
    case PeerEnds(id) =>
      if a.gone || id !in a.streams || a.streams[id] >= |a.recs| then b == a
      else
        var h := a.streams[id];
        b == a.(recs := a.recs[h := End(a.recs[h]).(erased := true)], streams := a.streams - {id},
                returned := if a.recs[h].local then a.returned else a.returned + multiset{id})
    case LocalClose(h) =>
      if h >= |a.recs| || a.recs[h].closing then b == a
      else b == a.(recs := a.recs[h := a.recs[h].(closing := true, shutdown := true, closedHere := true)])
    case LetGo(h) =>
      if h >= |a.recs| || Held(a.recs, a.streams, a.pending, h) then b == a
      else b == a.(recs := a.recs[h := End(a.recs[h]).(destroyed := true)])
    case Vanish(kept) =>
      if a.gone then b == a
      else
        && Drained(a.recs, a.streams, a.pending, b.recs, map[], [], kept)
        && b == a.(recs := b.recs, streams := map[], pending := [], gone := true)
  }

  ghost predicate TableHistory(es: seq<TableEvent>, base: nat, trail: seq<State>) {
    |trail| == |es| + 1 && forall i :: 0 <= i < |es| ==> TableEffect(es[i], base, trail[i], trail[i + 1])
  }

  lemma {:induction false} TableHistoryNext(es: seq<TableEvent>, i: nat, base: nat, trail: seq<State>, b: State)
    requires i < |es| && TableHistory(es[..i], base, trail) && TableEffect(es[i], base, trail[i], b)
    ensures TableHistory(es[..i + 1], base, trail + [b])
  {
    hide TableEffect;
    var longer := trail + [b];
    forall k | 0 <= k < i + 1 ensures TableEffect(es[..i + 1][k], base, longer[k], longer[k + 1]) {
      if k < i {
        assert TableEffect(es[..i][k], base, trail[k], trail[k + 1]);
      }
    }
  }

  lemma {:induction false} NoTableHistory(es: seq<TableEvent>, base: nat, a: State)
    ensures TableHistory(es[..0], base, [a])
  {
  }

  /**
   * Every run of the table, up to the end of the connection and beyond: each stream's close callback obeys close-once,
   * so a stream on which close() took effect never has a call, and any other that is destroyed has had exactly one; peer
   * credit went back, once, exactly for the remote streams that were accepted and then ended; every stream is where its
   * state says; and as long as the credit ever granted fits an int, local ids rise in creation order and nobody waits
   * while credit is left.
   */
  method RunTable(t: Table, es: seq<TableEvent>) returns (ghost trail: seq<State>)
    requires t.Valid()
    modifies t
    ensures t.Valid()
    ensures TableHistory(es, t.base, trail) && trail[0] == old(Now(t)) && trail[|es|] == Now(t)
    ensures forall h :: 0 <= h < |t.recs| ==> CloseOnce(t.recs[h])
    ensures old(t.shut) <= t.shut && forall h :: h in t.shut ==> h < |t.recs| && t.recs[h].calls == 0
    ensures forall h :: 0 <= h < |t.recs| && t.recs[h].destroyed ==> t.recs[h].calls == if h in t.shut then 0 else 1
    ensures forall h :: 0 <= h < |t.recs| && !t.recs[h].local ==>
      t.returned[t.recs[h].id] == if t.recs[h].id in t.ended && !t.recs[h].refused then 1 else 0
    ensures forall id :: t.returned[id] <= 1
    ensures old(InOrder(t.recs, t.pending, t.credit)) && old(t.credit) + TotalExtra(es) < 0x8000_0000 ==> InOrder(t.recs, t.pending, t.credit)
  {
    hide Consistent, Returned, Orderly, CloseOnce, TotalExtra, Shut, TableEffect, TableHistory;
    ghost var fits := old(InOrder(t.recs, t.pending, t.credit)) && old(t.credit) + TotalExtra(es) < 0x8000_0000;
    NoExtra(es);
    trail := [Now(t)];
    NoTableHistory(es, t.base, Now(t));
    for i := 0 to |es|
      invariant t.Valid() && old(t.shut) <= t.shut
      invariant TableHistory(es[..i], t.base, trail) && |trail| == i + 1 && trail[0] == old(Now(t)) && trail[i] == Now(t)
      invariant t.credit <= old(t.credit) + TotalExtra(es[..i])
      invariant fits ==> InOrder(t.recs, t.pending, t.credit)
    {
      ExtraStep(es, i);
      ServeTable(t, es[i]);
      TableHistoryNext(es, i, t.base, trail, Now(t));
      trail := trail + [Now(t)];
    }
    assert es[..|es|] == es;
    FinalPromises(t.recs, t.streams, t.pending, t.base, t.served, t.returned, t.ended, t.shut);
  }

  method ServeTable(t: Table, e: TableEvent)
    requires t.Valid()
    modifies t
    ensures t.Valid() && t.credit <= old(t.credit) + (if e.Extend? then e.extra else 0) && old(t.shut) <= t.shut
    ensures TableEffect(e, t.base, old(Now(t)), Now(t))
    ensures old(InOrder(t.recs, t.pending, t.credit)) && (e.Extend? ==> old(t.credit) + e.extra < 0x8000_0000) ==>
      InOrder(t.recs, t.pending, t.credit)
  {
    hide Consistent, Returned, Orderly, Narrow, CloseOnce, Drained, Shut, ServedFirst, Placed, Numbered;
    match e {
      case LocalClose(h) =>
        if h < |t.recs| {
          t.Close(h);
        }
      case LetGo(h) =>
        if h < |t.recs| && h !in t.pending && !InTable(t.recs, t.streams, h) {
          t.Destroy(h);
        }
      case _ =>
        if !t.gone {
          OnConnection(t, e);
        }
    }
  }

  /** What only a living connection does. */
  method OnConnection(t: Table, e: TableEvent)
    requires t.Valid() && !t.gone && !e.LocalClose? && !e.LetGo?
    modifies t
    ensures t.Valid() && t.credit <= old(t.credit) + (if e.Extend? then e.extra else 0) && old(t.shut) <= t.shut
    ensures TableEffect(e, t.base, old(Now(t)), Now(t))
    ensures old(InOrder(t.recs, t.pending, t.credit)) && (e.Extend? ==> old(t.credit) + e.extra < 0x8000_0000) ==>
      InOrder(t.recs, t.pending, t.credit)
  {
    hide Consistent, Returned, Orderly, Narrow, CloseOnce, Drained, Shut, ServedFirst, Released;
    match e {
      case NewStream => var _ := t.GetNewStream();
      case Extend(extra) => t.ExtendMaxLocalStreams(extra);
      case PeerOpens(id, refuse) =>
        if id >= 0 && id % 4 == 1 - t.base && id !in Ids(t.recs) {
          t.StreamOpened(id, refuse);
        }
      case PeerEnds(id) => t.StreamClosed(id);
      case Vanish(kept) => t.Teardown(kept);
    }
  }

  lemma {:induction false} NoExtra(es: seq<TableEvent>)
    ensures TotalExtra(es[..0]) == 0
  {
  }

  lemma {:induction false} FinalPromises(recs: seq<Rec>, streams: map<int, nat>, pending: seq<nat>, base: nat, served: nat, returned: multiset<int>, ended: set<int>, shut: set<nat>)
    requires Consistent(recs, streams, pending, base, served) && Returned(recs, returned, ended) && Shut(recs, shut)
    ensures forall h :: h in shut ==> h < |recs| && recs[h].calls == 0
    ensures forall h :: 0 <= h < |recs| ==> CloseOnce(recs[h])
    ensures forall h :: 0 <= h < |recs| && recs[h].destroyed ==> recs[h].calls == if h in shut then 0 else 1
    ensures forall h :: 0 <= h < |recs| && !recs[h].local ==>
      recs[h].id >= 0 && returned[recs[h].id] == if recs[h].id in ended && !recs[h].refused then 1 else 0
    ensures forall id :: returned[id] <= 1
  {
    forall h | 0 <= h < |recs|
      ensures (recs[h].destroyed ==> recs[h].calls == if h in shut then 0 else 1) && (h in shut ==> recs[h].calls == 0)
    {
      assert CloseOnce(recs[h]);
    }
    forall h | 0 <= h < |recs| && !recs[h].local ensures recs[h].id >= 0 {
      assert Placed(recs, streams, pending, h);
    }
    hide Placed, Numbered, CloseOnce;
    forall id ensures returned[id] <= 1 {
      if id in returned {
        var h :| 0 <= h < |recs| && recs[h].id == id;
      }
    }
  }
}
