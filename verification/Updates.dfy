/** Runs of updates: what the slots depend on. */
module Updates {
  import opened Wrappers
  import opened Books
  import opened Combined
  import opened MergeSpec
  import opened Uniqueness

  /** The slots after a sequence of updates. */
  function Fold(updates: seq<Snapshot>): (r: seq<Snapshot>)
    ensures |r| == NUM_SOURCES
  {
    if updates == [] then INITIAL_SLOTS
    else Updated(Fold(updates[..|updates| - 1]), updates[|updates| - 1])
  }

  /** The updates of one source, in order. */
  function OfSource(updates: seq<Snapshot>, source: SourceId): seq<Snapshot> {
    if updates == [] then []
    else OfSource(updates[..|updates| - 1], source) +
         if updates[|updates| - 1].source == source then [updates[|updates| - 1]] else []
  }

  function Last(updates: seq<Snapshot>): Option<Snapshot> {
    if updates == [] then None else Some(updates[|updates| - 1])
  }

  /** The last update of one source. */
  function LastFrom(updates: seq<Snapshot>, source: SourceId): Option<Snapshot> {
    Last(OfSource(updates, source))
  }

  /** The slots hold each source's last snapshot, the default where there is none. */
  function SlotsOf(last: SourceId -> Option<Snapshot>): seq<Snapshot> {
    [ if last(Bitstamp).Some? then last(Bitstamp).value else DEFAULT_SNAPSHOT,
      if last(Binance).Some? then last(Binance).value else DEFAULT_SNAPSHOT ]
  }

  /** Folding keeps exactly the last snapshot of every source. */
  lemma {:induction false} FoldKeepsLast(updates: seq<Snapshot>)
    ensures Fold(updates) == SlotsOf(source => LastFrom(updates, source))
  {
    if updates != [] {
      FoldKeepsLast(updates[..|updates| - 1]);
    }
  }

  lemma {:induction false} FoldValid(n: nat, updates: seq<Snapshot>)
    requires forall u :: u in updates ==> u.WithinDepth(n)
    ensures SlotsValid(n, Fold(updates))
  {
    if updates != [] {
      FoldValid(n, updates[..|updates| - 1]);
    }
  }

  /** Any two interleavings that keep the order of each source end in the same slots, and what is
      published from them agrees up to levels equal in price and amount. */
  lemma InterleavingIndependent(n: nat, u: seq<Snapshot>, v: seq<Snapshot>, s: Summary, s': Summary)
    requires forall source: SourceId :: LastFrom(u, source) == LastFrom(v, source)
    requires Published(n, Fold(u), s) && Published(n, Fold(v), s')
    ensures Fold(u) == Fold(v)
    ensures Equivalent(s.bids, s'.bids) && Equivalent(s.asks, s'.asks)
    ensures s.spread == s'.spread && s.arrivalTime == s'.arrivalTime
  {
    FoldKeepsLast(u);
    FoldKeepsLast(v);
    PublishedUnique(n, Fold(u), s, s');
  }

  /** The arrival time a slot contributes. */
  function Effective(s: Snapshot): nat { if s.IsEmpty() then 0 else s.arrivalTime }

  /** The published time is an upper bound of the non-empty slots' times, and one of them (or 0). */
  lemma {:induction false} LatestTimeIsMax(slots: seq<Snapshot>)
    ensures forall i :: 0 <= i < |slots| ==> Effective(slots[i]) <= LatestTime(slots)
    ensures LatestTime(slots) == 0 ||
      exists i :: 0 <= i < |slots| && !slots[i].IsEmpty() && slots[i].arrivalTime == LatestTime(slots)
  {
    if slots != [] {
      var front := slots[..|slots| - 1];
      LatestTimeIsMax(front);
      forall i | 0 <= i < |slots| ensures Effective(slots[i]) <= LatestTime(slots) {
        assert i < |front| ==> slots[i] == front[i];
      }
      if LatestTime(front) != 0 && LatestTime(slots) == LatestTime(front) {
        var i :| 0 <= i < |front| && !front[i].IsEmpty() && front[i].arrivalTime == LatestTime(front);
        assert slots[i] == front[i];
      } else {
        assert LatestTime(slots) == 0 || slots[|slots| - 1].arrivalTime == LatestTime(slots);
      }
    }
  }

  lemma LatestOfTwo(slots: seq<Snapshot>)
    requires |slots| == NUM_SOURCES
    ensures LatestTime(slots) ==
      if Effective(slots[0]) < Effective(slots[1]) then Effective(slots[1]) else Effective(slots[0])
  {
    assert slots[..1][..0] == [];
    assert LatestTime(slots[..1]) == Effective(slots[0]);
  }

  /** One update lowers the published time exactly when the replaced snapshot was alone the latest and
      the new one is empty or earlier. */
  lemma ArrivalDropsExactly(slots: seq<Snapshot>, snapshot: Snapshot)
    requires |slots| == NUM_SOURCES
    ensures var i := Index(snapshot.source);
      LatestTime(Updated(slots, snapshot)) < LatestTime(slots) <==>
      Effective(snapshot) < Effective(slots[i]) && Effective(slots[1 - i]) < Effective(slots[i])
  {
    LatestOfTwo(slots);
    LatestOfTwo(Updated(slots, snapshot));
  }

  /** No snapshot is empty, and the times of each source never decrease. */
  ghost predicate Timely(updates: seq<Snapshot>) {
    && (forall i :: 0 <= i < |updates| ==> !updates[i].IsEmpty())
    && (forall i, j :: 0 <= i < j < |updates| && updates[i].source == updates[j].source ==>
        updates[i].arrivalTime <= updates[j].arrivalTime)
  }

  lemma {:induction false} SlotFromUpdates(updates: seq<Snapshot>, i: nat)
    requires i < NUM_SOURCES
    ensures Fold(updates)[i] == DEFAULT_SNAPSHOT
      || exists j :: 0 <= j < |updates| && updates[j] == Fold(updates)[i] && Index(updates[j].source) == i
  {
    if updates != [] {
      var front := updates[..|updates| - 1];
      SlotFromUpdates(front, i);
      if Index(updates[|updates| - 1].source) == i {
        assert updates[|updates| - 1] == Fold(updates)[i];
      } else if Fold(front)[i] != DEFAULT_SNAPSHOT {
        var j :| 0 <= j < |front| && front[j] == Fold(front)[i] && Index(front[j].source) == i;
        assert updates[j] == front[j];
      }
    }
  }

  /** A timely update does not lower the time of its slot. */
  lemma TimelyStep(updates: seq<Snapshot>, j: nat)
    requires Timely(updates) && j < |updates|
    ensures LatestTime(Fold(updates[..j])) <= LatestTime(Updated(Fold(updates[..j]), updates[j]))
  {
    var front, u := updates[..j], updates[j];
    var i := Index(u.source);
    SlotFromUpdates(front, i);
    if Fold(front)[i] != DEFAULT_SNAPSHOT {
      var m :| 0 <= m < |front| && front[m] == Fold(front)[i] && Index(front[m].source) == i;
      assert updates[m] == front[m];
    }
    ArrivalDropsExactly(Fold(front), u);
  }

  /** Along a timely run the published time never decreases. */
  lemma {:induction false} ArrivalNeverDecreases(updates: seq<Snapshot>, i: nat, j: nat)
    requires Timely(updates) && i <= j <= |updates|
    ensures LatestTime(Fold(updates[..i])) <= LatestTime(Fold(updates[..j]))
    decreases j
  {
    if i < j {
      ArrivalNeverDecreases(updates, i, j - 1);
      assert updates[..j][..j - 1] == updates[..j - 1];
      TimelyStep(updates, j - 1);
    }
  }
}
