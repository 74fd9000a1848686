/** The combined summary: one snapshot slot per source, and its conversion to the published form. */
module Combined {
  import opened Floats
  import opened Books
  import opened MergeSpec
  import opened PriceMaps
  import opened Buckets

  /** Slot `i` is empty or holds the source of index `i`, and no slot is deeper than `n`. */
  ghost predicate SlotsValid(n: nat, slots: seq<Snapshot>) {
    && |slots| == NUM_SOURCES
    && forall i :: 0 <= i < |slots| ==> slots[i].WithinDepth(n) && (slots[i].IsEmpty() || Index(slots[i].source) == i)
  }

  const INITIAL_SLOTS: seq<Snapshot> := [DEFAULT_SNAPSHOT, DEFAULT_SNAPSHOT]

  /** The slots after one update: the source's own slot is overwritten. */
  function Updated(slots: seq<Snapshot>, snapshot: Snapshot): (r: seq<Snapshot>)
    requires |slots| == NUM_SOURCES
    ensures |r| == NUM_SOURCES
  {
    slots[Index(snapshot.source) := snapshot]
  }

  datatype Conversion = Converted(summary: Summary) | Panicked

  class CombinedSummary {
    const n: nat
    const sources: array<Snapshot>

    ghost predicate Valid() reads this, sources {
      SlotsValid(n, sources[..])
    }

    constructor (n: nat)
      ensures Valid() && fresh(sources) && this.n == n && sources[..] == INITIAL_SLOTS
    {
      this.n := n;
      sources := new Snapshot[NUM_SOURCES](_ => DEFAULT_SNAPSHOT);
    }

    method UpdateSnapshot(snapshot: Snapshot)
      requires Valid() && snapshot.WithinDepth(n)
      modifies sources
      ensures Valid()
      ensures sources[..] == Updated(old(sources[..]), snapshot)
    {
      sources[Index(snapshot.source)] := snapshot;
    }

    /** Converts the slots: a panic happens exactly when `Panics` says so. */
    method ToProto() returns (r: Conversion)
      requires Valid()
      ensures r.Panicked? <==> Panics(n, sources[..])
      ensures r.Converted? ==> Published(n, sources[..], r.summary)
    {
      var ok, bidMap, askMap, latestTime := FillMaps();
      if !ok { return Panicked; }
      NoOverflow(bidMap);
      NoOverflow(askMap);
      var bids, asks;
      ok, bids := TakeSorted(bidMap);
      if !ok { return Panicked; }
      ok, asks := TakeSorted(askMap);
      if !ok { return Panicked; }
      r := Converted(Summary(Spread(bids, asks), bids, asks, latestTime));
    }

    /** The loop over the slots: fills both maps and finds the latest arrival; not ok is a full bucket. */
    method FillMaps() returns (ok: bool, bidMap: PriceMap, askMap: PriceMap, latestTime: nat)
      requires Valid()
      ensures bidMap.side == Bid && bidMap.n == n && askMap.side == Ask && askMap.n == n
      ensures ok ==> bidMap.Valid() && bidMap.pushed == AllLevels(Bid, sources[..])
      ensures ok ==> askMap.Valid() && askMap.pushed == AllLevels(Ask, sources[..])
      ensures ok ==> latestTime == LatestTime(sources[..])
      ensures !ok ==> Overflows(n, AllLevels(Bid, sources[..])) || Overflows(n, AllLevels(Ask, sources[..]))
    {
      ghost var slots := sources[..];
      bidMap := new PriceMap(Bid, n);
      askMap := new PriceMap(Ask, n);
      ok, latestTime := true, 0;
      for i := 0 to sources.Length
        invariant sources[..] == slots
        invariant ok && fresh(bidMap) && fresh(askMap) && bidMap != askMap
        invariant bidMap.Valid() && bidMap.pushed == AllLevels(Bid, slots[..i])
        invariant askMap.Valid() && askMap.pushed == AllLevels(Ask, slots[..i])
        invariant latestTime == LatestTime(slots[..i])
      {
        var snapshot := sources[i];
        assert slots[..i + 1][..i] == slots[..i];
        if snapshot.IsEmpty() {
          continue;
        }
        latestTime := if snapshot.arrivalTime > latestTime then snapshot.arrivalTime else latestTime;
        ok := PushSnapshot(bidMap, askMap, snapshot);
        if !ok {
          if Overflows(n, AllLevels(Bid, slots[..i]) + Tag(snapshot.source, snapshot.bids)) {
            OverflowLasts(Bid, n, slots, i);
          } else {
            OverflowLasts(Ask, n, slots, i);
          }
          return;
        }
      }
      assert slots[..sources.Length] == slots;
    }
  }

  /** The two inner loops of the conversion, over the bids and the asks of one snapshot. */
  method PushSnapshot(bidMap: PriceMap, askMap: PriceMap, snapshot: Snapshot) returns (ok: bool)
    requires bidMap != askMap && bidMap.Valid() && askMap.Valid()
    modifies bidMap, askMap
    ensures ok ==> bidMap.Valid() && bidMap.pushed == old(bidMap.pushed) + Tag(snapshot.source, snapshot.bids)
    ensures ok ==> askMap.Valid() && askMap.pushed == old(askMap.pushed) + Tag(snapshot.source, snapshot.asks)
    ensures !ok ==>
      || Overflows(bidMap.n, old(bidMap.pushed) + Tag(snapshot.source, snapshot.bids))
      || Overflows(askMap.n, old(askMap.pushed) + Tag(snapshot.source, snapshot.asks))
  {
    ok := PushAll(bidMap, snapshot.source, snapshot.bids);
    if ok {
      ok := PushAll(askMap, snapshot.source, snapshot.asks);
    }
  }

  /** Every level of one side of a snapshot into the map of that side. */
  method PushAll(prices: PriceMap, source: SourceId, levels: seq<PriceLevel>) returns (ok: bool)
    requires prices.Valid()
    modifies prices
    ensures ok <==> !Overflows(prices.n, old(prices.pushed) + Tag(source, levels))
    ensures ok ==> prices.Valid() && prices.pushed == old(prices.pushed) + Tag(source, levels)
  {
    ghost var before, tagged := prices.pushed, Tag(source, levels);
    ok := true;
    for i := 0 to |levels|
      invariant ok && prices.Valid() && prices.pushed == before + tagged[..i]
    {
      var level := Level(source, levels[i].price, levels[i].amount);
      assert before + tagged[..i + 1] == before + tagged[..i] + [level];
      ok := prices.Push(level);
      if !ok {
        OverflowExtends(prices.n, before + tagged[..i], level, tagged[i + 1..]);
        assert before + tagged == before + tagged[..i] + [level] + tagged[i + 1..];
        return;
      }
    }
    assert tagged[..|levels|] == tagged;
    NoOverflow(prices);
  }

  lemma NoOverflow(prices: PriceMap)
    requires prices.Valid()
    ensures !Overflows(prices.n, prices.pushed)
  {
  }

  /** A bucket that is full when `level` arrives stays over capacity whatever follows. */
  lemma OverflowExtends(n: nat, before: seq<Level>, level: Level, rest: seq<Level>)
    requires |AtKey(before, Key(level.price))| >= n
    ensures Overflows(n, before + [level] + rest)
  {
    var k := Key(level.price);
    AtKeyAppend(before + [level], rest, k);
    assert (before + [level])[..|before|] == before;
    assert |AtKey(before + [level] + rest, k)| > n;
  }

  lemma {:induction false} OverflowLasts(side: Side, n: nat, slots: seq<Snapshot>, i: nat)
    requires i < |slots| && Overflows(n, AllLevels(side, slots[..i]) + Tag(slots[i].source, slots[i].Levels(side)))
    ensures Overflows(n, AllLevels(side, slots))
    decreases |slots|
  {
    if i == |slots| - 1 {
      assert slots[..i] == slots[..|slots| - 1];
    } else {
      var front := slots[..|slots| - 1];
      assert front[..i] == slots[..i];
      OverflowLasts(side, n, front, i);
      var k: F64 :| |AtKey(AllLevels(side, front), k)| > n;
      AtKeyAppend(AllLevels(side, front), Tag(slots[|slots| - 1].source, slots[|slots| - 1].Levels(side)), k);
      assert |AtKey(AllLevels(side, slots), k)| > n;
    }
  }
}
