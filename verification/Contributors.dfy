/** The buffers a parser fills: fixed-capacity levels and the snapshot of one source. */
module Contributors {
  import opened Floats
  import opened Books

  class ContributorLevels {
    const levels: array<PriceLevel>
    var depth: nat

    ghost predicate Valid() reads this { depth <= levels.Length }

    constructor (n: nat)
      ensures Valid() && fresh(levels) && levels.Length == n && depth == 0
    {
      levels := new PriceLevel[n](_ => PriceLevel(ZERO, ZERO));
      depth := 0;
    }

    /** The levels up to the current depth. */
    function AsSlice(): seq<PriceLevel>
      requires Valid()
      reads this, levels
    {
      levels[..depth]
    }

    /** Appends a level; beyond the capacity the level is dropped silently. */
    method Push(level: PriceLevel)
      requires Valid()
      modifies this, levels
      ensures Valid()
      ensures AsSlice() == if |old(AsSlice())| < levels.Length then old(AsSlice()) + [level] else old(AsSlice())
    {
      if depth < levels.Length {
        levels[depth] := level;
        depth := depth + 1;
      }
    }
  }

  class ContributorSnapshot {
    const bids: ContributorLevels
    const asks: ContributorLevels
    const source: SourceId
    const arrivalTime: nat

    ghost predicate Valid()
      reads this, bids, asks
    {
      bids.Valid() && asks.Valid() && bids != asks && bids.levels != asks.levels
    }

    ghost function Repr(): set<object> reads this { {bids, asks, bids.levels, asks.levels} }

    constructor (n: nat, source: SourceId, arrivalTime: nat)
      ensures Valid() && fresh(Repr())
      ensures bids.levels.Length == n && asks.levels.Length == n
      ensures View() == Snapshot([], [], source, arrivalTime)
    {
      this.bids := new ContributorLevels(n);
      this.asks := new ContributorLevels(n);
      this.source, this.arrivalTime := source, arrivalTime;
    }

    /** The snapshot as the value that is copied into the channels and slots. */
    function View(): Snapshot
      requires Valid()
      reads this, bids, asks, bids.levels, asks.levels
    {
      Snapshot(bids.AsSlice(), asks.AsSlice(), source, arrivalTime)
    }

    method PushBid(price: F64, amount: F64)
      requires Valid()
      modifies bids, bids.levels
      ensures Valid()
      ensures bids.AsSlice() ==
        old(bids.AsSlice()) + if |old(bids.AsSlice())| < bids.levels.Length then [PriceLevel(price, amount)] else []
    {
      bids.Push(PriceLevel(price, amount));
    }

    method PushAsk(price: F64, amount: F64)
      requires Valid()
      modifies asks, asks.levels
      ensures Valid()
      ensures asks.AsSlice() ==
        old(asks.AsSlice()) + if |old(asks.AsSlice())| < asks.levels.Length then [PriceLevel(price, amount)] else []
    {
      asks.Push(PriceLevel(price, amount));
    }
  }
}
