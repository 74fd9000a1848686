/** The values of the order book: levels, snapshots, summaries, and the order of a side. */
module Books {
  import opened Floats

  datatype SourceId = Bitstamp | Binance

  const NUM_SOURCES: nat := 2

  function Index(source: SourceId): nat {
    match source
    case Bitstamp => 0
    case Binance => 1
  }

  datatype PriceLevel = PriceLevel(price: F64, amount: F64)

  /** A level of the published summary, tagged with the exchange that supplied it. */
  datatype Level = Level(exchange: SourceId, price: F64, amount: F64)

  /** The value of a contributor snapshot: the levels up to the current depth. */
  datatype Snapshot = Snapshot(bids: seq<PriceLevel>, asks: seq<PriceLevel>, source: SourceId, arrivalTime: nat)
  {
    predicate IsEmpty() { bids == [] && asks == [] }

    function Levels(side: Side): seq<PriceLevel> {
      if side.Bid? then bids else asks
    }

    predicate WithinDepth(n: nat) { |bids| <= n && |asks| <= n }
  }

  /** The default snapshot that fills every slot at first, whatever the slot's index. */
  const DEFAULT_SNAPSHOT := Snapshot([], [], Bitstamp, 0)

  datatype Summary = Summary(spread: F64, bids: seq<Level>, asks: seq<Level>, arrivalTime: nat)

  datatype Side = Bid | Ask

  /** The key a price is ordered by: NaN counts as 0.0. */
  function Key(price: F64): F64 {
    if price.NaN? then ZERO else price
  }

  /** Key `a` comes strictly before key `b`: bids descend, asks ascend. */
  predicate Better(side: Side, a: F64, b: F64) {
    if side.Bid? then Lt(b, a) else Lt(a, b)
  }

  /** Level `a` may stand before level `b`: a better price, or the same price and at least the amount. */
  predicate MayPrecede(side: Side, a: Level, b: Level) {
    || Better(side, Key(a.price), Key(b.price))
    || (Key(a.price) == Key(b.price) && Ge(a.amount, b.amount))
  }

  ghost predicate Sorted(side: Side, levels: seq<Level>) {
    forall i, j :: 0 <= i < j < |levels| ==> MayPrecede(side, levels[i], levels[j])
  }

  /** The levels of one source as they enter the merge. */
  function Tag(source: SourceId, levels: seq<PriceLevel>): (r: seq<Level>)
    ensures |r| == |levels|
    ensures forall i :: 0 <= i < |r| ==> r[i] == Level(source, levels[i].price, levels[i].amount)
  {
    seq(|levels|, i requires 0 <= i < |levels| => Level(source, levels[i].price, levels[i].amount))
  }

  /** All levels of a side, slot after slot; an empty snapshot contributes none. */
  function AllLevels(side: Side, slots: seq<Snapshot>): seq<Level> {
    if slots == [] then []
    else AllLevels(side, slots[..|slots| - 1]) + Tag(slots[|slots| - 1].source, slots[|slots| - 1].Levels(side))
  }

  /** The latest arrival time over the non-empty slots, 0 when there is none. */
  function LatestTime(slots: seq<Snapshot>): nat {
    if slots == [] then 0
    else
      var rest := LatestTime(slots[..|slots| - 1]);
      var last := slots[|slots| - 1];
      if !last.IsEmpty() && last.arrivalTime > rest then last.arrivalTime else rest
  }
}
