/** What one side of a summary is: the levels at the `n` best distinct prices, sorted. */
module MergeSpec {
  import opened Floats
  import opened Books

  /** The distinct keyed prices in `all` that are strictly better than `k`. */
  function BetterKeys(side: Side, all: seq<Level>, k: F64): set<F64> {
    set l | l in all && Better(side, Key(l.price), k) :: Key(l.price)
  }

  /** The keyed price of `l` is among the `n` best of `all`. */
  predicate Kept(side: Side, n: nat, all: seq<Level>, l: Level) {
    |BetterKeys(side, all, Key(l.price))| < n
  }

  /** `out` is sorted, and as a multiset it is exactly the kept levels of `all`. */
  ghost predicate IsMerge(side: Side, n: nat, all: seq<Level>, out: seq<Level>) {
    && Sorted(side, out)
    && forall l: Level {:trigger multiset(out)[l]} ::
         multiset(out)[l] == if Kept(side, n, all, l) then multiset(all)[l] else 0
  }

  /** The levels of `all` at keyed price `k`, in their order. */
  function AtKey(all: seq<Level>, k: F64): (r: seq<Level>) {
    if all == [] then []
    else
      var rest := AtKey(all[..|all| - 1], k);
      if Key(all[|all| - 1].price) == k then rest + [all[|all| - 1]] else rest
  }

  /** A bucket of more than `n` levels: the capacity of an `ArrayVec<Level, n>` is exceeded. */
  ghost predicate Overflows(n: nat, all: seq<Level>) {
    exists k: F64 :: |AtKey(all, k)| > n
  }

  /** A NaN amount has to be compared: it shares a kept price with another level. */
  ghost predicate ComparesNaN(side: Side, n: nat, all: seq<Level>) {
    exists l: Level :: l in all && Kept(side, n, all, l) && l.amount.NaN? && |AtKey(all, Key(l.price))| >= 2
  }

  /** Converting a side panics. */
  ghost predicate SidePanics(side: Side, n: nat, all: seq<Level>) {
    Overflows(n, all) || ComparesNaN(side, n, all)
  }

  /** The spread of the two heads. */
  function Spread(bids: seq<Level>, asks: seq<Level>): F64 {
    if bids != [] && asks != [] && Lt(ZERO, bids[0].price) && Lt(ZERO, asks[0].price)
    then Sub(asks[0].price, bids[0].price)
    else NaN
  }

  /** `summary` is a conversion of `slots` at depth `n`. */
  ghost predicate Published(n: nat, slots: seq<Snapshot>, summary: Summary) {
    && IsMerge(Bid, n, AllLevels(Bid, slots), summary.bids)
    && IsMerge(Ask, n, AllLevels(Ask, slots), summary.asks)
    && summary.spread == Spread(summary.bids, summary.asks)
    && summary.arrivalTime == LatestTime(slots)
  }

  /** Converting `slots` panics. */
  ghost predicate Panics(n: nat, slots: seq<Snapshot>) {
    SidePanics(Bid, n, AllLevels(Bid, slots)) || SidePanics(Ask, n, AllLevels(Ask, slots))
  }

  lemma {:induction false} AtKeyAppend(a: seq<Level>, b: seq<Level>, k: F64)
    ensures AtKey(a + b, k) == AtKey(a, k) + AtKey(b, k)
  {
    if b == [] {
      assert a + b == a;
    } else {
      var c := b[..|b| - 1];
      assert (a + b)[..|a + b| - 1] == a + c;
      AtKeyAppend(a, c, k);
    }
  }

  /** Selecting by price neither loses nor invents a level. */
  lemma {:induction false} AtKeyCount(all: seq<Level>, k: F64, l: Level)
    ensures multiset(AtKey(all, k))[l] == if Key(l.price) == k then multiset(all)[l] else 0
  {
    if all != [] {
      var c := all[..|all| - 1];
      AtKeyCount(c, k, l);
      assert all == c + [all[|all| - 1]];
    }
  }

  lemma InAtKey(all: seq<Level>, k: F64, l: Level)
    ensures l in AtKey(all, k) <==> l in all && Key(l.price) == k
  {
  }
}
