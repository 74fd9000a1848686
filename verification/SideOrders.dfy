/** The order of a published side and its spread, in terms of prices and amounts alone. */
module SideOrders {
  import opened Floats
  import opened Books
  import opened MergeSpec
  import opened Spreads

  /** Bids fall and asks rise; at one price amounts fall. */
  lemma FiniteLevelsInOrder(side: Side, n: nat, all: seq<Level>, out: seq<Level>, i: nat, j: nat)
    requires IsMerge(side, n, all, out) && i < j < |out|
    requires out[i].price.Fin? && out[j].price.Fin? && out[i].amount.Fin? && out[j].amount.Fin?
    ensures side.Bid? ==> out[i].price.v >= out[j].price.v
    ensures side.Ask? ==> out[i].price.v <= out[j].price.v
    ensures out[i].price == out[j].price ==> out[i].amount.v >= out[j].amount.v
  {
    assert MayPrecede(side, out[i], out[j]);
  }

  /** An infinite price stands at its end of a side. */
  lemma InfiniteLevelsInOrder(side: Side, n: nat, all: seq<Level>, out: seq<Level>, i: nat, j: nat)
    requires IsMerge(side, n, all, out) && i < j < |out|
    ensures side.Bid? && out[j].price.PosInf? ==> out[i].price.PosInf?
    ensures side.Bid? && out[i].price.NegInf? ==> out[j].price.NegInf?
    ensures side.Ask? && out[j].price.NegInf? ==> out[i].price.NegInf?
    ensures side.Ask? && out[i].price.PosInf? ==> out[j].price.PosInf?
  {
    assert MayPrecede(side, out[i], out[j]);
  }

  /** A NaN price stands where 0.0 stands: among levels at 0.0 by amount, between the negative and the
      positive prices. */
  lemma NaNStandsAtZero(side: Side, n: nat, all: seq<Level>, out: seq<Level>, i: nat, j: nat)
    requires IsMerge(side, n, all, out) && i < j < |out| && out[i].amount.Fin? && out[j].amount.Fin?
    ensures side.Bid? && out[i].price.NaN? && out[j].price.Fin? ==> out[j].price.v <= 0.0
    ensures side.Bid? && out[j].price.NaN? && out[i].price.Fin? ==> out[i].price.v >= 0.0
    ensures side.Ask? && out[i].price.NaN? && out[j].price.Fin? ==> out[j].price.v >= 0.0
    ensures side.Ask? && out[j].price.NaN? && out[i].price.Fin? ==> out[i].price.v <= 0.0
    ensures (out[i].price.NaN? || out[i].price == ZERO) && (out[j].price.NaN? || out[j].price == ZERO) ==>
      out[i].amount.v >= out[j].amount.v
  {
    assert MayPrecede(side, out[i], out[j]);
  }

  /** Some level is quoted at `k`, and none is better. */
  ghost predicate IsBestKey(side: Side, all: seq<Level>, k: F64) {
    && (exists l :: l in all && Key(l.price) == k)
    && forall l :: l in all ==> !Better(side, Key(l.price), k)
  }

  /** A side that is not empty has a best key, the one of the head of its merge. */
  lemma HeadIsBestKey(side: Side, n: nat, all: seq<Level>, out: seq<Level>)
    requires n >= 1 && all != [] && IsMerge(side, n, all, out)
    ensures out != [] && IsBestKey(side, all, Key(out[0].price))
    ensures forall k :: IsBestKey(side, all, k) ==> k == Key(out[0].price)
  {
    HeadIsBest(side, n, all, out);
    forall k | IsBestKey(side, all, k) ensures k == Key(out[0].price) {
      assert !Better(side, Key(out[0].price), k);
      var l :| l in all && Key(l.price) == k;
    }
  }

  lemma EmptyMerge(side: Side, n: nat, out: seq<Level>)
    requires IsMerge(side, n, [], out)
    ensures out == []
  {
    var none: seq<Level> := [];
    forall l: Level ensures multiset(out)[l] == multiset(none)[l] {
      assert multiset(out)[l] == if Kept(side, n, none, l) then multiset(none)[l] else 0;
    }
    assert multiset(out) == multiset(none);
    assert |out| == |multiset(out)| == 0;
  }

  /** A one-sided or empty book has no spread. */
  lemma NoSpreadWithoutBothSides(n: nat, slots: seq<Snapshot>, s: Summary)
    requires Published(n, slots, s) && (AllLevels(Bid, slots) == [] || AllLevels(Ask, slots) == [])
    ensures s.spread == NaN
  {
    if AllLevels(Bid, slots) == [] {
      EmptyMerge(Bid, n, s.bids);
    } else {
      EmptyMerge(Ask, n, s.asks);
    }
  }

  /** The spread of two non-empty sides for every best bid and best ask: none unless both are above 0 and
      not both infinite, otherwise ask minus bid. */
  lemma SpreadFromBest(n: nat, slots: seq<Snapshot>, s: Summary, bid: F64, ask: F64)
    requires n >= 1 && Published(n, slots, s)
    requires IsBestKey(Bid, AllLevels(Bid, slots), bid) && IsBestKey(Ask, AllLevels(Ask, slots), ask)
    ensures !Lt(ZERO, bid) || !Lt(ZERO, ask) ==> s.spread == NaN
    ensures bid.PosInf? && ask.PosInf? ==> s.spread == NaN
    ensures Lt(ZERO, bid) && bid.Fin? && Lt(ZERO, ask) && ask.Fin? ==> s.spread == Fin(ask.v - bid.v)
    ensures Lt(ZERO, bid) && bid.Fin? && ask.PosInf? ==> s.spread == PosInf
    ensures bid.PosInf? && Lt(ZERO, ask) && ask.Fin? ==> s.spread == NegInf
  {
    HeadIsBestKey(Bid, n, AllLevels(Bid, slots), s.bids);
    HeadIsBestKey(Ask, n, AllLevels(Ask, slots), s.asks);
  }

  /** Both sides are quoted, the best bid and the best ask are above 0, and both are finite. */
  ghost predicate HasFiniteSpread(slots: seq<Snapshot>) {
    && (exists bid :: bid > 0.0 && IsBestKey(Bid, AllLevels(Bid, slots), Fin(bid)))
    && (exists ask :: ask > 0.0 && IsBestKey(Ask, AllLevels(Ask, slots), Fin(ask)))
  }

  /** The published spread is a finite number if and only if there are finite positive best prices on
      both sides. */
  lemma SpreadIsFiniteExactly(n: nat, slots: seq<Snapshot>, s: Summary)
    requires n >= 1 && Published(n, slots, s)
    ensures s.spread.Fin? <==> HasFiniteSpread(slots)
  {
    if AllLevels(Bid, slots) == [] || AllLevels(Ask, slots) == [] {
      NoSpreadWithoutBothSides(n, slots, s);
    } else {
      HeadIsBestKey(Bid, n, AllLevels(Bid, slots), s.bids);
      HeadIsBestKey(Ask, n, AllLevels(Ask, slots), s.asks);
      var bid, ask := Key(s.bids[0].price), Key(s.asks[0].price);
      SpreadFromBest(n, slots, s, bid, ask);
      if s.spread.Fin? {
        assert IsBestKey(Bid, AllLevels(Bid, slots), Fin(bid.v)) && IsBestKey(Ask, AllLevels(Ask, slots), Fin(ask.v));
      }
    }
  }
}
