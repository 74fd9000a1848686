/** What the parsers keep and what stops them, in terms of the decoded entries alone. */
module Selections {
  import opened Wrappers
  import opened Floats
  import opened Books
  import opened Parsers

  /** The entry is a pair of numbers with a quantity above 0. */
  predicate Admissible(e: Entry) {
    e.IsNumeric() && Lt(ZERO, e.qty.value)
  }

  /** Level `j` is entry `at[j]`, admissible, price and quantity unchanged, and the positions increase. */
  ghost predicate Copies(entries: seq<Entry>, levels: seq<PriceLevel>, at: seq<nat>) {
    && |at| == |levels|
    && (forall j :: 0 <= j < |at| ==>
          at[j] < |entries| && Admissible(entries[at[j]])
          && levels[j] == PriceLevel(entries[at[j]].price.value, entries[at[j]].qty.value))
    && (forall j, m :: 0 <= j < m < |at| ==> at[j] < at[m])
  }

  /** No admissible entry is missing. */
  ghost predicate Complete(entries: seq<Entry>, at: seq<nat>) {
    forall i :: 0 <= i < |entries| && Admissible(entries[i]) ==> i in at
  }

  lemma CopiesNext(entries: seq<Entry>, e: Entry, levels: seq<PriceLevel>, at: seq<nat>)
    requires Copies(entries, levels, at)
    ensures Copies(entries + [e], levels, at)
    ensures Admissible(e) ==>
      Copies(entries + [e], levels + [PriceLevel(e.price.value, e.qty.value)], at + [|entries|])
  {
  }

  lemma CompleteNext(entries: seq<Entry>, e: Entry, at: seq<nat>)
    requires Complete(entries, at)
    ensures Complete(entries + [e], at + [|entries|])
    ensures !Admissible(e) ==> Complete(entries + [e], at)
  {
    forall i | 0 <= i < |entries| && Admissible((entries + [e])[i]) ensures i in at {
      assert Admissible(entries[i]);
    }
  }

  /** What a parser keeps is exactly the admissible entries, in order. */
  lemma {:induction false} PositiveSelects(entries: seq<Entry>) returns (at: seq<nat>)
    ensures Copies(entries, Positive(entries), at) && Complete(entries, at)
  {
    if entries == [] {
      at := [];
    } else {
      var front, e := entries[..|entries| - 1], entries[|entries| - 1];
      assert entries == front + [e];
      at := PositiveSelects(front);
      CopiesNext(front, e, Positive(front), at);
      CompleteNext(front, e, at);
      if Admissible(e) {
        at := at + [|front|];
      }
    }
  }

  /** A snapshot has no level without a positive amount. */
  lemma OnlyPositiveAmounts(entries: seq<Entry>, level: PriceLevel)
    requires level in Positive(entries)
    ensures Lt(ZERO, level.amount)
  {
    var at := PositiveSelects(entries);
  }

  /** Entry `i` is the first of which not both strings are numbers. */
  ghost predicate FirstBad(entries: seq<Entry>, i: nat) {
    i < |entries| && !entries[i].IsNumeric() && forall j :: 0 <= j < i ==> entries[j].IsNumeric()
  }

  /** Binance: without a bad entry there is no fault. The first bad one panics if its price is no string,
      or is a number next to a quantity that is no string; otherwise it is a parse error. */
  lemma {:induction false} BinanceFaultExactly(entries: seq<Entry>)
    ensures FirstFault(Binance, entries).None? <==> forall j :: 0 <= j < |entries| ==> entries[j].IsNumeric()
    ensures forall i: nat :: FirstBad(entries, i) ==>
      FirstFault(Binance, entries) ==
      Some(if entries[i].price.NotString? || (entries[i].price.Number? && entries[i].qty.NotString?)
           then Panic else ParseError)
  {
    NoFault(Binance, entries);
    forall i: nat | FirstBad(entries, i)
      ensures FirstFault(Binance, entries) ==
        Some(if entries[i].price.NotString? || (entries[i].price.Number? && entries[i].qty.NotString?)
             then Panic else ParseError)
    {
      FirstFaultAt(Binance, entries, i);
    }
  }

  /** Two strings of which one is no number. */
  predicate Unparsable(e: Entry) {
    e.HasStrings() && (e.price.BadNumber? || e.qty.BadNumber?)
  }

  /** Bitstamp: a parse error if some entry is two strings of which one is no number; never a panic. */
  lemma {:induction false} BitstampFaultExactly(entries: seq<Entry>)
    ensures FirstFault(Bitstamp, entries) ==
      if exists i :: 0 <= i < |entries| && Unparsable(entries[i]) then Some(ParseError) else None
  {
    if entries != [] {
      BitstampFaultExactly(entries[1..]);
      if i :| 0 <= i < |entries[1..]| && Unparsable(entries[1..][i]) {
        assert Unparsable(entries[i + 1]);
      }
      if i :| 0 <= i < |entries| && Unparsable(entries[i]) {
        assert i > 0 ==> entries[1..][i - 1] == entries[i];
      }
    }
  }
}
