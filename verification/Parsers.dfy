/** The level loops of the two exchange parsers, from decoded entries on. */
module Parsers {
  import opened Wrappers
  import opened Floats
  import opened Books
  import opened Contributors
  import opened Truncation
  import opened PanicFreedom
  import MergeSpec

  /** A decoded array element: not a string, a string that is no number, or a number. */
  datatype Field = NotString | BadNumber | Number(value: F64)

  datatype Entry = Entry(price: Field, qty: Field)
  {
    predicate IsNumeric() { price.Number? && qty.Number? }

    predicate HasStrings() { !price.NotString? && !qty.NotString? }
  }

  datatype Fault = ParseError | Panic

  datatype Parsed = Parsed(snapshot: Snapshot) | Failed(fault: Fault)

  /** What an entry does to the Binance loop: it unwraps strings, price first. */
  function BinanceFault(e: Entry): Option<Fault> {
    match e.price
    case NotString => Some(Panic)
    case BadNumber => Some(ParseError)
    case Number(_) =>
      match e.qty
      case NotString => Some(Panic)
      case BadNumber => Some(ParseError)
      case Number(_) => None
  }

  /** What an entry does to the Bitstamp loop: entries that are not two strings are skipped. */
  function BitstampFault(e: Entry): Option<Fault> {
    if e.HasStrings() && !e.IsNumeric() then Some(ParseError) else None
  }

  function EntryFault(source: SourceId, e: Entry): Option<Fault> {
    match source
    case Binance => BinanceFault(e)
    case Bitstamp => BitstampFault(e)
  }

  /** The fault of the first entry that has one. */
  function FirstFault(source: SourceId, entries: seq<Entry>): Option<Fault> {
    if entries == [] then None
    else if EntryFault(source, entries[0]).Some? then EntryFault(source, entries[0])
    else FirstFault(source, entries[1..])
  }

  lemma {:induction false} FirstFaultAt(source: SourceId, entries: seq<Entry>, i: nat)
    requires i < |entries| && EntryFault(source, entries[i]).Some?
    requires forall j :: 0 <= j < i ==> EntryFault(source, entries[j]).None?
    ensures FirstFault(source, entries) == EntryFault(source, entries[i])
  {
    if i > 0 { FirstFaultAt(source, entries[1..], i - 1); }
  }

  lemma {:induction false} NoFault(source: SourceId, entries: seq<Entry>)
    ensures FirstFault(source, entries).None? <==>
      forall j :: 0 <= j < |entries| ==> EntryFault(source, entries[j]).None?
  {
    if entries != [] {
      NoFault(source, entries[1..]);
      if forall j :: 0 <= j < |entries[1..]| ==> EntryFault(source, entries[1..][j]).None? {
        forall j | 1 <= j < |entries| ensures EntryFault(source, entries[j]).None? {
          assert entries[j] == entries[1..][j - 1];
        }
      }
    }
  }

  /** The numeric entries with a positive quantity, in order. */
  function Positive(entries: seq<Entry>): (r: seq<PriceLevel>)
    ensures |r| <= |entries|
  {
    if entries == [] then []
    else
      var e := entries[|entries| - 1];
      Positive(entries[..|entries| - 1]) +
      if e.IsNumeric() && Lt(ZERO, e.qty.value) then [PriceLevel(e.price.value, e.qty.value)] else []
  }

  lemma PositivePrefix(entries: seq<Entry>, i: nat)
    requires i < |entries|
    ensures Positive(entries[..i + 1]) == Positive(entries[..i]) + Positive([entries[i]])
  {
    assert entries[..i + 1][..i] == entries[..i];
    assert [entries[i]][..0] == [];
  }

  /** One round of the bid loop of `parse_orderbook_update`. */
  method BinanceBid(snap: ContributorSnapshot, e: Entry) returns (fault: Option<Fault>)
    requires snap.Valid() && |snap.bids.AsSlice()| < snap.bids.levels.Length
    modifies snap.bids, snap.bids.levels
    ensures snap.Valid() && fault == EntryFault(Binance, e)
    ensures fault.None? ==> snap.bids.AsSlice() == old(snap.bids.AsSlice()) + Positive([e])
  {
    assert [e][..0] == [];
    fault := BinanceFault(e);
    if fault.None? && Lt(ZERO, e.qty.value) {
      snap.PushBid(e.price.value, e.qty.value);
    }
  }

  method BinanceBids(snap: ContributorSnapshot, entries: seq<Entry>) returns (fault: Option<Fault>)
    requires snap.Valid() && snap.bids.AsSlice() == [] && |entries| <= snap.bids.levels.Length
    modifies snap.bids, snap.bids.levels
    ensures fault == FirstFault(Binance, entries)
    ensures snap.Valid()
    ensures fault.None? ==> snap.View() == old(snap.View()).(bids := Positive(entries))
  {
    for i := 0 to |entries|
      invariant snap.Valid() && snap.bids.AsSlice() == Positive(entries[..i])
      invariant forall j :: 0 <= j < i ==> EntryFault(Binance, entries[j]).None?
    {
      fault := BinanceBid(snap, entries[i]);
      if fault.Some? {
        FirstFaultAt(Binance, entries, i);
        return;
      }
      PositivePrefix(entries, i);
    }
    fault := None;
    NoFault(Binance, entries);
    assert entries[..|entries|] == entries;
  }

  /** One round of the ask loop of `parse_orderbook_update`. */
  method BinanceAsk(snap: ContributorSnapshot, e: Entry) returns (fault: Option<Fault>)
    requires snap.Valid() && |snap.asks.AsSlice()| < snap.asks.levels.Length
    modifies snap.asks, snap.asks.levels
    ensures snap.Valid() && fault == EntryFault(Binance, e)
    ensures fault.None? ==> snap.asks.AsSlice() == old(snap.asks.AsSlice()) + Positive([e])
  {
    assert [e][..0] == [];
    fault := BinanceFault(e);
    if fault.None? && Lt(ZERO, e.qty.value) {
      snap.PushAsk(e.price.value, e.qty.value);
    }
  }

  method BinanceAsks(snap: ContributorSnapshot, entries: seq<Entry>) returns (fault: Option<Fault>)
    requires snap.Valid() && snap.asks.AsSlice() == [] && |entries| <= snap.asks.levels.Length
    modifies snap.asks, snap.asks.levels
    ensures fault == FirstFault(Binance, entries)
    ensures snap.Valid()
    ensures fault.None? ==> snap.View() == old(snap.View()).(asks := Positive(entries))
  {
    for i := 0 to |entries|
      invariant snap.Valid() && snap.asks.AsSlice() == Positive(entries[..i])
      invariant forall j :: 0 <= j < i ==> EntryFault(Binance, entries[j]).None?
    {
      fault := BinanceAsk(snap, entries[i]);
      if fault.Some? {
        FirstFaultAt(Binance, entries, i);
        return;
      }
      PositivePrefix(entries, i);
    }
    fault := None;
    NoFault(Binance, entries);
    assert entries[..|entries|] == entries;
  }

  /** One round of the bid loop of `parse_bitstamp_update`. */
  method BitstampBid(snap: ContributorSnapshot, e: Entry) returns (fault: Option<Fault>)
    requires snap.Valid() && |snap.bids.AsSlice()| < snap.bids.levels.Length
    modifies snap.bids, snap.bids.levels
    ensures snap.Valid() && fault == EntryFault(Bitstamp, e)
    ensures fault.None? ==> snap.bids.AsSlice() == old(snap.bids.AsSlice()) + Positive([e])
  {
    assert [e][..0] == [];
    fault := None;
    if e.HasStrings() {
      if !e.IsNumeric() {
        return Some(ParseError);
      }
      if Lt(ZERO, e.qty.value) {
        snap.PushBid(e.price.value, e.qty.value);
      }
    }
  }

  method BitstampBids(snap: ContributorSnapshot, entries: seq<Entry>) returns (fault: Option<Fault>)
    requires snap.Valid() && snap.bids.AsSlice() == [] && |entries| <= snap.bids.levels.Length
    modifies snap.bids, snap.bids.levels
    ensures fault == FirstFault(Bitstamp, entries)
    ensures snap.Valid()
    ensures fault.None? ==> snap.View() == old(snap.View()).(bids := Positive(entries))
  {
    for i := 0 to |entries|
      invariant snap.Valid() && snap.bids.AsSlice() == Positive(entries[..i])
      invariant forall j :: 0 <= j < i ==> EntryFault(Bitstamp, entries[j]).None?
    {
      fault := BitstampBid(snap, entries[i]);
      if fault.Some? {
        FirstFaultAt(Bitstamp, entries, i);
        return;
      }
      PositivePrefix(entries, i);
    }
    fault := None;
    NoFault(Bitstamp, entries);
    assert entries[..|entries|] == entries;
  }

  /** One round of the ask loop of `parse_bitstamp_update`. */
  method BitstampAsk(snap: ContributorSnapshot, e: Entry) returns (fault: Option<Fault>)
    requires snap.Valid() && |snap.asks.AsSlice()| < snap.asks.levels.Length
    modifies snap.asks, snap.asks.levels
    ensures snap.Valid() && fault == EntryFault(Bitstamp, e)
    ensures fault.None? ==> snap.asks.AsSlice() == old(snap.asks.AsSlice()) + Positive([e])
  {
    assert [e][..0] == [];
    fault := None;
    if e.HasStrings() {
      if !e.IsNumeric() {
        return Some(ParseError);
      }
      if Lt(ZERO, e.qty.value) {
        snap.PushAsk(e.price.value, e.qty.value);
      }
    }
  }

  method BitstampAsks(snap: ContributorSnapshot, entries: seq<Entry>) returns (fault: Option<Fault>)
    requires snap.Valid() && snap.asks.AsSlice() == [] && |entries| <= snap.asks.levels.Length
    modifies snap.asks, snap.asks.levels
    ensures fault == FirstFault(Bitstamp, entries)
    ensures snap.Valid()
    ensures fault.None? ==> snap.View() == old(snap.View()).(asks := Positive(entries))
  {
    for i := 0 to |entries|
      invariant snap.Valid() && snap.asks.AsSlice() == Positive(entries[..i])
      invariant forall j :: 0 <= j < i ==> EntryFault(Bitstamp, entries[j]).None?
    {
      fault := BitstampAsk(snap, entries[i]);
      if fault.Some? {
        FirstFaultAt(Bitstamp, entries, i);
        return;
      }
      PositivePrefix(entries, i);
    }
    fault := None;
    NoFault(Bitstamp, entries);
    assert entries[..|entries|] == entries;
  }

  /** `parse_orderbook_update`: the first fault of the first `n` bids, then asks, decides a failure;
      otherwise no positive level among the first `n` is dropped. */
  method ParseBinance(n: nat, bids: seq<Entry>, asks: seq<Entry>, arrivalTime: nat) returns (r: Parsed)
    ensures
      match FirstFault(Binance, Take(n, bids))
      case Some(fault) => r == Failed(fault)
      case None =>
        match FirstFault(Binance, Take(n, asks))
        case Some(fault) => r == Failed(fault)
        case None => r == Parsed(Snapshot(Positive(Take(n, bids)), Positive(Take(n, asks)), Binance, arrivalTime))
  {
    var snap := new ContributorSnapshot(n, Binance, arrivalTime);
    var fault := BinanceBids(snap, Take(n, bids));
    if fault.Some? { return Failed(fault.value); }
    fault := BinanceAsks(snap, Take(n, asks));
    if fault.Some? { return Failed(fault.value); }
    r := Parsed(snap.View());
  }

  /** `parse_bitstamp_update`, for a data event of the subscribed channel. */
  method ParseBitstamp(n: nat, bids: seq<Entry>, asks: seq<Entry>, arrivalTime: nat) returns (r: Parsed)
    ensures
      match FirstFault(Bitstamp, Take(n, bids))
      case Some(fault) => r == Failed(fault)
      case None =>
        match FirstFault(Bitstamp, Take(n, asks))
        case Some(fault) => r == Failed(fault)
        case None => r == Parsed(Snapshot(Positive(Take(n, bids)), Positive(Take(n, asks)), Bitstamp, arrivalTime))
  {
    var snap := new ContributorSnapshot(n, Bitstamp, arrivalTime);
    var fault := BitstampBids(snap, Take(n, bids));
    if fault.Some? { return Failed(fault.value); }
    fault := BitstampAsks(snap, Take(n, asks));
    if fault.Some? { return Failed(fault.value); }
    r := Parsed(snap.View());
  }

  /** What the parsers admit: amounts can be compared, and no more than `n` levels. */
  lemma {:induction false} PositiveIsClean(n: nat, entries: seq<Entry>)
    ensures NoNaNAmounts(Positive(entries)) && |Positive(Take(n, entries))| <= n
  {
    if entries != [] {
      PositiveIsClean(n, entries[..|entries| - 1]);
    }
  }

  /** Every entry is a pair of numbers, the prices strictly in the order of the side. */
  ghost predicate StrictEntries(side: Side, entries: seq<Entry>) {
    && (forall i :: 0 <= i < |entries| ==> entries[i].IsNumeric())
    && forall i, j :: 0 <= i < j < |entries| ==> Better(side, Key(entries[i].price.value), Key(entries[j].price.value))
  }

  /** The whole book side of an exchange, without a depth. */
  function WholeBook(source: SourceId, entries: seq<Entry>): (r: seq<Level>)
    requires forall i :: 0 <= i < |entries| ==> entries[i].IsNumeric()
    ensures |r| == |entries|
    ensures forall i :: 0 <= i < |r| ==>
      entries[i].IsNumeric() && r[i] == Level(source, entries[i].price.value, entries[i].qty.value)
  {
    seq(|entries|, i requires 0 <= i < |entries| && entries[i].IsNumeric() =>
      Level(source, entries[i].price.value, entries[i].qty.value))
  }

  lemma {:induction false} AllPositive(source: SourceId, entries: seq<Entry>)
    requires forall i :: 0 <= i < |entries| ==> entries[i].IsNumeric() && Lt(ZERO, entries[i].qty.value)
    ensures Tag(source, Positive(entries)) == WholeBook(source, entries)
  {
    if entries != [] {
      AllPositive(source, entries[..|entries| - 1]);
    }
  }

  /** The first `n` entries are pairs of numbers with a positive quantity. */
  ghost predicate FirstPositive(n: nat, entries: seq<Entry>) {
    forall i :: 0 <= i < n && i < |entries| ==> entries[i].IsNumeric() && Lt(ZERO, entries[i].qty.value)
  }

  lemma ParsedIsTaken(source: SourceId, n: nat, entries: seq<Entry>)
    requires forall i :: 0 <= i < |entries| ==> entries[i].IsNumeric()
    requires FirstPositive(n, entries)
    ensures Tag(source, Positive(Take(n, entries))) == Take(n, WholeBook(source, entries))
  {
    AllPositive(source, Take(n, entries));
    assert WholeBook(source, Take(n, entries)) == Take(n, WholeBook(source, entries));
  }

  lemma WholeBookIsStrict(side: Side, source: SourceId, entries: seq<Entry>)
    requires StrictEntries(side, entries)
    ensures StrictBook(side, WholeBook(source, entries))
  {
  }

  /** With the first `n` quantities of each exchange positive, a side merged from the two parsed
      snapshots is the side merged from the two whole books. */
  lemma ParsedMergeIsWholeMerge(side: Side, n: nat, e0: seq<Entry>, e1: seq<Entry>, out: seq<Level>)
    requires StrictEntries(side, e0) && StrictEntries(side, e1)
    requires FirstPositive(n, e0) && FirstPositive(n, e1)
    ensures
      MergeSpec.IsMerge(side, n, Tag(Bitstamp, Positive(Take(n, e0))) + Tag(Binance, Positive(Take(n, e1))), out) <==>
      MergeSpec.IsMerge(side, n, WholeBook(Bitstamp, e0) + WholeBook(Binance, e1), out)
  {
    ParsedIsTaken(Bitstamp, n, e0);
    ParsedIsTaken(Binance, n, e1);
    WholeBookIsStrict(side, Bitstamp, e0);
    WholeBookIsStrict(side, Binance, e1);
    TruncationLossless(side, n, WholeBook(Bitstamp, e0), WholeBook(Binance, e1), out);
  }
}
