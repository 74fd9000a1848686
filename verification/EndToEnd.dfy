/** From the books of the exchanges to the summary the clients load. */
module EndToEnd {
  import opened Wrappers
  import opened Floats
  import opened Books
  import opened MergeSpec
  import opened Updates
  import opened Truncation
  import opened Parsers
  import opened Spreads
  import opened Propagation
  import opened PropagationTheorems
  import Conservation

  /** The whole book of an exchange, as decoded from its message. */
  datatype Book = Book(bids: seq<Entry>, asks: seq<Entry>)
  {
    function Entries(side: Side): seq<Entry> { if side.Bid? then bids else asks }

    /** Both sides are pairs of numbers, strictly sorted, best price first. */
    ghost predicate IsStrict() { StrictEntries(Bid, bids) && StrictEntries(Ask, asks) }

    ghost predicate HasDepth(n: nat) { FirstPositive(n, bids) && FirstPositive(n, asks) }
  }

  /** The snapshot the parser of `source` returns for `book` at depth `n`. */
  function ParsedBook(n: nat, source: SourceId, book: Book, arrivalTime: nat): Snapshot {
    Snapshot(Positive(Take(n, book.bids)), Positive(Take(n, book.asks)), source, arrivalTime)
  }

  /** A strict side parses without a fault, at any depth. */
  lemma StrictParses(source: SourceId, side: Side, n: nat, entries: seq<Entry>)
    requires StrictEntries(side, entries)
    ensures FirstFault(source, Take(n, entries)).None?
  {
    NoFault(source, Take(n, entries));
  }

  /** One side of both whole books, with no depth. */
  function WholeSide(side: Side, bitstamp: Book, binance: Book): seq<Level>
    requires bitstamp.IsStrict() && binance.IsStrict()
  {
    WholeBook(Bitstamp, bitstamp.Entries(side)) + WholeBook(Binance, binance.Entries(side))
  }

  /** The summary is that of the whole books, cut at the `n` best prices of each side. */
  ghost predicate ShowsWholeBooks(n: nat, bitstamp: Book, binance: Book, summary: Summary)
    requires bitstamp.IsStrict() && binance.IsStrict()
  {
    && IsMerge(Bid, n, WholeSide(Bid, bitstamp, binance), summary.bids)
    && IsMerge(Ask, n, WholeSide(Ask, bitstamp, binance), summary.asks)
    && summary.spread == Spread(summary.bids, summary.asks)
  }

  lemma ParsedSide(side: Side, n: nat, bitstamp: Book, binance: Book, slots: seq<Snapshot>, t0: nat, t1: nat,
                   out: seq<Level>)
    requires bitstamp.IsStrict() && binance.IsStrict() && bitstamp.HasDepth(n) && binance.HasDepth(n)
    requires slots == [ParsedBook(n, Bitstamp, bitstamp, t0), ParsedBook(n, Binance, binance, t1)]
    ensures IsMerge(side, n, AllLevels(side, slots), out) <==> IsMerge(side, n, WholeSide(side, bitstamp, binance), out)
  {
    Conservation.TwoSlots(side, slots);
    ParsedMergeIsWholeMerge(side, n, bitstamp.Entries(side), binance.Entries(side), out);
  }

  /** The last values stored for the two exchanges are what the parsers made of the two books. */
  ghost predicate HoldsBooks(n: nat, s: State, bitstamp: Book, binance: Book) {
    && Bitstamp in s.sources && Binance in s.sources
    && (exists t :: s.sources[Bitstamp].stored == OkSnap(ParsedBook(n, Bitstamp, bitstamp, t)))
    && (exists t :: s.sources[Binance].stored == OkSnap(ParsedBook(n, Binance, binance, t)))
  }

  lemma ForwardedIsParsed(n: nat, s: State, bitstamp: Book, binance: Book) returns (t0: nat, t1: nat)
    requires HoldsBooks(n, s, bitstamp, binance)
    requires forall i ::
      i in s.sources && s.sources[i].stored.OkSnap? ==> Forwarded(s, i) == Some(s.sources[i].stored.snapshot)
    ensures SlotsOf(i => Forwarded(s, i)) ==
      [ParsedBook(n, Bitstamp, bitstamp, t0), ParsedBook(n, Binance, binance, t1)]
    ensures Forwarded(s, Bitstamp).Some?
  {
    t0 :| s.sources[Bitstamp].stored == OkSnap(ParsedBook(n, Bitstamp, bitstamp, t0));
    t1 :| s.sources[Binance].stored == OkSnap(ParsedBook(n, Binance, binance, t1));
  }

  /** Whatever the interleaving: once nothing is on its way, clients load the best `n` prices of the two
      exchanges' whole books, though a parser keeps no more than `n` entries of a side. */
  lemma QuiescentShowsWholeBooks(n: nat, ids: set<SourceId>, run: seq<Label>, bitstamp: Book, binance: Book)
    requires IsRun(n, ids, run) && Quiescent(After(n, ids, run))
    requires HoldsBooks(n, After(n, ids, run), bitstamp, binance)
    requires bitstamp.IsStrict() && binance.IsStrict() && bitstamp.HasDepth(n) && binance.HasDepth(n)
    ensures var stores := After(n, ids, run).stores;
      && stores != [] && stores[|stores| - 1].Available?
      && ShowsWholeBooks(n, bitstamp, binance, stores[|stores| - 1].summary)
  {
    var s := After(n, ids, run);
    QuiescentAgreement(n, ids, run);
    var t0, t1 := ForwardedIsParsed(n, s, bitstamp, binance);
    var summary, slots := s.stores[|s.stores| - 1].summary, SlotsOf(i => Forwarded(s, i));
    ParsedSide(Bid, n, bitstamp, binance, slots, t0, t1, summary.bids);
    ParsedSide(Ask, n, bitstamp, binance, slots, t0, t1, summary.asks);
  }

  /** Where both sides have a positive best price, the spread is the least ask of both whole books minus
      their greatest bid. */
  ghost predicate SpreadsWholeBooks(bitstamp: Book, binance: Book, spread: F64)
    requires bitstamp.IsStrict() && binance.IsStrict()
  {
    forall bid: real, ask: real ::
      && IsBest(Bid, WholeSide(Bid, bitstamp, binance), bid) && bid > 0.0
      && IsBest(Ask, WholeSide(Ask, bitstamp, binance), ask) && ask > 0.0
      ==> spread == Fin(ask - bid)
  }

  lemma SpreadOfWholeBooks(n: nat, bitstamp: Book, binance: Book, summary: Summary)
    requires n >= 1 && bitstamp.IsStrict() && binance.IsStrict() && ShowsWholeBooks(n, bitstamp, binance, summary)
    ensures SpreadsWholeBooks(bitstamp, binance, summary.spread)
  {
    var bids, asks := WholeSide(Bid, bitstamp, binance), WholeSide(Ask, bitstamp, binance);
    forall bid: real, ask: real | IsBest(Bid, bids, bid) && bid > 0.0 && IsBest(Ask, asks, ask) && ask > 0.0
      ensures summary.spread == Fin(ask - bid)
    {
      BestIsHead(Bid, n, bids, summary.bids, bid);
      BestIsHead(Ask, n, asks, summary.asks, ask);
    }
  }

  /** And the spread they load is that of the whole books. */
  lemma QuiescentSpread(n: nat, ids: set<SourceId>, run: seq<Label>, bitstamp: Book, binance: Book)
    requires n >= 1 && IsRun(n, ids, run) && Quiescent(After(n, ids, run))
    requires HoldsBooks(n, After(n, ids, run), bitstamp, binance)
    requires bitstamp.IsStrict() && binance.IsStrict() && bitstamp.HasDepth(n) && binance.HasDepth(n)
    ensures var stores := After(n, ids, run).stores;
      && stores != [] && stores[|stores| - 1].Available?
      && SpreadsWholeBooks(bitstamp, binance, stores[|stores| - 1].summary.spread)
  {
    QuiescentShowsWholeBooks(n, ids, run, bitstamp, binance);
    var stores := After(n, ids, run).stores;
    SpreadOfWholeBooks(n, bitstamp, binance, stores[|stores| - 1].summary);
  }
}
