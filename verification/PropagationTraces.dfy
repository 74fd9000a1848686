/** Runs that show what a client may miss, what a late client waits for, and how the publisher dies. */
module PropagationTraces {
  import opened Wrappers
  import opened Floats
  import opened Books
  import opened Combined
  import opened MergeSpec
  import opened Reference
  import opened Spreads
  import opened PanicFreedom
  import opened Conservation
  import opened Propagation

  /** `r` holds the initial state of a feed with the sources `ids` and is closed under steps. */
  ghost predicate Closed(n: nat, ids: set<SourceId>, r: iset<State>) {
    && Initial(ids) in r
    && forall s, l {:trigger Apply(n, s, l)} :: s in r && Enabled(n, s, l) ==> Apply(n, s, l) in r
  }

  /** The states some run ends in. */
  ghost function Reachable(n: nat, ids: set<SourceId>): iset<State> {
    iset run | IsRun(n, ids, run) :: After(n, ids, run)
  }

  lemma ReachableIsClosed(n: nat, ids: set<SourceId>)
    ensures Closed(n, ids, Reachable(n, ids))
  {
    assert IsRun(n, ids, []) && After(n, ids, []) == Initial(ids);
    forall s, l | s in Reachable(n, ids) && Enabled(n, s, l) ensures Apply(n, s, l) in Reachable(n, ids) {
      var run :| IsRun(n, ids, run) && After(n, ids, run) == s;
      var longer := run + [l];
      assert longer[..|longer| - 1] == run;
      assert IsRun(n, ids, longer) && After(n, ids, longer) == Apply(n, s, l);
    }
  }

  lemma Reach(n: nat, ids: set<SourceId>, r: iset<State>, s: State, l: Label, s': State)
    requires Closed(n, ids, r) && s in r && Enabled(n, s, l) && Apply(n, s, l) == s'
    ensures s' in r
  {
  }

  /** A bid of one unit at price 1, from either exchange. */
  function Quote(i: SourceId): Snapshot {
    Snapshot([PriceLevel(Fin(1.0), Fin(1.0))], [], i, 1)
  }

  /** A source whose connection stored the quote, whose task sent it and waits. */
  function SentQuote(i: SourceId): Source {
    Source(OkSnap(Quote(i)), 0, ConnStored, Waiting(0), OkSnap(Quote(i)), Some(Quote(i)), [OkSnap(Quote(i))], 1, [1])
  }

  function WithSource(s: State, i: SourceId, src: Source): State {
    s.(sources := s.sources[i := src])
  }

  /** A fresh source whose connection stored its quote, and whose task watches. */
  lemma ReachOffered(n: nat, ids: set<SourceId>, r: iset<State>, s: State, i: SourceId)
    requires n >= 1 && Closed(n, ids, r) && s in r && i in s.sources && s.sources[i] == FRESH
    ensures var q := OkSnap(Quote(i));
      WithSource(s, i, Source(q, 0, ConnStored, Loading(0), Nothing, None, [q], 0, [])) in r
  {
    var q := OkSnap(Quote(i));
    assert FRESH.offers + [q] == [q];
    var s1 := WithSource(s, i, Source(q, 0, ConnStored, Unborn, Nothing, None, [q], 0, []));
    Reach(n, ids, r, s, S(i, ConnStore(q)), s1);
    var s2 := WithSource(s, i, Source(q, 0, ConnStored, Loading(0), Nothing, None, [q], 0, []));
    Reach(n, ids, r, s1, S(i, Subscribe), s2);
  }

  /** Then it has its quote in the queue. */
  lemma ReachQueued(n: nat, ids: set<SourceId>, r: iset<State>, s: State, i: SourceId)
    requires n >= 1 && Closed(n, ids, r) && s in r
    requires i in s.sources && s.sources[i] == FRESH && |s.queue| < BACKLOG_SIZE && s.pub.PubIdle?
    ensures WithSource(s, i, SentQuote(i)).(queue := s.queue + [Quote(i)]) in r
  {
    ReachOffered(n, ids, r, s, i);
    var q := OkSnap(Quote(i));
    assert FRESH.sent + [1] == [1];
    var s2 := WithSource(s, i, Source(q, 0, ConnStored, Loading(0), Nothing, None, [q], 0, []));
    var s3 := WithSource(s, i, Source(q, 0, ConnStored, Sending(0, Quote(i)), q, None, [q], 1, []));
    Reach(n, ids, r, s2, S(i, Load), s3);
    Reach(n, ids, r, s3, S(i, Send), WithSource(s, i, SentQuote(i)).(queue := s.queue + [Quote(i)]));
  }

  /** A first quote of Bitstamp is published, at any depth from 1. */
  lemma QuoteIsPublished(n: nat) returns (summary: Summary)
    requires n >= 1
    ensures !Panics(n, Updated(INITIAL_SLOTS, Quote(Bitstamp)))
    ensures Published(n, Updated(INITIAL_SLOTS, Quote(Bitstamp)), summary) && summary.bids != []
  {
    var slots := Updated(INITIAL_SLOTS, Quote(Bitstamp));
    assert slots == [Quote(Bitstamp), DEFAULT_SNAPSHOT];
    assert forall side: Side, k: F64 :: !SamePrice(side, slots, k);
    PanicsExactly(n, slots);
    ConversionExists(n, slots);
    summary :| Published(n, slots, summary);
    TwoSlots(Bid, slots);
    HeadIsBest(Bid, n, AllLevels(Bid, slots), summary.bids);
  }

  // ---------- A client misses an update ----------

  lemma ReachJoined(n: nat, r: iset<State>)
    requires Closed(n, {Bitstamp}, r)
    ensures Initial({Bitstamp}).(clients := map[0 := Client(Subscribing, false, 0, 0, false, [])]) in r
  {
    var s := Initial({Bitstamp});
    var s1 := s.(clients := map[0 := Client(Starting, false, 0, 0, false, [])]);
    Reach(n, {Bitstamp}, r, s, K(0, Join), s1);
    Reach(n, {Bitstamp}, r, s1, K(0, FirstLoad), s.(clients := map[0 := Client(Subscribing, false, 0, 0, false, [])]));
  }

  /** The client has loaded `Ok(None)`; then the publisher stores its first summary and notifies nobody. */
  lemma ReachMissed(n: nat, r: iset<State>, summary: Summary)
    requires n >= 1 && Closed(n, {Bitstamp}, r)
    requires var slots := Updated(INITIAL_SLOTS, Quote(Bitstamp)); !Panics(n, slots) && Published(n, slots, summary)
    ensures State(map[Bitstamp := SentQuote(Bitstamp)], [], PubIdle, Updated(INITIAL_SLOTS, Quote(Bitstamp)),
                  [Quote(Bitstamp)], [Empty, Available(summary)], 0, false, false,
                  map[0 := Client(Subscribing, false, 0, 0, false, [])]) in r
  {
    var ids, q := {Bitstamp}, Quote(Bitstamp);
    var s1 := State(map[Bitstamp := SentQuote(Bitstamp)], [q], PubIdle, INITIAL_SLOTS, [], [Empty], 0, false, false,
                    map[0 := Client(Subscribing, false, 0, 0, false, [])]);
    ReachJoined(n, r);
    ReachQueued(n, ids, r, Initial(ids).(clients := s1.clients), Bitstamp);
    assert [] + [q] == [q];
    assert Initial(ids).sources[Bitstamp := SentQuote(Bitstamp)] == s1.sources;
    ReachStored(n, ids, r, s1, summary);
    assert s1.queue[1..] == [];
  }

  /** The publisher takes the first message, stores its conversion and notifies nobody. */
  lemma ReachStored(n: nat, ids: set<SourceId>, r: iset<State>, s: State, summary: Summary)
    requires Closed(n, ids, r) && s in r && s.pub.PubIdle? && s.combined == INITIAL_SLOTS && s.stores == [Empty]
    requires s.queue != [] && s.consumed == [] && forall c :: c in s.clients ==> !s.clients[c].pc.Watches()
    requires var slots := Updated(INITIAL_SLOTS, s.queue[0]); !Panics(n, slots) && Published(n, slots, summary)
    ensures s.(combined := Updated(INITIAL_SLOTS, s.queue[0]), queue := s.queue[1..], consumed := [s.queue[0]],
               stores := [Empty, Available(summary)]) in r
  {
    var s1 := s.(pub := Computed(summary), combined := Updated(INITIAL_SLOTS, s.queue[0]), queue := s.queue[1..],
                 consumed := [s.queue[0]]);
    Reach(n, ids, r, s, Q(Recv(summary)), s1);
    var s2 := s1.(pub := PubStored, stores := [Empty, Available(summary)]);
    Reach(n, ids, r, s1, Q(Store), s2);
    Reach(n, ids, r, s2, Q(Notify), s2.(pub := PubIdle));
  }

  /** A client can wait with nothing unseen, the publisher idle, without the latest summary, which has a
      bid: it has not woken yet, and the update fell between its first load and its subscription to the
      watch. */
  lemma FirstUpdateCanBeMissed(n: nat) returns (s: State)
    requires n >= 1
    ensures s in Reachable(n, {Bitstamp}) && 0 in s.clients && s.pub.PubIdle?
    ensures s.clients[0].pc == Idle(s.version) && s.clients[0].loaded == 0 && s.clients[0].sent == []
    ensures |s.stores| == 2 && s.stores[1].Available? && s.stores[1].summary.bids != []
  {
    ReachableIsClosed(n, {Bitstamp});
    var summary := QuoteIsPublished(n);
    ReachMissed(n, Reachable(n, {Bitstamp}), summary);
    var s0 := State(map[Bitstamp := SentQuote(Bitstamp)], [], PubIdle, Updated(INITIAL_SLOTS, Quote(Bitstamp)),
                    [Quote(Bitstamp)], [Empty, Available(summary)], 0, false, false,
                    map[0 := Client(Subscribing, false, 0, 0, false, [])]);
    s := s0.(clients := map[0 := Client(Idle(0), false, 0, 1, false, [])]);
    Reach(n, {Bitstamp}, Reachable(n, {Bitstamp}), s0, K(0, Watch), s);
  }

  // ---------- The publisher dies ----------

  /** At depth 1 two honest quotes of one price kill the publisher. */
  lemma PublisherCanCrash() returns (s: State)
    ensures s in Reachable(1, {Bitstamp, Binance}) && s.pub.Crashed?
    ensures forall i :: i in s.sources ==> s.sources[i].offers == [OkSnap(Quote(i))]
  {
    var ids: set<SourceId> := {Bitstamp, Binance};
    var r := Reachable(1, ids);
    ReachableIsClosed(1, ids);
    var s0 := Initial(ids);
    ReachQueued(1, ids, r, s0, Bitstamp);
    var s1 := WithSource(s0, Bitstamp, SentQuote(Bitstamp)).(queue := [] + [Quote(Bitstamp)]);
    ReachQueued(1, ids, r, s1, Binance);
    var s2 := WithSource(s1, Binance, SentQuote(Binance)).(queue := s1.queue + [Quote(Binance)]);
    var summary := QuoteIsPublished(1);
    ReachStored(1, ids, r, s2, summary);
    var slots := Updated(INITIAL_SLOTS, Quote(Bitstamp));
    var s3 := s2.(combined := slots, queue := s2.queue[1..], consumed := [s2.queue[0]],
                  stores := [Empty, Available(summary)]);
    assert s3.queue[0] == Quote(Binance);
    QuotesCollide();
    s := s3.(pub := Crashed);
    Reach(1, ids, r, s3, Q(Panic), s);
  }

  lemma QuotesCollide()
    ensures Panics(1, Updated(Updated(INITIAL_SLOTS, Quote(Bitstamp)), Quote(Binance)))
  {
    var slots := Updated(Updated(INITIAL_SLOTS, Quote(Bitstamp)), Quote(Binance));
    assert slots == [Quote(Bitstamp), Quote(Binance)];
    assert SamePrice(Bid, slots, Fin(1.0));
    PanicsExactly(1, slots);
  }

  // ---------- A late client waits for ever ----------

  lemma ReachEnded(n: nat, r: iset<State>)
    requires Closed(n, {}, r)
    ensures Initial({}).(pub := Ended, stores := [Empty, Shutdown], signalled := true, closing := true) in r
  {
    var s0 := Initial({});
    var s1 := s0.(signalled := true);
    Reach(n, {}, r, s0, Signal, s1);
    var s2 := s1.(closing := true);
    Reach(n, {}, r, s1, Close, s2);
    Reach(n, {}, r, s2, Q(End), s2.(pub := Ending));
    var s3 := s2.(pub := EndStored, stores := [Empty, Shutdown]);
    Reach(n, {}, r, s2.(pub := Ending), Q(StoreErr), s3);
    Reach(n, {}, r, s3, Q(NotifyErr), s3.(pub := EndNotified));
    Reach(n, {}, r, s3.(pub := EndNotified), Q(CloseQueue), s3.(pub := Ended));
  }

  /** A client that joins after the shutdown signal can come to wait for a change that never comes. */
  lemma LateClientCanWait(n: nat) returns (s: State)
    ensures s in Reachable(n, {}) && s.pub.Ended? && 0 in s.clients
    ensures s.clients[0].pc == Idle(s.version) && s.clients[0].deaf
  {
    var r := Reachable(n, {});
    ReachableIsClosed(n, {});
    ReachEnded(n, r);
    var s0 := Initial({}).(pub := Ended, stores := [Empty, Shutdown], signalled := true, closing := true);
    var s1 := s0.(clients := map[0 := Client(Starting, true, 0, 0, false, [])]);
    Reach(n, {}, r, s0, K(0, Join), s1);
    var s2 := s1.(clients := map[0 := Client(Subscribing, true, 1, 0, false, [])]);
    Reach(n, {}, r, s1, K(0, FirstLoad), s2);
    s := s2.(clients := map[0 := Client(Idle(0), true, 1, 1, false, [])]);
    Reach(n, {}, r, s2, K(0, Watch), s);
  }
}
