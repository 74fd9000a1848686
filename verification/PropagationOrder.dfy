/** What a source forwards: snapshots its connection stored, in the order it stored them. */
module PropagationOrder {
  import opened Books
  import opened Updates
  import opened Propagation
  import opened PropagationInvariants
  import opened PropagationTheorems

  /** Everything the connection of `i` stores in the run. */
  function Offered(run: seq<Label>, i: SourceId): seq<Stored> {
    if run == [] then []
    else
      var l := run[|run| - 1];
      Offered(run[..|run| - 1], i) + if l.S? && l.i == i && l.ss.ConnStore? then [l.ss.value] else []
  }

  lemma SourceStepOffers(n: nat, s: State, j: SourceId, l: SourceStep, i: SourceId)
    requires SourceEnabled(n, s, j, l)
    ensures i in SourceApply(n, s, j, l).sources <==> i in s.sources
    ensures i in s.sources ==>
      SourceApply(n, s, j, l).sources[i].offers ==
      s.sources[i].offers + if j == i && l.ConnStore? then [l.value] else []
  {
  }

  lemma MoveHead<T>(a: seq<T>, b: seq<T>)
    requires b != []
    ensures (a + [b[0]]) + b[1..] == a + b
  {
  }

  lemma PubKeepsSources(n: nat, s: State, l: PubStep)
    requires PubEnabled(n, s, l)
    ensures PubApply(n, s, l).sources == s.sources
    ensures PubApply(n, s, l).consumed + PubApply(n, s, l).queue == s.consumed + s.queue
  {
    if l.Recv? { MoveHead(s.consumed, s.queue); }
  }

  lemma OthersKeepSources(n: nat, s: State, l: Label)
    requires Enabled(n, s, l) && !l.S?
    ensures Apply(n, s, l).sources == s.sources
    ensures Apply(n, s, l).consumed + Apply(n, s, l).queue == s.consumed + s.queue
  {
    if l.Q? {
      PubKeepsSources(n, s, l.ps);
    } else if l.K? {
      assert ClientApply(s, l.c, l.cs) == s.(clients := ClientApply(s, l.c, l.cs).clients);
    }
  }

  lemma {:induction false} OffersAreOffered(n: nat, ids: set<SourceId>, run: seq<Label>, i: SourceId)
    requires IsRun(n, ids, run)
    ensures i in After(n, ids, run).sources <==> i in ids
    ensures i in ids ==> After(n, ids, run).sources[i].offers == Offered(run, i)
  {
    if run != [] {
      var front, l := run[..|run| - 1], run[|run| - 1];
      OffersAreOffered(n, ids, front, i);
      if l.S? {
        SourceStepOffers(n, After(n, ids, front), l.i, l.ss, i);
      } else {
        OthersKeepSources(n, After(n, ids, front), l);
      }
    }
  }

  /** How often the connection of `i` notifies in the run. */
  function TimesNotified(run: seq<Label>, i: SourceId): nat {
    if run == [] then 0
    else
      var l := run[|run| - 1];
      TimesNotified(run[..|run| - 1], i) + if l.S? && l.i == i && l.ss.ConnNotify? then 1 else 0
  }

  lemma ConnStep(n: nat, s: State, j: SourceId, l: SourceStep, i: SourceId)
    requires SourceEnabled(n, s, j, l) && i in s.sources
    ensures i in SourceApply(n, s, j, l).sources
    ensures var conn, conn' := s.sources[i].conn, SourceApply(n, s, j, l).sources[i].conn;
      if j == i && l.ConnStore? then conn.ConnIdle? && conn'.ConnStored?
      else if j == i && l.ConnNotify? then conn.ConnStored? && conn'.ConnIdle?
      else if j == i && l.ConnStop? then conn.ConnIdle? && conn'.ConnClosed?
      else conn' == conn
  {
  }

  /** A connection stores and notifies in turn, the store first. */
  lemma {:induction false} StoresThenNotifies(n: nat, ids: set<SourceId>, run: seq<Label>, i: SourceId)
    requires IsRun(n, ids, run) && i in ids
    ensures i in After(n, ids, run).sources
    ensures |Offered(run, i)| ==
      TimesNotified(run, i) + if After(n, ids, run).sources[i].conn.ConnStored? then 1 else 0
  {
    if run != [] {
      var front, l := run[..|run| - 1], run[|run| - 1];
      StoresThenNotifies(n, ids, front, i);
      if l.S? {
        ConnStep(n, After(n, ids, front), l.i, l.ss, i);
      } else {
        OthersKeepSources(n, After(n, ids, front), l);
      }
    }
  }

  /** A connection that has stopped stores nothing more. */
  lemma {:induction false} StoppedStoresNothing(n: nat, ids: set<SourceId>, run: seq<Label>, i: SourceId, j: nat)
    requires IsRun(n, ids, run) && i in ids && j < |run| && run[j] == S(i, ConnStop)
    ensures i in After(n, ids, run).sources && After(n, ids, run).sources[i].conn.ConnClosed?
    ensures Offered(run, i) == Offered(run[..j], i)
  {
    var front, l := run[..|run| - 1], run[|run| - 1];
    OffersAreOffered(n, ids, front, i);
    if j == |front| {
      ConnStep(n, After(n, ids, front), l.i, l.ss, i);
    } else {
      StoppedStoresNothing(n, ids, front, i, j);
      assert front[..j] == run[..j];
      if l.S? {
        ConnStep(n, After(n, ids, front), l.i, l.ss, i);
      } else {
        OthersKeepSources(n, After(n, ids, front), l);
      }
    }
  }

  /** The history of a source agrees with its state, and what it sent was stored in that order. */
  ghost predicate HistoryOk(src: Source) {
    && src.stored == (if src.offers == [] then Nothing else src.offers[|src.offers| - 1])
    && src.taken <= |src.offers|
    && src.loaded == (if src.taken == 0 then Nothing else src.offers[src.taken - 1])
    && (forall j :: 0 <= j < |src.sent| ==> 1 <= src.sent[j] <= src.taken)
    && (forall j, m :: 0 <= j < m < |src.sent| ==> src.sent[j] <= src.sent[m])
  }

  lemma SourceKeepsHistory(n: nat, s: State, i: SourceId, l: SourceStep)
    requires SourceEnabled(n, s, i, l) && SourceOk(n, i, s.sources[i]) && HistoryOk(s.sources[i])
    ensures HistoryOk(SourceAfter(s.sources[i], l))
  {
  }

  /** The messages of one source are the offers it recorded, one for one. */
  ghost predicate SentAre(messages: seq<Snapshot>, src: Source) {
    && |messages| == |src.sent|
    && forall j :: 0 <= j < |messages| ==>
      1 <= src.sent[j] <= |src.offers| && src.offers[src.sent[j] - 1] == OkSnap(messages[j])
  }

  lemma SendIsRecorded(n: nat, i: SourceId, src: Source, messages: seq<Snapshot>)
    requires src.task.Sending? && SourceOk(n, i, src) && HistoryOk(src) && SentAre(messages, src)
    ensures SentAre(messages + [src.task.snapshot], SourceAfter(src, Send))
  {
    assert src.loaded == src.offers[src.taken - 1];
  }

  lemma OthersSendNothing(src: Source, l: SourceStep, messages: seq<Snapshot>)
    requires !l.Send? && SentAre(messages, src)
    ensures SentAre(messages, SourceAfter(src, l))
  {
    assert SourceAfter(src, l).sent == src.sent && src.offers <= SourceAfter(src, l).offers;
  }

  ghost predicate OrderOk(s: State, i: SourceId) {
    var messages := OfSource(s.consumed + s.queue, i);
    if i in s.sources then HistoryOk(s.sources[i]) && SentAre(messages, s.sources[i]) else messages == []
  }

  ghost predicate OrderInv(s: State) {
    forall i: SourceId :: OrderOk(s, i)
  }

  lemma OfSourceAppend(u: seq<Snapshot>, x: Snapshot, i: SourceId)
    ensures OfSource(u + [x], i) == OfSource(u, i) + if x.source == i then [x] else []
  {
    assert (u + [x])[..|u|] == u;
  }

  lemma SendAppendsFor(n: nat, s: State, j: SourceId, i: SourceId)
    requires SourceEnabled(n, s, j, Send) && SourceOk(n, j, s.sources[j])
    ensures var s', x := SourceApply(n, s, j, Send), s.sources[j].task.snapshot;
      && x.source == j
      && OfSource(s'.consumed + s'.queue, i) == OfSource(s.consumed + s.queue, i) + if j == i then [x] else []
  {
    var x := s.sources[j].task.snapshot;
    assert s.consumed + (s.queue + [x]) == (s.consumed + s.queue) + [x];
    OfSourceAppend(s.consumed + s.queue, x, i);
  }

  lemma OwnSendKeepsOrder(n: nat, s: State, i: SourceId)
    requires SourceEnabled(n, s, i, Send) && SourceOk(n, i, s.sources[i]) && OrderOk(s, i)
    ensures OrderOk(SourceApply(n, s, i, Send), i)
  {
    SourceKeepsHistory(n, s, i, Send);
    SendIsRecorded(n, i, s.sources[i], OfSource(s.consumed + s.queue, i));
    SendAppendsFor(n, s, i, i);
  }

  lemma OwnStepKeepsOrder(n: nat, s: State, i: SourceId, l: SourceStep)
    requires SourceEnabled(n, s, i, l) && SourceOk(n, i, s.sources[i]) && OrderOk(s, i)
    ensures OrderOk(SourceApply(n, s, i, l), i)
  {
    if l.Send? {
      OwnSendKeepsOrder(n, s, i);
    } else {
      SourceKeepsHistory(n, s, i, l);
      OthersSendNothing(s.sources[i], l, OfSource(s.consumed + s.queue, i));
    }
  }

  lemma OtherStepKeepsOrder(n: nat, s: State, j: SourceId, l: SourceStep, i: SourceId)
    requires SourceEnabled(n, s, j, l) && SourceOk(n, j, s.sources[j]) && OrderOk(s, i) && i != j
    ensures OrderOk(SourceApply(n, s, j, l), i)
  {
    if l.Send? {
      SendAppendsFor(n, s, j, i);
    }
  }

  lemma StepKeepsOrder(n: nat, s: State, l: Label)
    requires SourcesInv(n, s) && OrderInv(s) && Enabled(n, s, l)
    ensures OrderInv(Apply(n, s, l))
  {
    forall i: SourceId ensures OrderOk(Apply(n, s, l), i) {
      assert OrderOk(s, i);
      if l.S? {
        assert SourceOk(n, l.i, s.sources[l.i]);
        if l.i == i {
          OwnStepKeepsOrder(n, s, i, l.ss);
        } else {
          OtherStepKeepsOrder(n, s, l.i, l.ss, i);
        }
      } else {
        OthersKeepSources(n, s, l);
      }
    }
  }

  lemma {:induction false} RunKeepsOrder(n: nat, ids: set<SourceId>, run: seq<Label>)
    requires IsRun(n, ids, run)
    ensures OrderInv(After(n, ids, run))
  {
    if run != [] {
      var front := run[..|run| - 1];
      RunKeepsOrder(n, ids, front);
      RunInv(n, ids, front);
      StepKeepsOrder(n, After(n, ids, front), run[|run| - 1]);
    }
  }

  /** Message `j` is offer number `at[j]`, and these numbers never decrease. */
  ghost predicate InStoreOrder(offers: seq<Stored>, at: seq<nat>, messages: seq<Snapshot>) {
    && |at| == |messages|
    && (forall j :: 0 <= j < |at| ==> 1 <= at[j] <= |offers| && offers[at[j] - 1] == OkSnap(messages[j]))
    && (forall j, m :: 0 <= j < m < |at| ==> at[j] <= at[m])
  }

  lemma SentInStoreOrder(messages: seq<Snapshot>, src: Source)
    requires HistoryOk(src) && SentAre(messages, src)
    ensures InStoreOrder(src.offers, src.sent, messages)
  {
  }

  /** The messages of a source, consumed or queued, are snapshots its connection stored in the run, at
      store indices that never decrease: conflation may skip or repeat, and never reorders. */
  lemma SourceOrder(n: nat, ids: set<SourceId>, run: seq<Label>, i: SourceId)
    requires IsRun(n, ids, run) && i in ids
    ensures i in After(n, ids, run).sources
    ensures var s := After(n, ids, run);
      InStoreOrder(Offered(run, i), s.sources[i].sent, OfSource(s.consumed + s.queue, i))
  {
    var s := After(n, ids, run);
    RunKeepsOrder(n, ids, run);
    OffersAreOffered(n, ids, run, i);
    assert OrderOk(s, i);
    SentInStoreOrder(OfSource(s.consumed + s.queue, i), s.sources[i]);
  }

  /** No snapshot a connection stores is empty, and its arrival times never decrease. */
  ghost predicate TimelyOffers(offers: seq<Stored>) {
    && (forall j :: 0 <= j < |offers| && offers[j].OkSnap? ==> !offers[j].snapshot.IsEmpty())
    && (forall j, m :: 0 <= j < m < |offers| && offers[j].OkSnap? && offers[m].OkSnap? ==>
        offers[j].snapshot.arrivalTime <= offers[m].snapshot.arrivalTime)
  }

  /** Where a message stands among those of its source. */
  lemma {:induction false} PlaceInSource(u: seq<Snapshot>, a: nat)
    requires a < |u|
    ensures |OfSource(u[..a], u[a].source)| < |OfSource(u, u[a].source)|
    ensures OfSource(u, u[a].source)[|OfSource(u[..a], u[a].source)|] == u[a]
  {
    if a < |u| - 1 {
      assert u[..|u| - 1][..a] == u[..a];
      PlaceInSource(u[..|u| - 1], a);
    }
  }

  lemma {:induction false} PlacesGrow(u: seq<Snapshot>, a: nat, b: nat, i: SourceId)
    requires a <= b <= |u|
    ensures |OfSource(u[..a], i)| <= |OfSource(u[..b], i)|
    decreases b
  {
    if a < b {
      assert u[..b][..b - 1] == u[..b - 1];
      PlacesGrow(u, a, b - 1, i);
    }
  }

  lemma MessagesAreTimely(u: seq<Snapshot>, src: Source, i: SourceId)
    requires HistoryOk(src) && SentAre(OfSource(u, i), src) && TimelyOffers(src.offers)
    ensures forall a :: 0 <= a < |u| && u[a].source == i ==> !u[a].IsEmpty()
    ensures forall a, b :: 0 <= a < b < |u| && u[a].source == i && u[b].source == i ==>
      u[a].arrivalTime <= u[b].arrivalTime
  {
    forall a | 0 <= a < |u| && u[a].source == i ensures !u[a].IsEmpty() {
      PlaceInSource(u, a);
    }
    forall a, b | 0 <= a < b < |u| && u[a].source == i && u[b].source == i
      ensures u[a].arrivalTime <= u[b].arrivalTime
    {
      PlaceInSource(u, a);
      PlaceInSource(u, b);
      PlacesGrow(u, a, b, i);
      var p, q := |OfSource(u[..a], i)|, |OfSource(u[..b], i)|;
      assert src.sent[p] <= src.sent[q];
    }
  }

  lemma ConsumedIsTimely(n: nat, ids: set<SourceId>, run: seq<Label>)
    requires IsRun(n, ids, run) && forall i :: i in ids ==> TimelyOffers(Offered(run, i))
    ensures Timely(After(n, ids, run).consumed)
  {
    RunKeepsOrder(n, ids, run);
    var s := After(n, ids, run);
    var u := s.consumed + s.queue;
    forall a | 0 <= a < |u| ensures u[a].source in ids && !u[a].IsEmpty() {
      OffersAreOffered(n, ids, run, u[a].source);
      assert OrderOk(s, u[a].source);
      PlaceInSource(u, a);
      MessagesAreTimely(u, s.sources[u[a].source], u[a].source);
    }
    forall a, b | 0 <= a < b < |u| && u[a].source == u[b].source ensures u[a].arrivalTime <= u[b].arrivalTime {
      OffersAreOffered(n, ids, run, u[a].source);
      assert OrderOk(s, u[a].source);
      MessagesAreTimely(u, s.sources[u[a].source], u[a].source);
    }
    forall a | 0 <= a < |s.consumed| ensures s.consumed[a] == u[a] {}
  }

  /** Published arrival times never decrease when no connection stores an empty snapshot and the times
      each one stores never decrease. */
  lemma PublishedTimesNeverDecrease(n: nat, ids: set<SourceId>, run: seq<Label>, j: nat, k: nat)
    requires IsRun(n, ids, run) && forall i :: i in ids ==> TimelyOffers(Offered(run, i))
    requires var stores := After(n, ids, run).stores;
      j <= k < |stores| && stores[j].Available? && stores[k].Available?
    ensures After(n, ids, run).stores[j].summary.arrivalTime <= After(n, ids, run).stores[k].summary.arrivalTime
  {
    var s := After(n, ids, run);
    RunInv(n, ids, run);
    ConsumedIsTimely(n, ids, run);
    assert StoreOk(n, s.consumed, s.stores, j) && StoreOk(n, s.consumed, s.stores, k);
    ArrivalNeverDecreases(s.consumed, j, k);
  }
}
