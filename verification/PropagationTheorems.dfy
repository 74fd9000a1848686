/** The properties of the propagation, over every run. */
module PropagationTheorems {
  import opened Wrappers
  import opened Floats
  import opened Books
  import opened Combined
  import opened MergeSpec
  import opened Updates
  import opened PanicFreedom
  import opened Propagation
  import opened PropagationInvariants

  ghost predicate Inv(n: nat, s: State) {
    SourcesInv(n, s) && QueueInv(n, s) && PubInv(n, s) && ClientsInv(s)
  }

  lemma SourceKeepsInv(n: nat, s: State, i: SourceId, l: SourceStep)
    requires Inv(n, s) && SourceEnabled(n, s, i, l)
    ensures Inv(n, SourceApply(n, s, i, l))
  {
    var s' := SourceApply(n, s, i, l);
    assert SourceOk(n, i, s.sources[i]);
    SourceStepOk(n, s, i, l);
    SourceKeepsQueue(n, s, i, l);
    SameForPubAndClients(n, s, s');
  }

  /** The publisher's and the clients' invariants read neither the sources nor the queue nor the signals. */
  lemma SameForPubAndClients(n: nat, s: State, s': State)
    requires PubInv(n, s) && ClientsInv(s)
    requires s' == s.(sources := s'.sources, queue := s'.queue, signalled := s'.signalled, closing := s'.closing)
    ensures PubInv(n, s') && ClientsInv(s')
  {
  }

  lemma PubKeepsInv(n: nat, s: State, l: PubStep)
    requires Inv(n, s) && PubEnabled(n, s, l)
    ensures Inv(n, PubApply(n, s, l))
  {
    PubKeepsQueue(n, s, l);
    PubKeepsPub(n, s, l);
    PubKeepsClients(n, s, l);
    forall i | i in s.sources ensures SourceOk(n, i, s.sources[i]) {}
  }

  lemma ClientKeepsInv(n: nat, s: State, c: nat, l: ClientStep)
    requires Inv(n, s) && ClientEnabled(s, c, l)
    ensures Inv(n, ClientApply(s, c, l))
  {
    ClientStepOk(s, c, l);
    var s' := ClientApply(s, c, l);
    forall k | 0 <= k < |s'.stores| ensures StoreOk(n, s'.consumed, s'.stores, k) {
      assert StoreOk(n, s.consumed, s.stores, k);
    }
    forall i | i in s'.sources ensures SourceOk(n, i, s'.sources[i]) {
      assert SourceOk(n, i, s.sources[i]);
    }
  }

  lemma SignalKeepsInv(n: nat, s: State, s': State)
    requires Inv(n, s) && s' == s.(signalled := s'.signalled, closing := s'.closing)
    ensures Inv(n, s')
  {
  }

  lemma InitialInv(n: nat, ids: set<SourceId>)
    ensures Inv(n, Initial(ids))
  {
  }

  /** Every state of every run satisfies the invariants. */
  lemma {:induction false} RunInv(n: nat, ids: set<SourceId>, run: seq<Label>)
    requires IsRun(n, ids, run)
    ensures Inv(n, After(n, ids, run))
  {
    if run == [] {
      InitialInv(n, ids);
    } else {
      var front := run[..|run| - 1];
      RunInv(n, ids, front);
      var s := After(n, ids, front);
      match run[|run| - 1]
      case S(i, ss) => SourceKeepsInv(n, s, i, ss);
      case Q(ps) => PubKeepsInv(n, s, ps);
      case K(c, cs) => ClientKeepsInv(n, s, c, cs);
      case Signal => SignalKeepsInv(n, s, After(n, ids, run));
      case Close => SignalKeepsInv(n, s, After(n, ids, run));
    }
  }

  /** No lost update: a source task that waits with nothing unseen has loaded the stored value, unless
      the connection is between its store and its send. */
  lemma NoLostUpdate(n: nat, ids: set<SourceId>, run: seq<Label>, i: SourceId)
    requires IsRun(n, ids, run) && i in After(n, ids, run).sources
    requires var src := After(n, ids, run).sources[i];
      src.task.Waiting? && src.task.seen == src.version && !src.conn.ConnStored?
    ensures After(n, ids, run).sources[i].loaded == After(n, ids, run).sources[i].stored
  {
    RunInv(n, ids, run);
    assert SourceOk(n, i, After(n, ids, run).sources[i]);
  }

  /** Nothing is on its way: every source task waits with nothing unseen, no connection is between
      store and send, the queue is empty and the publisher is idle. */
  ghost predicate Quiescent(s: State) {
    && (forall i :: i in s.sources ==>
        s.sources[i].task.Waiting? && s.sources[i].task.seen == s.sources[i].version && !s.sources[i].conn.ConnStored?)
    && s.queue == [] && s.pub.PubIdle?
  }

  /** The last snapshot a source forwarded. */
  function Forwarded(s: State, i: SourceId): Option<Snapshot> {
    if i in s.sources then s.sources[i].forwarded else None
  }

  /** Quiescent agreement: the latest value is the conversion of each source's last forwarded snapshot,
      and for a source whose stored value is a snapshot that is the stored one. Errors and skipped
      snapshots leave no trace. */
  lemma QuiescentAgreement(n: nat, ids: set<SourceId>, run: seq<Label>)
    requires IsRun(n, ids, run) && Quiescent(After(n, ids, run))
    ensures var s := After(n, ids, run);
      && s.stores != []
      && (match s.stores[|s.stores| - 1]
          case Empty => forall i: SourceId :: Forwarded(s, i).None?
          case Available(summary) => Published(n, SlotsOf(i => Forwarded(s, i)), summary)
          case Shutdown => false)
      && (forall i :: i in s.sources && s.sources[i].stored.OkSnap? ==>
          Forwarded(s, i) == Some(s.sources[i].stored.snapshot))
  {
    var s := After(n, ids, run);
    RunInv(n, ids, run);
    forall i | i in s.sources && s.sources[i].stored.OkSnap?
      ensures Forwarded(s, i) == Some(s.sources[i].stored.snapshot)
    {
      assert SourceOk(n, i, s.sources[i]);
    }
    assert s.consumed + s.queue == s.consumed;
    LatestIsFold(n, s);
    FoldKeepsLast(s.consumed);
  }

  /** An idle publisher's latest value is the conversion of everything it has consumed. */
  lemma LatestIsFold(n: nat, s: State)
    requires PubInv(n, s) && s.pub.PubIdle?
    ensures match s.stores[|s.stores| - 1]
      case Empty => s.consumed == []
      case Available(summary) => Published(n, Fold(s.consumed), summary)
      case Shutdown => false
  {
    var top := |s.stores| - 1;
    assert StoreOk(n, s.consumed, s.stores, top);
    assert s.consumed[..|s.consumed|] == s.consumed;
  }

  /** The run of the publisher's latest value: first `Ok(None)`, then the conversions of exactly the
      consumed prefixes, then at most one shutdown error, which is last. */
  lemma PublisherRunShape(n: nat, ids: set<SourceId>, run: seq<Label>, k: nat)
    requires IsRun(n, ids, run) && k < |After(n, ids, run).stores|
    ensures StoreOk(n, After(n, ids, run).consumed, After(n, ids, run).stores, k)
    ensures k == 0 <==> After(n, ids, run).stores[k] == Empty
  {
    RunInv(n, ids, run);
    assert StoreOk(n, After(n, ids, run).consumed, After(n, ids, run).stores, 0);
    assert StoreOk(n, After(n, ids, run).consumed, After(n, ids, run).stores, k);
  }

  lemma PubOnlyAppends(n: nat, s: State, l: PubStep)
    requires PubInv(n, s) && PubEnabled(n, s, l)
    ensures s.stores <= PubApply(n, s, l).stores
    ensures Shutdown in s.stores ==> PubApply(n, s, l).stores == s.stores
  {
    if Shutdown in s.stores {
      var k :| 0 <= k < |s.stores| && s.stores[k] == Shutdown;
      assert StoreOk(n, s.consumed, s.stores, k);
    }
  }

  /** Values are only appended, and nothing follows the shutdown error. */
  lemma LatestOnlyGrows(n: nat, ids: set<SourceId>, run: seq<Label>, l: Label)
    requires IsRun(n, ids, run) && Enabled(n, After(n, ids, run), l)
    ensures After(n, ids, run).stores <= Apply(n, After(n, ids, run), l).stores
    ensures Shutdown in After(n, ids, run).stores ==>
      Apply(n, After(n, ids, run), l).stores == After(n, ids, run).stores
  {
    var s := After(n, ids, run);
    RunInv(n, ids, run);
    match l
    case S(i, ss) => assert SourceApply(n, s, i, ss).stores == s.stores;
    case Q(ps) => PubOnlyAppends(n, s, ps);
    case K(c, cs) => assert ClientApply(s, c, cs).stores == s.stores;
    case Signal =>
    case Close =>
  }

  /** The summaries sent to one client come in publisher order, and each was the latest value once. */
  lemma ClientOrder(n: nat, ids: set<SourceId>, run: seq<Label>, c: nat)
    requires IsRun(n, ids, run) && c in After(n, ids, run).clients
    ensures var s := After(n, ids, run); var sent := s.clients[c].sent;
      && (forall j :: 0 <= j < |sent| ==> sent[j] < |s.stores| && s.stores[sent[j]].Available?)
      && (forall j, m :: 0 <= j < m < |sent| ==> sent[j] <= sent[m])
  {
    RunInv(n, ids, run);
    assert ClientOk(After(n, ids, run), After(n, ids, run).clients[c]);
  }

  /** A client at `changed()` with nothing unseen, the publisher not between store and send, has the
      latest value exactly when it has woken once or nothing was stored between its first load and the
      moment it began to watch. */
  lemma ClientFreshExactly(n: nat, ids: set<SourceId>, run: seq<Label>, c: nat)
    requires IsRun(n, ids, run) && c in After(n, ids, run).clients
    requires var s := After(n, ids, run);
      s.clients[c].pc == Idle(s.version) && !s.pub.BetweenStoreAndSend()
    ensures var s := After(n, ids, run); var k := s.clients[c];
      k.loaded == |s.stores| - 1 <==> k.woken || k.loaded == k.watched
  {
    RunInv(n, ids, run);
    assert ClientOk(After(n, ids, run), After(n, ids, run).clients[c]);
  }

  /** Every snapshot a connection stores in the run has distinct prices and comparable amounts. */
  ghost predicate CleanRun(run: seq<Label>) {
    forall j :: 0 <= j < |run| && run[j].S? && run[j].ss.ConnStore? && run[j].ss.value.OkSnap? ==>
      CleanSnapshot(run[j].ss.value.snapshot)
  }

  ghost predicate CleanStored(v: Stored) { v.OkSnap? ==> CleanSnapshot(v.snapshot) }

  ghost predicate CleanState(s: State) {
    && (forall i :: i in s.sources ==> CleanStored(s.sources[i].stored))
    && (forall i :: i in s.sources && s.sources[i].task.Sending? ==> CleanSnapshot(s.sources[i].task.snapshot))
    && (forall u :: u in s.queue ==> CleanSnapshot(u))
    && (forall j :: 0 <= j < |s.combined| ==> CleanSnapshot(s.combined[j]))
  }

  lemma StepKeepsClean(n: nat, s: State, l: Label)
    requires CleanState(s) && Enabled(n, s, l)
    requires l.S? && l.ss.ConnStore? ==> CleanStored(l.ss.value)
    ensures CleanState(Apply(n, s, l))
  {
    match l
    case S(i, ss) => SourceKeepsClean(n, s, i, ss);
    case Q(ps) => PubKeepsClean(n, s, ps);
    case K(c, cs) => assert ClientApply(s, c, cs) == s.(clients := ClientApply(s, c, cs).clients);
    case Signal =>
    case Close =>
  }

  lemma SourceKeepsClean(n: nat, s: State, i: SourceId, l: SourceStep)
    requires CleanState(s) && SourceEnabled(n, s, i, l) && (l.ConnStore? ==> CleanStored(l.value))
    ensures CleanState(SourceApply(n, s, i, l))
  {
  }

  lemma PubKeepsClean(n: nat, s: State, l: PubStep)
    requires CleanState(s) && PubEnabled(n, s, l)
    ensures CleanState(PubApply(n, s, l))
  {
  }

  lemma {:induction false} RunKeepsClean(n: nat, ids: set<SourceId>, run: seq<Label>)
    requires IsRun(n, ids, run) && CleanRun(run)
    ensures CleanState(After(n, ids, run))
  {
    if run != [] {
      var front := run[..|run| - 1];
      forall j | 0 <= j < |front| ensures front[j] == run[j] {}
      RunKeepsClean(n, ids, front);
      StepKeepsClean(n, After(n, ids, front), run[|run| - 1]);
    }
  }

  /** With distinct prices and comparable amounts in every snapshot, the publisher can crash if and only
      if the depth is 1 and the next message makes both sources quote one price on a side. */
  lemma PublisherCrashesExactly(n: nat, ids: set<SourceId>, run: seq<Label>)
    requires IsRun(n, ids, run) && CleanRun(run)
    ensures var s := After(n, ids, run);
      PubEnabled(n, s, Panic) <==>
      && s.pub.PubIdle? && s.queue != [] && |s.combined| == NUM_SOURCES
      && n == 1 && exists side: Side, k: F64 :: SamePrice(side, Updated(s.combined, s.queue[0]), k)
  {
    var s := After(n, ids, run);
    RunInv(n, ids, run);
    RunKeepsClean(n, ids, run);
    if s.pub.PubIdle? && s.queue != [] {
      var u := s.queue[0];
      assert u in s.queue && u in s.consumed + s.queue;
      forall x | x in s.consumed ensures x.WithinDepth(n) {
        assert x in s.consumed + s.queue;
      }
      FoldValid(n, s.consumed);
      PanicsExactly(n, Updated(s.combined, u));
    }
  }

  /** So at depth 2 or more it cannot crash, whatever the interleaving. */
  lemma PublisherNeverCrashes(n: nat, ids: set<SourceId>, run: seq<Label>)
    requires n >= 2 && IsRun(n, ids, run) && CleanRun(run)
    ensures !PubEnabled(n, After(n, ids, run), Panic)
  {
    PublisherCrashesExactly(n, ids, run);
  }
}
