/** What a client loads is sent to it. */
module Deliveries {
  import opened Books
  import opened Propagation
  import opened PropagationInvariants
  import opened PropagationTheorems

  /** The last summary a client was sent has index `i`. */
  predicate LastSent(k: Client, i: nat) {
    k.sent != [] && k.sent[|k.sent| - 1] == i
  }

  /** What the client loaded last was sent to it: at `changed()` after a wakeup it is a summary and the last
      one sent; before the first wakeup, past the first load, it is the only one sent if it is a summary. */
  ghost predicate DeliveredOk(s: State, k: Client) {
    && k.loaded < |s.stores|
    && (k.pc.Starting? || k.pc.FirstSend? ==> k.sent == [])
    && (k.pc.FirstSend? || k.pc.Delivering? ==> s.stores[k.loaded].Available?)
    && (k.pc.Subscribing? || (k.pc.Idle? && !k.woken) ==>
          k.sent == if s.stores[k.loaded].Available? then [k.loaded] else [])
    && (k.pc.Idle? && k.woken ==> s.stores[k.loaded].Available? && LastSent(k, k.loaded))
    && (k.pc.Reading? || k.pc.Delivering? ==> k.woken)
    && (k.pc.Starting? || k.pc.FirstSend? || k.pc.Subscribing? ==> !k.woken)
    && (k.pc.Left? ==> s.stores[k.loaded].Shutdown? || s.stores[k.loaded].Available? || s.signalled)
    && (k.woken ==> s.version >= 1)
    && (k.pc.Watches() ==> k.pc.seen <= s.version)
  }

  /** The publisher has notified no more often than it has stored since the first value. */
  ghost predicate VersionOk(s: State) {
    s.version + (if s.pub.BetweenStoreAndSend() then 1 else 0) + 1 <= |s.stores|
  }

  ghost predicate DeliveryInv(s: State) {
    VersionOk(s) && forall c :: c in s.clients ==> DeliveredOk(s, s.clients[c])
  }

  /** Only the first value is empty, so a woken client never reads it. */
  ghost predicate OnlyFirstEmpty(stores: seq<Latest>) {
    forall k :: 1 <= k < |stores| ==> !stores[k].Empty?
  }

  lemma OwnStepDelivers(s: State, c: nat, l: ClientStep)
    requires c in s.clients && ClientEnabled(s, c, l) && VersionOk(s) && OnlyFirstEmpty(s.stores)
    requires DeliveredOk(s, s.clients[c])
    ensures DeliveredOk(s, ClientAfter(s, s.clients[c], l))
  {
  }

  lemma ClientDelivers(s: State, c: nat, l: ClientStep)
    requires ClientEnabled(s, c, l) && DeliveryInv(s) && OnlyFirstEmpty(s.stores)
    ensures DeliveryInv(ClientApply(s, c, l))
  {
    var s' := ClientApply(s, c, l);
    if c in s.clients {
      OwnStepDelivers(s, c, l);
    }
    forall x | x in s'.clients ensures DeliveredOk(s', s'.clients[x]) {
      assert x != c ==> DeliveredOk(s, s.clients[x]);
    }
  }

  lemma LongerStoresDelivered(s: State, s': State, k: Client)
    requires DeliveredOk(s, k) && s.stores <= s'.stores && s.version <= s'.version && (s.signalled ==> s'.signalled)
    ensures DeliveredOk(s', k)
  {
  }

  lemma PubDelivers(n: nat, s: State, l: PubStep)
    requires PubEnabled(n, s, l) && DeliveryInv(s)
    ensures VersionOk(PubApply(n, s, l))
    ensures s.stores <= PubApply(n, s, l).stores && s.version <= PubApply(n, s, l).version
    ensures PubApply(n, s, l).clients == s.clients && PubApply(n, s, l).signalled == s.signalled
  {
  }

  lemma SourceDelivers(n: nat, s: State, i: SourceId, l: SourceStep)
    requires SourceEnabled(n, s, i, l)
    ensures var s' := SourceApply(n, s, i, l);
      && s'.stores == s.stores && s'.version == s.version && s'.clients == s.clients
      && s'.signalled == s.signalled && s'.pub == s.pub
  {
  }

  lemma StepDelivers(n: nat, s: State, l: Label)
    requires Enabled(n, s, l) && DeliveryInv(s) && OnlyFirstEmpty(s.stores)
    ensures DeliveryInv(Apply(n, s, l))
  {
    match l
    case K(c, cs) => ClientDelivers(s, c, cs);
    case S(i, ss) =>
      SourceDelivers(n, s, i, ss);
      SameClientsDeliver(s, Apply(n, s, l));
    case Q(ps) =>
      PubDelivers(n, s, ps);
      SameClientsDeliver(s, Apply(n, s, l));
    case Signal => SameClientsDeliver(s, s.(signalled := true));
    case Close => SameClientsDeliver(s, s.(closing := true));
  }

  lemma SameClientsDeliver(s: State, s': State)
    requires DeliveryInv(s) && VersionOk(s') && s'.clients == s.clients
    requires s.stores <= s'.stores && s.version <= s'.version && (s.signalled ==> s'.signalled)
    ensures DeliveryInv(s')
  {
    forall c | c in s'.clients ensures DeliveredOk(s', s'.clients[c]) {
      LongerStoresDelivered(s, s', s.clients[c]);
    }
  }

  lemma PubInvOnlyFirstEmpty(n: nat, s: State)
    requires PubInv(n, s)
    ensures OnlyFirstEmpty(s.stores)
  {
    forall k | 1 <= k < |s.stores| ensures !s.stores[k].Empty? {
      assert StoreOk(n, s.consumed, s.stores, k);
    }
  }

  lemma {:induction false} RunDelivers(n: nat, ids: set<SourceId>, run: seq<Label>)
    requires IsRun(n, ids, run)
    ensures DeliveryInv(After(n, ids, run))
  {
    if run != [] {
      var front := run[..|run| - 1];
      RunDelivers(n, ids, front);
      RunInv(n, ids, front);
      PubInvOnlyFirstEmpty(n, After(n, ids, front));
      StepDelivers(n, After(n, ids, front), run[|run| - 1]);
    }
  }

  /** A client that has woken and waits again has loaded a summary, and it is the last one it was sent. */
  lemma WokenWasSent(n: nat, ids: set<SourceId>, run: seq<Label>, c: nat)
    requires IsRun(n, ids, run) && c in After(n, ids, run).clients
    requires After(n, ids, run).clients[c].pc.Idle? && After(n, ids, run).clients[c].woken
    ensures var s := After(n, ids, run); var k := s.clients[c];
      k.loaded < |s.stores| && s.stores[k.loaded].Available? && LastSent(k, k.loaded)
  {
    RunDelivers(n, ids, run);
  }

  /** A client past its first load that has not woken was sent the summary it loaded, if there was one, and
      nothing else. */
  lemma FirstWasSent(n: nat, ids: set<SourceId>, run: seq<Label>, c: nat)
    requires IsRun(n, ids, run) && c in After(n, ids, run).clients
    requires var k := After(n, ids, run).clients[c]; k.pc.Subscribing? || (k.pc.Idle? && !k.woken)
    ensures var s := After(n, ids, run); var k := s.clients[c];
      k.loaded < |s.stores| && k.sent == if s.stores[k.loaded].Available? then [k.loaded] else []
  {
    RunDelivers(n, ids, run);
  }

  /** With the publisher not between store and send, a woken client with nothing unseen has been sent the
      latest summary. */
  lemma IdleHasLatest(n: nat, ids: set<SourceId>, run: seq<Label>, c: nat)
    requires IsRun(n, ids, run) && c in After(n, ids, run).clients
    requires var s := After(n, ids, run);
      s.clients[c].pc == Idle(s.version) && s.clients[c].woken && !s.pub.BetweenStoreAndSend()
    ensures var s := After(n, ids, run);
      s.stores != [] && s.stores[|s.stores| - 1].Available? && LastSent(s.clients[c], |s.stores| - 1)
  {
    WokenWasSent(n, ids, run, c);
    ClientFreshExactly(n, ids, run, c);
  }

  /** A client leaves only when it has read the shutdown error, while a summary is being sent to it, or
      after the shutdown signal. */
  lemma WhyLeft(n: nat, ids: set<SourceId>, run: seq<Label>, c: nat)
    requires IsRun(n, ids, run) && c in After(n, ids, run).clients && After(n, ids, run).clients[c].pc.Left?
    ensures var s := After(n, ids, run); var k := s.clients[c];
      k.loaded < |s.stores| && (s.stores[k.loaded].Shutdown? || s.stores[k.loaded].Available? || s.signalled)
  {
    RunDelivers(n, ids, run);
  }

  // ---------- What one wakeup does ----------

  /** The client can be sent the summary of index `top` or give up, and once sent it waits with nothing
      unseen, that summary being the one added to what it was sent before. */
  ghost predicate SendsNext(s: State, c: nat, top: nat, before: seq<nat>) {
    && ClientEnabled(s, c, Deliver) && ClientEnabled(s, c, Leave)
    && ClientApply(s, c, Deliver).clients[c].sent == before + [top]
    && ClientApply(s, c, Deliver).clients[c].pc == Idle(s.version)
  }

  /** The client reads the latest value: a summary is sent next, at the shutdown error it leaves, at the
      empty value it waits again. */
  ghost predicate ReadsNext(s: State, c: nat, before: seq<nat>) {
    && ClientEnabled(s, c, Read)
    && var read, top := ClientApply(s, c, Read), |s.stores| - 1;
       match s.stores[top]
       case Available(_) => SendsNext(read, c, top, before)
       case Shutdown => read.clients[c].pc.Left? && read.clients[c].sent == before
       case Empty => read.clients[c].pc == Idle(s.version) && read.clients[c].sent == before
  }

  lemma ReadingReads(s: State, c: nat)
    requires s.stores != [] && c in s.clients && s.clients[c].pc == Reading(s.version)
    ensures ReadsNext(s, c, s.clients[c].sent)
  {
  }

  lemma WakeupReads(s: State, c: nat)
    requires c in s.clients && ClientEnabled(s, c, WakeUp)
    ensures ReadsNext(ClientApply(s, c, WakeUp), c, s.clients[c].sent)
  {
    ReadingReads(ClientApply(s, c, WakeUp), c);
  }

  /** A wakeup reads the latest value and does with it what its kind demands; the empty value is never the
      latest then. */
  lemma WakeupExactly(n: nat, ids: set<SourceId>, run: seq<Label>, c: nat)
    requires IsRun(n, ids, run) && c in After(n, ids, run).clients && ClientEnabled(After(n, ids, run), c, WakeUp)
    ensures var s := After(n, ids, run);
      s.stores != [] && !s.stores[|s.stores| - 1].Empty? && ReadsNext(ClientApply(s, c, WakeUp), c, s.clients[c].sent)
  {
    var s := After(n, ids, run);
    WakeupReads(s, c);
    NotEmptyAtWakeup(n, ids, run, c);
  }

  lemma NotEmptyAtWakeup(n: nat, ids: set<SourceId>, run: seq<Label>, c: nat)
    requires IsRun(n, ids, run) && c in After(n, ids, run).clients && ClientEnabled(After(n, ids, run), c, WakeUp)
    ensures var s := After(n, ids, run); s.stores != [] && !s.stores[|s.stores| - 1].Empty?
  {
    var s := After(n, ids, run);
    RunInv(n, ids, run);
    RunDelivers(n, ids, run);
    PubInvOnlyFirstEmpty(n, s);
    assert DeliveredOk(s, s.clients[c]);
  }

  /** The client can subscribe to the watch, and then waits with nothing unseen. */
  ghost predicate StartsToWatch(s: State, c: nat) {
    ClientEnabled(s, c, Watch) && ClientApply(s, c, Watch).clients[c].pc == Idle(s.version)
  }

  /** The first summary is sent or the client gives up, and once sent the client starts to watch. */
  ghost predicate SendsFirst(s: State, c: nat, top: nat) {
    && ClientEnabled(s, c, FirstDeliver) && ClientEnabled(s, c, Leave)
    && ClientApply(s, c, FirstDeliver).clients[c].sent == [top]
    && StartsToWatch(ClientApply(s, c, FirstDeliver), c)
  }

  /** A summary is sent or abandoned before the client watches; anything else is not sent. */
  ghost predicate LoadsFirst(s: State, c: nat) {
    && ClientEnabled(s, c, FirstLoad)
    && var read, top := ClientApply(s, c, FirstLoad), |s.stores| - 1;
       if s.stores[top].Available? then SendsFirst(read, c, top)
       else read.clients[c].sent == [] && StartsToWatch(read, c)
  }

  lemma StartingLoads(s: State, c: nat)
    requires s.stores != [] && c in s.clients && s.clients[c].pc.Starting? && s.clients[c].sent == []
    ensures LoadsFirst(s, c)
  {
  }

  /** What the first load leads to. */
  lemma FirstLoadExactly(n: nat, ids: set<SourceId>, run: seq<Label>, c: nat)
    requires IsRun(n, ids, run) && c in After(n, ids, run).clients && After(n, ids, run).clients[c].pc.Starting?
    ensures LoadsFirst(After(n, ids, run), c)
  {
    RunDelivers(n, ids, run);
    assert DeliveredOk(After(n, ids, run), After(n, ids, run).clients[c]);
    StartingLoads(After(n, ids, run), c);
  }
}
