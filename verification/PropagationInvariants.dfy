/** What every step of the propagation keeps. */
module PropagationInvariants {
  import opened Wrappers
  import opened Books
  import opened MergeSpec
  import opened Updates
  import opened Propagation

  ghost predicate ValidStored(n: nat, i: SourceId, v: Stored) {
    v.OkSnap? ==> v.snapshot.source == i && v.snapshot.WithinDepth(n)
  }

  /** A source: the versions seen, what was loaded, and what was forwarded of it. */
  ghost predicate SourceOk(n: nat, i: SourceId, src: Source) {
    && ValidStored(n, i, src.stored) && ValidStored(n, i, src.loaded)
    && (src.task.Watches() ==> src.task.seen <= src.version)
    && ((src.task.Sending? || src.task.Waiting?) && src.task.seen == src.version && !src.conn.ConnStored? ==>
        src.loaded == src.stored)
    && (src.task.Sending? ==> src.loaded == OkSnap(src.task.snapshot))
    && (src.task.Waiting? && src.loaded.OkSnap? ==> src.forwarded == Some(src.loaded.snapshot))
  }

  ghost predicate SourcesInv(n: nat, s: State) {
    forall i :: i in s.sources ==> SourceOk(n, i, s.sources[i])
  }

  lemma SourceStepOk(n: nat, s: State, i: SourceId, l: SourceStep)
    requires SourceEnabled(n, s, i, l) && SourceOk(n, i, s.sources[i])
    ensures SourceOk(n, i, SourceAfter(s.sources[i], l))
  {
  }

  /** What was forwarded by a source is its last message so far. */
  ghost predicate QueueInv(n: nat, s: State) {
    && (forall u :: u in s.consumed + s.queue ==> u.WithinDepth(n))
    && (forall i: SourceId ::
          LastFrom(s.consumed + s.queue, i) == if i in s.sources then s.sources[i].forwarded else None)
  }

  lemma LastFromAppend(u: seq<Snapshot>, x: Snapshot, i: SourceId)
    ensures LastFrom(u + [x], i) == if x.source == i then Some(x) else LastFrom(u, i)
  {
  }

  lemma SendForwards(n: nat, s: State, i: SourceId, j: SourceId)
    requires SourceEnabled(n, s, i, Send)
    ensures var s' := SourceApply(n, s, i, Send);
      && (j in s'.sources <==> j in s.sources)
      && (j in s.sources ==>
            s'.sources[j].forwarded == if j == i then Some(s.sources[i].task.snapshot) else s.sources[j].forwarded)
  {
  }

  lemma SendAppends(n: nat, s: State, i: SourceId)
    requires SourceEnabled(n, s, i, Send)
    ensures var s' := SourceApply(n, s, i, Send);
      s'.consumed + s'.queue == (s.consumed + s.queue) + [s.sources[i].task.snapshot]
  {
  }

  lemma SendKeepsQueue(n: nat, s: State, i: SourceId)
    requires SourceEnabled(n, s, i, Send) && SourceOk(n, i, s.sources[i]) && QueueInv(n, s)
    ensures QueueInv(n, SourceApply(n, s, i, Send))
  {
    var s', x := SourceApply(n, s, i, Send), s.sources[i].task.snapshot;
    SendAppends(n, s, i);
    forall j: SourceId
      ensures LastFrom(s'.consumed + s'.queue, j) == if j in s'.sources then s'.sources[j].forwarded else None
    {
      SendForwards(n, s, i, j);
      LastFromAppend(s.consumed + s.queue, x, j);
    }
  }

  lemma OnlySendForwards(n: nat, s: State, i: SourceId, l: SourceStep, j: SourceId)
    requires SourceEnabled(n, s, i, l) && !l.Send?
    ensures j in SourceApply(n, s, i, l).sources <==> j in s.sources
    ensures j in s.sources ==> SourceApply(n, s, i, l).sources[j].forwarded == s.sources[j].forwarded
  {
  }

  lemma SourceKeepsQueue(n: nat, s: State, i: SourceId, l: SourceStep)
    requires SourcesInv(n, s) && QueueInv(n, s) && SourceEnabled(n, s, i, l)
    ensures QueueInv(n, SourceApply(n, s, i, l))
  {
    if l.Send? {
      assert SourceOk(n, i, s.sources[i]);
      SendKeepsQueue(n, s, i);
    } else {
      forall j: SourceId
        ensures j in SourceApply(n, s, i, l).sources <==> j in s.sources
        ensures j in s.sources ==> SourceApply(n, s, i, l).sources[j].forwarded == s.sources[j].forwarded
      {
        OnlySendForwards(n, s, i, l, j);
      }
    }
  }

  lemma PubKeepsQueue(n: nat, s: State, l: PubStep)
    requires QueueInv(n, s) && PubEnabled(n, s, l)
    ensures QueueInv(n, PubApply(n, s, l))
  {
    if l.Recv? {
      assert PubApply(n, s, l).consumed + PubApply(n, s, l).queue == s.consumed + s.queue;
    }
  }

  /** The `k`-th value stored is the conversion of the first `k` messages; the shutdown error is last. */
  ghost predicate StoreOk(n: nat, consumed: seq<Snapshot>, stores: seq<Latest>, k: nat)
    requires k < |stores|
  {
    match stores[k]
    case Empty => k == 0
    case Available(summary) => 1 <= k <= |consumed| && Published(n, Fold(consumed[..k]), summary)
    case Shutdown => k > 0 && k == |stores| - 1
  }

  /** The position of the publisher fixes how many messages it has consumed and stored. */
  ghost predicate PositionOk(n: nat, s: State) {
    s.stores != [] &&
    match s.pub
    case Computed(summary) =>
      |s.consumed| == |s.stores| && !s.stores[|s.stores| - 1].Shutdown? && Published(n, Fold(s.consumed), summary)
    case EndStored => |s.consumed| == |s.stores| - 2 && s.stores[|s.stores| - 1].Shutdown?
    case EndNotified => |s.consumed| == |s.stores| - 2 && s.stores[|s.stores| - 1].Shutdown?
    case Ended => |s.consumed| == |s.stores| - 2 && s.stores[|s.stores| - 1].Shutdown?
    case _ => |s.consumed| == |s.stores| - 1 && !s.stores[|s.stores| - 1].Shutdown?
  }

  ghost predicate PubInv(n: nat, s: State) {
    && s.combined == Fold(s.consumed)
    && PositionOk(n, s)
    && s.stores[0] == Empty
    && forall k :: 0 <= k < |s.stores| ==> StoreOk(n, s.consumed, s.stores, k)
  }

  lemma LongerPrefixStoreOk(n: nat, consumed: seq<Snapshot>, x: Snapshot, stores: seq<Latest>, k: nat)
    requires k < |stores| && StoreOk(n, consumed, stores, k)
    ensures StoreOk(n, consumed + [x], stores, k)
  {
    if stores[k].Available? { assert (consumed + [x])[..k] == consumed[..k]; }
  }

  lemma EarlierStoreOk(n: nat, consumed: seq<Snapshot>, stores: seq<Latest>, v: Latest, k: nat)
    requires k < |stores| && StoreOk(n, consumed, stores, k) && !stores[|stores| - 1].Shutdown?
    ensures StoreOk(n, consumed, stores + [v], k)
  {
  }

  lemma RecvKeepsPub(n: nat, s: State, summary: Summary)
    requires PubInv(n, s) && PubEnabled(n, s, Recv(summary))
    ensures PubInv(n, PubApply(n, s, Recv(summary)))
  {
    var s' := PubApply(n, s, Recv(summary));
    assert s'.consumed[..|s.consumed|] == s.consumed;
    forall k | 0 <= k < |s'.stores| ensures StoreOk(n, s'.consumed, s'.stores, k) {
      LongerPrefixStoreOk(n, s.consumed, s.queue[0], s.stores, k);
    }
  }

  lemma StoreKeepsPub(n: nat, s: State)
    requires PubInv(n, s) && s.pub.Computed?
    ensures PubInv(n, PubApply(n, s, Store))
  {
    var s' := PubApply(n, s, Store);
    assert s.consumed[..|s.consumed|] == s.consumed;
    forall k | 0 <= k < |s'.stores| ensures StoreOk(n, s'.consumed, s'.stores, k) {
      if k < |s.stores| { EarlierStoreOk(n, s.consumed, s.stores, Available(s.pub.summary), k); }
    }
  }

  lemma StoreErrKeepsPub(n: nat, s: State)
    requires PubInv(n, s) && s.pub.Ending?
    ensures PubInv(n, PubApply(n, s, StoreErr))
  {
    var s' := PubApply(n, s, StoreErr);
    forall k | 0 <= k < |s'.stores| ensures StoreOk(n, s'.consumed, s'.stores, k) {
      if k < |s.stores| { EarlierStoreOk(n, s.consumed, s.stores, Shutdown, k); }
    }
  }

  lemma PubKeepsPub(n: nat, s: State, l: PubStep)
    requires PubInv(n, s) && PubEnabled(n, s, l)
    ensures PubInv(n, PubApply(n, s, l))
  {
    match l
    case Recv(summary) => RecvKeepsPub(n, s, summary);
    case Store => StoreKeepsPub(n, s);
    case StoreErr => StoreErrKeepsPub(n, s);
    case _ =>
  }

  /** Nothing a client does not know about its watch can be missing: what it loaded is the latest value
      if it has woken, and otherwise the latest value is the one of the moment it began to watch. */
  ghost predicate ClientOk(s: State, k: Client) {
    && s.stores != [] && k.loaded < |s.stores|
    && (k.pc.Watches() ==> k.pc.seen <= s.version)
    && (forall j :: 0 <= j < |k.sent| ==> k.sent[j] <= k.loaded && s.stores[k.sent[j]].Available?)
    && (forall j, m :: 0 <= j < m < |k.sent| ==> k.sent[j] <= k.sent[m])
    && (k.pc.Starting? ==> k.sent == [])
    && ((k.pc.FirstSend? || k.pc.Delivering?) ==> s.stores[k.loaded].Available?)
    && (k.pc.Reading? || k.pc.Delivering? ==> k.woken)
    && (k.pc.Starting? || k.pc.FirstSend? || k.pc.Subscribing? ==> !k.woken)
    && (k.pc.Watches() && k.pc.seen == s.version && !s.pub.BetweenStoreAndSend() && !k.pc.Reading? ==>
        |s.stores| - 1 == if k.woken then k.loaded else k.watched)
  }

  ghost predicate ClientsInv(s: State) {
    forall c :: c in s.clients ==> ClientOk(s, s.clients[c])
  }

  lemma JoinOk(s: State, c: nat)
    requires s.stores != [] && ClientEnabled(s, c, Join)
    ensures ClientOk(ClientApply(s, c, Join), ClientApply(s, c, Join).clients[c])
  {
  }

  /** A step of another client changes nothing a client depends on. */
  lemma OtherClientOk(s: State, c: nat, l: ClientStep, k: Client)
    requires ClientEnabled(s, c, l) && ClientOk(s, k)
    ensures ClientOk(ClientApply(s, c, l), k)
  {
  }

  lemma OwnStepOk(s: State, c: nat, l: ClientStep)
    requires c in s.clients && ClientEnabled(s, c, l) && ClientOk(s, s.clients[c])
    ensures ClientOk(s, ClientAfter(s, s.clients[c], l))
  {
  }

  lemma ClientStepOk(s: State, c: nat, l: ClientStep)
    requires s.stores != [] && ClientEnabled(s, c, l) && ClientsInv(s)
    ensures ClientsInv(ClientApply(s, c, l))
  {
    var s' := ClientApply(s, c, l);
    forall x | x in s'.clients ensures ClientOk(s', s'.clients[x]) {
      if x != c {
        OtherClientOk(s, c, l, s.clients[x]);
      } else if c in s.clients {
        OwnStepOk(s, c, l);
        OtherClientOk(s, c, l, s'.clients[c]);
      } else {
        JoinOk(s, c);
      }
    }
  }

  lemma PubKeepsClients(n: nat, s: State, l: PubStep)
    requires s.stores != [] && ClientsInv(s) && PubEnabled(n, s, l)
    ensures ClientsInv(PubApply(n, s, l))
  {
  }
}
