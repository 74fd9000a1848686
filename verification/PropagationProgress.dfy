/** Who can move in the propagation, who is reached by a notification, and what one round of a source does. */
module PropagationProgress {
  import opened Wrappers
  import opened Books
  import opened MergeSpec
  import opened Combined
  import opened Reference
  import opened Propagation
  import opened PropagationInvariants
  import opened PropagationTheorems

  /** The queue keeps to its capacity; tasks and connections stop only for a reason. */
  ghost predicate StopInv(s: State) {
    && |s.queue| <= BACKLOG_SIZE
    && (forall i :: i in s.sources && s.sources[i].task.Stopped? ==> s.signalled || !s.pub.QueueOpen())
    && (forall i :: i in s.sources && s.sources[i].conn.ConnClosed? ==> s.signalled)
  }

  lemma SourceKeepsStop(n: nat, s: State, i: SourceId, l: SourceStep)
    requires StopInv(s) && SourceEnabled(n, s, i, l)
    ensures StopInv(SourceApply(n, s, i, l))
  {
  }

  lemma PubKeepsStop(n: nat, s: State, l: PubStep)
    requires StopInv(s) && PubEnabled(n, s, l)
    ensures StopInv(PubApply(n, s, l))
  {
  }

  lemma StepKeepsStop(n: nat, s: State, l: Label)
    requires StopInv(s) && Enabled(n, s, l)
    ensures StopInv(Apply(n, s, l))
  {
    match l
    case S(i, ss) => SourceKeepsStop(n, s, i, ss);
    case Q(ps) => PubKeepsStop(n, s, ps);
    case K(c, cs) => assert ClientApply(s, c, cs) == s.(clients := ClientApply(s, c, cs).clients);
    case Signal =>
    case Close =>
  }

  /** No run overfills the queue. A source task ends only after the shutdown signal or when the publisher
      has closed the queue, a connection only after the signal. */
  lemma {:induction false} StopsOnlyFor(n: nat, ids: set<SourceId>, run: seq<Label>)
    requires IsRun(n, ids, run)
    ensures StopInv(After(n, ids, run))
  {
    if run != [] {
      StopsOnlyFor(n, ids, run[..|run| - 1]);
      StepKeepsStop(n, After(n, ids, run[..|run| - 1]), run[|run| - 1]);
    }
  }

  // ---------- Source tasks ----------

  ghost predicate TaskCanMove(n: nat, s: State, i: SourceId) {
    || SourceEnabled(n, s, i, Subscribe) || SourceEnabled(n, s, i, Load) || SourceEnabled(n, s, i, Send)
    || SourceEnabled(n, s, i, GiveUp) || SourceEnabled(n, s, i, Wake)
  }

  lemma TaskMovesIff(n: nat, s: State, i: SourceId)
    requires i in s.sources && |s.queue| <= BACKLOG_SIZE
    ensures var src := s.sources[i];
      !TaskCanMove(n, s, i) <==>
      || src.task.Stopped?
      || (src.task.Waiting? && src.task.seen == src.version)
      || (src.task.Sending? && |s.queue| == BACKLOG_SIZE && s.pub.QueueOpen() && !s.signalled)
  {
  }

  /** A source task is stuck exactly when it has stopped, waits with nothing unseen, or sends to a full open
      queue before the shutdown signal. It has no other way out of its wait. */
  lemma TaskMovesExactly(n: nat, ids: set<SourceId>, run: seq<Label>, i: SourceId)
    requires IsRun(n, ids, run) && i in After(n, ids, run).sources
    ensures var s := After(n, ids, run); var src := s.sources[i];
      !TaskCanMove(n, s, i) <==>
      || src.task.Stopped?
      || (src.task.Waiting? && src.task.seen == src.version)
      || (src.task.Sending? && |s.queue| == BACKLOG_SIZE && s.pub.QueueOpen() && !s.signalled)
  {
    StopsOnlyFor(n, ids, run);
    TaskMovesIff(n, After(n, ids, run), i);
  }

  /** A send can be abandoned exactly after the shutdown signal or when the queue is closed. */
  lemma SendOrGiveUp(n: nat, ids: set<SourceId>, run: seq<Label>, i: SourceId)
    requires IsRun(n, ids, run) && i in After(n, ids, run).sources && After(n, ids, run).sources[i].task.Sending?
    ensures var s := After(n, ids, run);
      && (SourceEnabled(n, s, i, GiveUp) <==> s.signalled || !s.pub.QueueOpen())
      && (SourceEnabled(n, s, i, Send) <==> s.pub.QueueOpen() && |s.queue| < BACKLOG_SIZE)
  {
  }

  /** A connection that stored notifies a task that watches, so that a waiting one can wake; a task that
      does not watch misses nothing by it, since it starts to watch with nothing unseen. */
  lemma ConnNotifyReaches(n: nat, ids: set<SourceId>, run: seq<Label>, i: SourceId)
    requires IsRun(n, ids, run) && SourceEnabled(n, After(n, ids, run), i, ConnNotify)
    ensures var s := After(n, ids, run); var s' := SourceApply(n, s, i, ConnNotify);
      && s'.sources[i].conn.ConnIdle? && s'.sources[i].stored == s.sources[i].stored
      && (s.sources[i].task.Waiting? ==> SourceEnabled(n, s', i, Wake))
      && (s.sources[i].task.Watches() <==> s'.sources[i].version != s.sources[i].version)
      && s'.sources[i].task == s.sources[i].task
  {
    RunInv(n, ids, run);
    assert SourceOk(n, i, After(n, ids, run).sources[i]);
  }

  /** The task is past its loads with nothing unseen and what is stored loaded: it waits, or it sends the
      snapshot it loaded and then waits. */
  ghost predicate Rounded(n: nat, s: State, i: SourceId, stored: Stored) {
    && i in s.sources && s.sources[i].loaded == stored
    && match stored
       case OkSnap(u) =>
         && s.sources[i].task == Sending(s.sources[i].version, u)
         && (SourceEnabled(n, s, i, Send) ==>
               var s' := SourceApply(n, s, i, Send);
               && s'.sources[i].task == Waiting(s.sources[i].version)
               && s'.sources[i].forwarded == Some(u) && s'.queue == s.queue + [u])
       case _ => s.sources[i].task == Waiting(s.sources[i].version)
  }

  /** One round of the source loop: from a wakeup, the stored value is loaded, and sent if and only if it is
      a snapshot. */
  lemma RoundExactly(n: nat, ids: set<SourceId>, run: seq<Label>, i: SourceId)
    requires IsRun(n, ids, run) && SourceEnabled(n, After(n, ids, run), i, Wake)
    ensures var s := After(n, ids, run); var woken := SourceApply(n, s, i, Wake);
      && SourceEnabled(n, woken, i, Load)
      && SourceApply(n, woken, i, Load).queue == s.queue
      && Rounded(n, SourceApply(n, woken, i, Load), i, s.sources[i].stored)
  {
  }

  /** The first round: the task subscribes, loads what is stored, and has nothing unseen. */
  lemma FirstRoundExactly(n: nat, ids: set<SourceId>, run: seq<Label>, i: SourceId)
    requires IsRun(n, ids, run) && SourceEnabled(n, After(n, ids, run), i, Subscribe)
    ensures var s := After(n, ids, run); var subscribed := SourceApply(n, s, i, Subscribe);
      && SourceEnabled(n, subscribed, i, Load)
      && SourceApply(n, subscribed, i, Load).queue == s.queue
      && Rounded(n, SourceApply(n, subscribed, i, Load), i, s.sources[i].stored)
  {
  }

  // ---------- The publisher ----------

  ghost predicate PubCanMove(n: nat, s: State) {
    exists l: PubStep :: PubEnabled(n, s, l)
  }

  lemma MovingPub(n: nat, s: State)
    requires PubCanMove(n, s)
    ensures !s.pub.Crashed? && !s.pub.Ended? && !(s.pub.PubIdle? && s.queue == [] && !s.closing)
  {
  }

  lemma PubStepExists(n: nat, s: State)
    requires |s.combined| == NUM_SOURCES
    requires !s.pub.Crashed? && !s.pub.Ended? && !(s.pub.PubIdle? && s.queue == [] && !s.closing)
    ensures PubCanMove(n, s)
  {
    match s.pub
    case PubIdle =>
      if s.closing {
        assert PubEnabled(n, s, End);
      } else {
        var slots := Updated(s.combined, s.queue[0]);
        if Panics(n, slots) {
          assert PubEnabled(n, s, PubStep.Panic);
        } else {
          ConversionExists(n, slots);
          var summary :| Published(n, slots, summary);
          assert PubEnabled(n, s, Recv(summary));
        }
      }
    case Computed(_) => assert PubEnabled(n, s, Store);
    case PubStored => assert PubEnabled(n, s, Notify);
    case Ending => assert PubEnabled(n, s, StoreErr);
    case EndStored => assert PubEnabled(n, s, NotifyErr);
    case EndNotified => assert PubEnabled(n, s, CloseQueue);
  }

  /** On the next message the publisher panics or publishes, exactly as its conversion does. */
  lemma MessageExactly(n: nat, ids: set<SourceId>, run: seq<Label>)
    requires IsRun(n, ids, run) && After(n, ids, run).pub.PubIdle? && After(n, ids, run).queue != []
    ensures |After(n, ids, run).combined| == NUM_SOURCES
    ensures var s := After(n, ids, run); var slots := Updated(s.combined, s.queue[0]);
      && (PubEnabled(n, s, PubStep.Panic) <==> Panics(n, slots))
      && ((exists summary :: PubEnabled(n, s, Recv(summary))) <==> !Panics(n, slots))
      && (forall summary :: PubEnabled(n, s, Recv(summary)) ==> Published(n, slots, summary))
  {
    var s := After(n, ids, run);
    RunInv(n, ids, run);
    var slots := Updated(s.combined, s.queue[0]);
    if !Panics(n, slots) {
      ConversionExists(n, slots);
      var summary :| Published(n, slots, summary);
      assert PubEnabled(n, s, Recv(summary));
    }
  }

  /** The publisher is stuck exactly when it has crashed or ended, or when its queue is empty and no
      shutdown has reached it. */
  lemma PubMovesExactly(n: nat, ids: set<SourceId>, run: seq<Label>)
    requires IsRun(n, ids, run)
    ensures var s := After(n, ids, run);
      !PubCanMove(n, s) <==> s.pub.Crashed? || s.pub.Ended? || (s.pub.PubIdle? && s.queue == [] && !s.closing)
  {
    var s := After(n, ids, run);
    RunInv(n, ids, run);
    if PubCanMove(n, s) {
      MovingPub(n, s);
    } else if !s.pub.Crashed? && !s.pub.Ended? && !(s.pub.PubIdle? && s.queue == [] && !s.closing) {
      PubStepExists(n, s);
    }
  }

  /** After a notification every client that waits can wake; without a watching client nothing moves. */
  lemma PubNotifyReaches(n: nat, ids: set<SourceId>, run: seq<Label>, l: PubStep, c: nat)
    requires IsRun(n, ids, run) && (l.Notify? || l.NotifyErr?) && PubEnabled(n, After(n, ids, run), l)
    requires c in After(n, ids, run).clients
    ensures var s := After(n, ids, run); var s' := PubApply(n, s, l);
      && (s.clients[c].pc.Idle? ==> ClientEnabled(s', c, WakeUp))
      && ((forall x :: x in s.clients ==> !s.clients[x].pc.Watches()) ==> s'.version == s.version)
      && s'.stores == s.stores && s'.clients == s.clients
  {
    RunInv(n, ids, run);
    assert ClientOk(After(n, ids, run), After(n, ids, run).clients[c]);
  }

  // ---------- Clients ----------

  ghost predicate ClientCanMove(s: State, c: nat) {
    exists l: ClientStep :: ClientEnabled(s, c, l)
  }

  lemma MovingClient(s: State, c: nat)
    requires c in s.clients && ClientCanMove(s, c)
    ensures !s.clients[c].pc.Left? && !(s.clients[c].pc == Idle(s.version) && (!s.signalled || s.clients[c].deaf))
  {
  }

  lemma ClientStepExists(s: State, c: nat)
    requires c in s.clients && s.stores != []
    requires !s.clients[c].pc.Left? && !(s.clients[c].pc == Idle(s.version) && (!s.signalled || s.clients[c].deaf))
    ensures ClientCanMove(s, c)
  {
    match s.clients[c].pc
    case Starting => assert ClientEnabled(s, c, FirstLoad);
    case FirstSend => assert ClientEnabled(s, c, FirstDeliver);
    case Subscribing => assert ClientEnabled(s, c, Watch);
    case Idle(seen) => assert ClientEnabled(s, c, if seen != s.version then WakeUp else Leave);
    case Reading(_) => assert ClientEnabled(s, c, Read);
    case Delivering(_) => assert ClientEnabled(s, c, Deliver);
  }

  /** A client is stuck exactly when it has left, or waits with nothing unseen and has no shutdown signal to
      receive: none was sent, or it was sent before the client came. */
  lemma ClientMovesExactly(n: nat, ids: set<SourceId>, run: seq<Label>, c: nat)
    requires IsRun(n, ids, run) && c in After(n, ids, run).clients
    ensures var s := After(n, ids, run); var k := s.clients[c];
      !ClientCanMove(s, c) <==>
      k.pc.Left? || (k.pc == Idle(s.version) && (!s.signalled || k.deaf))
  {
    var s := After(n, ids, run);
    RunInv(n, ids, run);
    if ClientCanMove(s, c) {
      MovingClient(s, c);
    } else if !s.clients[c].pc.Left? && !(s.clients[c].pc == Idle(s.version) && (!s.signalled || s.clients[c].deaf)) {
      ClientStepExists(s, c);
    }
  }
}
