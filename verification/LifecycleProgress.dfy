/** Who can move, and that somebody always can. */
module LifecycleProgress {
  import opened Instruments
  import opened Lifecycle
  import opened LifecycleInvariants
  import opened LifecycleTheorems
  import opened GracePeriods

  /** A client has a step other than giving up. */
  ghost predicate ClientCanMove(table: Table, s: State, c: TaskId) {
    (exists l: OpenStep :: OpenEnabled(table, s, c, l) && !l.Leave?) || exists l: PublishStep :: PublishEnabled(s, c, l)
  }

  lemma ClientStep(table: Table, s: State, c: TaskId)
    requires RefsInv(s) && c in s.clients && !s.clients[c].Gone? && (s.clients[c].Opening? ==> s.lock.Free?)
    ensures ClientCanMove(table, s, c)
  {
    match s.clients[c]
    case Opening(_) => assert OpenEnabled(table, s, c, Acquire);
    case Locked(_) => assert OpenEnabled(table, s, c, LoadFlag);
    case Admitted(_) => assert OpenEnabled(table, s, c, Lookup);
    case Creating(_) => assert OpenEnabled(table, s, c, CreateFails);
    case Returning(_) => assert OpenEnabled(table, s, c, Release);
    case Refused => assert OpenEnabled(table, s, c, Release);
    case Opened(_) => assert PublishEnabled(s, c, FetchAdd);
    case Notifying(_) => assert PublishEnabled(s, c, NotifyWaiters);
    case Streaming(_) => assert PublishEnabled(s, c, FetchSub);
    case Spawning(_, _) =>
      var t := FreshTask(s.timers.Keys);
      assert PublishEnabled(s, c, Spawn(t));
  }

  lemma MovingClient(table: Table, s: State, c: TaskId)
    requires c in s.clients && ClientCanMove(table, s, c)
    ensures !s.clients[c].Gone? && (s.clients[c].Opening? ==> s.lock.Free?)
  {
  }

  /** A client is stuck exactly when it is gone, or waits for the lock while somebody holds it; and
      waiting it can always give up. */
  lemma ClientMovesExactly(table: Table, run: seq<Label>, c: TaskId)
    requires KeyedBySymbol(table) && IsRun(table, run) && c in After(table, run).clients
    ensures var s := After(table, run);
      && (ClientCanMove(table, s, c) <==> !s.clients[c].Gone? && (s.clients[c].Opening? ==> s.lock.Free?))
      && (OpenEnabled(table, s, c, Leave) <==> s.clients[c].Opening?)
  {
    var s := After(table, run);
    RunInv(table, run);
    if ClientCanMove(table, s, c) {
      MovingClient(table, s, c);
    } else if !s.clients[c].Gone? && (s.clients[c].Opening? ==> s.lock.Free?) {
      ClientStep(table, s, c);
    }
  }

  /** A client that creates a feed can succeed, under any new identity, and can fail. */
  lemma CreationIsOpen(table: Table, run: seq<Label>, c: TaskId, f: FeedId)
    requires KeyedBySymbol(table) && IsRun(table, run) && f !in After(table, run).feeds
    requires c in After(table, run).clients && After(table, run).clients[c].Creating?
    requires After(table, run).clients[c].symbol in table
    ensures OpenEnabled(table, After(table, run), c, Insert(f)) && OpenEnabled(table, After(table, run), c, CreateFails)
  {
  }

  ghost predicate TimerCanMove(s: State, t: TaskId) {
    exists l: TimerStep :: TimerEnabled(s, t, l)
  }

  lemma TimerStepExists(s: State, t: TaskId)
    requires RefsInv(s) && t in s.timers && !s.timers[t].pc.Finished? && (s.timers[t].pc.Expired? ==> s.lock.Free?)
    ensures TimerCanMove(s, t)
  {
    match s.timers[t].pc
    case Spawned => assert TimerEnabled(s, t, Register);
    case Waiting(_) => assert TimerEnabled(s, t, Fire);
    case Expired => assert TimerEnabled(s, t, AcquireT);
    case Holding => assert TimerEnabled(s, t, Check);
    case Passed => assert TimerEnabled(s, t, Remove);
    case Failed => assert TimerEnabled(s, t, ReleaseT);
    case Removed => assert TimerEnabled(s, t, ReleaseT);
    case MustClose => assert TimerEnabled(s, t, Close);
  }

  lemma MovingTimer(s: State, t: TaskId)
    requires t in s.timers && TimerCanMove(s, t)
    ensures !s.timers[t].pc.Finished? && (s.timers[t].pc.Expired? ==> s.lock.Free?)
  {
  }

  /** A removal task is stuck exactly when it is finished, or waits for the lock while somebody holds it. */
  lemma TimerMovesExactly(table: Table, run: seq<Label>, t: TaskId)
    requires KeyedBySymbol(table) && IsRun(table, run) && t in After(table, run).timers
    ensures var s := After(table, run);
      TimerCanMove(s, t) <==> !s.timers[t].pc.Finished? && (s.timers[t].pc.Expired? ==> s.lock.Free?)
  {
    var s := After(table, run);
    RunInv(table, run);
    if TimerCanMove(s, t) {
      MovingTimer(s, t);
    } else if !s.timers[t].pc.Finished? && (s.timers[t].pc.Expired? ==> s.lock.Free?) {
      TimerStepExists(s, t);
    }
  }

  ghost predicate CloserCanMove(s: State, d: TaskId) {
    exists l: CloserStep :: CloserEnabled(s, d, l)
  }

  lemma CloserStepExists(s: State, d: TaskId)
    requires RefsInv(s) && d in s.closers && s.closers[d] != Closing({}) && (s.closers[d].Wanting? ==> s.lock.Free?)
    ensures CloserCanMove(s, d)
  {
    match s.closers[d]
    case Starting => assert CloserEnabled(s, d, StoreFlag);
    case Wanting => assert CloserEnabled(s, d, AcquireD);
    case Draining => assert CloserEnabled(s, d, Drain);
    case Drained(_) => assert CloserEnabled(s, d, ReleaseD);
    case Closing(todo) =>
      var f :| f in todo;
      assert f in s.closers[d].Taken();
      assert CloserEnabled(s, d, CloseOne(f));
  }

  /** A shutdown is stuck exactly when it has shut every feed it took down, or waits for the lock while
      somebody holds it. */
  lemma CloserMovesExactly(table: Table, run: seq<Label>, d: TaskId)
    requires KeyedBySymbol(table) && IsRun(table, run) && d in After(table, run).closers
    ensures var s := After(table, run);
      CloserCanMove(s, d) <==> s.closers[d] != Closing({}) && (s.closers[d].Wanting? ==> s.lock.Free?)
  {
    var s := After(table, run);
    RunInv(table, run);
    if s.closers[d] != Closing({}) && (s.closers[d].Wanting? ==> s.lock.Free?) {
      CloserStepExists(s, d);
    }
  }

  /** No deadlock: whoever holds the lock can move. */
  lemma HolderCanMove(table: Table, run: seq<Label>)
    requires KeyedBySymbol(table) && IsRun(table, run)
    ensures match After(table, run).lock
      case Free => true
      case ByClient(c) => ClientCanMove(table, After(table, run), c)
      case ByTimer(t) => TimerCanMove(After(table, run), t)
      case ByCloser(d) => CloserCanMove(After(table, run), d)
  {
    var s := After(table, run);
    RunInv(table, run);
    match s.lock
    case Free =>
    case ByClient(c) => ClientStep(table, s, c);
    case ByTimer(t) => TimerStepExists(s, t);
    case ByCloser(d) => CloserStepExists(s, d);
  }
}
