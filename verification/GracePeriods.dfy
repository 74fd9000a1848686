/** When a departure's grace period can be cut short by the removal task of an earlier one. */
module GracePeriods {
  import opened Instruments
  import opened Lifecycle
  import opened LifecycleInvariants
  import opened LifecycleCounts
  import opened LifecycleOwnership
  import opened LifecycleTheorems
  import opened LifecycleExtensions

  /** A removal task of one of the first `e` transitions of `f` has passed its check and is about to
      remove the feed. */
  ghost predicate PassedEarly(s: State, f: FeedId, e: nat) {
    exists t :: t in s.timers && s.timers[t].feed == f && s.timers[t].epoch <= e && s.timers[t].pc.Passed?
  }

  /** The removal task has a check still to make, or has passed it. */
  predicate PendingFor(s: State, t: TaskId, f: FeedId, e: nat) {
    t in s.timers && s.timers[t].feed == f && s.timers[t].epoch <= e && s.timers[t].pc.Pending()
  }

  /** The client is about to spawn a removal task. */
  predicate SpawningFor(s: State, c: TaskId, f: FeedId, e: nat) {
    c in s.clients && s.clients[c].Spawning? && s.clients[c].feed == f && s.clients[c].epoch <= e
  }

  /** A removal task of one of the first `e` transitions is pending, or about to be spawned. */
  ghost predicate EarlierTask(s: State, f: FeedId, e: nat) {
    (exists t :: PendingFor(s, t, f, e)) || (exists c :: SpawningFor(s, c, f, e))
  }

  // ---------- Without an earlier task none can come ----------

  ghost predicate NoneEarly(s: State, f: FeedId, e: nat) {
    && f in s.feeds && s.feeds[f].epochs >= e
    && (forall t :: t in s.timers && s.timers[t].feed == f && s.timers[t].epoch <= e ==> !s.timers[t].pc.Pending())
    && (forall c :: c in s.clients && s.clients[c].Spawning? && s.clients[c].feed == f ==> s.clients[c].epoch > e)
  }

  lemma OpenKeepsNone(table: Table, s: State, c: TaskId, l: OpenStep, f: FeedId, e: nat)
    requires NoneEarly(s, f, e) && OpenEnabled(table, s, c, l)
    ensures NoneEarly(OpenApply(table, s, c, l), f, e)
  {
  }

  lemma PublishKeepsNone(s: State, c: TaskId, l: PublishStep, f: FeedId, e: nat)
    requires NoneEarly(s, f, e) && PublishEnabled(s, c, l)
    ensures NoneEarly(PublishApply(s, c, l), f, e)
  {
  }

  lemma TimerKeepsNone(s: State, t: TaskId, l: TimerStep, f: FeedId, e: nat)
    requires NoneEarly(s, f, e) && TimerEnabled(s, t, l)
    ensures NoneEarly(TimerApply(s, t, l), f, e)
  {
  }

  lemma CloserKeepsNone(s: State, d: TaskId, l: CloserStep, f: FeedId, e: nat)
    requires NoneEarly(s, f, e) && CloserEnabled(s, d, l)
    ensures NoneEarly(CloserApply(s, d, l), f, e)
  {
  }

  lemma NoneIsKept(table: Table, f: FeedId, e: nat)
    ensures Kept(table, iset s | NoneEarly(s, f, e))
  {
    var good := iset s | NoneEarly(s, f, e);
    forall s, l | s in good && Inv(s) && Enabled(table, s, l) ensures Apply(table, s, l) in good {
      match l
      case O(c, os) => OpenKeepsNone(table, s, c, os, f, e);
      case P(c, ps) => PublishKeepsNone(s, c, ps, f, e);
      case T(t, ts) => TimerKeepsNone(s, t, ts, f, e);
      case D(d, ds) => CloserKeepsNone(s, d, ds, f, e);
    }
  }

  // ---------- Under a drain no task can pass any more ----------

  /** The feed has left the map, or a shutdown holds the lock and will drain it. */
  ghost predicate Doomed(s: State, f: FeedId) {
    f in s.feeds && (s.lock.ByCloser? || !IsMapped(s, f))
  }

  lemma OpenKeepsDoomed(table: Table, s: State, c: TaskId, l: OpenStep, f: FeedId)
    requires LockInv(s) && Doomed(s, f) && OpenEnabled(table, s, c, l)
    ensures Doomed(OpenApply(table, s, c, l), f)
  {
  }

  lemma PublishKeepsDoomed(s: State, c: TaskId, l: PublishStep, f: FeedId)
    requires Doomed(s, f) && PublishEnabled(s, c, l)
    ensures Doomed(PublishApply(s, c, l), f)
  {
  }

  lemma TimerKeepsDoomed(s: State, t: TaskId, l: TimerStep, f: FeedId)
    requires LockInv(s) && Doomed(s, f) && TimerEnabled(s, t, l)
    ensures Doomed(TimerApply(s, t, l), f)
  {
  }

  lemma CloserKeepsDoomed(s: State, d: TaskId, l: CloserStep, f: FeedId)
    requires LockInv(s) && FinalInv(s) && Doomed(s, f) && CloserEnabled(s, d, l)
    ensures Doomed(CloserApply(s, d, l), f)
  {
  }

  lemma DoomedIsKept(table: Table, f: FeedId)
    ensures Kept(table, iset s | Doomed(s, f))
  {
    var good := iset s | Doomed(s, f);
    forall s, l | s in good && Inv(s) && Enabled(table, s, l) ensures Apply(table, s, l) in good {
      match l
      case O(c, os) => OpenKeepsDoomed(table, s, c, os, f);
      case P(c, ps) => PublishKeepsDoomed(s, c, ps, f);
      case T(t, ts) => TimerKeepsDoomed(s, t, ts, f);
      case D(d, ds) => CloserKeepsDoomed(s, d, ds, f);
    }
  }

  lemma NeverPasses(table: Table, run: seq<Label>, f: FeedId, e: nat, s: State)
    requires KeyedBySymbol(table) && IsRun(table, run) && Later(table, run, s)
    requires NoneEarly(After(table, run), f, e) || Doomed(After(table, run), f)
    ensures !PassedEarly(s, f, e)
  {
    var ext: seq<Label> :| IsRun(table, run + ext) && After(table, run + ext) == s;
    LaterInv(table, run, s);
    if NoneEarly(After(table, run), f, e) {
      NoneIsKept(table, f, e);
      StaysGood(table, run, ext, iset x | NoneEarly(x, f, e));
    } else {
      DoomedIsKept(table, f);
      StaysGood(table, run, ext, iset x | Doomed(x, f));
    }
    NonePasses(s, f, e);
  }

  lemma NonePasses(s: State, f: FeedId, e: nat)
    requires LockInv(s) && HeldInv(s) && (NoneEarly(s, f, e) || Doomed(s, f))
    ensures !PassedEarly(s, f, e)
  {
  }

  // ---------- With one, there is an extension in which it passes ----------

  /** Client `c` has made transition `e + 1` and not spawned its task; task `t` of an earlier one is pending. */
  ghost predicate Ready(s: State, f: FeedId, c: TaskId, e: nat, t: TaskId) {
    && f in s.feeds && Unused(s, f) && IsSpawner(s, c, f, e + 1) && PendingFor(s, t, f, e)
  }

  /** An extension lets an earlier task pass before client `c` has even spawned the task of `e + 1`. */
  ghost predicate CanPassEarly(table: Table, run: seq<Label>, f: FeedId, c: TaskId, e: nat) {
    exists s :: Later(table, run, s) && PassedEarly(s, f, e) && IsSpawner(s, c, f, e + 1)
  }

  lemma PassByChecking(table: Table, run: seq<Label>, s: State, f: FeedId, c: TaskId, e: nat, t: TaskId)
    requires Later(table, run, s) && Ready(s, f, c, e, t) && s.timers[t].pc.Holding?
    ensures CanPassEarly(table, run, f, c, e)
  {
    LaterStep(table, run, s, T(t, Check));
    var s' := TimerApply(s, t, Check);
    assert s'.timers[t].pc.Passed?;
    assert PassedEarly(s', f, e) && IsSpawner(s', c, f, e + 1);
  }

  lemma PassByFiring(table: Table, run: seq<Label>, s: State, f: FeedId, c: TaskId, e: nat, t: TaskId)
    requires Later(table, run, s) && Ready(s, f, c, e, t) && s.lock.Free?
    requires s.timers[t].pc.Expired? || s.timers[t].pc.Waiting?
    ensures CanPassEarly(table, run, f, c, e)
  {
    var s' := s;
    if s.timers[t].pc.Waiting? {
      LaterStep(table, run, s, T(t, Fire));
      s' := TimerApply(s, t, Fire);
    }
    LaterStep(table, run, s', T(t, AcquireT));
    PassByChecking(table, run, TimerApply(s', t, AcquireT), f, c, e, t);
  }

  lemma PassWhenFree(table: Table, run: seq<Label>, s: State, f: FeedId, c: TaskId, e: nat, t: TaskId)
    requires Later(table, run, s) && LockInv(s) && Ready(s, f, c, e, t) && s.lock.Free?
    ensures CanPassEarly(table, run, f, c, e)
  {
    if s.timers[t].pc.Spawned? {
      LaterStep(table, run, s, T(t, Register));
      PassByFiring(table, run, TimerApply(s, t, Register), f, c, e, t);
    } else {
      PassByFiring(table, run, s, f, c, e, t);
    }
  }

  /** The steps a client has left before it releases the lock. */
  function StepsUnderLock(pc: Client): nat {
    match pc
    case Locked(_) => 3
    case Admitted(_) => 2
    case Creating(_) => 1
    case _ => 0
  }

  function NextUnderLock(pc: Client): OpenStep {
    match pc
    case Locked(_) => LoadFlag
    case Admitted(_) => Lookup
    case Creating(_) => CreateFails
    case _ => Release
  }

  /** A client that holds the lock comes closer to its release and changes no feed. */
  lemma ClientMovesOn(table: Table, s: State, f: FeedId, c: TaskId, e: nat, t: TaskId, c': TaskId)
    requires Ready(s, f, c, e, t) && c' in s.clients && s.clients[c'].HoldsLock()
    ensures var l := NextUnderLock(s.clients[c']);
      && OpenEnabled(table, s, c', l)
      && Ready(OpenApply(table, s, c', l), f, c, e, t)
      && OpenApply(table, s, c', l).lock == (if l.Release? then Free else s.lock)
      && OpenApply(table, s, c', l).clients[c'].HoldsLock() == !l.Release?
  {
  }

  lemma PassAfterClient(table: Table, run: seq<Label>, s: State, f: FeedId, c: TaskId, e: nat, t: TaskId,
                        c': TaskId)
    requires KeyedBySymbol(table) && Later(table, run, s) && Ready(s, f, c, e, t)
    requires c' in s.clients && s.clients[c'].HoldsLock()
    ensures CanPassEarly(table, run, f, c, e)
    decreases StepsUnderLock(s.clients[c'])
  {
    var l := NextUnderLock(s.clients[c']);
    ClientMovesOn(table, s, f, c, e, t, c');
    LaterStep(table, run, s, O(c', l));
    var s' := OpenApply(table, s, c', l);
    if l.Release? {
      LaterInv(table, run, s');
      PassWhenFree(table, run, s', f, c, e, t);
    } else {
      PassAfterClient(table, run, s', f, c, e, t, c');
    }
  }

  lemma ReleaseKeepsReady(s: State, f: FeedId, c: TaskId, e: nat, t: TaskId, t': TaskId)
    requires Ready(s, f, c, e, t) && t' != t && TimerEnabled(s, t', ReleaseT)
    ensures Ready(TimerApply(s, t', ReleaseT), f, c, e, t) && TimerApply(s, t', ReleaseT).lock.Free?
  {
  }

  lemma PassAfterRelease(table: Table, run: seq<Label>, s: State, f: FeedId, c: TaskId, e: nat, t: TaskId,
                         t': TaskId)
    requires KeyedBySymbol(table) && Later(table, run, s) && Ready(s, f, c, e, t) && t' != t
    requires TimerEnabled(s, t', ReleaseT)
    ensures CanPassEarly(table, run, f, c, e)
  {
    LaterStep(table, run, s, T(t', ReleaseT));
    ReleaseKeepsReady(s, f, c, e, t, t');
    LaterInv(table, run, TimerApply(s, t', ReleaseT));
    PassWhenFree(table, run, TimerApply(s, t', ReleaseT), f, c, e, t);
  }

  lemma RemoveKeepsReady(s: State, f: FeedId, c: TaskId, e: nat, t: TaskId, t': TaskId)
    requires RefsInv(s) && HeldInv(s) && Ready(s, f, c, e, t)
    requires TimerEnabled(s, t', Remove) && s.timers[t'].feed != f
    ensures Ready(TimerApply(s, t', Remove), f, c, e, t) && TimerEnabled(TimerApply(s, t', Remove), t', ReleaseT)
  {
  }

  lemma PassAfterRemoval(table: Table, run: seq<Label>, s: State, f: FeedId, c: TaskId, e: nat, t: TaskId,
                         t': TaskId)
    requires KeyedBySymbol(table) && Later(table, run, s) && Ready(s, f, c, e, t)
    requires TimerEnabled(s, t', Remove) && s.timers[t'].feed != f
    ensures CanPassEarly(table, run, f, c, e)
  {
    LaterInv(table, run, s);
    LaterStep(table, run, s, T(t', Remove));
    RemoveKeepsReady(s, f, c, e, t, t');
    PassAfterRelease(table, run, TimerApply(s, t', Remove), f, c, e, t, t');
  }

  /** Another removal task that holds the lock: one of the same feed passes itself, one of another feed
      lets the lock go. */
  lemma PassAfterTimer(table: Table, run: seq<Label>, s: State, f: FeedId, c: TaskId, e: nat, t: TaskId,
                       t': TaskId)
    requires KeyedBySymbol(table) && Later(table, run, s) && Ready(s, f, c, e, t) && s.feeds[f].epochs == e + 1
    requires t' != t && t' in s.timers && s.timers[t'].pc.HoldsLock()
    ensures CanPassEarly(table, run, f, c, e)
  {
    LaterInv(table, run, s);
    var pc := s.timers[t'].pc;
    if pc.Failed? || pc.Removed? {
      PassAfterRelease(table, run, s, f, c, e, t, t');
    } else if s.timers[t'].feed == f {
      assert TimerInRange(s, t') && !SpawnAndTimer(s, c, t');
      PassByHolder(table, run, s, f, c, e, t');
    } else if pc.Passed? {
      PassAfterRemoval(table, run, s, f, c, e, t, t');
    } else {
      PassAfterCheck(table, run, s, f, c, e, t, t');
    }
  }

  lemma PassAfterCheck(table: Table, run: seq<Label>, s: State, f: FeedId, c: TaskId, e: nat, t: TaskId,
                       t': TaskId)
    requires KeyedBySymbol(table) && Later(table, run, s) && Ready(s, f, c, e, t)
    requires TimerEnabled(s, t', Check) && s.timers[t'].feed != f
    ensures CanPassEarly(table, run, f, c, e)
  {
    LaterStep(table, run, s, T(t', Check));
    var s' := TimerApply(s, t', Check);
    if s'.timers[t'].pc.Passed? {
      PassAfterRemoval(table, run, s', f, c, e, t, t');
    } else {
      PassAfterRelease(table, run, s', f, c, e, t, t');
    }
  }

  lemma PassByHolder(table: Table, run: seq<Label>, s: State, f: FeedId, c: TaskId, e: nat, t: TaskId)
    requires Later(table, run, s) && Ready(s, f, c, e, t) && (s.timers[t].pc.Holding? || s.timers[t].pc.Passed?)
    ensures CanPassEarly(table, run, f, c, e)
  {
    if s.timers[t].pc.Holding? {
      PassByChecking(table, run, s, f, c, e, t);
    } else {
      assert PassedEarly(s, f, e);
    }
  }

  lemma PendingCanPass(table: Table, run: seq<Label>, s: State, f: FeedId, c: TaskId, e: nat, t: TaskId)
    requires KeyedBySymbol(table) && Later(table, run, s) && Ready(s, f, c, e, t) && !s.lock.ByCloser?
    requires s.feeds[f].epochs == e + 1
    ensures CanPassEarly(table, run, f, c, e)
  {
    LaterInv(table, run, s);
    if s.timers[t].pc.HoldsLock() {
      PassByHolder(table, run, s, f, c, e, t);
    } else {
      match s.lock
      case Free => PassWhenFree(table, run, s, f, c, e, t);
      case ByClient(c') => PassAfterClient(table, run, s, f, c, e, t, c');
      case ByTimer(t') => PassAfterTimer(table, run, s, f, c, e, t, t');
    }
  }

  lemma {:induction false} FreshTask(ids: set<TaskId>) returns (t: TaskId)
    ensures t !in ids && forall i :: i in ids ==> i < t
  {
    if ids == {} {
      t := 0;
    } else {
      var i :| i in ids;
      var u := FreshTask(ids - {i});
      t := if i < u then u else i + 1;
      forall j | j in ids ensures j < t {
        assert j == i || j in ids - {i};
      }
    }
  }

  lemma SpawnerCanPass(table: Table, run: seq<Label>, s: State, f: FeedId, c: TaskId, e: nat, c': TaskId)
    requires KeyedBySymbol(table) && Later(table, run, s) && !s.lock.ByCloser?
    requires f in s.feeds && Unused(s, f) && s.feeds[f].epochs == e + 1
    requires IsSpawner(s, c, f, e + 1) && SpawningFor(s, c', f, e)
    ensures CanPassEarly(table, run, f, c, e)
  {
    var t := FreshTask(s.timers.Keys);
    LaterStep(table, run, s, P(c', Spawn(t)));
    PendingCanPass(table, run, PublishApply(s, c', Spawn(t)), f, c, e, t);
  }

  // ---------- The exact condition ----------

  /** At the departure: the feed is mapped, no shutdown is about to drain the map, and the task of an
      earlier departure is pending or about to be spawned. */
  ghost predicate EarlierThreatens(s: State, f: FeedId) {
    f in s.feeds && IsMapped(s, f) && !s.lock.ByCloser? && EarlierTask(s, f, s.feeds[f].epochs)
  }

  lemma DepartureStep(table: Table, run: seq<Label>, c: TaskId)
    requires IsRun(table, run) && PublishEnabled(After(table, run), c, FetchSub)
    ensures IsRun(table, run + [P(c, FetchSub)])
    ensures After(table, run + [P(c, FetchSub)]) == PublishApply(After(table, run), c, FetchSub)
  {
    LongerRun(table, run, P(c, FetchSub));
  }

  lemma ThreatIsReal(table: Table, run: seq<Label>, c: TaskId, f: FeedId)
    requires KeyedBySymbol(table) && IsRun(table, run) && PublishEnabled(After(table, run), c, FetchSub)
    requires f == After(table, run).clients[c].feed && After(table, run).feeds[f].count == 1
    requires EarlierThreatens(After(table, run), f)
    ensures CanPassEarly(table, run + [P(c, FetchSub)], f, c, After(table, run).feeds[f].epochs)
  {
    DepartureStep(table, run, c);
    var after := run + [P(c, FetchSub)];
    LaterSelf(table, after);
    var s, s' := After(table, run), After(table, after);
    var e := s.feeds[f].epochs;
    if t :| PendingFor(s, t, f, e) {
      PendingCanPass(table, after, s', f, c, e, t);
    } else {
      var c' :| SpawningFor(s, c', f, e);
      SpawnerCanPass(table, after, s', f, c, e, c');
    }
  }

  lemma NoThreatNoPass(table: Table, run: seq<Label>, c: TaskId, f: FeedId, s': State)
    requires KeyedBySymbol(table) && IsRun(table, run) && PublishEnabled(After(table, run), c, FetchSub)
    requires f == After(table, run).clients[c].feed && After(table, run).feeds[f].count == 1
    requires !EarlierThreatens(After(table, run), f) && Later(table, run + [P(c, FetchSub)], s')
    ensures !PassedEarly(s', f, After(table, run).feeds[f].epochs)
  {
    DepartureStep(table, run, c);
    var s := After(table, run);
    if EarlierTask(s, f, s.feeds[f].epochs) {
      PublishKeepsDoomed(s, c, FetchSub, f);
    } else {
      NoEarlierTask(s, f, s.feeds[f].epochs);
      PublishKeepsNone(s, c, FetchSub, f, s.feeds[f].epochs);
    }
    NeverPasses(table, run + [P(c, FetchSub)], f, s.feeds[f].epochs, s');
  }

  lemma NoEarlierTask(s: State, f: FeedId, e: nat)
    requires f in s.feeds && s.feeds[f].epochs == e && !EarlierTask(s, f, e)
    ensures NoneEarly(s, f, e)
  {
    forall t | t in s.timers ensures !PendingFor(s, t, f, e) {}
    forall c | c in s.clients ensures !SpawningFor(s, c, f, e) {}
  }

  /** After the departure of `c` some extension lets the task of an earlier departure pass its check. */
  ghost predicate CanBeCut(table: Table, run: seq<Label>, c: TaskId, f: FeedId)
    requires IsRun(table, run) && f in After(table, run).feeds
  {
    exists s :: Later(table, run + [P(c, FetchSub)], s) && PassedEarly(s, f, After(table, run).feeds[f].epochs)
  }

  /** A departure that leaves a feed without subscribers can have its grace period cut short by the
      removal task of an earlier departure if and only if, at that moment, the feed is mapped, no
      shutdown is about to drain the map, and such a task is pending or about to be spawned. */
  lemma GraceIsCutExactly(table: Table, run: seq<Label>, c: TaskId, f: FeedId)
    requires KeyedBySymbol(table) && IsRun(table, run) && PublishEnabled(After(table, run), c, FetchSub)
    requires f == After(table, run).clients[c].feed && After(table, run).feeds[f].count == 1
    ensures CanBeCut(table, run, c, f) <==> EarlierThreatens(After(table, run), f)
  {
    if EarlierThreatens(After(table, run), f) {
      ThreatIsReal(table, run, c, f);
    } else {
      forall s | Later(table, run + [P(c, FetchSub)], s) ensures !PassedEarly(s, f, After(table, run).feeds[f].epochs) {
        NoThreatNoPass(table, run, c, f, s);
      }
    }
  }
}
