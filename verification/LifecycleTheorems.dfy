/** The properties of the lifecycle, over every run. */
module LifecycleTheorems {
  import opened Instruments
  import opened Lifecycle
  import opened LifecycleInvariants
  import opened LifecycleCounts
  import opened LifecycleOwnership

  ghost predicate Inv(s: State) {
    && RefsInv(s) && LockInv(s) && HeldInv(s)
    && CountInv(s) && EpochsUsedOnce(s) && EpochsAllUsed(s) && LatestTimerInv(s) && NotifiedInv(s) && JoinsInv(s)
    && FinalInv(s) && OwnershipInv(s)
  }

  lemma OpenKeepsInv(table: Table, s: State, c: TaskId, l: OpenStep)
    requires KeyedBySymbol(table) && Inv(s) && OpenEnabled(table, s, c, l)
    ensures Inv(OpenApply(table, s, c, l))
  {
    OpenKeepsRefs(table, s, c, l);
    OpenKeepsLock(table, s, c, l);
    OpenKeepsHeld(table, s, c, l);
    OpenKeepsCount(table, s, c, l);
    OpenSameTasks(table, s, c, l);
    SameTasksInRange(s, OpenApply(table, s, c, l));
    SameTasksDistinct(s, OpenApply(table, s, c, l));
    SameTasksAllUsed(s, OpenApply(table, s, c, l));
    OpenKeepsLatest(table, s, c, l);
    OpenKeepsNotified(table, s, c, l);
    OpenKeepsJoins(table, s, c, l);
    OpenKeepsFinal(table, s, c, l);
    OpenKeepsOwnership(table, s, c, l);
  }

  lemma PublishKeepsEpochs(s: State, c: TaskId, l: PublishStep)
    requires RefsInv(s) && EpochsUsedOnce(s) && EpochsAllUsed(s) && PublishEnabled(s, c, l)
    ensures EpochsUsedOnce(PublishApply(s, c, l)) && EpochsAllUsed(PublishApply(s, c, l))
  {
    if l.Spawn? {
      SpawnDistinct(s, c, l.timer);
      SpawnAllUsed(s, c, l.timer);
    } else if l.FetchSub? && s.feeds[s.clients[c].feed].count == 1 {
      LastLeavesDistinct(s, c);
      LastLeavesAllUsed(s, c);
    } else {
      PublishSameTasks(s, c, l);
      SameTasksInRange(s, PublishApply(s, c, l));
      SameTasksDistinct(s, PublishApply(s, c, l));
      SameTasksAllUsed(s, PublishApply(s, c, l));
    }
  }

  lemma PublishKeepsInv(s: State, c: TaskId, l: PublishStep)
    requires Inv(s) && PublishEnabled(s, c, l)
    ensures Inv(PublishApply(s, c, l))
  {
    PublishKeepsRefs(s, c, l);
    PublishKeepsLock(s, c, l);
    PublishKeepsHeld(s, c, l);
    PublishKeepsCount(s, c, l);
    PublishKeepsEpochs(s, c, l);
    PublishKeepsLatest(s, c, l);
    PublishKeepsNotified(s, c, l);
    PublishKeepsJoins(s, c, l);
    PublishKeepsFinal(s, c, l);
    PublishKeepsOwnership(s, c, l);
  }

  lemma TimerKeepsInv(s: State, t: TaskId, l: TimerStep)
    requires Inv(s) && TimerEnabled(s, t, l)
    ensures Inv(TimerApply(s, t, l))
  {
    TimerKeepsRefs(s, t, l);
    TimerKeepsLock(s, t, l);
    TimerKeepsHeld(s, t, l);
    TimerKeepsCount(s, t, l);
    TimerSameTasks(s, t, l);
    SameTasksInRange(s, TimerApply(s, t, l));
    SameTasksDistinct(s, TimerApply(s, t, l));
    SameTasksAllUsed(s, TimerApply(s, t, l));
    TimerKeepsLatest(s, t, l);
    TimerKeepsNotified(s, t, l);
    TimerKeepsJoins(s, t, l);
    TimerKeepsFinal(s, t, l);
    TimerKeepsOwnership(s, t, l);
  }

  lemma CloserKeepsInv(s: State, d: TaskId, l: CloserStep)
    requires Inv(s) && CloserEnabled(s, d, l)
    ensures Inv(CloserApply(s, d, l))
  {
    CloserKeepsRefs(s, d, l);
    CloserKeepsLock(s, d, l);
    CloserKeepsHeld(s, d, l);
    CloserKeepsCount(s, d, l);
    CloserSameTasks(s, d, l);
    SameTasksInRange(s, CloserApply(s, d, l));
    SameTasksDistinct(s, CloserApply(s, d, l));
    SameTasksAllUsed(s, CloserApply(s, d, l));
    CloserKeepsLatest(s, d, l);
    CloserKeepsNotified(s, d, l);
    CloserKeepsJoins(s, d, l);
    CloserKeepsFinal(s, d, l);
    CloserKeepsOwnership(s, d, l);
  }

  lemma InitialInv()
    ensures Inv(INITIAL)
  {
  }

  /** Every state of every run satisfies the invariants. */
  lemma {:induction false} RunInv(table: Table, run: seq<Label>)
    requires KeyedBySymbol(table) && IsRun(table, run)
    ensures Inv(After(table, run))
  {
    if run == [] {
      InitialInv();
    } else {
      var front := run[..|run| - 1];
      RunInv(table, front);
      match run[|run| - 1]
      case O(c, os) => OpenKeepsInv(table, After(table, front), c, os);
      case P(c, ps) => PublishKeepsInv(After(table, front), c, ps);
      case T(t, ts) => TimerKeepsInv(After(table, front), t, ts);
      case D(d, ds) => CloserKeepsInv(After(table, front), d, ds);
    }
  }

  /** A task spawned, or about to be spawned, by transition `epoch` of feed `f`, that has neither failed
      nor finished its check-and-remove and that no notification has reached. */
  ghost predicate RemovalUnderWay(s: State, f: FeedId, epoch: nat) {
    || (exists c :: IsSpawner(s, c, f, epoch))
    || (exists t :: IsTimer(s, t, f, epoch) && s.timers[t].pc.Pending() && s.timers[t].pc != Waiting(true))
  }

  /** No orphan feed: a mapped feed that has been subscribed and has no subscriber now has a removal
      task under way from its latest 1-to-0 transition. */
  lemma NoOrphanFeed(table: Table, run: seq<Label>, f: FeedId)
    requires KeyedBySymbol(table) && IsRun(table, run)
    requires f in After(table, run).feeds && IsMapped(After(table, run), f)
    requires After(table, run).feeds[f].joins > 0 && After(table, run).feeds[f].count == 0
    ensures RemovalUnderWay(After(table, run), f, After(table, run).feeds[f].epochs)
  {
    var s := After(table, run);
    RunInv(table, run);
    assert HasTask(s, f, s.feeds[f].epochs);
    if t :| IsTimer(s, t, f, s.feeds[f].epochs) {
      assert LatestOfUnused(s, s.timers[t]);
    }
  }

  /** A removal task can be cancelled only after a later 0-to-1 transition: its feed has a subscriber
      again, or has been left once more and a later transition has spawned another task. */
  lemma CancelledOnlyAfterReturn(table: Table, run: seq<Label>, t: TaskId)
    requires KeyedBySymbol(table) && IsRun(table, run) && TimerEnabled(After(table, run), t, Cancel)
    ensures Returned(After(table, run), After(table, run).timers[t])
  {
    RunInv(table, run);
  }

  /** The count of a feed is the number of subscribed tasks, on every path in and out. */
  lemma SubscriptionBalance(table: Table, run: seq<Label>, f: FeedId)
    requires KeyedBySymbol(table) && IsRun(table, run) && f in After(table, run).feeds
    ensures After(table, run).feeds[f].count == |Counted(After(table, run).clients, f)|
  {
    RunInv(table, run);
  }

  /** The count never wraps: it is at least 1 before every `fetch_sub`. */
  lemma NeverUnderflows(table: Table, run: seq<Label>, c: TaskId)
    requires KeyedBySymbol(table) && IsRun(table, run) && PublishEnabled(After(table, run), c, FetchSub)
    ensures var s := After(table, run); var f := s.clients[c].feed;
      && s.feeds[f].count >= 1
      && PublishApply(s, c, FetchSub).feeds[f].count == s.feeds[f].count - 1
  {
    RunInv(table, run);
    SubscriberKeepsCount(After(table, run), c);
  }

  /** Exactly one task carries a transition: its spawner or its removal task, never two of either. */
  lemma OneTaskPerTransition(table: Table, run: seq<Label>, f: FeedId, epoch: nat)
    requires KeyedBySymbol(table) && IsRun(table, run) && f in After(table, run).feeds
    requires 1 <= epoch <= After(table, run).feeds[f].epochs
    ensures var s := After(table, run);
      && ((exists c :: IsSpawner(s, c, f, epoch)) <==> !(exists t :: IsTimer(s, t, f, epoch)))
      && (forall c, c' :: IsSpawner(s, c, f, epoch) && IsSpawner(s, c', f, epoch) ==> c == c')
      && (forall t, t' :: IsTimer(s, t, f, epoch) && IsTimer(s, t', f, epoch) ==> t == t')
  {
    var s := After(table, run);
    RunInv(table, run);
    assert HasTask(s, f, epoch);
    forall c, t | IsSpawner(s, c, f, epoch) && IsTimer(s, t, f, epoch) ensures false {
      assert SpawnAndTimer(s, c, t);
    }
    forall c, c' | IsSpawner(s, c, f, epoch) && IsSpawner(s, c', f, epoch) ensures c == c' {
      assert SameSpawn(s, c, c');
    }
    forall t, t' | IsTimer(s, t, f, epoch) && IsTimer(s, t', f, epoch) ensures t == t' {
      assert SameTimer(s, t, t');
    }
  }

  lemma {:induction false} PrefixIsRun(table: Table, run: seq<Label>, k: nat)
    requires IsRun(table, run) && k <= |run|
    ensures IsRun(table, run[..k])
  {
    if k == |run| {
      assert run[..k] == run;
    } else {
      PrefixIsRun(table, run[..|run| - 1], k);
      assert run[..|run| - 1][..k] == run[..k];
    }
  }

  lemma OpenStaysDrained(table: Table, s: State, c: TaskId, l: OpenStep)
    requires OpenEnabled(table, s, c, l)
    ensures OpenApply(table, s, c, l).drained == s.drained
  {
  }

  lemma PublishStaysDrained(s: State, c: TaskId, l: PublishStep)
    requires PublishEnabled(s, c, l)
    ensures PublishApply(s, c, l).drained == s.drained
  {
  }

  lemma DrainedStep(table: Table, s: State, l: Label)
    requires Enabled(table, s, l) && s.drained
    ensures Apply(table, s, l).drained
  {
    match l
    case O(c, os) => OpenStaysDrained(table, s, c, os);
    case P(c, ps) => PublishStaysDrained(s, c, ps);
    case T(t, ts) => TimerStaysDrained(s, t, ts);
    case D(d, ds) => CloserStaysDrained(s, d, ds);
  }

  lemma TimerStaysDrained(s: State, t: TaskId, l: TimerStep)
    requires TimerEnabled(s, t, l)
    ensures TimerApply(s, t, l).drained == s.drained
  {
  }

  lemma CloserStaysDrained(s: State, d: TaskId, l: CloserStep)
    requires CloserEnabled(s, d, l) && s.drained
    ensures CloserApply(s, d, l).drained
  {
  }

  /** Once drained, always drained. */
  lemma {:induction false} DrainedStays(table: Table, run: seq<Label>, k: nat)
    requires IsRun(table, run) && k <= |run| && IsRun(table, run[..k]) && After(table, run[..k]).drained
    ensures After(table, run).drained
    decreases |run|
  {
    if k == |run| {
      assert run[..k] == run;
    } else {
      assert run[..|run| - 1][..k] == run[..k];
      DrainedStays(table, run[..|run| - 1], k);
      DrainedStep(table, After(table, run[..|run| - 1]), run[|run| - 1]);
    }
  }

  lemma DrainHasDrained(table: Table, run: seq<Label>, d: TaskId)
    requires IsRun(table, run) && run != [] && run[|run| - 1] == D(d, Drain)
    ensures After(table, run).drained
  {
  }

  /** Shutdown is final: after a drain the map is empty for ever, whatever `open` calls race with it. */
  lemma ShutdownIsFinal(table: Table, run: seq<Label>, k: nat, d: TaskId)
    requires KeyedBySymbol(table) && IsRun(table, run) && k < |run| && run[k] == D(d, Drain)
    ensures After(table, run).mapped == map[]
  {
    PrefixIsRun(table, run, k + 1);
    DrainHasDrained(table, run[..k + 1], d);
    DrainedStays(table, run, k + 1);
    RunInv(table, run);
  }

  /** Every feed ever inserted is mapped, or held by exactly one task that will shut it down, or was
      shut down exactly once; never two of these. */
  lemma SingleOwnership(table: Table, run: seq<Label>, f: FeedId)
    requires KeyedBySymbol(table) && IsRun(table, run) && f in After(table, run).feeds
    ensures var s := After(table, run); var owned := exists a :: Owns(s, a, f);
      && s.feeds[f].closed <= 1
      && (IsMapped(s, f) <==> !owned && s.feeds[f].closed == 0)
      && (owned ==> s.feeds[f].closed == 0)
      && (forall a, b :: Owns(s, a, f) && Owns(s, b, f) ==> a == b)
  {
    RunInv(table, run);
    assert OwnedOnce(After(table, run), f);
  }

  ghost predicate FindsUnused(s: State, t: TaskId) {
    t in s.timers && s.timers[t].feed in s.feeds && Unused(s, s.timers[t].feed)
  }

  lemma OpenKeepsTimers(table: Table, s: State, c: TaskId, l: OpenStep)
    requires OpenEnabled(table, s, c, l)
    ensures OpenApply(table, s, c, l).timers == s.timers
  {
  }

  lemma CloserKeepsTimers(s: State, d: TaskId, l: CloserStep)
    requires CloserEnabled(s, d, l)
    ensures CloserApply(s, d, l).timers == s.timers
  {
  }

  lemma PublishPassesNone(s: State, c: TaskId, l: PublishStep, t: TaskId)
    requires PublishEnabled(s, c, l)
    requires t in PublishApply(s, c, l).timers && PublishApply(s, c, l).timers[t].pc.Passed?
    ensures t in s.timers && s.timers[t].pc.Passed?
  {
  }

  lemma TimerPassesByCheck(s: State, t': TaskId, l: TimerStep, t: TaskId)
    requires TimerEnabled(s, t', l) && (t' != t || !l.Check?)
    requires t in TimerApply(s, t', l).timers && TimerApply(s, t', l).timers[t].pc.Passed?
    ensures t in s.timers && s.timers[t].pc.Passed?
  {
  }

  lemma PassedStep(table: Table, s: State, l: Label, t: TaskId)
    requires Enabled(table, s, l)
    requires t in Apply(table, s, l).timers && Apply(table, s, l).timers[t].pc.Passed? && l != T(t, Check)
    ensures t in s.timers && s.timers[t].pc.Passed?
  {
    match l
    case O(c, os) => OpenKeepsTimers(table, s, c, os);
    case P(c, ps) => PublishPassesNone(s, c, ps, t);
    case T(t', ts) => TimerPassesByCheck(s, t', ts, t);
    case D(d, ds) => CloserKeepsTimers(s, d, ds);
  }

  lemma CheckStep(s: State, t: TaskId)
    requires LockInv(s) && TimerEnabled(s, t, Check)
    requires TimerApply(s, t, Check).timers[t].pc.Passed?
    ensures FindsUnused(s, t) && s.lock == ByTimer(t)
  {
  }

  ghost predicate PassedAfter(table: Table, run: seq<Label>, t: TaskId, j: nat) {
    && j <= |run| && IsRun(table, run[..j])
    && t in After(table, run[..j]).timers && After(table, run[..j]).timers[t].pc.Passed?
  }

  /** A feed leaves the map only in a drain or by its own removal task. */
  lemma LeavesMapOnlyBy(table: Table, run: seq<Label>, l: Label, f: FeedId)
    requires KeyedBySymbol(table) && IsRun(table, run) && Enabled(table, After(table, run), l)
    requires f in After(table, run).feeds && IsMapped(After(table, run), f)
    ensures f in Apply(table, After(table, run), l).feeds
    ensures IsMapped(Apply(table, After(table, run), l), f) <==>
      !(l.D? && l.ds.Drain?) && !(l.T? && l.ts.Remove? && After(table, run).timers[l.t].feed == f)
  {
    var s := After(table, run);
    RunInv(table, run);
    match l
    case O(c, os) => OpenKeepsMapped(table, s, c, os, f);
    case P(c, ps) => PublishKeepsMapped(s, c, ps, f);
    case T(t, ts) => TimerUnmapsOwn(s, t, ts, f);
    case D(d, ds) => CloserUnmapsByDrain(s, d, ds, f);
  }

  lemma OpenKeepsMapped(table: Table, s: State, c: TaskId, l: OpenStep, f: FeedId)
    requires HeldInv(s) && OpenEnabled(table, s, c, l) && f in s.feeds && IsMapped(s, f)
    ensures f in OpenApply(table, s, c, l).feeds && IsMapped(OpenApply(table, s, c, l), f)
  {
  }

  lemma PublishKeepsMapped(s: State, c: TaskId, l: PublishStep, f: FeedId)
    requires PublishEnabled(s, c, l) && f in s.feeds && IsMapped(s, f)
    ensures f in PublishApply(s, c, l).feeds && IsMapped(PublishApply(s, c, l), f)
  {
  }

  lemma TimerUnmapsOwn(s: State, t: TaskId, l: TimerStep, f: FeedId)
    requires HeldInv(s) && TimerEnabled(s, t, l) && f in s.feeds && IsMapped(s, f)
    ensures f in TimerApply(s, t, l).feeds
    ensures IsMapped(TimerApply(s, t, l), f) <==> !(l.Remove? && s.timers[t].feed == f)
  {
  }

  lemma CloserUnmapsByDrain(s: State, d: TaskId, l: CloserStep, f: FeedId)
    requires CloserEnabled(s, d, l) && f in s.feeds && IsMapped(s, f)
    ensures f in CloserApply(s, d, l).feeds
    ensures IsMapped(CloserApply(s, d, l), f) <==> !l.Drain?
  {
  }

  /** After `j` steps the task holds the lock. */
  ghost predicate LockHeld(table: Table, run: seq<Label>, t: TaskId, j: nat) {
    j <= |run| && IsRun(table, run[..j]) && After(table, run[..j]).lock == ByTimer(t)
  }

  /** After `j` steps the task's feed is mapped and its count is 0. */
  ghost predicate UnusedAfter(table: Table, run: seq<Label>, t: TaskId, j: nat) {
    j <= |run| && IsRun(table, run[..j]) && FindsUnused(After(table, run[..j]), t)
  }

  lemma PassedHoldsLock(table: Table, run: seq<Label>, t: TaskId, j: nat)
    requires KeyedBySymbol(table) && PassedAfter(table, run, t, j)
    ensures LockHeld(table, run, t, j)
  {
    RunInv(table, run[..j]);
  }

  lemma StepAt(table: Table, run: seq<Label>, j: nat)
    requires IsRun(table, run) && j < |run|
    ensures IsRun(table, run[..j]) && IsRun(table, run[..j + 1]) && Enabled(table, After(table, run[..j]), run[j])
    ensures After(table, run[..j + 1]) == Apply(table, After(table, run[..j]), run[j])
  {
    PrefixIsRun(table, run, j + 1);
    assert run[..j + 1][..j] == run[..j];
  }

  lemma PassedStepAt(table: Table, run: seq<Label>, t: TaskId, j: nat)
    requires IsRun(table, run) && j < |run| && PassedAfter(table, run, t, j + 1) && run[j] != T(t, Check)
    ensures PassedAfter(table, run, t, j)
  {
    StepAt(table, run, j);
    PassedStep(table, After(table, run[..j]), run[j], t);
  }

  lemma CheckedNow(table: Table, run: seq<Label>, t: TaskId, j: nat)
    requires KeyedBySymbol(table) && IsRun(table, run)
    requires j < |run| && PassedAfter(table, run, t, j + 1) && run[j] == T(t, Check)
    ensures UnusedAfter(table, run, t, j) && LockHeld(table, run, t, j)
  {
    StepAt(table, run, j);
    RunInv(table, run[..j]);
    CheckStep(After(table, run[..j]), t);
  }

  /** What holds at the end of a sequence, and begins only where `starts` says, began at the last start. */
  lemma {:induction false} BeganAt(holds: seq<bool>, starts: seq<bool>) returns (k: nat)
    requires |holds| == |starts| + 1 && !holds[0] && holds[|starts|]
    requires forall j :: 0 <= j < |starts| && !starts[j] && holds[j + 1] ==> holds[j]
    ensures k < |starts| && starts[k] && forall j :: k < j <= |starts| ==> holds[j]
    decreases |starts|
  {
    var m := |starts| - 1;
    if starts[m] {
      k := m;
    } else {
      k := BeganAt(holds[..m + 1], starts[..m]);
      forall j | k < j <= |starts| ensures holds[j] {
        if j <= m { assert holds[..m + 1][j]; }
      }
    }
  }

  lemma NonePassedAtFirst(table: Table, run: seq<Label>, t: TaskId)
    ensures !PassedAfter(table, run, t, 0)
  {
  }

  /** A task that is about to remove its feed made its check at some `k`: its feed was mapped and its
      count read 0 then, and the task has held the lock from then on. */
  lemma PassedWasChecked(table: Table, run: seq<Label>, t: TaskId, n: nat) returns (k: nat)
    requires KeyedBySymbol(table) && IsRun(table, run) && n <= |run| && PassedAfter(table, run, t, n)
    ensures k < n && run[k] == T(t, Check) && UnusedAfter(table, run, t, k)
    ensures forall j :: k <= j <= n ==> LockHeld(table, run, t, j)
  {
    ghost var holds := seq(n + 1, j => j >= 0 && PassedAfter(table, run, t, j));
    ghost var starts := seq(n, j requires 0 <= j < |run| => run[j] == T(t, Check));
    NonePassedAtFirst(table, run, t);
    forall j | 0 <= j < n && !starts[j] && holds[j + 1] ensures holds[j] {
      PassedStepAt(table, run, t, j);
    }
    k := BeganAt(holds, starts);
    assert holds[k + 1];
    CheckedNow(table, run, t, k);
    forall j | k <= j <= n ensures LockHeld(table, run, t, j) {
      if j > k {
        assert holds[j];
        PassedHoldsLock(table, run, t, j);
      }
    }
  }
}
