/** Subscription counts, 1-to-0 transitions and the removal tasks they spawn. */
module LifecycleCounts {
  import opened Instruments
  import opened Lifecycle
  import opened LifecycleInvariants

  /** The `publish` tasks of `f` past their `fetch_add` and not yet past their `fetch_sub`. */
  function Counted(clients: map<TaskId, Client>, f: FeedId): set<TaskId> {
    set c | c in clients && clients[c].Subscribes(f)
  }

  /** Every count is the number of subscribed tasks. */
  ghost predicate CountInv(s: State) {
    && |Live(s.clients)| < USIZE_MODULUS
    && forall f :: f in s.feeds ==> s.feeds[f].count == |Counted(s.clients, f)|
  }

  lemma CountedUpdate(clients: map<TaskId, Client>, c: TaskId, pc: Client, f: FeedId)
    ensures |Counted(clients[c := pc], f)| ==
      |Counted(clients, f)|
      + (if pc.Subscribes(f) then 1 else 0)
      - (if c in clients && clients[c].Subscribes(f) then 1 else 0)
  {
    var before, after := Counted(clients, f), Counted(clients[c := pc], f);
    assert after == if pc.Subscribes(f) then before - {c} + {c} else before - {c};
  }

  lemma LiveUpdate(clients: map<TaskId, Client>, c: TaskId, pc: Client)
    ensures |Live(clients[c := pc])| ==
      |Live(clients)| + (if pc.Gone? then 0 else 1) - (if c in clients && !clients[c].Gone? then 1 else 0)
  {
    var before, after := Live(clients), Live(clients[c := pc]);
    assert after == if pc.Gone? then before - {c} else before - {c} + {c};
  }

  lemma CountedBelow(clients: map<TaskId, Client>, c: TaskId, f: FeedId)
    requires c in clients && !clients[c].Gone? && !clients[c].Subscribes(f)
    ensures |Counted(clients, f)| < |Live(clients)|
  {
    var counted, live := Counted(clients, f), Live(clients);
    assert live == counted + (live - counted);
    assert c in live - counted;
  }

  lemma OpenKeepsCount(table: Table, s: State, c: TaskId, l: OpenStep)
    requires RefsInv(s) && CountInv(s)
    requires OpenEnabled(table, s, c, l)
    ensures CountInv(OpenApply(table, s, c, l))
  {
    var s' := OpenApply(table, s, c, l);
    var pc := s'.clients[c];
    assert s'.clients == s.clients[c := pc];
    LiveUpdate(s.clients, c, pc);
    forall f | f in s'.feeds ensures s'.feeds[f].count == |Counted(s'.clients, f)| {
      CountedUpdate(s.clients, c, pc, f);
      if f !in s.feeds {
        assert Counted(s.clients, f) == {};
      }
    }
  }

  lemma PublishKeepsCount(s: State, c: TaskId, l: PublishStep)
    requires CountInv(s)
    requires PublishEnabled(s, c, l)
    ensures CountInv(PublishApply(s, c, l))
  {
    var s' := PublishApply(s, c, l);
    var pc := s'.clients[c];
    assert s'.clients == s.clients[c := pc];
    LiveUpdate(s.clients, c, pc);
    forall f | f in s'.feeds ensures s'.feeds[f].count == |Counted(s'.clients, f)| {
      CountedUpdate(s.clients, c, pc, f);
      if l.FetchAdd? {
        CountedBelow(s.clients, c, f);
      }
      if l.FetchSub? && f == s.clients[c].feed {
        assert c in Counted(s.clients, f);
      }
    }
  }

  lemma TimerKeepsCount(s: State, t: TaskId, l: TimerStep)
    requires CountInv(s)
    requires TimerEnabled(s, t, l)
    ensures CountInv(TimerApply(s, t, l))
  {
  }

  lemma CloserKeepsCount(s: State, d: TaskId, l: CloserStep)
    requires CountInv(s)
    requires CloserEnabled(s, d, l)
    ensures CountInv(CloserApply(s, d, l))
  {
  }

  /** A subscriber between its `fetch_add` and its `notify_waiters` keeps the count at least 1, and so
      does one whose `fetch_sub` is to come. */
  lemma SubscriberKeepsCount(s: State, c: TaskId)
    requires RefsInv(s) && CountInv(s)
    requires c in s.clients && (s.clients[c].Notifying? || s.clients[c].Streaming?)
    ensures s.feeds[s.clients[c].feed].count >= 1
  {
    assert c in Counted(s.clients, s.clients[c].feed);
  }

  /** The transition `epoch` of feed `f` has its removal task, or the task that will spawn it. */
  ghost predicate IsSpawner(s: State, c: TaskId, f: FeedId, epoch: nat) {
    c in s.clients && s.clients[c] == Spawning(f, epoch)
  }

  ghost predicate IsTimer(s: State, t: TaskId, f: FeedId, epoch: nat) {
    t in s.timers && s.timers[t].feed == f && s.timers[t].epoch == epoch
  }

  predicate Spawns(s: State, c: TaskId) { c in s.clients && s.clients[c].Spawning? }

  predicate SpawnInRange(s: State, c: TaskId)
    requires Spawns(s, c)
  {
    s.clients[c].feed in s.feeds && 1 <= s.clients[c].epoch <= s.feeds[s.clients[c].feed].epochs
  }

  predicate TimerInRange(s: State, t: TaskId)
    requires t in s.timers
  {
    s.timers[t].feed in s.feeds && 1 <= s.timers[t].epoch <= s.feeds[s.timers[t].feed].epochs
  }

  /** Tasks carry transitions that have happened. */
  ghost predicate TasksInRange(s: State) {
    && (forall c :: Spawns(s, c) ==> SpawnInRange(s, c))
    && (forall t :: t in s.timers ==> TimerInRange(s, t))
  }

  predicate SameSpawn(s: State, c: TaskId, c': TaskId) {
    Spawns(s, c) && Spawns(s, c') && s.clients[c] == s.clients[c']
  }

  predicate SameTimer(s: State, t: TaskId, t': TaskId) {
    && t in s.timers && t' in s.timers
    && s.timers[t].feed == s.timers[t'].feed && s.timers[t].epoch == s.timers[t'].epoch
  }

  predicate SpawnAndTimer(s: State, c: TaskId, t: TaskId) {
    Spawns(s, c) && t in s.timers && s.clients[c] == Spawning(s.timers[t].feed, s.timers[t].epoch)
  }

  /** No two tasks carry the same transition. */
  ghost predicate TasksDistinct(s: State) {
    && (forall c, c' :: SameSpawn(s, c, c') ==> c == c')
    && (forall t, t' :: SameTimer(s, t, t') ==> t == t')
    && (forall c, t :: !SpawnAndTimer(s, c, t))
  }

  ghost predicate EpochsUsedOnce(s: State) { TasksInRange(s) && TasksDistinct(s) }

  ghost predicate HasTask(s: State, f: FeedId, epoch: nat) {
    (exists c :: IsSpawner(s, c, f, epoch)) || (exists t :: IsTimer(s, t, f, epoch))
  }

  /** Every transition has its task. */
  ghost predicate EpochsAllUsed(s: State) {
    forall f, e: nat :: f in s.feeds && 1 <= e <= s.feeds[f].epochs ==> HasTask(s, f, e)
  }

  /** Nothing changes for spawners, removal tasks and transition counts. */
  ghost predicate SameTasks(s: State, s': State) {
    && (forall c :: Spawns(s', c) <==> Spawns(s, c))
    && (forall c :: Spawns(s, c) ==> s'.clients[c] == s.clients[c])
    && s'.timers.Keys == s.timers.Keys
    && (forall t :: t in s.timers ==> s'.timers[t].feed == s.timers[t].feed && s'.timers[t].epoch == s.timers[t].epoch)
    && (forall f :: f in s.feeds ==> f in s'.feeds && s'.feeds[f].epochs == s.feeds[f].epochs)
    && (forall f :: f in s'.feeds && f !in s.feeds ==> s'.feeds[f].epochs == 0)
  }

  lemma SameTasksInRange(s: State, s': State)
    requires TasksInRange(s) && SameTasks(s, s')
    ensures TasksInRange(s')
  {
  }

  lemma SameTasksDistinct(s: State, s': State)
    requires TasksDistinct(s) && SameTasks(s, s')
    ensures TasksDistinct(s')
  {
    forall c, c' | SameSpawn(s', c, c') ensures c == c' {
      assert SameSpawn(s, c, c');
    }
    forall t, t' | SameTimer(s', t, t') ensures t == t' {
      assert SameTimer(s, t, t');
    }
    forall c, t ensures !SpawnAndTimer(s', c, t) {
      assert !SpawnAndTimer(s, c, t);
    }
  }

  lemma SameTasksAllUsed(s: State, s': State)
    requires EpochsAllUsed(s) && SameTasks(s, s')
    ensures EpochsAllUsed(s')
  {
    forall f, e: nat | f in s'.feeds && 1 <= e <= s'.feeds[f].epochs ensures HasTask(s', f, e) {
      assert HasTask(s, f, e);
      if c :| IsSpawner(s, c, f, e) {
        assert Spawns(s, c);
        assert IsSpawner(s', c, f, e);
      } else {
        var t :| IsTimer(s, t, f, e);
        assert IsTimer(s', t, f, e);
      }
    }
  }

  lemma OpenSameTasks(table: Table, s: State, c: TaskId, l: OpenStep)
    requires OpenEnabled(table, s, c, l)
    ensures SameTasks(s, OpenApply(table, s, c, l))
  {
  }

  lemma TimerSameTasks(s: State, t: TaskId, l: TimerStep)
    requires TimerEnabled(s, t, l)
    ensures SameTasks(s, TimerApply(s, t, l))
  {
  }

  lemma CloserSameTasks(s: State, d: TaskId, l: CloserStep)
    requires CloserEnabled(s, d, l)
    ensures SameTasks(s, CloserApply(s, d, l))
  {
  }

  /** The publish steps that move no task: all but the last `fetch_sub` and the spawn. */
  lemma PublishSameTasks(s: State, c: TaskId, l: PublishStep)
    requires PublishEnabled(s, c, l)
    requires l.FetchSub? ==> s.feeds[s.clients[c].feed].count != 1
    requires !l.Spawn?
    ensures SameTasks(s, PublishApply(s, c, l))
  {
  }

  lemma LastLeavesDistinct(s: State, c: TaskId)
    requires RefsInv(s) && EpochsUsedOnce(s)
    requires PublishEnabled(s, c, FetchSub) && s.feeds[s.clients[c].feed].count == 1
    ensures EpochsUsedOnce(PublishApply(s, c, FetchSub))
  {
    var s' := PublishApply(s, c, FetchSub);
    forall x | Spawns(s', x) ensures SpawnInRange(s', x) {
      assert x != c ==> Spawns(s, x);
    }
    forall x, y | SameSpawn(s', x, y) ensures x == y {
      assert x != c && y != c ==> SameSpawn(s, x, y);
      assert x != c ==> Spawns(s, x);
      assert y != c ==> Spawns(s, y);
    }
    forall t, t' | SameTimer(s', t, t') ensures t == t' {
      assert SameTimer(s, t, t');
    }
    forall x, t ensures !SpawnAndTimer(s', x, t) {
      assert !SpawnAndTimer(s, x, t);
    }
  }

  lemma LastLeavesAllUsed(s: State, c: TaskId)
    requires EpochsAllUsed(s)
    requires PublishEnabled(s, c, FetchSub) && s.feeds[s.clients[c].feed].count == 1
    ensures EpochsAllUsed(PublishApply(s, c, FetchSub))
  {
    var s', g := PublishApply(s, c, FetchSub), s.clients[c].feed;
    assert IsSpawner(s', c, g, s.feeds[g].epochs + 1);
    forall f, e: nat | f in s'.feeds && 1 <= e <= s'.feeds[f].epochs ensures HasTask(s', f, e) {
      if f != g || e <= s.feeds[g].epochs {
        assert HasTask(s, f, e);
        if x :| IsSpawner(s, x, f, e) {
          assert IsSpawner(s', x, f, e);
        } else {
          var t :| IsTimer(s, t, f, e);
          assert IsTimer(s', t, f, e);
        }
      }
    }
  }

  lemma SpawnDistinct(s: State, c: TaskId, t: TaskId)
    requires RefsInv(s) && EpochsUsedOnce(s)
    requires PublishEnabled(s, c, Spawn(t))
    ensures EpochsUsedOnce(PublishApply(s, c, Spawn(t)))
  {
    var s' := PublishApply(s, c, Spawn(t));
    assert Spawns(s, c);
    forall x | Spawns(s', x) ensures SpawnInRange(s', x) {
      assert Spawns(s, x);
    }
    forall x, y | SameSpawn(s', x, y) ensures x == y {
      assert SameSpawn(s, x, y);
    }
    forall x, y | SameTimer(s', x, y) ensures x == y {
      assert x != t && y != t ==> SameTimer(s, x, y);
      assert x != t ==> !SpawnAndTimer(s, c, x);
      assert y != t ==> !SpawnAndTimer(s, c, y);
    }
    forall x, y ensures !SpawnAndTimer(s', x, y) {
      assert !SpawnAndTimer(s, x, y);
      assert x != c && Spawns(s', x) ==> !SameSpawn(s, x, c);
    }
  }

  lemma SpawnAllUsed(s: State, c: TaskId, t: TaskId)
    requires EpochsAllUsed(s)
    requires PublishEnabled(s, c, Spawn(t))
    ensures EpochsAllUsed(PublishApply(s, c, Spawn(t)))
  {
    var s' := PublishApply(s, c, Spawn(t));
    assert IsTimer(s', t, s.clients[c].feed, s.clients[c].epoch);
    forall f, e: nat | f in s'.feeds && 1 <= e <= s'.feeds[f].epochs ensures HasTask(s', f, e) {
      assert HasTask(s, f, e);
      if x :| IsSpawner(s, x, f, e) && x != c {
        assert IsSpawner(s', x, f, e);
      } else if y :| IsTimer(s, y, f, e) {
        assert IsTimer(s', y, f, e);
      }
    }
  }

  /** The task was spawned by the latest transition of its feed, which is mapped and has no subscriber. */
  predicate LatestOfUnused(s: State, timer: Timer) {
    timer.feed in s.feeds && timer.epoch == s.feeds[timer.feed].epochs && Unused(s, timer.feed)
  }

  /** The latest removal task of a mapped feed without subscribers is on its way: it has not been
      notified, and neither failed its check nor finished. */
  ghost predicate LatestTimerInv(s: State) {
    forall t :: t in s.timers && LatestOfUnused(s, s.timers[t]) ==>
      s.timers[t].pc.Pending() && s.timers[t].pc != Waiting(true)
  }

  lemma OpenKeepsLatest(table: Table, s: State, c: TaskId, l: OpenStep)
    requires RefsInv(s) && HeldInv(s) && LatestTimerInv(s)
    requires OpenEnabled(table, s, c, l)
    ensures LatestTimerInv(OpenApply(table, s, c, l))
  {
  }

  /** A 0-to-1 transition or a departure makes the claim void for its feed; a notification comes from a
      task that is itself counted. */
  lemma PublishKeepsLatest(s: State, c: TaskId, l: PublishStep)
    requires RefsInv(s) && CountInv(s) && TasksInRange(s) && LatestTimerInv(s)
    requires PublishEnabled(s, c, l)
    ensures LatestTimerInv(PublishApply(s, c, l))
  {
    match l
    case FetchAdd => CountedBelow(s.clients, c, s.clients[c].feed);
    case NotifyWaiters => SubscriberKeepsCount(s, c);
    case FetchSub => SubscriberKeepsCount(s, c);
    case Spawn(_) =>
  }

  lemma TimerKeepsLatest(s: State, t: TaskId, l: TimerStep)
    requires RefsInv(s) && HeldInv(s) && LatestTimerInv(s)
    requires TimerEnabled(s, t, l)
    ensures LatestTimerInv(TimerApply(s, t, l))
  {
  }

  lemma CloserKeepsLatest(s: State, d: TaskId, l: CloserStep)
    requires LatestTimerInv(s)
    requires CloserEnabled(s, d, l)
    ensures LatestTimerInv(CloserApply(s, d, l))
  {
  }

  /** A notified removal task has a subscriber that came after its transition, or a successor. */
  ghost predicate NotifiedInv(s: State) {
    forall t :: t in s.timers && s.timers[t].pc == Waiting(true) ==> Returned(s, s.timers[t])
  }

  predicate Returned(s: State, timer: Timer) {
    timer.feed in s.feeds && (s.feeds[timer.feed].count > 0 || timer.epoch < s.feeds[timer.feed].epochs)
  }

  lemma OpenKeepsNotified(table: Table, s: State, c: TaskId, l: OpenStep)
    requires NotifiedInv(s)
    requires OpenEnabled(table, s, c, l)
    ensures NotifiedInv(OpenApply(table, s, c, l))
  {
  }

  lemma PublishKeepsNotified(s: State, c: TaskId, l: PublishStep)
    requires RefsInv(s) && CountInv(s) && TasksInRange(s) && NotifiedInv(s)
    requires PublishEnabled(s, c, l)
    ensures NotifiedInv(PublishApply(s, c, l))
  {
    match l
    case FetchAdd => CountedBelow(s.clients, c, s.clients[c].feed);
    case NotifyWaiters => SubscriberKeepsCount(s, c);
    case FetchSub => SubscriberKeepsCount(s, c);
    case Spawn(_) =>
  }

  lemma TimerKeepsNotified(s: State, t: TaskId, l: TimerStep)
    requires NotifiedInv(s)
    requires TimerEnabled(s, t, l)
    ensures NotifiedInv(TimerApply(s, t, l))
  {
  }

  lemma CloserKeepsNotified(s: State, d: TaskId, l: CloserStep)
    requires NotifiedInv(s)
    requires CloserEnabled(s, d, l)
    ensures NotifiedInv(CloserApply(s, d, l))
  {
  }

  /** A feed that was ever subscribed is subscribed or has been left by all. */
  ghost predicate JoinsInv(s: State) {
    forall f :: f in s.feeds && s.feeds[f].joins > 0 ==> s.feeds[f].count > 0 || s.feeds[f].epochs > 0
  }

  lemma PublishKeepsJoins(s: State, c: TaskId, l: PublishStep)
    requires CountInv(s) && JoinsInv(s)
    requires PublishEnabled(s, c, l)
    ensures JoinsInv(PublishApply(s, c, l))
  {
    var f := if l.FetchAdd? || l.FetchSub? then s.clients[c].feed else 0;
    if l.FetchAdd? {
      CountedBelow(s.clients, c, f);
    }
    if l.FetchSub? {
      assert c in Counted(s.clients, f);
    }
  }

  lemma OpenKeepsJoins(table: Table, s: State, c: TaskId, l: OpenStep)
    requires JoinsInv(s)
    requires OpenEnabled(table, s, c, l)
    ensures JoinsInv(OpenApply(table, s, c, l))
  {
  }

  lemma TimerKeepsJoins(s: State, t: TaskId, l: TimerStep)
    requires JoinsInv(s)
    requires TimerEnabled(s, t, l)
    ensures JoinsInv(TimerApply(s, t, l))
  {
  }

  lemma CloserKeepsJoins(s: State, d: TaskId, l: CloserStep)
    requires JoinsInv(s)
    requires CloserEnabled(s, d, l)
    ensures JoinsInv(CloserApply(s, d, l))
  {
  }
}
