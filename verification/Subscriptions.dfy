/** What subscribing and unsubscribing do: who is woken, what is counted, and who can cancel. */
module Subscriptions {
  import opened Instruments
  import opened Lifecycle
  import opened LifecycleCounts
  import opened LifecycleTheorems
  import opened LifecycleExtensions

  // ---------- Subscribing ----------

  /** Every waiting removal task of `f` can now be cancelled; every other one is as it was. */
  ghost predicate Woken(s: State, s': State, f: FeedId) {
    && s'.timers.Keys == s.timers.Keys
    && forall t :: t in s.timers ==>
         if s.timers[t].feed == f && s.timers[t].pc.Waiting?
         then TimerEnabled(s', t, Cancel) && s'.timers[t].epoch == s.timers[t].epoch
         else s'.timers[t] == s.timers[t]
  }

  /** A notification reaches exactly the removal tasks of the feed that wait at that moment. */
  lemma NotifyWakesExactly(table: Table, run: seq<Label>, c: TaskId)
    requires KeyedBySymbol(table) && IsRun(table, run) && PublishEnabled(After(table, run), c, NotifyWaiters)
    ensures var s := After(table, run); var f := s.clients[c].feed;
      && Woken(s, PublishApply(s, c, NotifyWaiters), f)
      && PublishApply(s, c, NotifyWaiters).clients[c] == Streaming(f)
  {
    RunInv(table, run);
  }

  /** Subscribing counts one more and wakes nobody yet; it is followed by a notification if and only if it
      was the first subscription. */
  lemma SubscribeExactly(table: Table, run: seq<Label>, c: TaskId)
    requires KeyedBySymbol(table) && IsRun(table, run) && PublishEnabled(After(table, run), c, FetchAdd)
    ensures var s := After(table, run); var f := s.clients[c].feed; var s' := PublishApply(s, c, FetchAdd);
      && s'.feeds[f].count == s.feeds[f].count + 1 && s'.feeds[f].joins == s.feeds[f].joins + 1
      && s'.timers == s.timers
      && (PublishEnabled(s', c, NotifyWaiters) <==> s.feeds[f].count == 0)
      && (PublishEnabled(s', c, FetchSub) <==> s.feeds[f].count > 0)
  {
    RunInv(table, run);
    CountedBelow(After(table, run).clients, c, After(table, run).clients[c].feed);
  }

  ghost predicate IsFinished(s: State, t: TaskId) {
    t in s.timers && s.timers[t].pc.Finished?
  }

  lemma PublishKeepsFinished(s: State, c: TaskId, l: PublishStep, t: TaskId)
    requires PublishEnabled(s, c, l) && IsFinished(s, t)
    ensures IsFinished(PublishApply(s, c, l), t)
  {
  }

  lemma TimerKeepsFinished(s: State, t': TaskId, l: TimerStep, t: TaskId)
    requires TimerEnabled(s, t', l) && IsFinished(s, t)
    ensures IsFinished(TimerApply(s, t', l), t)
  {
  }

  lemma FinishedStays(table: Table, s: State, l: Label, t: TaskId)
    requires Enabled(table, s, l) && IsFinished(s, t)
    ensures IsFinished(Apply(table, s, l), t)
  {
    match l
    case O(c, os) => OpenKeepsTimers(table, s, c, os);
    case P(c, ps) => PublishKeepsFinished(s, c, ps, t);
    case T(t', ts) => TimerKeepsFinished(s, t', ts, t);
    case D(d, ds) => CloserKeepsTimers(s, d, ds);
  }

  /** A cancelled removal task is finished for good: it never passes a check, removes or closes. */
  lemma {:induction false} CancelledIsFinished(table: Table, run: seq<Label>, j: nat, t: TaskId)
    requires IsRun(table, run) && j < |run| && run[j] == T(t, Cancel)
    ensures IsFinished(After(table, run), t)
  {
    var front := run[..|run| - 1];
    if j < |front| {
      CancelledIsFinished(table, front, j, t);
      FinishedStays(table, After(table, front), run[|run| - 1], t);
    }
  }

  // ---------- Unsubscribing ----------

  /** The last step took the count of `f` from above 0 to 0. */
  predicate Empties(s: State, s': State, f: FeedId) {
    f in s.feeds && f in s'.feeds && s.feeds[f].count > 0 && s'.feeds[f].count == 0
  }

  /** How often the run took the count of `f` to 0. */
  ghost function TimesEmptied(table: Table, run: seq<Label>, f: FeedId): nat
    requires IsRun(table, run)
  {
    if run == [] then 0
    else
      var front := run[..|run| - 1];
      TimesEmptied(table, front, f) + if Empties(After(table, front), After(table, run), f) then 1 else 0
  }

  lemma OpenEmptiesNone(table: Table, s: State, c: TaskId, l: OpenStep, f: FeedId)
    requires OpenEnabled(table, s, c, l) && f in OpenApply(table, s, c, l).feeds
    ensures !Empties(s, OpenApply(table, s, c, l), f)
    ensures OpenApply(table, s, c, l).feeds[f].epochs == if f in s.feeds then s.feeds[f].epochs else 0
  {
  }

  lemma PublishEmpties(s: State, c: TaskId, l: PublishStep, f: FeedId)
    requires CountInv(s) && PublishEnabled(s, c, l) && f in PublishApply(s, c, l).feeds
    ensures f in s.feeds
    ensures PublishApply(s, c, l).feeds[f].epochs ==
      s.feeds[f].epochs + if Empties(s, PublishApply(s, c, l), f) then 1 else 0
  {
    if l.FetchAdd? {
      CountedBelow(s.clients, c, s.clients[c].feed);
    }
  }

  lemma TimerEmptiesNone(s: State, t: TaskId, l: TimerStep, f: FeedId)
    requires TimerEnabled(s, t, l) && f in TimerApply(s, t, l).feeds
    ensures f in s.feeds && !Empties(s, TimerApply(s, t, l), f)
    ensures TimerApply(s, t, l).feeds[f].epochs == s.feeds[f].epochs
  {
  }

  lemma CloserEmptiesNone(s: State, d: TaskId, l: CloserStep, f: FeedId)
    requires CloserEnabled(s, d, l) && f in CloserApply(s, d, l).feeds
    ensures f in s.feeds && !Empties(s, CloserApply(s, d, l), f)
    ensures CloserApply(s, d, l).feeds[f].epochs == s.feeds[f].epochs
  {
  }

  lemma {:induction false} UnknownNeverEmptied(table: Table, run: seq<Label>, f: FeedId)
    requires IsRun(table, run) && f !in After(table, run).feeds
    ensures TimesEmptied(table, run, f) == 0
  {
    if run != [] {
      var front, l := run[..|run| - 1], run[|run| - 1];
      if f in After(table, front).feeds {
        FeedsStay(table, After(table, front), l, f);
      } else {
        UnknownNeverEmptied(table, front, f);
      }
    }
  }

  lemma FeedsStay(table: Table, s: State, l: Label, f: FeedId)
    requires Enabled(table, s, l) && f in s.feeds
    ensures f in Apply(table, s, l).feeds
  {
    match l
    case O(c, os) => assert f in OpenApply(table, s, c, os).feeds;
    case P(c, ps) => assert f in PublishApply(s, c, ps).feeds;
    case T(t, ts) => assert f in TimerApply(s, t, ts).feeds;
    case D(d, ds) => assert f in CloserApply(s, d, ds).feeds;
  }

  lemma StepEmpties(table: Table, s: State, l: Label, f: FeedId)
    requires CountInv(s) && Enabled(table, s, l) && f in Apply(table, s, l).feeds
    ensures Apply(table, s, l).feeds[f].epochs ==
      (if f in s.feeds then s.feeds[f].epochs else 0) + if Empties(s, Apply(table, s, l), f) then 1 else 0
  {
    match l
    case O(c, os) => OpenEmptiesNone(table, s, c, os, f);
    case P(c, ps) => PublishEmpties(s, c, ps, f);
    case T(t, ts) => TimerEmptiesNone(s, t, ts, f);
    case D(d, ds) => CloserEmptiesNone(s, d, ds, f);
  }

  /** The transitions that carry removal tasks are exactly the times the count went to 0. */
  lemma {:induction false} EpochsAreEmptyings(table: Table, run: seq<Label>, f: FeedId)
    requires KeyedBySymbol(table) && IsRun(table, run) && f in After(table, run).feeds
    ensures After(table, run).feeds[f].epochs == TimesEmptied(table, run, f)
  {
    if run != [] {
      var front, l := run[..|run| - 1], run[|run| - 1];
      RunInv(table, front);
      StepEmpties(table, After(table, front), l, f);
      if f in After(table, front).feeds {
        EpochsAreEmptyings(table, front, f);
      } else {
        UnknownNeverEmptied(table, front, f);
      }
    }
  }

  /** Leaving counts one less and changes no removal task; the client is gone if others remain, and goes
      on to spawn the task of a new transition if it was the last one. */
  lemma UnsubscribeExactly(table: Table, run: seq<Label>, c: TaskId)
    requires KeyedBySymbol(table) && IsRun(table, run) && PublishEnabled(After(table, run), c, FetchSub)
    ensures var s := After(table, run); var f := s.clients[c].feed; var s' := PublishApply(s, c, FetchSub);
      && s.feeds[f].count >= 1 && s'.feeds[f].count == s.feeds[f].count - 1 && s'.timers == s.timers
      && s'.clients[c] == (if s.feeds[f].count > 1 then Gone else Spawning(f, s.feeds[f].epochs + 1))
  {
    RunInv(table, run);
    SubscriberKeepsCount(After(table, run), c);
  }

  /** The task spawned is one for the feed and the transition of its spawner, and has not registered. */
  lemma SpawnExactly(s: State, c: TaskId, t: TaskId)
    requires c in s.clients && s.clients[c].Spawning? && t !in s.timers
    ensures PublishEnabled(s, c, Spawn(t))
    ensures var s' := PublishApply(s, c, Spawn(t));
      s'.timers == s.timers[t := Timer(s.clients[c].feed, s.clients[c].epoch, Spawned)] && s'.clients[c] == Gone
  {
  }
}
