/** What every step of the lifecycle keeps. */
module LifecycleInvariants {
  import opened Instruments
  import opened Lifecycle

  /** Feed references are to existing feeds, and every map entry is filed under its feed's own symbol. */
  ghost predicate RefsInv(s: State) {
    && (forall k :: k in s.mapped ==> s.mapped[k] in s.feeds && s.feeds[s.mapped[k]].symbol == k)
    && (forall c :: c in s.clients && s.clients[c].HasFeed() ==> s.clients[c].feed in s.feeds)
    && (forall t :: t in s.timers ==> s.timers[t].feed in s.feeds)
    && (forall d :: d in s.closers ==> s.closers[d].Taken() <= s.feeds.Keys)
  }

  /** The lock is held by the task whose position says so, and by no other. */
  ghost predicate LockInv(s: State) {
    && (forall c :: s.lock == ByClient(c) <==> c in s.clients && s.clients[c].HoldsLock())
    && (forall t :: s.lock == ByTimer(t) <==> t in s.timers && s.timers[t].pc.HoldsLock())
    && (forall d :: s.lock == ByCloser(d) <==> d in s.closers && s.closers[d].HoldsLock())
  }

  /** What the lock holder has established stays true. */
  ghost predicate HeldInv(s: State) {
    && (forall c :: c in s.clients && s.clients[c].Creating? ==> s.clients[c].symbol !in s.mapped)
    && (forall t :: t in s.timers && s.timers[t].pc.Passed? && s.timers[t].feed in s.feeds ==>
          IsMapped(s, s.timers[t].feed))
  }

  lemma OpenKeepsRefs(table: Table, s: State, c: TaskId, l: OpenStep)
    requires KeyedBySymbol(table) && RefsInv(s)
    requires OpenEnabled(table, s, c, l)
    ensures RefsInv(OpenApply(table, s, c, l))
  {
  }

  lemma PublishKeepsRefs(s: State, c: TaskId, l: PublishStep)
    requires RefsInv(s)
    requires PublishEnabled(s, c, l)
    ensures RefsInv(PublishApply(s, c, l))
  {
  }

  lemma TimerKeepsRefs(s: State, t: TaskId, l: TimerStep)
    requires RefsInv(s)
    requires TimerEnabled(s, t, l)
    ensures RefsInv(TimerApply(s, t, l))
  {
  }

  lemma CloserKeepsRefs(s: State, d: TaskId, l: CloserStep)
    requires RefsInv(s)
    requires CloserEnabled(s, d, l)
    ensures RefsInv(CloserApply(s, d, l))
  {
  }

  lemma OpenKeepsLock(table: Table, s: State, c: TaskId, l: OpenStep)
    requires LockInv(s)
    requires OpenEnabled(table, s, c, l)
    ensures LockInv(OpenApply(table, s, c, l))
  {
  }

  lemma PublishKeepsLock(s: State, c: TaskId, l: PublishStep)
    requires LockInv(s)
    requires PublishEnabled(s, c, l)
    ensures LockInv(PublishApply(s, c, l))
  {
  }

  lemma TimerKeepsLock(s: State, t: TaskId, l: TimerStep)
    requires LockInv(s)
    requires TimerEnabled(s, t, l)
    ensures LockInv(TimerApply(s, t, l))
  {
  }

  lemma CloserKeepsLock(s: State, d: TaskId, l: CloserStep)
    requires LockInv(s)
    requires CloserEnabled(s, d, l)
    ensures LockInv(CloserApply(s, d, l))
  {
  }

  lemma OpenKeepsHeld(table: Table, s: State, c: TaskId, l: OpenStep)
    requires KeyedBySymbol(table) && RefsInv(s) && LockInv(s) && HeldInv(s)
    requires OpenEnabled(table, s, c, l)
    ensures HeldInv(OpenApply(table, s, c, l))
  {
  }

  lemma PublishKeepsHeld(s: State, c: TaskId, l: PublishStep)
    requires RefsInv(s) && LockInv(s) && HeldInv(s)
    requires PublishEnabled(s, c, l)
    ensures HeldInv(PublishApply(s, c, l))
  {
  }

  lemma TimerKeepsHeld(s: State, t: TaskId, l: TimerStep)
    requires RefsInv(s) && LockInv(s) && HeldInv(s)
    requires TimerEnabled(s, t, l)
    ensures HeldInv(TimerApply(s, t, l))
  {
  }

  lemma CloserKeepsHeld(s: State, d: TaskId, l: CloserStep)
    requires RefsInv(s) && LockInv(s) && HeldInv(s)
    requires CloserEnabled(s, d, l)
    ensures HeldInv(CloserApply(s, d, l))
  {
  }
}
