/** Who may shut a feed down, and what the manager's shutdown leaves behind. */
module LifecycleOwnership {
  import opened Instruments
  import opened Lifecycle
  import opened LifecycleInvariants

  /** Once the map has been drained it stays empty: no client is past its flag check any more. */
  ghost predicate FinalInv(s: State) {
    && (forall d :: d in s.closers && !s.closers[d].Starting? ==> s.shuttingDown)
    && (forall d :: d in s.closers && (s.closers[d].Drained? || s.closers[d].Closing?) ==> s.drained)
    && (s.drained ==> s.shuttingDown && s.mapped == map[])
    && (s.drained ==> forall c :: c in s.clients ==> !s.clients[c].Admitted? && !s.clients[c].Creating?)
  }

  lemma OpenKeepsFinal(table: Table, s: State, c: TaskId, l: OpenStep)
    requires FinalInv(s)
    requires OpenEnabled(table, s, c, l)
    ensures FinalInv(OpenApply(table, s, c, l))
  {
  }

  lemma PublishKeepsFinal(s: State, c: TaskId, l: PublishStep)
    requires FinalInv(s)
    requires PublishEnabled(s, c, l)
    ensures FinalInv(PublishApply(s, c, l))
  {
  }

  lemma TimerKeepsFinal(s: State, t: TaskId, l: TimerStep)
    requires FinalInv(s)
    requires TimerEnabled(s, t, l)
    ensures FinalInv(TimerApply(s, t, l))
  {
  }

  /** The drain happens under the lock, so no client is between its flag check and its insert. */
  lemma CloserKeepsFinal(s: State, d: TaskId, l: CloserStep)
    requires LockInv(s) && FinalInv(s)
    requires CloserEnabled(s, d, l)
    ensures FinalInv(CloserApply(s, d, l))
  {
  }

  /** Task `a` has taken feed `f` out of the map and has not yet entered its shutdown. */
  predicate Owns(s: State, a: Owner, f: FeedId) {
    match a
    case Free => false
    case ByClient(_) => false
    case ByTimer(t) => t in s.timers && s.timers[t].feed == f && (s.timers[t].pc.Removed? || s.timers[t].pc.MustClose?)
    case ByCloser(d) => d in s.closers && f in s.closers[d].Taken()
  }

  /** A feed is mapped, or owned by exactly one task, or was shut down once: exactly one of the three. */
  ghost predicate OwnedOnce(s: State, f: FeedId)
    requires f in s.feeds
  {
    && (forall a, b :: Owns(s, a, f) && Owns(s, b, f) ==> a == b)
    && (IsMapped(s, f) ==> s.feeds[f].closed == 0 && forall a :: !Owns(s, a, f))
    && ((exists a :: Owns(s, a, f)) ==> s.feeds[f].closed == 0)
    && (!IsMapped(s, f) ==> s.feeds[f].closed == 1 || exists a :: Owns(s, a, f))
    && s.feeds[f].closed <= 1
  }

  ghost predicate OwnershipInv(s: State) {
    forall f :: f in s.feeds ==> OwnedOnce(s, f)
  }

  /** Nothing changes for feed `f`. */
  ghost predicate SameOwners(s: State, s': State, f: FeedId)
    requires f in s.feeds && f in s'.feeds
  {
    && (IsMapped(s', f) <==> IsMapped(s, f))
    && (forall a :: Owns(s', a, f) <==> Owns(s, a, f))
    && s'.feeds[f].closed == s.feeds[f].closed
  }

  lemma SameOwnersKept(s: State, s': State, f: FeedId)
    requires f in s.feeds && f in s'.feeds && SameOwners(s, s', f)
    requires OwnedOnce(s, f)
    ensures OwnedOnce(s', f)
  {
  }

  lemma OpenMovesNone(table: Table, s: State, c: TaskId, l: OpenStep, f: FeedId)
    requires HeldInv(s) && OpenEnabled(table, s, c, l) && f in s.feeds
    ensures f in OpenApply(table, s, c, l).feeds && SameOwners(s, OpenApply(table, s, c, l), f)
  {
  }

  lemma InsertedIsMapped(table: Table, s: State, c: TaskId, f: FeedId)
    requires KeyedBySymbol(table) && RefsInv(s)
    requires OpenEnabled(table, s, c, Insert(f))
    ensures OwnedOnce(OpenApply(table, s, c, Insert(f)), f)
  {
  }

  lemma OpenKeepsOwnership(table: Table, s: State, c: TaskId, l: OpenStep)
    requires KeyedBySymbol(table)
    requires RefsInv(s) && HeldInv(s) && OwnershipInv(s)
    requires OpenEnabled(table, s, c, l)
    ensures OwnershipInv(OpenApply(table, s, c, l))
  {
    var s' := OpenApply(table, s, c, l);
    forall f | f in s'.feeds ensures OwnedOnce(s', f) {
      if f in s.feeds {
        OpenMovesNone(table, s, c, l, f);
        assert OwnedOnce(s, f);
        SameOwnersKept(s, s', f);
      } else {
        InsertedIsMapped(table, s, c, f);
      }
    }
  }

  lemma PublishKeepsOwnership(s: State, c: TaskId, l: PublishStep)
    requires OwnershipInv(s)
    requires PublishEnabled(s, c, l)
    ensures OwnershipInv(PublishApply(s, c, l))
  {
    var s' := PublishApply(s, c, l);
    forall f | f in s'.feeds ensures OwnedOnce(s', f) {
      forall a ensures Owns(s', a, f) <==> Owns(s, a, f) {}
      SameOwnersKept(s, s', f);
    }
  }

  lemma TimerRemoves(s: State, t: TaskId)
    requires TimerEnabled(s, t, Remove) && OwnedOnce(s, s.timers[t].feed) && IsMapped(s, s.timers[t].feed)
    ensures OwnedOnce(TimerApply(s, t, Remove), s.timers[t].feed)
  {
    var s', f := TimerApply(s, t, Remove), s.timers[t].feed;
    assert Owns(s', ByTimer(t), f);
    forall a | Owns(s', a, f) ensures a == ByTimer(t) {
      assert a != ByTimer(t) ==> Owns(s, a, f);
    }
  }

  lemma TimerCloses(s: State, t: TaskId)
    requires TimerEnabled(s, t, Close) && OwnedOnce(s, s.timers[t].feed)
    ensures OwnedOnce(TimerApply(s, t, Close), s.timers[t].feed)
  {
    var s', f := TimerApply(s, t, Close), s.timers[t].feed;
    assert Owns(s, ByTimer(t), f);
    forall a ensures !Owns(s', a, f) {
      assert Owns(s', a, f) ==> Owns(s, a, f);
    }
  }

  /** A timer changes hands only of its own feed, and only by removing or closing it. */
  lemma TimerElsewhere(s: State, t: TaskId, l: TimerStep, f: FeedId)
    requires RefsInv(s) && HeldInv(s) && f in s.feeds && OwnedOnce(s, f)
    requires TimerEnabled(s, t, l)
    requires f == s.timers[t].feed ==> !l.Remove? && !l.Close?
    ensures OwnedOnce(TimerApply(s, t, l), f)
  {
    var s' := TimerApply(s, t, l);
    forall a ensures Owns(s', a, f) <==> Owns(s, a, f) {}
    if l.Remove? {
      assert IsMapped(s, s.timers[t].feed);
    }
    SameOwnersKept(s, s', f);
  }

  lemma TimerKeepsOwnership(s: State, t: TaskId, l: TimerStep)
    requires RefsInv(s) && HeldInv(s) && OwnershipInv(s)
    requires TimerEnabled(s, t, l)
    ensures OwnershipInv(TimerApply(s, t, l))
  {
    var s' := TimerApply(s, t, l);
    forall f | f in s'.feeds ensures OwnedOnce(s', f) {
      assert OwnedOnce(s, f);
      if l.Remove? && f == s.timers[t].feed {
        TimerRemoves(s, t);
      } else if l.Close? && f == s.timers[t].feed {
        TimerCloses(s, t);
      } else {
        TimerElsewhere(s, t, l, f);
      }
    }
  }

  lemma DrainTakes(s: State, d: TaskId, f: FeedId)
    requires CloserEnabled(s, d, Drain) && f in s.feeds && OwnedOnce(s, f) && IsMapped(s, f)
    ensures OwnedOnce(CloserApply(s, d, Drain), f)
  {
    var s' := CloserApply(s, d, Drain);
    assert s.feeds[f].symbol in s.mapped.Keys;
    assert f in s.mapped.Values;
    assert Owns(s', ByCloser(d), f);
    forall a | Owns(s', a, f) ensures a == ByCloser(d) {
      assert a != ByCloser(d) ==> Owns(s, a, f);
    }
  }

  lemma DrainElsewhere(s: State, d: TaskId, f: FeedId)
    requires RefsInv(s) && CloserEnabled(s, d, Drain) && f in s.feeds && OwnedOnce(s, f) && !IsMapped(s, f)
    ensures OwnedOnce(CloserApply(s, d, Drain), f)
  {
    var s' := CloserApply(s, d, Drain);
    assert f !in s.mapped.Values;
    forall a ensures Owns(s', a, f) <==> Owns(s, a, f) {}
    SameOwnersKept(s, s', f);
  }

  lemma CloserCloses(s: State, d: TaskId, f: FeedId)
    requires CloserEnabled(s, d, CloseOne(f)) && OwnedOnce(s, f)
    ensures OwnedOnce(CloserApply(s, d, CloseOne(f)), f)
  {
    var s' := CloserApply(s, d, CloseOne(f));
    assert Owns(s, ByCloser(d), f);
    forall a ensures !Owns(s', a, f) {
      assert Owns(s', a, f) ==> Owns(s, a, f);
    }
  }

  lemma CloserElsewhere(s: State, d: TaskId, l: CloserStep, f: FeedId)
    requires f in s.feeds && OwnedOnce(s, f)
    requires CloserEnabled(s, d, l) && !l.Drain? && l != CloseOne(f)
    ensures OwnedOnce(CloserApply(s, d, l), f)
  {
    var s' := CloserApply(s, d, l);
    forall a ensures Owns(s', a, f) <==> Owns(s, a, f) {}
    SameOwnersKept(s, s', f);
  }

  lemma CloserKeepsOwnership(s: State, d: TaskId, l: CloserStep)
    requires RefsInv(s) && OwnershipInv(s)
    requires CloserEnabled(s, d, l)
    ensures OwnershipInv(CloserApply(s, d, l))
  {
    var s' := CloserApply(s, d, l);
    forall f | f in s'.feeds ensures OwnedOnce(s', f) {
      assert OwnedOnce(s, f);
      if l.Drain? && IsMapped(s, f) {
        DrainTakes(s, d, f);
      } else if l.Drain? {
        DrainElsewhere(s, d, f);
      } else if l == CloseOne(f) {
        CloserCloses(s, d, f);
      } else {
        CloserElsewhere(s, d, l, f);
      }
    }
  }
}
