/** When a feed that has left the map can still gain a subscriber. */
module LateSubscribers {
  import opened Instruments
  import opened Lifecycle
  import opened LifecycleInvariants
  import opened LifecycleTheorems
  import opened LifecycleExtensions

  /** The client has the feed in its hands and has not subscribed: still under the lock, or past it. */
  predicate Holds(s: State, c: TaskId, f: FeedId) {
    c in s.clients && (s.clients[c] == Returning(f) || s.clients[c] == Opened(f))
  }

  /** The feed has left the map, nobody holds it unsubscribed, and it has been subscribed `joins` times. */
  ghost predicate Frozen(s: State, f: FeedId, joins: nat) {
    && f in s.feeds && !IsMapped(s, f) && s.feeds[f].joins == joins
    && forall c :: c in s.clients ==> s.clients[c] != Returning(f) && s.clients[c] != Opened(f)
  }

  lemma OpenKeepsFrozen(table: Table, s: State, c: TaskId, l: OpenStep, f: FeedId, joins: nat)
    requires RefsInv(s) && Frozen(s, f, joins) && OpenEnabled(table, s, c, l)
    ensures Frozen(OpenApply(table, s, c, l), f, joins)
  {
  }

  lemma PublishKeepsFrozen(s: State, c: TaskId, l: PublishStep, f: FeedId, joins: nat)
    requires Frozen(s, f, joins) && PublishEnabled(s, c, l)
    ensures Frozen(PublishApply(s, c, l), f, joins)
  {
  }

  lemma TimerKeepsFrozen(s: State, t: TaskId, l: TimerStep, f: FeedId, joins: nat)
    requires Frozen(s, f, joins) && TimerEnabled(s, t, l)
    ensures Frozen(TimerApply(s, t, l), f, joins)
  {
  }

  lemma CloserKeepsFrozen(s: State, d: TaskId, l: CloserStep, f: FeedId, joins: nat)
    requires Frozen(s, f, joins) && CloserEnabled(s, d, l)
    ensures Frozen(CloserApply(s, d, l), f, joins)
  {
  }

  lemma FrozenIsKept(table: Table, f: FeedId, joins: nat)
    ensures Kept(table, iset s | Frozen(s, f, joins))
  {
    var good := iset s | Frozen(s, f, joins);
    forall s, l | s in good && Inv(s) && Enabled(table, s, l) ensures Apply(table, s, l) in good {
      match l
      case O(c, os) => OpenKeepsFrozen(table, s, c, os, f, joins);
      case P(c, ps) => PublishKeepsFrozen(s, c, ps, f, joins);
      case T(t, ts) => TimerKeepsFrozen(s, t, ts, f, joins);
      case D(d, ds) => CloserKeepsFrozen(s, d, ds, f, joins);
    }
  }

  /** Some extension of `run` subscribes to `f` once more. */
  ghost predicate CanGain(table: Table, run: seq<Label>, f: FeedId)
    requires IsRun(table, run) && f in After(table, run).feeds
  {
    exists s :: Later(table, run, s) && f in s.feeds && s.feeds[f].joins > After(table, run).feeds[f].joins
  }

  lemma HolderCanSubscribe(table: Table, run: seq<Label>, f: FeedId, c: TaskId)
    requires IsRun(table, run) && f in After(table, run).feeds && Holds(After(table, run), c, f)
    ensures CanGain(table, run, f)
  {
    var s := After(table, run);
    LaterSelf(table, run);
    if s.clients[c].Returning? {
      LaterStep(table, run, s, O(c, Release));
      s := OpenApply(table, s, c, Release);
    }
    LaterStep(table, run, s, P(c, FetchAdd));
    assert PublishApply(s, c, FetchAdd).feeds[f].joins == s.feeds[f].joins + 1;
  }

  /** A feed that has left the map, shut down or about to be, can gain a subscriber if and only if some
      client already has it from `open` and has not subscribed. */
  lemma UnmappedGainsExactly(table: Table, run: seq<Label>, f: FeedId)
    requires KeyedBySymbol(table) && IsRun(table, run)
    requires f in After(table, run).feeds && !IsMapped(After(table, run), f)
    ensures CanGain(table, run, f) <==> exists c :: Holds(After(table, run), c, f)
  {
    var s := After(table, run);
    if c :| Holds(s, c, f) {
      HolderCanSubscribe(table, run, f, c);
    } else {
      forall c | c in s.clients ensures s.clients[c] != Returning(f) && s.clients[c] != Opened(f) {
        assert !Holds(s, c, f);
      }
      FrozenIsKept(table, f, s.feeds[f].joins);
      forall s' | Later(table, run, s') ensures Frozen(s', f, s.feeds[f].joins) {
        var ext: seq<Label> :| IsRun(table, run + ext) && After(table, run + ext) == s';
        StaysGood(table, run, ext, iset s' | Frozen(s', f, s.feeds[f].joins));
      }
    }
  }

  /** In particular a feed that was shut down. */
  lemma ClosedGainsExactly(table: Table, run: seq<Label>, f: FeedId)
    requires KeyedBySymbol(table) && IsRun(table, run)
    requires f in After(table, run).feeds && After(table, run).feeds[f].closed > 0
    ensures CanGain(table, run, f) <==> exists c :: Holds(After(table, run), c, f)
  {
    SingleOwnership(table, run, f);
    UnmappedGainsExactly(table, run, f);
  }
}
