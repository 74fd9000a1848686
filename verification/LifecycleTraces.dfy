/** Runs that show which natural claims about the lifecycle do not hold. */
module LifecycleTraces {
  import opened Instruments
  import opened Lifecycle

  const TABLE: Table := map["btc" := Instrument("btc", map[])]

  /** `r` holds the initial state and is closed under steps. */
  ghost predicate Closed(r: iset<State>) {
    && INITIAL in r
    && forall s, l {:trigger Apply(TABLE, s, l)} :: s in r && Enabled(TABLE, s, l) ==> Apply(TABLE, s, l) in r
  }

  /** The states some run ends in. */
  ghost function Reachable(): iset<State> {
    iset run | IsRun(TABLE, run) :: After(TABLE, run)
  }

  lemma ReachableIsClosed()
    ensures Closed(Reachable())
  {
    assert IsRun(TABLE, []) && After(TABLE, []) == INITIAL;
    forall s, l | s in Reachable() && Enabled(TABLE, s, l) ensures Apply(TABLE, s, l) in Reachable() {
      var run :| IsRun(TABLE, run) && After(TABLE, run) == s;
      var longer := run + [l];
      assert longer[..|longer| - 1] == run;
      assert IsRun(TABLE, longer) && After(TABLE, longer) == Apply(TABLE, s, l);
    }
  }

  lemma Reach(r: iset<State>, s: State, l: Label, s': State)
    requires Closed(r) && s in r && Enabled(TABLE, s, l) && Apply(TABLE, s, l) == s'
    ensures s' in r
  {
  }

  /** Feed 0 of symbol "btc" with the given count and transitions. */
  function Feed0(count: nat, joins: nat, epochs: nat, closed: nat): map<FeedId, FeedInfo> {
    map[0 := FeedInfo("btc", count, joins, epochs, closed)]
  }

  const MAPPED: map<string, FeedId> := map["btc" := 0]

  /** Client 0 finds no feed under the symbol. */
  lemma ReachCreating(r: iset<State>)
    requires Closed(r)
    ensures INITIAL.(lock := ByClient(0), clients := map[0 := Creating("btc")]) in r
  {
    var s := INITIAL;
    var s1 := s.(clients := map[0 := Opening("btc")]);
    assert Live(s.clients) == {};
    Reach(r, s, O(0, Arrive("btc")), s1);
    var s2 := s1.(lock := ByClient(0), clients := map[0 := Locked("btc")]);
    Reach(r, s1, O(0, Acquire), s2);
    var s3 := s2.(clients := map[0 := Admitted("btc")]);
    Reach(r, s2, O(0, LoadFlag), s3);
    Reach(r, s3, O(0, Lookup), s3.(clients := map[0 := Creating("btc")]));
  }

  /** Client 0 opens the symbol and holds feed 0, not yet subscribed. */
  lemma ReachOpened(r: iset<State>)
    requires Closed(r)
    ensures State(Free, false, false, MAPPED, Feed0(0, 0, 0, 0), map[0 := Opened(0)], map[], map[]) in r
  {
    ReachCreating(r);
    var s4 := INITIAL.(lock := ByClient(0), clients := map[0 := Creating("btc")]);
    var s5 := s4.(mapped := MAPPED, feeds := Feed0(0, 0, 0, 0), clients := map[0 := Returning(0)]);
    Reach(r, s4, O(0, Insert(0)), s5);
    Reach(r, s5, O(0, Release), s5.(lock := Free, clients := map[0 := Opened(0)]));
  }

  /** A feed that was shut down, and has no subscriber, can gain one: `open` hands it out before it is
      counted, and subscribing does not take the lock. */
  lemma ClosedFeedCanGainSubscriber() returns (s: State)
    ensures s in Reachable() && 0 in s.feeds && s.feeds[0].closed == 1 && s.feeds[0].count == 0 && s.feeds[0].joins == 0
    ensures PublishEnabled(s, 0, FetchAdd) && PublishApply(s, 0, FetchAdd).feeds[0].count == 1
  {
    ReachableIsClosed();
    ReachClosed(Reachable());
    s := State(Free, true, true, map[], Feed0(0, 0, 0, 1), map[0 := Opened(0)], map[], map[0 := Closing({})]);
  }

  lemma ReachDrained(r: iset<State>)
    requires Closed(r)
    ensures State(ByCloser(0), true, true, map[], Feed0(0, 0, 0, 0), map[0 := Opened(0)], map[],
                  map[0 := Drained({0})]) in r
  {
    ReachOpened(r);
    var s0 := State(Free, false, false, MAPPED, Feed0(0, 0, 0, 0), map[0 := Opened(0)], map[], map[]);
    var s1 := s0.(closers := map[0 := Starting]);
    Reach(r, s0, D(0, Call), s1);
    var s2 := s1.(shuttingDown := true, closers := map[0 := Wanting]);
    Reach(r, s1, D(0, StoreFlag), s2);
    var s3 := s2.(lock := ByCloser(0), closers := map[0 := Draining]);
    Reach(r, s2, D(0, AcquireD), s3);
    assert MAPPED.Values == {0} by {
      assert "btc" in MAPPED && MAPPED["btc"] == 0;
    }
    Reach(r, s3, D(0, Drain), s3.(mapped := map[], drained := true, closers := map[0 := Drained({0})]));
  }

  lemma ReachClosed(r: iset<State>)
    requires Closed(r)
    ensures State(Free, true, true, map[], Feed0(0, 0, 0, 1), map[0 := Opened(0)], map[], map[0 := Closing({})]) in r
  {
    ReachDrained(r);
    var s4 := State(ByCloser(0), true, true, map[], Feed0(0, 0, 0, 0), map[0 := Opened(0)], map[],
                    map[0 := Drained({0})]);
    var s5 := s4.(lock := Free, closers := map[0 := Closing({0})]);
    Reach(r, s4, D(0, ReleaseD), s5);
    var todo: set<FeedId> := {0};
    assert todo - {0} == {};
    Reach(r, s5, D(0, CloseOne(0)), s5.(feeds := Feed0(0, 0, 0, 1), closers := map[0 := Closing({})]));
  }

  lemma ReachStreaming(r: iset<State>)
    requires Closed(r)
    ensures State(Free, false, false, MAPPED, Feed0(1, 1, 0, 0), map[0 := Streaming(0)], map[], map[]) in r
  {
    ReachOpened(r);
    var s0 := State(Free, false, false, MAPPED, Feed0(0, 0, 0, 0), map[0 := Opened(0)], map[], map[]);
    var s1 := s0.(feeds := Feed0(1, 1, 0, 0), clients := map[0 := Notifying(0)]);
    Reach(r, s0, P(0, FetchAdd), s1);
    Reach(r, s1, P(0, NotifyWaiters), s1.(clients := map[0 := Streaming(0)]));
  }

  /** Client 0 has come and gone: its removal task exists but has not registered. */
  lemma ReachSpawned(r: iset<State>)
    requires Closed(r)
    ensures State(Free, false, false, MAPPED, Feed0(0, 1, 1, 0), map[0 := Gone],
                            map[0 := Timer(0, 1, Spawned)], map[]) in r
  {
    ReachStreaming(r);
    var s2 := State(Free, false, false, MAPPED, Feed0(1, 1, 0, 0), map[0 := Streaming(0)], map[], map[]);
    var s3 := s2.(feeds := Feed0(0, 1, 1, 0), clients := map[0 := Spawning(0, 1)]);
    Reach(r, s2, P(0, FetchSub), s3);
    Reach(r, s3, P(0, Spawn(0)), s3.(clients := map[0 := Gone], timers := map[0 := Timer(0, 1, Spawned)]));
  }

  /** Client 1 asks for the same symbol and gets the lock. */
  lemma ReachSecond(r: iset<State>)
    requires Closed(r)
    ensures State(ByClient(1), false, false, MAPPED, Feed0(0, 1, 1, 0), map[0 := Gone, 1 := Locked("btc")],
                  map[0 := Timer(0, 1, Spawned)], map[]) in r
  {
    ReachSpawned(r);
    var s0 := State(Free, false, false, MAPPED, Feed0(0, 1, 1, 0), map[0 := Gone],
                    map[0 := Timer(0, 1, Spawned)], map[]);
    assert Live(s0.clients) == {};
    var s1 := s0.(clients := map[0 := Gone, 1 := Opening("btc")]);
    Reach(r, s0, O(1, Arrive("btc")), s1);
    Reach(r, s1, O(1, Acquire), s1.(lock := ByClient(1), clients := map[0 := Gone, 1 := Locked("btc")]));
  }

  /** Client 1 reuses the feed. */
  lemma ReachReopened(r: iset<State>)
    requires Closed(r)
    ensures State(Free, false, false, MAPPED, Feed0(0, 1, 1, 0), map[0 := Gone, 1 := Opened(0)],
                  map[0 := Timer(0, 1, Spawned)], map[]) in r
  {
    ReachSecond(r);
    var s2 := State(ByClient(1), false, false, MAPPED, Feed0(0, 1, 1, 0), map[0 := Gone, 1 := Locked("btc")],
                    map[0 := Timer(0, 1, Spawned)], map[]);
    var s3 := s2.(clients := map[0 := Gone, 1 := Admitted("btc")]);
    Reach(r, s2, O(1, LoadFlag), s3);
    var s4 := s3.(clients := map[0 := Gone, 1 := Returning(0)]);
    Reach(r, s3, O(1, Lookup), s4);
    Reach(r, s4, O(1, Release), s4.(lock := Free, clients := map[0 := Gone, 1 := Opened(0)]));
  }

  /** A cancellation sent before the removal task registers is lost: the task of the first departure
      passes its check right after the second departure, before that one's own task even exists. */
  lemma LostCancellationShortensGrace() returns (s: State)
    ensures s in Reachable() && 0 in s.feeds && s.feeds[0].epochs == 2
    ensures s.timers == map[0 := Timer(0, 1, Passed)]
  {
    ReachableIsClosed();
    ReachLost(Reachable());
    s := State(ByTimer(0), false, false, MAPPED, Feed0(0, 2, 2, 0), map[0 := Gone, 1 := Spawning(0, 2)],
               map[0 := Timer(0, 1, Passed)], map[]);
  }

  /** Client 1 subscribes and notifies, but the removal task has not registered. */
  lemma ReachUnheard(r: iset<State>)
    requires Closed(r)
    ensures State(Free, false, false, MAPPED, Feed0(1, 2, 1, 0), map[0 := Gone, 1 := Streaming(0)],
                  map[0 := Timer(0, 1, Spawned)], map[]) in r
  {
    ReachReopened(r);
    var s0 := State(Free, false, false, MAPPED, Feed0(0, 1, 1, 0), map[0 := Gone, 1 := Opened(0)],
                    map[0 := Timer(0, 1, Spawned)], map[]);
    var s1 := s0.(feeds := Feed0(1, 2, 1, 0), clients := map[0 := Gone, 1 := Notifying(0)]);
    Reach(r, s0, P(1, FetchAdd), s1);
    Reach(r, s1, P(1, NotifyWaiters), s1.(clients := map[0 := Gone, 1 := Streaming(0)]));
  }

  lemma ReachExpired(r: iset<State>)
    requires Closed(r)
    ensures State(Free, false, false, MAPPED, Feed0(1, 2, 1, 0), map[0 := Gone, 1 := Streaming(0)],
                  map[0 := Timer(0, 1, Expired)], map[]) in r
  {
    ReachUnheard(r);
    var s2 := State(Free, false, false, MAPPED, Feed0(1, 2, 1, 0), map[0 := Gone, 1 := Streaming(0)],
                    map[0 := Timer(0, 1, Spawned)], map[]);
    var s3 := s2.(timers := map[0 := Timer(0, 1, Waiting(false))]);
    Reach(r, s2, T(0, Register), s3);
    Reach(r, s3, T(0, Fire), s3.(timers := map[0 := Timer(0, 1, Expired)]));
  }

  lemma ReachLost(r: iset<State>)
    requires Closed(r)
    ensures State(ByTimer(0), false, false, MAPPED, Feed0(0, 2, 2, 0), map[0 := Gone, 1 := Spawning(0, 2)],
                  map[0 := Timer(0, 1, Passed)], map[]) in r
  {
    ReachExpired(r);
    var s4 := State(Free, false, false, MAPPED, Feed0(1, 2, 1, 0), map[0 := Gone, 1 := Streaming(0)],
                    map[0 := Timer(0, 1, Expired)], map[]);
    var s5 := s4.(lock := ByTimer(0), timers := map[0 := Timer(0, 1, Holding)]);
    Reach(r, s4, T(0, AcquireT), s5);
    var s6 := s5.(feeds := Feed0(0, 2, 2, 0), clients := map[0 := Gone, 1 := Spawning(0, 2)]);
    Reach(r, s5, P(1, FetchSub), s6);
    var s7 := s6.(timers := map[0 := Timer(0, 1, Passed)]);
    Reach(r, s6, T(0, Check), s7);
  }
}
