/** What `open` returns: the feed of the symbol that was asked for, or an error and why. */
module OpenResults {
  import opened Instruments
  import opened Lifecycle
  import opened LifecycleInvariants
  import opened LifecycleTheorems
  import opened LifecycleExtensions

  /** Step `j` of the run is the call of `open` by client `c`. */
  predicate AsksAt(run: seq<Label>, j: nat, c: TaskId, symbol: string) {
    j < |run| && run[j] == O(c, Arrive(symbol))
  }

  /** Whatever client `c` works with, it is for `symbol`. */
  ghost predicate WorksFor(table: Table, s: State, c: TaskId, symbol: string) {
    && c in s.clients
    && (s.clients[c].Creating? ==> symbol in table)
    && (s.clients[c].Opening? || s.clients[c].Locked? || s.clients[c].Admitted? || s.clients[c].Creating? ==>
          s.clients[c].symbol == symbol)
    && (s.clients[c].HasFeed() ==> s.clients[c].feed in s.feeds && s.feeds[s.clients[c].feed].symbol == symbol)
  }

  lemma OpenWorksFor(table: Table, s: State, c': TaskId, l: OpenStep, c: TaskId, symbol: string)
    requires KeyedBySymbol(table) && RefsInv(s) && WorksFor(table, s, c, symbol) && OpenEnabled(table, s, c', l)
    ensures WorksFor(table, OpenApply(table, s, c', l), c, symbol)
  {
  }

  lemma PublishWorksFor(table: Table, s: State, c': TaskId, l: PublishStep, c: TaskId, symbol: string)
    requires WorksFor(table, s, c, symbol) && PublishEnabled(s, c', l)
    ensures WorksFor(table, PublishApply(s, c', l), c, symbol)
  {
  }

  lemma TimerWorksFor(table: Table, s: State, t: TaskId, l: TimerStep, c: TaskId, symbol: string)
    requires WorksFor(table, s, c, symbol) && TimerEnabled(s, t, l)
    ensures WorksFor(table, TimerApply(s, t, l), c, symbol)
  {
  }

  lemma CloserWorksFor(table: Table, s: State, d: TaskId, l: CloserStep, c: TaskId, symbol: string)
    requires WorksFor(table, s, c, symbol) && CloserEnabled(s, d, l)
    ensures WorksFor(table, CloserApply(s, d, l), c, symbol)
  {
  }

  lemma StepWorksFor(table: Table, s: State, l: Label, c: TaskId, symbol: string)
    requires KeyedBySymbol(table) && RefsInv(s) && WorksFor(table, s, c, symbol) && Enabled(table, s, l)
    ensures WorksFor(table, Apply(table, s, l), c, symbol)
  {
    match l
    case O(c', os) => OpenWorksFor(table, s, c', os, c, symbol);
    case P(c', ps) => PublishWorksFor(table, s, c', ps, c, symbol);
    case T(t, ts) => TimerWorksFor(table, s, t, ts, c, symbol);
    case D(d, ds) => CloserWorksFor(table, s, d, ds, c, symbol);
  }

  lemma {:induction false} AskedFor(table: Table, run: seq<Label>, j: nat, c: TaskId, symbol: string)
    requires KeyedBySymbol(table) && IsRun(table, run) && AsksAt(run, j, c, symbol)
    ensures WorksFor(table, After(table, run), c, symbol)
  {
    var front := run[..|run| - 1];
    RunInv(table, front);
    if j < |front| {
      AskedFor(table, front, j, c, symbol);
      StepWorksFor(table, After(table, front), run[|run| - 1], c, symbol);
    }
  }

  /** The feed a client gets, opens, subscribes to and leaves is the feed of the symbol it asked for. */
  lemma FeedIsOfSymbol(table: Table, run: seq<Label>, j: nat, c: TaskId, symbol: string)
    requires KeyedBySymbol(table) && IsRun(table, run) && AsksAt(run, j, c, symbol)
    requires c in After(table, run).clients && After(table, run).clients[c].HasFeed()
    ensures var s := After(table, run);
      s.clients[c].feed in s.feeds && s.feeds[s.clients[c].feed].symbol == symbol
  {
    AskedFor(table, run, j, c, symbol);
  }

  /** The lookup, from the symbol asked for: the mapped feed if there is one, creation if the table knows
      the symbol, an error otherwise. Nothing but the client's position changes. */
  lemma LookupExactly(table: Table, run: seq<Label>, j: nat, c: TaskId, symbol: string)
    requires KeyedBySymbol(table) && IsRun(table, run) && AsksAt(run, j, c, symbol)
    requires OpenEnabled(table, After(table, run), c, Lookup)
    ensures var s := After(table, run); var s' := OpenApply(table, s, c, Lookup);
      && (symbol in s.mapped <==> exists f :: s'.clients[c] == Returning(f))
      && (symbol in s.mapped ==> s'.clients[c] == Returning(s.mapped[symbol]))
      && (symbol !in s.mapped && symbol in table <==> s'.clients[c] == Creating(symbol))
      && (symbol !in s.mapped && symbol !in table <==> s'.clients[c] == Refused)
      && s'.mapped == s.mapped && s'.feeds == s.feeds && s'.lock == s.lock
  {
    AskedFor(table, run, j, c, symbol);
  }

  /** A new feed is created only under the symbol asked for, which the table knows and no feed has. It
      starts without subscribers and is returned to the client that created it. */
  lemma InsertExactly(table: Table, run: seq<Label>, j: nat, c: TaskId, symbol: string, f: FeedId)
    requires KeyedBySymbol(table) && IsRun(table, run) && AsksAt(run, j, c, symbol)
    requires OpenEnabled(table, After(table, run), c, Insert(f))
    ensures var s := After(table, run); var s' := OpenApply(table, s, c, Insert(f));
      && symbol in table && symbol !in s.mapped && f !in s.feeds
      && s'.mapped == s.mapped[symbol := f] && s'.clients[c] == Returning(f)
      && s'.feeds == s.feeds[f := FeedInfo(symbol, 0, 0, 0, 0)]
  {
    AskedFor(table, run, j, c, symbol);
    RunInv(table, run);
  }

  /** Why a client is refused: at step `k` it read the shutdown flag as true, or found its symbol neither
      mapped nor in the table, or the creation failed. */
  ghost predicate RefusedAt(table: Table, run: seq<Label>, k: nat, c: TaskId, symbol: string) {
    && k < |run| && IsRun(table, run[..k])
    && var s := After(table, run[..k]);
       || (run[k] == O(c, LoadFlag) && s.shuttingDown)
       || (run[k] == O(c, Lookup) && symbol !in s.mapped && symbol !in table)
       || (run[k] == O(c, CreateFails) && symbol !in s.mapped && symbol in table)
  }

  /** Reading the flag admits a client if and only if no shutdown has set it. */
  lemma LoadFlagExactly(table: Table, run: seq<Label>, j: nat, c: TaskId, symbol: string)
    requires KeyedBySymbol(table) && IsRun(table, run) && AsksAt(run, j, c, symbol)
    requires OpenEnabled(table, After(table, run), c, LoadFlag)
    ensures var s := After(table, run); var s' := OpenApply(table, s, c, LoadFlag);
      && s'.clients[c] == (if s.shuttingDown then Refused else Admitted(symbol))
      && (s.shuttingDown <==> exists k, d :: 0 <= k < |run| && run[k] == D(d, StoreFlag))
  {
    AskedFor(table, run, j, c, symbol);
    FlagIsStored(table, run);
  }

  lemma OpenKeepsFlag(table: Table, s: State, c: TaskId, l: OpenStep)
    requires OpenEnabled(table, s, c, l)
    ensures OpenApply(table, s, c, l).shuttingDown == s.shuttingDown
  {
  }

  lemma PublishKeepsFlag(s: State, c: TaskId, l: PublishStep)
    requires PublishEnabled(s, c, l)
    ensures PublishApply(s, c, l).shuttingDown == s.shuttingDown
  {
  }

  lemma TimerKeepsFlag(s: State, t: TaskId, l: TimerStep)
    requires TimerEnabled(s, t, l)
    ensures TimerApply(s, t, l).shuttingDown == s.shuttingDown && TimerApply(s, t, l).clients == s.clients
  {
  }

  lemma CloserSetsFlag(s: State, d: TaskId, l: CloserStep)
    requires CloserEnabled(s, d, l)
    ensures CloserApply(s, d, l).shuttingDown == (s.shuttingDown || l.StoreFlag?)
    ensures CloserApply(s, d, l).clients == s.clients
  {
  }

  lemma FlagStep(table: Table, s: State, l: Label)
    requires Enabled(table, s, l)
    ensures Apply(table, s, l).shuttingDown <==> s.shuttingDown || (l.D? && l.ds.StoreFlag?)
  {
    match l
    case O(c, os) => OpenKeepsFlag(table, s, c, os);
    case P(c, ps) => PublishKeepsFlag(s, c, ps);
    case T(t, ts) => TimerKeepsFlag(s, t, ts);
    case D(d, ds) => CloserSetsFlag(s, d, ds);
  }

  /** The flag is set exactly when some shutdown has stored it. */
  lemma {:induction false} FlagIsStored(table: Table, run: seq<Label>)
    requires IsRun(table, run)
    ensures After(table, run).shuttingDown <==> exists k, d :: 0 <= k < |run| && run[k] == D(d, StoreFlag)
  {
    if run != [] {
      var front, l := run[..|run| - 1], run[|run| - 1];
      FlagIsStored(table, front);
      FlagStep(table, After(table, front), l);
      if k, d :| 0 <= k < |front| && front[k] == D(d, StoreFlag) {
        assert run[k] == D(d, StoreFlag);
      }
      if k, d :| 0 <= k < |run| && run[k] == D(d, StoreFlag) {
        assert k < |front| ==> front[k] == D(d, StoreFlag);
      }
      if l.D? && l.ds.StoreFlag? {
        assert run[|run| - 1] == D(l.d, StoreFlag);
      }
    }
  }

  lemma OpenRefuses(table: Table, s: State, c': TaskId, l: OpenStep, c: TaskId, symbol: string)
    requires HeldInv(s) && WorksFor(table, s, c, symbol) && OpenEnabled(table, s, c', l)
    requires OpenApply(table, s, c', l).clients[c].Refused? && !s.clients[c].Refused?
    ensures c' == c
    ensures
      || (l.LoadFlag? && s.shuttingDown)
      || (l.Lookup? && symbol !in s.mapped && symbol !in table)
      || (l.CreateFails? && symbol !in s.mapped && symbol in table)
  {
  }

  lemma PublishRefusesNone(s: State, c': TaskId, l: PublishStep, c: TaskId)
    requires PublishEnabled(s, c', l) && c in s.clients && !s.clients[c].Refused?
    ensures c in PublishApply(s, c', l).clients && !PublishApply(s, c', l).clients[c].Refused?
  {
  }

  lemma OthersRefuseNone(table: Table, s: State, l: Label, c: TaskId)
    requires Enabled(table, s, l) && !l.O? && c in s.clients && !s.clients[c].Refused?
    ensures c in Apply(table, s, l).clients && !Apply(table, s, l).clients[c].Refused?
  {
    match l
    case P(c', ps) => PublishRefusesNone(s, c', ps, c);
    case T(t, ts) => TimerKeepsFlag(s, t, ts);
    case D(d, ds) => CloserSetsFlag(s, d, ds);
  }

  lemma RefusedNow(table: Table, run: seq<Label>, c: TaskId, symbol: string)
    requires KeyedBySymbol(table) && IsRun(table, run) && run != []
    requires WorksFor(table, After(table, run[..|run| - 1]), c, symbol)
    requires !After(table, run[..|run| - 1]).clients[c].Refused?
    requires c in After(table, run).clients && After(table, run).clients[c].Refused?
    ensures RefusedAt(table, run, |run| - 1, c, symbol)
  {
    var front, l := run[..|run| - 1], run[|run| - 1];
    RunInv(table, front);
    if l.O? {
      OpenRefuses(table, After(table, front), l.c, l.os, c, symbol);
    } else {
      OthersRefuseNone(table, After(table, front), l, c);
    }
  }

  /** A client is refused only because the manager is shutting down, because the symbol it asked for is
      neither mapped nor in the table, or because starting the sources of its symbol failed. */
  lemma {:induction false} WhyRefused(table: Table, run: seq<Label>, j: nat, c: TaskId, symbol: string)
    requires KeyedBySymbol(table) && IsRun(table, run) && AsksAt(run, j, c, symbol)
    requires c in After(table, run).clients && After(table, run).clients[c].Refused?
    ensures exists k: nat :: RefusedAt(table, run, k, c, symbol)
  {
    var front := run[..|run| - 1];
    if j < |front| {
      AskedFor(table, front, j, c, symbol);
      if After(table, front).clients[c].Refused? {
        WhyRefused(table, front, j, c, symbol);
        var k: nat :| RefusedAt(table, front, k, c, symbol);
        assert run[..k] == front[..k];
        assert RefusedAt(table, run, k, c, symbol);
      } else {
        RefusedNow(table, run, c, symbol);
      }
    }
  }
}
