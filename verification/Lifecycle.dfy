/** The feed lifecycle of the manager as a step system.

    Any number of clients, removal timers and shutdown calls run concurrently. One step is one atomic
    operation, one acquire or release of the `feeds` lock, or one change of the locked map. What is
    assumed of tokio: the mutex is exclusive and stays held across the await inside `open`, and
    `notify_waiters` wakes only the waiters registered at that moment and stores no permit.
 */
module Lifecycle {
  import opened Instruments

  type FeedId = nat
  type TaskId = nat

  const USIZE_MODULUS: nat := 0x1_0000_0000_0000_0000

  /** The task that holds the `feeds` lock. */
  datatype Owner = Free | ByClient(c: TaskId) | ByTimer(t: TaskId) | ByCloser(d: TaskId)

  /** A feed: its instrument's symbol and its subscription count. The rest is history: the number of
      subscriptions ever made, of transitions of the count from 1 to 0, and of entries into `Feed::shutdown`. */
  datatype FeedInfo = FeedInfo(symbol: string, count: nat, joins: nat, epochs: nat, closed: nat)

  /** One client: a call of `open`, then the `publish` task of the feed it got. */
  datatype Client =
    | Opening(symbol: string)       // waits for the lock
    | Locked(symbol: string)        // holds it, has not read the shutdown flag
    | Admitted(symbol: string)      // read the flag as false
    | Creating(symbol: string)      // found no feed, starts the sources
    | Returning(feed: FeedId)       // has its feed, still holds the lock
    | Refused                       // will return an error, still holds the lock
    | Opened(feed: FeedId)          // has released the lock, has not subscribed
    | Notifying(feed: FeedId)       // raised the count from 0, has not notified the timers
    | Streaming(feed: FeedId)       // in the loop of `publish`
    | Spawning(feed: FeedId, epoch: nat)   // lowered the count to 0, has not spawned the removal task
    | Gone
  {
    predicate HoldsLock() { Locked? || Admitted? || Creating? || Returning? || Refused? }

    predicate HasFeed() { Returning? || Opened? || Notifying? || Streaming? || Spawning? }

    /** Past the `fetch_add` and not yet past the `fetch_sub`. */
    predicate Subscribes(f: FeedId) { (Notifying? || Streaming?) && feed == f }
  }

  datatype TimerPc =
    | Spawned                  // has not registered for the notification
    | Waiting(notified: bool)  // in the select over sleep, notification and global shutdown
    | Expired                  // waits for the lock
    | Holding                  // holds it, before the check
    | Passed                   // the check found its own feed mapped and its count 0
    | Failed                   // the check failed
    | Removed                  // removed the feed, still holds the lock
    | MustClose                // released the lock, before `Feed::shutdown`
    | Finished
  {
    predicate HoldsLock() { Holding? || Passed? || Failed? || Removed? }

    /** Has neither been cancelled nor failed or finished its check-and-remove. */
    predicate Pending() { Spawned? || Waiting? || Expired? || Holding? || Passed? }
  }

  /** A removal task, the feed it was spawned for and the 1-to-0 transition that spawned it. */
  datatype Timer = Timer(feed: FeedId, epoch: nat, pc: TimerPc)

  /** One call of `Manager::shutdown`. */
  datatype Closer =
    | Starting                     // before the store to the flag
    | Wanting                      // waits for the lock
    | Draining                     // holds it, before the drain
    | Drained(todo: set<FeedId>)   // has taken the feeds, still holds the lock
    | Closing(todo: set<FeedId>)   // shuts the taken feeds down one by one
  {
    predicate HoldsLock() { Draining? || Drained? }

    function Taken(): set<FeedId> { if Drained? || Closing? then todo else {} }
  }

  datatype State = State(
    lock: Owner,
    shuttingDown: bool,
    drained: bool,               // history: some drain has happened
    mapped: map<string, FeedId>, // the locked map
    feeds: map<FeedId, FeedInfo>,
    clients: map<TaskId, Client>,
    timers: map<TaskId, Timer>,
    closers: map<TaskId, Closer>)

  const INITIAL := State(Free, false, false, map[], map[], map[], map[], map[])

  /** The steps of `Manager::open`. */
  datatype OpenStep =
    | Arrive(symbol: string)
    | Acquire
    | Leave                      // cancelled while waiting for the lock
    | LoadFlag
    | Lookup
    | Insert(created: FeedId)
    | CreateFails
    | Release

  /** The steps of `Feed::publish` that touch shared state; the loop itself may end at any time. */
  datatype PublishStep =
    | FetchAdd
    | NotifyWaiters
    | FetchSub                   // every exit of `publish` ends here
    | Spawn(timer: TaskId)

  datatype TimerStep =
    | Register
    | Fire                       // the grace period ends, or the global shutdown overrides it
    | Cancel
    | AcquireT
    | Check
    | Remove
    | ReleaseT
    | Close

  datatype CloserStep =
    | Call
    | StoreFlag
    | AcquireD
    | Drain
    | ReleaseD
    | CloseOne(feed: FeedId)

  datatype Label =
    | O(c: TaskId, os: OpenStep)
    | P(c: TaskId, ps: PublishStep)
    | T(t: TaskId, ts: TimerStep)
    | D(d: TaskId, ds: CloserStep)

  function FetchAdded(count: nat): nat { if count + 1 == USIZE_MODULUS then 0 else count + 1 }

  /** Wraps around below 0, as the atomic does. */
  function FetchSubbed(count: nat): nat { if count == 0 then USIZE_MODULUS - 1 else count - 1 }

  /** The clients that have not gone. */
  function Live(clients: map<TaskId, Client>): set<TaskId> {
    set c | c in clients && !clients[c].Gone?
  }

  /** Fewer clients are alive at one time than a `usize` can count; how many come and go is unbounded. */
  predicate OpenEnabled(table: Table, s: State, c: TaskId, l: OpenStep) {
    if c !in s.clients then l.Arrive? && |Live(s.clients)| + 1 < USIZE_MODULUS
    else
      var pc := s.clients[c];
      match l
      case Arrive(_) => false
      case Acquire => pc.Opening? && s.lock == Free
      case Leave => pc.Opening?
      case LoadFlag => pc.Locked?
      case Lookup => pc.Admitted?
      case Insert(f) => pc.Creating? && f !in s.feeds && pc.symbol in table
      case CreateFails => pc.Creating?
      case Release => pc.Returning? || pc.Refused?
  }

  function AtClient(s: State, c: TaskId, pc: Client): State {
    s.(clients := s.clients[c := pc])
  }

  function OpenApply(table: Table, s: State, c: TaskId, l: OpenStep): State
    requires OpenEnabled(table, s, c, l)
  {
    match l
    case Arrive(symbol) => AtClient(s, c, Opening(symbol))
    case Acquire => AtClient(s, c, Locked(s.clients[c].symbol)).(lock := ByClient(c))
    case Leave => AtClient(s, c, Gone)
    case LoadFlag => AtClient(s, c, if s.shuttingDown then Refused else Admitted(s.clients[c].symbol))
    case Lookup =>
      var symbol := s.clients[c].symbol;
      AtClient(s, c,
        if symbol in s.mapped then Returning(s.mapped[symbol])
        else if symbol in table then Creating(symbol)
        else Refused)
    case Insert(f) =>
      var symbol := s.clients[c].symbol;
      AtClient(s, c, Returning(f)).(
        mapped := s.mapped[symbol := f],
        feeds := s.feeds[f := FeedInfo(table[symbol].symbol, 0, 0, 0, 0)])
    case CreateFails => AtClient(s, c, Refused)
    case Release =>
      AtClient(s, c, if s.clients[c].Returning? then Opened(s.clients[c].feed) else Gone).(lock := Free)
  }

  predicate PublishEnabled(s: State, c: TaskId, l: PublishStep) {
    c in s.clients &&
    var pc := s.clients[c];
    match l
    case FetchAdd => pc.Opened? && pc.feed in s.feeds
    case NotifyWaiters => pc.Notifying?
    case FetchSub => pc.Streaming? && pc.feed in s.feeds
    case Spawn(t) => pc.Spawning? && t !in s.timers
  }

  function Notified(timers: map<TaskId, Timer>, f: FeedId): map<TaskId, Timer> {
    map t | t in timers ::
      if timers[t].feed == f && timers[t].pc.Waiting? then timers[t].(pc := Waiting(true)) else timers[t]
  }

  function PublishApply(s: State, c: TaskId, l: PublishStep): State
    requires PublishEnabled(s, c, l)
  {
    match l
    case FetchAdd =>
      var f := s.clients[c].feed;
      var info := s.feeds[f];
      AtClient(s, c, if info.count == 0 then Notifying(f) else Streaming(f)).(
        feeds := s.feeds[f := info.(count := FetchAdded(info.count), joins := info.joins + 1)])
    case NotifyWaiters =>
      var f := s.clients[c].feed;
      AtClient(s, c, Streaming(f)).(timers := Notified(s.timers, f))
    case FetchSub =>
      var f := s.clients[c].feed;
      var info := s.feeds[f];
      var epochs := if info.count == 1 then info.epochs + 1 else info.epochs;
      AtClient(s, c, if info.count == 1 then Spawning(f, epochs) else Gone).(
        feeds := s.feeds[f := info.(count := FetchSubbed(info.count), epochs := epochs)])
    case Spawn(t) =>
      var pc := s.clients[c];
      AtClient(s, c, Gone).(timers := s.timers[t := Timer(pc.feed, pc.epoch, Spawned)])
  }

  predicate TimerEnabled(s: State, t: TaskId, l: TimerStep) {
    t in s.timers && s.timers[t].feed in s.feeds &&
    var pc := s.timers[t].pc;
    match l
    case Register => pc.Spawned?
    case Fire => pc.Waiting?
    case Cancel => pc == Waiting(true)
    case AcquireT => pc.Expired? && s.lock == Free
    case Check => pc.Holding?
    case Remove => pc.Passed?
    case ReleaseT => pc.Failed? || pc.Removed?
    case Close => pc.MustClose?
  }

  /** Feed `f` is the one mapped under its symbol. */
  predicate IsMapped(s: State, f: FeedId)
    requires f in s.feeds
  {
    s.feeds[f].symbol in s.mapped && s.mapped[s.feeds[f].symbol] == f
  }

  /** The check of `remove_feed_if_unused`: the mapped feed is this one and its count reads 0. */
  predicate Unused(s: State, f: FeedId)
    requires f in s.feeds
  {
    IsMapped(s, f) && s.feeds[f].count == 0
  }

  function AtTimer(s: State, t: TaskId, pc: TimerPc): State
    requires t in s.timers
  {
    s.(timers := s.timers[t := s.timers[t].(pc := pc)])
  }

  function Entered(s: State, f: FeedId): State
    requires f in s.feeds
  {
    s.(feeds := s.feeds[f := s.feeds[f].(closed := s.feeds[f].closed + 1)])
  }

  function TimerApply(s: State, t: TaskId, l: TimerStep): State
    requires TimerEnabled(s, t, l)
  {
    var f := s.timers[t].feed;
    match l
    case Register => AtTimer(s, t, Waiting(false))
    case Fire => AtTimer(s, t, Expired)
    case Cancel => AtTimer(s, t, Finished)
    case AcquireT => AtTimer(s, t, Holding).(lock := ByTimer(t))
    case Check => AtTimer(s, t, if Unused(s, f) then Passed else Failed)
    case Remove => AtTimer(s, t, Removed).(mapped := s.mapped - {s.feeds[f].symbol})
    case ReleaseT => AtTimer(s, t, if s.timers[t].pc.Removed? then MustClose else Finished).(lock := Free)
    case Close => AtTimer(Entered(s, f), t, Finished)
  }

  predicate CloserEnabled(s: State, d: TaskId, l: CloserStep) {
    if d !in s.closers then l.Call?
    else
      var pc := s.closers[d];
      match l
      case Call => false
      case StoreFlag => pc.Starting?
      case AcquireD => pc.Wanting? && s.lock == Free
      case Drain => pc.Draining?
      case ReleaseD => pc.Drained?
      case CloseOne(f) => pc.Closing? && f in pc.todo && f in s.feeds
  }

  function CloserApply(s: State, d: TaskId, l: CloserStep): State
    requires CloserEnabled(s, d, l)
  {
    match l
    case Call => s.(closers := s.closers[d := Starting])
    case StoreFlag => s.(shuttingDown := true, closers := s.closers[d := Wanting])
    case AcquireD => s.(lock := ByCloser(d), closers := s.closers[d := Draining])
    case Drain => s.(mapped := map[], drained := true, closers := s.closers[d := Drained(s.mapped.Values)])
    case ReleaseD => s.(lock := Free, closers := s.closers[d := Closing(s.closers[d].todo)])
    case CloseOne(f) => Entered(s, f).(closers := s.closers[d := Closing(s.closers[d].todo - {f})])
  }

  predicate Enabled(table: Table, s: State, l: Label) {
    match l
    case O(c, os) => OpenEnabled(table, s, c, os)
    case P(c, ps) => PublishEnabled(s, c, ps)
    case T(t, ts) => TimerEnabled(s, t, ts)
    case D(d, ds) => CloserEnabled(s, d, ds)
  }

  function Apply(table: Table, s: State, l: Label): State
    requires Enabled(table, s, l)
  {
    match l
    case O(c, os) => OpenApply(table, s, c, os)
    case P(c, ps) => PublishApply(s, c, ps)
    case T(t, ts) => TimerApply(s, t, ts)
    case D(d, ds) => CloserApply(s, d, ds)
  }

  /** `run` can be executed from the initial state. */
  predicate IsRun(table: Table, run: seq<Label>)
    decreases |run|, 0
  {
    run == [] || (IsRun(table, run[..|run| - 1]) && Enabled(table, After(table, run[..|run| - 1]), run[|run| - 1]))
  }

  /** The state a run ends in. */
  function After(table: Table, run: seq<Label>): State
    requires IsRun(table, run)
    decreases |run|, 1
  {
    if run == [] then INITIAL else Apply(table, After(table, run[..|run| - 1]), run[|run| - 1])
  }
}
