/** The propagation of updates through one feed as a step system: exchange connections, source tasks,
    the bounded queue, the publisher and any number of clients.

    One step is one store or load of a shared value, one channel operation, or one change of a watch
    version. What is assumed of tokio: `watch::Sender::send` changes nothing when there is no receiver,
    a new watch receiver starts with the current version seen, a broadcast receiver sees only sends
    made after it subscribed, the queue is first-in first-out and bounded, and a cancelled send
    delivers nothing.
 */
module Propagation {
  import opened Wrappers
  import opened Books
  import opened Combined
  import opened MergeSpec

  const BACKLOG_SIZE: nat := 100

  /** The latest value of an exchange connection. */
  datatype Stored = Nothing | OkSnap(snapshot: Snapshot) | ErrSnap

  datatype Conn = ConnIdle | ConnStored | ConnClosed

  /** The task of a source; `seen` is the watch version it has seen. */
  datatype Task =
    | Unborn
    | Loading(seen: nat)
    | Sending(seen: nat, snapshot: Snapshot)
    | Waiting(seen: nat)
    | Stopped
  {
    predicate Watches() { Loading? || Sending? || Waiting? }
  }

  /** A source. The rest is history: the last value loaded, the last snapshot sent, everything the
      connection has stored, how many of these there were at the last load, and, for each snapshot
      sent, how many there were when it was loaded. */
  datatype Source = Source(
    stored: Stored,
    version: nat,
    conn: Conn,
    task: Task,
    loaded: Stored,
    forwarded: Option<Snapshot>,
    offers: seq<Stored>,
    taken: nat,
    sent: seq<nat>)

  const FRESH := Source(Nothing, 0, ConnIdle, Unborn, Nothing, None, [], 0, [])

  /** The value clients load: `Ok(None)`, `Ok(Some(_))` or the shutdown error. */
  datatype Latest = Empty | Available(summary: Summary) | Shutdown

  datatype PubPc =
    | PubIdle
    | Computed(summary: Summary)   // has merged a message, before the store
    | PubStored                    // between store and notification
    | Crashed                      // the conversion panicked
    | Ending                       // has left the loop
    | EndStored
    | EndNotified
    | Ended                        // has closed the queue
  {
    predicate BetweenStoreAndSend() { PubStored? || EndStored? }

    predicate QueueOpen() { !Crashed? && !Ended? }
  }

  datatype ClientPc =
    | Starting                // before the first load
    | FirstSend
    | Subscribing             // before it watches
    | Idle(seen: nat)         // at `changed()`
    | Reading(seen: nat)
    | Delivering(seen: nat)
    | Left
  {
    predicate Watches() { Idle? || Reading? || Delivering? }
  }

  /** A client. `deaf` says it subscribed to the shutdown signal after it was sent. History: the index of
      the value it loaded last, of the latest value when it began to watch, whether it has woken, and
      the indices of the summaries it was sent. */
  datatype Client = Client(pc: ClientPc, deaf: bool, loaded: nat, watched: nat, woken: bool, sent: seq<nat>)

  /** `stores` is the history of the publisher's latest value, which is its last element; `consumed` is
      the history of the messages taken from the queue. */
  datatype State = State(
    sources: map<SourceId, Source>,
    queue: seq<Snapshot>,
    pub: PubPc,
    combined: seq<Snapshot>,
    consumed: seq<Snapshot>,
    stores: seq<Latest>,
    version: nat,
    signalled: bool,
    closing: bool,
    clients: map<nat, Client>)

  function Initial(ids: set<SourceId>): State {
    State(map i | i in ids :: FRESH,
          [], PubIdle, INITIAL_SLOTS, [], [Empty], 0, false, false, map[])
  }

  datatype SourceStep =
    | ConnStore(value: Stored)
    | ConnNotify
    | ConnStop
    | Subscribe
    | Load
    | Send
    | GiveUp                 // the send is cancelled by shutdown, or fails on a closed queue
    | Wake

  datatype PubStep =
    | Recv(summary: Summary)
    | Panic
    | Store
    | Notify
    | End
    | StoreErr
    | NotifyErr
    | CloseQueue

  datatype ClientStep =
    | Join
    | FirstLoad
    | FirstDeliver
    | Watch
    | WakeUp
    | Read
    | Deliver
    | Leave

  datatype Label =
    | S(i: SourceId, ss: SourceStep)
    | Q(ps: PubStep)
    | K(c: nat, cs: ClientStep)
    | Signal                 // `Feed::shutdown`: the broadcast
    | Close                  // then the publisher's own signal

  predicate SourceEnabled(n: nat, s: State, i: SourceId, l: SourceStep) {
    i in s.sources &&
    var src := s.sources[i];
    match l
    case ConnStore(v) =>
      src.conn.ConnIdle? && !v.Nothing? && (v.OkSnap? ==> v.snapshot.source == i && v.snapshot.WithinDepth(n))
    case ConnNotify => src.conn.ConnStored?
    case ConnStop => src.conn.ConnIdle? && s.signalled
    case Subscribe => src.task.Unborn?
    case Load => src.task.Loading?
    case Send => src.task.Sending? && |s.queue| < BACKLOG_SIZE && s.pub.QueueOpen()
    case GiveUp => src.task.Sending? && (s.signalled || !s.pub.QueueOpen())
    case Wake => src.task.Waiting? && src.task.seen != src.version
  }

  function SourceAfter(src: Source, l: SourceStep): Source {
    match l
    case ConnStore(v) => src.(stored := v, conn := ConnStored, offers := src.offers + [v])
    case ConnNotify => src.(version := if src.task.Watches() then src.version + 1 else src.version, conn := ConnIdle)
    case ConnStop => src.(conn := ConnClosed)
    case Subscribe => src.(task := Loading(src.version))
    case Load =>
      if !src.task.Loading? then src
      else src.(
        task := if src.stored.OkSnap? then Sending(src.task.seen, src.stored.snapshot) else Waiting(src.task.seen),
        loaded := src.stored,
        taken := |src.offers|)
    case Send =>
      if !src.task.Sending? then src
      else src.(
        task := Waiting(src.task.seen),
        forwarded := Some(src.task.snapshot),
        sent := src.sent + [src.taken])
    case GiveUp => src.(task := Stopped)
    case Wake => src.(task := Loading(src.version))
  }

  function SourceApply(n: nat, s: State, i: SourceId, l: SourceStep): State
    requires SourceEnabled(n, s, i, l)
  {
    s.(sources := s.sources[i := SourceAfter(s.sources[i], l)],
       queue := if l.Send? then s.queue + [s.sources[i].task.snapshot] else s.queue)
  }

  ghost predicate PubEnabled(n: nat, s: State, l: PubStep) {
    match l
    case Recv(summary) =>
      s.pub.PubIdle? && s.queue != [] && |s.combined| == NUM_SOURCES &&
      !Panics(n, Updated(s.combined, s.queue[0])) && Published(n, Updated(s.combined, s.queue[0]), summary)
    case Panic =>
      s.pub.PubIdle? && s.queue != [] && |s.combined| == NUM_SOURCES && Panics(n, Updated(s.combined, s.queue[0]))
    case Store => s.pub.Computed?
    case Notify => s.pub.PubStored?
    case End => s.pub.PubIdle? && s.closing
    case StoreErr => s.pub.Ending?
    case NotifyErr => s.pub.EndStored?
    case CloseQueue => s.pub.EndNotified?
  }

  /** The version after a send of the publisher's watch. */
  function Bumped(s: State): nat {
    if exists c :: c in s.clients && s.clients[c].pc.Watches() then s.version + 1 else s.version
  }

  function PubApply(n: nat, s: State, l: PubStep): State
    requires PubEnabled(n, s, l)
  {
    match l
    case Recv(summary) =>
      s.(pub := Computed(summary), queue := s.queue[1..], consumed := s.consumed + [s.queue[0]],
         combined := Updated(s.combined, s.queue[0]))
    case Panic => s.(pub := Crashed)
    case Store => s.(pub := PubStored, stores := s.stores + [Available(s.pub.summary)])
    case Notify => s.(pub := PubIdle, version := Bumped(s))
    case End => s.(pub := Ending)
    case StoreErr => s.(pub := EndStored, stores := s.stores + [Shutdown])
    case NotifyErr => s.(pub := EndNotified, version := Bumped(s))
    case CloseQueue => s.(pub := Ended)
  }

  predicate ClientEnabled(s: State, c: nat, l: ClientStep) {
    s.stores != [] &&
    if c !in s.clients then l.Join?
    else
      var k := s.clients[c];
      match l
      case Join => false
      case FirstLoad => k.pc.Starting?
      case FirstDeliver => k.pc.FirstSend?
      case Watch => k.pc.Subscribing?
      case WakeUp => k.pc.Idle? && k.pc.seen != s.version
      case Read => k.pc.Reading?
      case Deliver => k.pc.Delivering?
      case Leave => k.pc.FirstSend? || k.pc.Delivering? || (k.pc.Idle? && s.signalled && !k.deaf)
  }

  /** Where a client goes with what it has loaded. */
  function ReadPc(latest: Latest, seen: nat): ClientPc {
    match latest
    case Available(_) => Delivering(seen)
    case Empty => Idle(seen)
    case Shutdown => Left
  }

  function ClientAfter(s: State, k: Client, l: ClientStep): Client
    requires s.stores != []
  {
    var top := |s.stores| - 1;
    match l
    case Join => k
    case FirstLoad => k.(pc := if s.stores[top].Available? then FirstSend else Subscribing, loaded := top)
    case FirstDeliver => k.(pc := Subscribing, sent := k.sent + [k.loaded])
    case Watch => k.(pc := Idle(s.version), watched := top)
    case WakeUp => k.(pc := Reading(s.version), woken := true)
    case Read =>
      if !k.pc.Reading? then k
      else k.(
        pc := ReadPc(s.stores[top], k.pc.seen),
        loaded := top)
    case Deliver =>
      if !k.pc.Delivering? then k
      else k.(pc := Idle(k.pc.seen), sent := k.sent + [k.loaded])
    case Leave => k.(pc := Left)
  }

  function ClientApply(s: State, c: nat, l: ClientStep): State
    requires ClientEnabled(s, c, l)
  {
    var before := if c in s.clients then s.clients[c] else Client(Starting, s.signalled, 0, 0, false, []);
    s.(clients := s.clients[c := ClientAfter(s, before, l)])
  }

  ghost predicate Enabled(n: nat, s: State, l: Label) {
    match l
    case S(i, ss) => SourceEnabled(n, s, i, ss)
    case Q(ps) => PubEnabled(n, s, ps)
    case K(c, cs) => ClientEnabled(s, c, cs)
    case Signal => true
    case Close => s.signalled
  }

  function Apply(n: nat, s: State, l: Label): State
    requires Enabled(n, s, l)
  {
    match l
    case S(i, ss) => SourceApply(n, s, i, ss)
    case Q(ps) => PubApply(n, s, ps)
    case K(c, cs) => ClientApply(s, c, cs)
    case Signal => s.(signalled := true)
    case Close => s.(closing := true)
  }

  /** `run` can be executed from the initial state of a feed with the given sources. */
  ghost predicate IsRun(n: nat, ids: set<SourceId>, run: seq<Label>)
    decreases |run|, 0
  {
    run == [] || (IsRun(n, ids, run[..|run| - 1]) && Enabled(n, After(n, ids, run[..|run| - 1]), run[|run| - 1]))
  }

  ghost function After(n: nat, ids: set<SourceId>, run: seq<Label>): State
    requires IsRun(n, ids, run)
    decreases |run|, 1
  {
    if run == [] then Initial(ids) else Apply(n, After(n, ids, run[..|run| - 1]), run[|run| - 1])
  }
}
