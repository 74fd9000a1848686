/** The publisher's loop: fold, store, notify, and the terminal shutdown value. */
module Publishers {
  import opened Books
  import opened Combined
  import opened MergeSpec
  import opened Updates
  import opened Propagation

  /** What the `select` of the loop takes next. */
  datatype Event = Message(snapshot: Snapshot) | ShutdownSignal

  /** How far the loop got: it waits for more, has ended after `count` messages, or panicked. */
  datatype RunEnd = Awaits | Stopped(count: nat) | Died(count: nat)

  function Snapshots(events: seq<Event>): (r: seq<Snapshot>)
    requires forall i :: 0 <= i < |events| ==> events[i].Message?
    ensures |r| == |events| && forall i :: 0 <= i < |r| ==> r[i] == events[i].snapshot
  {
    seq(|events|, i requires 0 <= i < |events| && events[i].Message? => events[i].snapshot)
  }

  /** The first `count` events are messages, and the values stored for them are the conversions of the
      folds of exactly those prefixes. */
  ghost predicate StoredFor(n: nat, events: seq<Event>, count: nat, stores: seq<Latest>) {
    && count <= |events| && (forall i :: 0 <= i < count ==> events[i].Message?)
    && |stores| == count + 1 && stores[0] == Empty
    && forall k :: 1 <= k <= count ==> ConvertedAt(n, events, stores, k)
  }

  ghost predicate ConvertedAt(n: nat, events: seq<Event>, stores: seq<Latest>, k: nat) {
    k <= |events| && k < |stores| && IsConversion(n, events[..k], stores[k])
  }

  ghost predicate IsConversion(n: nat, events: seq<Event>, latest: Latest) {
    && (forall i :: 0 <= i < |events| ==> events[i].Message?)
    && latest.Available? && Published(n, Fold(Snapshots(events)), latest.summary)
  }

  /** What other tasks can observe of the publisher, in order. */
  datatype Action = Stores(value: Latest) | Notifies

  /** After `i` messages: the slots are their fold, and the values stored for them were announced. */
  ghost predicate Progressed(n: nat, events: seq<Event>, i: nat, slots: seq<Snapshot>, stores: seq<Latest>,
                             actions: seq<Action>)
  {
    && StoredFor(n, events, i, stores)
    && slots == Fold(Snapshots(events[..i]))
    && actions == Announced(stores[1..])
  }

  /** Every value is stored and then notified, one value after the other. */
  function Announced(values: seq<Latest>): seq<Action> {
    if values == [] then []
    else Announced(values[..|values| - 1]) + [Stores(values[|values| - 1]), Notifies]
  }

  /** Action by action: the store of value `i`, and right after it the notification. */
  lemma {:induction false} AnnouncedAlternates(values: seq<Latest>)
    ensures |Announced(values)| == 2 * |values|
    ensures forall i :: 0 <= i < |values| ==>
      Announced(values)[2 * i] == Stores(values[i]) && Announced(values)[2 * i + 1] == Notifies
  {
    if values != [] {
      AnnouncedAlternates(values[..|values| - 1]);
    }
  }

  class Publisher {
    const n: nat
    var latest: Latest
    var receivers: nat         // of the watch channel
    var version: nat
    ghost var stores: seq<Latest>
    ghost var actions: seq<Action>

    constructor (n: nat)
      ensures this.n == n && latest == Empty && version == 0 && receivers == 0 && stores == [Empty] && actions == []
    {
      this.n := n;
      latest, receivers, version, stores, actions := Empty, 0, 0, [Empty], [];
    }

    /** A new receiver has seen the current version. */
    method WatchLatest() returns (seen: nat)
      modifies this`receivers
      ensures receivers == old(receivers) + 1 && seen == version
    {
      receivers := receivers + 1;
      seen := version;
    }

    /** Stores a value, and only then notifies; without a receiver the send changes nothing. */
    method StoreAndNotify(value: Latest)
      modifies this
      ensures latest == value && stores == old(stores) + [value] && receivers == old(receivers)
      ensures version == old(version) + if receivers > 0 then 1 else 0
      ensures actions == old(actions) + [Stores(value), Notifies]
    {
      latest := value;
      stores, actions := stores + [value], actions + [Stores(value)];
      if receivers > 0 {
        version := version + 1;
      }
      actions := actions + [Notifies];
    }

    /** The message arm of the loop; not ok is the panic of the conversion. */
    method HandleMessage(combined: CombinedSummary, snapshot: Snapshot) returns (ok: bool)
      requires combined.Valid() && combined.n == n && snapshot.WithinDepth(n)
      modifies this, combined.sources
      ensures combined.Valid() && combined.sources[..] == Updated(old(combined.sources[..]), snapshot)
      ensures ok <==> !Panics(n, combined.sources[..])
      ensures receivers == old(receivers)
      ensures !ok ==>
        stores == old(stores) && latest == old(latest) && version == old(version) && actions == old(actions)
      ensures ok ==>
        latest.Available? && Published(n, combined.sources[..], latest.summary) && stores == old(stores) + [latest]
      ensures ok ==> actions == old(actions) + [Stores(latest), Notifies]
      ensures ok ==> version == old(version) + if receivers > 0 then 1 else 0
    {
      combined.UpdateSnapshot(snapshot);
      var conversion := combined.ToProto();
      ok := conversion.Converted?;
      if ok {
        StoreAndNotify(Available(conversion.summary));
      }
    }

    /** `local_run` over the events its `select` takes. */
    method LocalRun(events: seq<Event>) returns (end: RunEnd)
      requires latest == Empty && stores == [Empty] && actions == []
      requires forall i :: 0 <= i < |events| && events[i].Message? ==> events[i].snapshot.WithinDepth(n)
      modifies this
      ensures stores != [] && latest == stores[|stores| - 1] && receivers == old(receivers)
      ensures actions == Announced(stores[1..])
      ensures version == old(version) + if receivers > 0 then |stores| - 1 else 0
      ensures end.Awaits? ==> StoredFor(n, events, |events|, stores)
      ensures end.Stopped? ==>
        && end.count < |events| && events[end.count] == ShutdownSignal && latest == Shutdown
        && StoredFor(n, events, end.count, stores[..|stores| - 1])
      ensures end.Died? ==>
        && end.count < |events| && StoredFor(n, events, end.count, stores) && events[end.count].Message?
        && Panics(n, Updated(Fold(Snapshots(events[..end.count])), events[end.count].snapshot))
    {
      var combined := new CombinedSummary(n);
      var ok, count := Consume(combined, events);
      if !ok {
        return Died(count);
      }
      if count == |events| {
        assert events[..count] == events;
        return Awaits;
      }
      ghost var before := stores;
      StoreAndNotify(Shutdown);
      AnnouncedNext(before, Shutdown);
      assert stores[..|stores| - 1] == before;
      end := RunEnd.Stopped(count);
    }

    /** The loop: consumes messages until a signal; not ok is the panic of a conversion. */
    method Consume(combined: CombinedSummary, events: seq<Event>) returns (ok: bool, count: nat)
      requires latest == Empty && stores == [Empty] && actions == []
      requires forall i :: 0 <= i < |events| && events[i].Message? ==> events[i].snapshot.WithinDepth(n)
      requires combined.Valid() && combined.n == n && combined.sources[..] == INITIAL_SLOTS
      modifies this, combined.sources
      ensures StoredFor(n, events, count, stores) && actions == Announced(stores[1..])
      ensures latest == stores[count] && receivers == old(receivers)
      ensures version == old(version) + if receivers > 0 then count else 0
      ensures ok ==> count == |events| || events[count].ShutdownSignal?
      ensures !ok ==>
        && count < |events| && events[count].Message?
        && Panics(n, Updated(Fold(Snapshots(events[..count])), events[count].snapshot))
    {
      count := 0;
      ghost var slots := combined.sources[..];
      while count < |events| && events[count].Message?
        invariant count <= |events|
        invariant combined.Valid() && combined.sources[..] == slots
        invariant Progressed(n, events, count, slots, stores, actions)
        invariant latest == stores[count] && receivers == old(receivers)
        invariant version == old(version) + if receivers > 0 then count else 0
      {
        ghost var before, announced := stores, actions;
        ok := HandleMessage(combined, events[count].snapshot);
        if !ok {
          return;
        }
        ProgressedNext(n, events, count, slots, before, announced, latest);
        slots := Updated(slots, events[count].snapshot);
        count := count + 1;
      }
      ok := true;
    }
  }

  lemma AnnouncedNext(stores: seq<Latest>, latest: Latest)
    requires stores != []
    ensures Announced((stores + [latest])[1..]) == Announced(stores[1..]) + [Stores(latest), Notifies]
  {
    var after := (stores + [latest])[1..];
    assert after[..|after| - 1] == stores[1..];
  }

  lemma ProgressedNext(n: nat, events: seq<Event>, i: nat, slots: seq<Snapshot>, stores: seq<Latest>,
                       actions: seq<Action>, latest: Latest)
    requires Progressed(n, events, i, slots, stores, actions) && i < |events| && events[i].Message?
    requires latest.Available? && Published(n, Updated(slots, events[i].snapshot), latest.summary)
    ensures Progressed(n, events, i + 1, Updated(slots, events[i].snapshot), stores + [latest],
                       actions + [Stores(latest), Notifies])
  {
    FoldNext(events, i);
    StoredNext(n, events, i, stores, latest);
    AnnouncedNext(stores, latest);
  }

  lemma EarlierConverted(n: nat, events: seq<Event>, stores: seq<Latest>, latest: Latest, k: nat)
    requires ConvertedAt(n, events, stores, k)
    ensures ConvertedAt(n, events, stores + [latest], k)
  {
    assert (stores + [latest])[k] == stores[k];
  }

  lemma StoredNext(n: nat, events: seq<Event>, i: nat, stores: seq<Latest>, latest: Latest)
    requires StoredFor(n, events, i, stores) && i < |events| && events[i].Message?
    requires IsConversion(n, events[..i + 1], latest)
    ensures StoredFor(n, events, i + 1, stores + [latest])
  {
    var after := stores + [latest];
    forall k | 1 <= k <= i + 1 ensures ConvertedAt(n, events, after, k) {
      if k <= i { EarlierConverted(n, events, stores, latest, k); }
    }
  }

  lemma FoldNext(events: seq<Event>, i: nat)
    requires i < |events| && forall j :: 0 <= j <= i ==> events[j].Message?
    ensures Fold(Snapshots(events[..i + 1])) == Updated(Fold(Snapshots(events[..i])), events[i].snapshot)
  {
    var u := Snapshots(events[..i + 1]);
    assert u[..|u| - 1] == Snapshots(events[..i]);
  }
}
