/** Who learns of a shutdown. */
module PropagationEnd {
  import opened Books
  import opened Propagation

  /** The publisher's own signal follows the broadcast, and only it ends the publisher. */
  ghost predicate SignalInv(s: State) {
    && (s.closing ==> s.signalled)
    && (s.pub.Ending? || s.pub.EndStored? || s.pub.EndNotified? || s.pub.Ended? ==> s.closing)
    && s.stores != []
  }

  lemma SourceKeepsSignals(n: nat, s: State, i: SourceId, l: SourceStep)
    requires SignalInv(s) && SourceEnabled(n, s, i, l)
    ensures SignalInv(SourceApply(n, s, i, l))
  {
  }

  lemma PubKeepsSignals(n: nat, s: State, l: PubStep)
    requires SignalInv(s) && PubEnabled(n, s, l)
    ensures SignalInv(PubApply(n, s, l))
  {
  }

  lemma ClientKeepsSignals(s: State, c: nat, l: ClientStep)
    requires SignalInv(s) && ClientEnabled(s, c, l)
    ensures SignalInv(ClientApply(s, c, l))
  {
  }

  lemma {:induction false} RunSignals(n: nat, ids: set<SourceId>, run: seq<Label>)
    requires IsRun(n, ids, run)
    ensures SignalInv(After(n, ids, run))
  {
    if run != [] {
      var s := After(n, ids, run[..|run| - 1]);
      RunSignals(n, ids, run[..|run| - 1]);
      match run[|run| - 1]
      case S(i, ss) => SourceKeepsSignals(n, s, i, ss);
      case Q(ps) => PubKeepsSignals(n, s, ps);
      case K(c, cs) => ClientKeepsSignals(s, c, cs);
      case Signal =>
      case Close =>
    }
  }

  /** The publisher has ended and client `c` waits, with nothing unseen, for a signal sent before it came. */
  predicate Stranded(s: State, c: nat) {
    c in s.clients && s.clients[c].pc == Idle(s.version) && s.clients[c].deaf && s.pub.Ended?
  }

  lemma StrandedStep(n: nat, s: State, l: Label, c: nat)
    requires Stranded(s, c) && Enabled(n, s, l)
    ensures Stranded(Apply(n, s, l), c) && Apply(n, s, l).clients[c] == s.clients[c]
  {
  }

  lemma {:induction false} StrandedForEver(n: nat, ids: set<SourceId>, run: seq<Label>, ext: seq<Label>, c: nat)
    requires IsRun(n, ids, run) && IsRun(n, ids, run + ext) && Stranded(After(n, ids, run), c)
    ensures Stranded(After(n, ids, run + ext), c)
    ensures After(n, ids, run + ext).clients[c] == After(n, ids, run).clients[c]
    decreases |ext|
  {
    if ext == [] {
      assert run + ext == run;
    } else {
      var front := ext[..|ext| - 1];
      assert (run + ext)[..|run + ext| - 1] == run + front;
      StrandedForEver(n, ids, run, front, c);
      StrandedStep(n, After(n, ids, run + front), ext[|ext| - 1], c);
    }
  }

  /** The client is the same after every extension of the run. */
  ghost predicate NeverMoves(n: nat, ids: set<SourceId>, run: seq<Label>, c: nat)
    requires IsRun(n, ids, run)
  {
    forall ext: seq<Label> :: IsRun(n, ids, run + ext) ==>
      && c in After(n, ids, run).clients && c in After(n, ids, run + ext).clients
      && After(n, ids, run + ext).clients[c] == After(n, ids, run).clients[c]
  }

  lemma CanMove(n: nat, ids: set<SourceId>, run: seq<Label>, c: nat)
    requires IsRun(n, ids, run) && c in After(n, ids, run).clients
    requires After(n, ids, run).clients[c].pc.Idle? && After(n, ids, run).pub.Ended? && !Stranded(After(n, ids, run), c)
    ensures !NeverMoves(n, ids, run, c)
  {
    RunSignals(n, ids, run);
    var s := After(n, ids, run);
    var l := K(c, if s.clients[c].pc.seen != s.version then WakeUp else Leave);
    assert Enabled(n, s, l) && Apply(n, s, l).clients[c] != s.clients[c];
    assert (run + [l])[..|run + [l]| - 1] == run;
    assert IsRun(n, ids, run + [l]) && After(n, ids, run + [l]) == Apply(n, s, l);
  }

  /** Once the publisher has ended, an idle client stays where it is for ever if and only if it came after
      the shutdown signal and has no unseen change; every other one wakes or leaves. */
  lemma IdleForEverExactly(n: nat, ids: set<SourceId>, run: seq<Label>, c: nat)
    requires IsRun(n, ids, run) && c in After(n, ids, run).clients
    requires After(n, ids, run).clients[c].pc.Idle? && After(n, ids, run).pub.Ended?
    ensures var s := After(n, ids, run);
      NeverMoves(n, ids, run, c) <==> s.clients[c].deaf && s.clients[c].pc.seen == s.version
  {
    if Stranded(After(n, ids, run), c) {
      forall ext: seq<Label> | IsRun(n, ids, run + ext)
        ensures c in After(n, ids, run + ext).clients
        ensures After(n, ids, run + ext).clients[c] == After(n, ids, run).clients[c]
      {
        StrandedForEver(n, ids, run, ext, c);
      }
    } else {
      CanMove(n, ids, run, c);
    }
  }
}
