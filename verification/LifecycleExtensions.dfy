/** What can still happen after a run of the lifecycle. */
module LifecycleExtensions {
  import opened Instruments
  import opened Lifecycle
  import opened LifecycleTheorems

  /** Some extension of `run` ends in `s`. */
  ghost predicate Later(table: Table, run: seq<Label>, s: State) {
    exists ext: seq<Label> :: IsRun(table, run + ext) && After(table, run + ext) == s
  }

  lemma LaterSelf(table: Table, run: seq<Label>)
    requires IsRun(table, run)
    ensures Later(table, run, After(table, run))
  {
    assert run + [] == run;
  }

  lemma LongerRun(table: Table, run: seq<Label>, l: Label)
    requires IsRun(table, run) && Enabled(table, After(table, run), l)
    ensures IsRun(table, run + [l]) && After(table, run + [l]) == Apply(table, After(table, run), l)
  {
    assert (run + [l])[..|run|] == run;
  }

  lemma LaterStep(table: Table, run: seq<Label>, s: State, l: Label)
    requires Later(table, run, s) && Enabled(table, s, l)
    ensures Later(table, run, Apply(table, s, l))
  {
    var ext: seq<Label> :| IsRun(table, run + ext) && After(table, run + ext) == s;
    LongerRun(table, run + ext, l);
    assert run + (ext + [l]) == run + ext + [l];
  }

  lemma LaterInv(table: Table, run: seq<Label>, s: State)
    requires KeyedBySymbol(table) && Later(table, run, s)
    ensures Inv(s)
  {
    var ext: seq<Label> :| IsRun(table, run + ext) && After(table, run + ext) == s;
    RunInv(table, run + ext);
  }

  /** `good` is kept by every step from a state that satisfies the invariants. */
  ghost predicate Kept(table: Table, good: iset<State>) {
    forall s, l {:trigger Apply(table, s, l)} ::
      s in good && Inv(s) && Enabled(table, s, l) ==> Apply(table, s, l) in good
  }

  /** What every step keeps holds after every extension. */
  lemma {:induction false} StaysGood(table: Table, run: seq<Label>, ext: seq<Label>, good: iset<State>)
    requires KeyedBySymbol(table) && IsRun(table, run) && IsRun(table, run + ext)
    requires After(table, run) in good && Kept(table, good)
    ensures After(table, run + ext) in good
    decreases |ext|
  {
    if ext == [] {
      assert run + ext == run;
    } else {
      var front := ext[..|ext| - 1];
      assert (run + ext)[..|run + ext| - 1] == run + front;
      StaysGood(table, run, front, good);
      RunInv(table, run + front);
    }
  }
}
