/** The instrument table of the manager. */
module Instruments {
  import opened Books

  datatype Instrument = Instrument(symbol: string, sources: map<SourceId, string>)

  type Table = map<string, Instrument>

  /** Every entry is filed under its own symbol. */
  ghost predicate KeyedBySymbol(table: Table) {
    forall k :: k in table ==> table[k].symbol == k
  }

  /** Position `i` is the last one with symbol `k`. */
  ghost predicate IsLast(instruments: seq<Instrument>, i: int, k: string) {
    && 0 <= i < |instruments| && instruments[i].symbol == k
    && forall j :: i < j < |instruments| ==> instruments[j].symbol != k
  }

  lemma KeepLast(instruments: seq<Instrument>, i: nat)
    requires i < |instruments|
    ensures IsLast(instruments[..i + 1], i, instruments[i].symbol)
    ensures forall j, k ::
              IsLast(instruments[..i], j, k) && k != instruments[i].symbol ==> IsLast(instruments[..i + 1], j, k)
  {
  }

  /** `InstrumentMap::new`: of two instruments with one symbol the later one stays. */
  method NewInstrumentMap(instruments: seq<Instrument>) returns (table: Table)
    ensures KeyedBySymbol(table)
    ensures forall k :: k in table <==> exists i :: 0 <= i < |instruments| && instruments[i].symbol == k
    ensures forall k :: k in table ==> exists i :: IsLast(instruments, i, k) && table[k] == instruments[i]
  {
    table := map[];
    for i := 0 to |instruments|
      invariant KeyedBySymbol(table)
      invariant forall k :: k in table <==> exists j :: 0 <= j < i && instruments[j].symbol == k
      invariant forall k :: k in table ==> exists j :: IsLast(instruments[..i], j, k) && table[k] == instruments[j]
    {
      KeepLast(instruments, i);
      table := table[instruments[i].symbol := instruments[i]];
    }
    assert instruments[..|instruments|] == instruments;
  }
}
