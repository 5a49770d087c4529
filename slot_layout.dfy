/**
  The order in which a `Query` and a `Filter` write their slots: four leaf
  kinds, four more leaf kinds, then the two recursive kinds.  Both records
  derive `Serialize` over the same field list, so their members are three
  runs with these keys.
*/
module SlotLayout {
  import opened JsonModel

  const LeafKeysA: seq<string> := ["exists", "term", "terms", "range"]
  const LeafKeysB: seq<string> := ["regexp", "match", "simple_query_string", "query_string"]
  const InnerKeys: seq<string> := ["nested", "bool"]

  /** A key of the first run is read from the first run alone. */
  lemma InLeavesA(a: seq<Slot>, b: seq<Slot>, c: seq<Slot>, k: string)
    requires SlotKeys(b) == LeafKeysB && SlotKeys(c) == InnerKeys && k in LeafKeysA
    ensures ValuesAt(Emit(a) + Emit(b) + Emit(c), k) == ValuesAt(Emit(a), k)
  {
    InRun1(a, b, c, k);
  }

  /** A key of the second run is read from the second run alone. */
  lemma InLeavesB(a: seq<Slot>, b: seq<Slot>, c: seq<Slot>, k: string)
    requires SlotKeys(a) == LeafKeysA && SlotKeys(c) == InnerKeys && k in LeafKeysB
    ensures ValuesAt(Emit(a) + Emit(b) + Emit(c), k) == ValuesAt(Emit(b), k)
  {
    InRun2(a, b, c, k);
  }

  /** A recursive key is read from the last run alone. */
  lemma InInner(a: seq<Slot>, b: seq<Slot>, c: seq<Slot>, k: string)
    requires SlotKeys(a) == LeafKeysA && SlotKeys(b) == LeafKeysB && k in InnerKeys
    ensures ValuesAt(Emit(a) + Emit(b) + Emit(c), k) == ValuesAt(Emit(c), k)
  {
    InRun3(a, b, c, k);
  }
}
