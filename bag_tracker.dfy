/**
 * The control system's `bag_hash`: a table from bag id to the scanner
 * status packet that announced the bag, which remembers the order in which
 * keys were first inserted. Its hashing and capacity are not modelled;
 * only the insertion order and the lookups the control system uses are.
 */
module BagTracking {
  import opened Packets

  /** `GetFirstKey()` on an empty table. */
  const EMPTY_KEY: int32 := -1

  datatype BagTracker = BagTracker(keys: seq<int32>, values: map<int32, ScannerStsPacket>)
  {
    /** Each key is listed once, and exactly the listed keys have values. */
    ghost predicate Valid()
    {
      (forall i, j :: 0 <= i < j < |keys| ==> keys[i] != keys[j]) &&
      (forall k :: k in values <==> k in keys)
    }

    /** Stores `v` under `k`. A new key goes after every key already present;
        a key already present keeps its place and gets the new value. */
    function Insert(k: int32, v: ScannerStsPacket): (t: BagTracker)
      requires Valid()
      ensures t.Valid()
      ensures k in t.values && t.values[k] == v
      ensures forall k' :: k' != k && k' in values ==> k' in t.values && t.values[k'] == values[k']
      ensures k !in values ==> t.keys == keys + [k]
      ensures k in values ==> t.keys == keys
    {
      if k in values then BagTracker(keys, values[k := v])
      else BagTracker(keys + [k], values[k := v])
    }

    /** The earliest-inserted key still present, or -1 when there is none. */
    function GetFirstKey(): (k: int32)
      requires Valid()
      ensures keys == [] ==> k == EMPTY_KEY
      ensures keys != [] ==> k == keys[0] && k in values
    {
      if keys == [] then EMPTY_KEY else keys[0]
    }

    function GetValue(k: int32): (v: ScannerStsPacket)
      requires Valid() && k in values
      ensures v == values[k]
    {
      values[k]
    }
  }

  const EmptyTracker := BagTracker([], map[])

  /** Inserts the keys of `ks` in order, each with its packet from `vs`. */
  function InsertAll(t: BagTracker, ks: seq<int32>, vs: seq<ScannerStsPacket>): (r: BagTracker)
    requires t.Valid() && |ks| == |vs|
    ensures r.Valid()
    decreases |ks|
  {
    if ks == [] then t
    else InsertAll(t.Insert(ks[0], vs[0]), ks[1..], vs[1..])
  }

  /** Inserting never changes which key is oldest, unless the table was
      empty, in which case the first key inserted becomes the oldest. */
  lemma {:induction false} OldestKeyIsFirstInserted(t: BagTracker, ks: seq<int32>, vs: seq<ScannerStsPacket>)
    requires t.Valid() && |ks| == |vs|
    ensures t.keys != [] ==> InsertAll(t, ks, vs).GetFirstKey() == t.GetFirstKey()
    ensures t.keys == [] && ks != [] ==> InsertAll(t, ks, vs).GetFirstKey() == ks[0]
    ensures t.keys == [] && ks == [] ==> InsertAll(t, ks, vs).GetFirstKey() == EMPTY_KEY
    decreases |ks|
  {
    if ks != [] {
      var t' := t.Insert(ks[0], vs[0]);
      OldestKeyIsFirstInserted(t', ks[1..], vs[1..]);
    }
  }

  /** Inserting keys 3, 1, 2 into an empty table makes 3 the oldest key
      (insertion order, not numeric order); an empty table answers -1. */
  lemma OldestKeyExample(p: ScannerStsPacket)
    ensures InsertAll(EmptyTracker, [3, 1, 2], [p, p, p]).GetFirstKey() == 3
    ensures EmptyTracker.GetFirstKey() == EMPTY_KEY
  {
    OldestKeyIsFirstInserted(EmptyTracker, [3, 1, 2], [p, p, p]);
  }
}
