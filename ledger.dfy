/** The activity ledger that keeps a (site, SKU) pair from being stocked
    twice: every normal order line is checked against it and recorded only
    when its pair is not there yet. */
module Ledger {
  import opened Cells
  import opened Reconcile

  /** The activity name written on every record this tool inserts. */
  const ActivityName := "自动拣货铺货"

  /** One row of the `activity_records` table. */
  datatype ActivityRecord = ActivityRecord(siteCode: string, skuCode: string, activityName: string)

  /** The pair the ledger is queried by. */
  type Key = (string, string)

  /** The ledger key of an order line: its site code as written in its own
      channel and the text form of its SKU (`str(row[...])`). */
  function KeyOf(l: Line): (k: Key)
    ensures k.0 == l.siteCode
    ensures l.sku.Text? ==> k.1 == l.sku.s
    ensures l.sku.Int? ==> k.1 == Decimal(l.sku.i)
    ensures l.sku.Missing? ==> k.1 == "nan"
  {
    (l.siteCode, AsStr(l.sku))
  }

  /** Two lines of one site whose SKUs are both numbers share a ledger pair
      only when the numbers are equal. */
  lemma NumericSkusKeepKeysApart(a: Line, b: Line)
    requires a.sku.Int? && b.sku.Int?
    ensures KeyOf(a) == KeyOf(b) <==> a.siteCode == b.siteCode && a.sku.i == b.sku.i
  {
    if KeyOf(a) == KeyOf(b) {
      DecimalInjective(a.sku.i, b.sku.i);
    }
  }

  function KeysOf(lines: seq<Line>): (ks: seq<Key>)
    ensures |ks| == |lines|
    ensures forall i :: 0 <= i < |lines| ==> ks[i] == KeyOf(lines[i])
  {
    seq(|lines|, i requires 0 <= i < |lines| => KeyOf(lines[i]))
  }

  /** The pair a record is found by. */
  function RecordKey(r: ActivityRecord): Key
  {
    (r.siteCode, r.skuCode)
  }

  /** The pairs present in a set of records, whatever their activity name. */
  function Keys(records: set<ActivityRecord>): (ks: set<Key>)
    ensures forall r :: r in records ==> RecordKey(r) in ks
    ensures forall k :: k in ks ==> exists r :: r in records && RecordKey(r) == k
  {
    set r | r in records :: RecordKey(r)
  }

  /** The pairs known to the ledger so far and the two counters. */
  datatype Tally = Tally(seen: set<Key>, inserted: nat, skipped: nat)

  /** One iteration: a known pair is skipped, a new one is recorded. */
  function Step(t: Tally, k: Key): Tally
  {
    if k in t.seen then Tally(t.seen, t.inserted, t.skipped + 1)
    else Tally(t.seen + {k}, t.inserted + 1, t.skipped)
  }

  /** The outcome of checking `keys` in order against a ledger that starts
      with the pairs `seen`. */
  function Distribute(seen: set<Key>, keys: seq<Key>): Tally
    decreases |keys|
  {
    if keys == [] then Tally(seen, 0, 0)
    else Step(Distribute(seen, keys[..|keys| - 1]), keys[|keys| - 1])
  }

  /** The distinct pairs of a run. */
  function Elems(keys: seq<Key>): (ks: set<Key>)
    ensures forall k :: k in ks <==> k in keys
    decreases |keys|
  {
    if keys == [] then {} else Elems(keys[..|keys| - 1]) + {keys[|keys| - 1]}
  }

  /** The records a run adds: one per pair of `keys` that `seen` lacks. */
  function NewRecords(keys: seq<Key>, seen: set<Key>): (rs: set<ActivityRecord>)
    ensures forall r :: r in rs <==> RecordKey(r) in keys && RecordKey(r) !in seen && r.activityName == ActivityName
    decreases |keys|
  {
    if keys == [] then {}
    else
      var k := keys[|keys| - 1];
      NewRecords(keys[..|keys| - 1], seen) + if k in seen then {} else {ActivityRecord(k.0, k.1, ActivityName)}
  }

  /** Every line is counted once, as inserted or as skipped. */
  lemma {:induction false} DistributeTotal(seen: set<Key>, keys: seq<Key>)
    ensures Distribute(seen, keys).inserted + Distribute(seen, keys).skipped == |keys|
    decreases |keys|
  {
    if keys != [] {
      DistributeTotal(seen, keys[..|keys| - 1]);
    }
  }

  /** Afterwards the ledger knows its old pairs and every pair of the run. */
  lemma {:induction false} DistributeSeen(seen: set<Key>, keys: seq<Key>)
    ensures Distribute(seen, keys).seen == seen + Elems(keys)
    decreases |keys|
  {
    if keys != [] {
      DistributeSeen(seen, keys[..|keys| - 1]);
    }
  }

  /** The inserted count is the number of distinct pairs of the run that
      were new to the ledger. */
  lemma {:induction false} DistributeInserted(seen: set<Key>, keys: seq<Key>)
    ensures Distribute(seen, keys).inserted == |Elems(keys) - seen|
    decreases |keys|
  {
    if keys != [] {
      var n := |keys| - 1;
      var prefix, k := keys[..n], keys[n];
      DistributeInserted(seen, prefix);
      DistributeSeen(seen, prefix);
      var before := Elems(prefix);
      assert Elems(keys) == before + {k};
      if k !in seen && k !in before {
        assert (before + {k}) - seen == (before - seen) + {k};
      } else {
        assert (before + {k}) - seen == before - seen;
      }
    }
  }

  lemma DistributeCounts(seen: set<Key>, keys: seq<Key>)
    ensures Distribute(seen, keys).inserted + Distribute(seen, keys).skipped == |keys|
    ensures Distribute(seen, keys).seen == seen + Elems(keys)
    ensures Distribute(seen, keys).inserted == |Elems(keys) - seen|
  {
    DistributeTotal(seen, keys);
    DistributeSeen(seen, keys);
    DistributeInserted(seen, keys);
  }

  /** The i-th line is recorded exactly when its pair is neither in the
      ledger beforehand nor among the earlier lines of the run; otherwise it
      is skipped. */
  lemma InsertedIffNew(seen: set<Key>, keys: seq<Key>, i: nat)
    requires i < |keys|
    ensures Distribute(seen, keys[..i + 1]).inserted == Distribute(seen, keys[..i]).inserted + 1 <==>
              keys[i] !in seen && keys[i] !in keys[..i]
    ensures Distribute(seen, keys[..i + 1]).skipped == Distribute(seen, keys[..i]).skipped + 1 <==>
              keys[i] in seen || keys[i] in keys[..i]
  {
    DistributeCounts(seen, keys[..i]);
    assert keys[..i + 1][..i] == keys[..i];
  }

  /** Running the same orders a second time records nothing: every line is
      skipped. */
  lemma SecondRunInsertsNothing(seen: set<Key>, keys: seq<Key>)
    ensures Distribute(Distribute(seen, keys).seen, keys).inserted == 0
    ensures Distribute(Distribute(seen, keys).seen, keys).skipped == |keys|
  {
    DistributeCounts(seen, keys);
    DistributeCounts(Distribute(seen, keys).seen, keys);
    assert Elems(keys) - Distribute(seen, keys).seen == {};
  }

  /** Adding a record adds its pair to the ledger's pairs. */
  lemma KeysInsert(records: set<ActivityRecord>, r: ActivityRecord)
    ensures Keys(records + {r}) == Keys(records) + {RecordKey(r)}
  {
    var lhs, rhs := Keys(records + {r}), Keys(records) + {RecordKey(r)};
    forall k | k in lhs ensures k in rhs {
      var r' :| r' in records + {r} && RecordKey(r') == k;
    }
  }

  /** The records added after one more line of the run: one more record
      exactly when the line's pair is new to the ledger and the run. */
  lemma NewRecordsStep(keys: seq<Key>, seen: set<Key>, i: nat)
    requires i < |keys|
    ensures NewRecords(keys[..i + 1], seen) ==
              if keys[i] in seen || keys[i] in keys[..i] then NewRecords(keys[..i], seen)
              else NewRecords(keys[..i], seen) + {ActivityRecord(keys[i].0, keys[i].1, ActivityName)}
  {
    var k := keys[i];
    assert keys[..i + 1][..i] == keys[..i];
    if k !in seen && k in keys[..i] {
      assert ActivityRecord(k.0, k.1, ActivityName) in NewRecords(keys[..i], seen);
    }
  }

  /** One loop iteration keeps the ledger's pairs and the counters in step
      with `Distribute`. */
  lemma TallyStep(before: set<ActivityRecord>, inserted: nat, skipped: nat, seen0: set<Key>, keys: seq<Key>, i: nat)
    requires i < |keys|
    requires Tally(Keys(before), inserted, skipped) == Distribute(seen0, keys[..i])
    ensures keys[i] in Keys(before) ==>
              Tally(Keys(before), inserted, skipped + 1) == Distribute(seen0, keys[..i + 1])
    ensures keys[i] !in Keys(before) ==>
              Tally(Keys(before + {ActivityRecord(keys[i].0, keys[i].1, ActivityName)}), inserted + 1, skipped) ==
              Distribute(seen0, keys[..i + 1])
  {
    assert keys[..i + 1][..i] == keys[..i];
    KeysInsert(before, ActivityRecord(keys[i].0, keys[i].1, ActivityName));
  }

  /** One loop iteration keeps the records in step with `NewRecords`: a
      known pair leaves them as they are, a new one adds its record. */
  lemma RecordStep(initial: set<ActivityRecord>, before: set<ActivityRecord>,
                   seen0: set<Key>, keys: seq<Key>, i: nat)
    requires i < |keys| && seen0 == Keys(initial)
    requires before == initial + NewRecords(keys[..i], seen0)
    requires Keys(before) == seen0 + Elems(keys[..i])
    ensures keys[i] in Keys(before) ==> before == initial + NewRecords(keys[..i + 1], seen0)
    ensures keys[i] !in Keys(before) ==>
              before + {ActivityRecord(keys[i].0, keys[i].1, ActivityName)} == initial + NewRecords(keys[..i + 1], seen0)
  {
    NewRecordsStep(keys, seen0, i);
  }

  /** The ledger's invariant: at most one record per (site, SKU) pair. */
  predicate UniqueKeys(records: set<ActivityRecord>)
  {
    forall r1, r2 :: r1 in records && r2 in records && RecordKey(r1) == RecordKey(r2) ==> r1 == r2
  }

  /** A run keeps the ledger at one record per pair: it adds records only for
      pairs the ledger lacks, and one per pair. */
  lemma NewRecordsKeepKeysUnique(initial: set<ActivityRecord>, keys: seq<Key>)
    requires UniqueKeys(initial)
    ensures UniqueKeys(initial + NewRecords(keys, Keys(initial)))
  {
  }

  /** The `activity_records` table as this tool sees it. */
  class ActivityLedger {
    var records: set<ActivityRecord>

    constructor (initial: set<ActivityRecord>)
      ensures records == initial
    {
      records := initial;
    }

    /** The duplicate check: some record, of any activity, has this pair. */
    predicate Exists(siteCode: string, skuCode: string)
      reads this
    {
      exists r :: r in records && r.siteCode == siteCode && r.skuCode == skuCode
    }

    lemma ExistsIffKnown(siteCode: string, skuCode: string)
      ensures Exists(siteCode, skuCode) <==> (siteCode, skuCode) in Keys(records)
    {
    }

    /** Adds one record. */
    method Insert(r: ActivityRecord)
      modifies this
      ensures records == old(records) + {r}
    {
      records := records + {r};
    }

    /** Checks every normal order line against the ledger in order, records
        each pair not yet present and counts recorded and skipped lines. */
    method RecordDistribution(normal: seq<Line>) returns (inserted: nat, skipped: nat)
      modifies this
      ensures Tally(Keys(records), inserted, skipped) == Distribute(Keys(old(records)), KeysOf(normal))
      ensures records == old(records) + NewRecords(KeysOf(normal), Keys(old(records)))
      ensures UniqueKeys(old(records)) ==> UniqueKeys(records)
    {
      ghost var seen0 := Keys(records);
      ghost var keys := KeysOf(normal);
      inserted, skipped := 0, 0;
      var i := 0;
      while i < |normal|
        invariant 0 <= i <= |normal|
        invariant records == old(records) + NewRecords(keys[..i], seen0)
        invariant Tally(Keys(records), inserted, skipped) == Distribute(seen0, keys[..i])
      {
        var siteCode := normal[i].siteCode;
        var skuCode := AsStr(normal[i].sku);
        assert (siteCode, skuCode) == keys[i];
        ExistsIffKnown(siteCode, skuCode);
        DistributeCounts(seen0, keys[..i]);
        TallyStep(records, inserted, skipped, seen0, keys, i);
        RecordStep(old(records), records, seen0, keys, i);
        if Exists(siteCode, skuCode) {
          skipped := skipped + 1;
        } else {
          Insert(ActivityRecord(siteCode, skuCode, ActivityName));
          inserted := inserted + 1;
        }
        i := i + 1;
      }
      assert keys[..i] == keys;
      if UniqueKeys(old(records)) {
        NewRecordsKeepKeysUnique(old(records), keys);
      }
    }
  }
}
