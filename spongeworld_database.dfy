/**
 * The abundance store of spongeworld/database.py.  It loads data exactly as
 * the sponge_emp store does, but answers for a single query sequence and
 * reports an unknown sequence as None instead of zero.
 */
module SpongeworldDatabase {
  import opened Text
  import opened Abundance

  /** get_info: None for an unknown sequence, a {value: distribution} map, or the KeyError of an unknown field. */
  datatype SeqInfo = NotFound | Info(values: map<string, Dist>) | UnknownField(field: string)

  /** Among the first n samples, how many have row abundance above t and value v in field. */
  function PresentWith(row: seq<real>, samples: seq<Record>, field: string, v: string, t: real, n: nat): (r: nat)
    requires n <= |row| == |samples|
    requires forall k :: 0 <= k < |samples| ==> field in samples[k]
    ensures r <= n
  {
    if n == 0 then 0
    else PresentWith(row, samples, field, v, t, n - 1) + (if row[n - 1] > t && samples[n - 1][field] == v then 1 else 0)
  }

  /** What get_info returns for query q. */
  function InfoSpec(tb: Table, q: string, field: string, t: real): SeqInfo
    requires Shaped(tb)
  {
    match IndexOf(tb.fids, q)
    case None => NotFound
    case Some(p) =>
      if field !in tb.columns then
        if CountAbove(tb.data[p], t) > 0 then UnknownField(field) else Info(map[])
      else
        var n := |tb.samples|;
        Info(map v | v in ValuesOf(tb.samples, field) && PresentWith(tb.data[p], tb.samples, field, v, t, n) > 0
                   :: Dist(PresentWith(tb.data[p], tb.samples, field, v, t, n), CountValue(tb.samples, field, v)))
  }

  /** Samples above t with value v are among the samples with value v. */
  lemma {:induction false} PresentWithBounded(row: seq<real>, samples: seq<Record>, field: string, v: string, t: real, n: nat)
    requires n <= |row| == |samples|
    requires forall k :: 0 <= k < |samples| ==> field in samples[k]
    ensures PresentWith(row, samples, field, v, t, n) <= CountValueUpTo(samples, field, v, n)
  {
    if n > 0 {
      PresentWithBounded(row, samples, field, v, t, n - 1);
    }
  }

  /** A positive count for v means some sample carries v. */
  lemma {:induction false} PresentWithHasValue(row: seq<real>, samples: seq<Record>, field: string, v: string, t: real, n: nat)
    requires n <= |row| == |samples|
    requires forall k :: 0 <= k < |samples| ==> field in samples[k]
    requires PresentWith(row, samples, field, v, t, n) > 0
    ensures exists k :: 0 <= k < n && samples[k][field] == v
  {
    if !(row[n - 1] > t && samples[n - 1][field] == v) {
      PresentWithHasValue(row, samples, field, v, t, n - 1);
    }
  }

  /** Raising the threshold never increases a per-value count. */
  lemma {:induction false} PresentWithAntitone(row: seq<real>, samples: seq<Record>, field: string, v: string, t1: real, t2: real, n: nat)
    requires n <= |row| == |samples|
    requires forall k :: 0 <= k < |samples| ==> field in samples[k]
    requires t1 <= t2
    ensures PresentWith(row, samples, field, v, t2, n) <= PresentWith(row, samples, field, v, t1, n)
  {
    if n > 0 {
      PresentWithAntitone(row, samples, field, v, t1, t2, n - 1);
    }
  }

  /**
   * The entries of get_info for a known sequence and a known field: a value
   * is returned exactly when some sample with it is above the threshold; its
   * observed count is that number, its total is get_value_samples, and
   * 1 <= observed <= total.
   */
  lemma InfoSpecEntries(tb: Table, q: string, field: string, t: real)
    requires Shaped(tb) && field in tb.columns && q in tb.fids
    ensures InfoSpec(tb, q, field, t).Info?
    ensures var info := InfoSpec(tb, q, field, t).values;
      var p := IndexOf(tb.fids, q).value;
      forall v :: (v in info <==> PresentWith(tb.data[p], tb.samples, field, v, t, |tb.samples|) >= 1)
        && (v in info ==> info[v] == Dist(PresentWith(tb.data[p], tb.samples, field, v, t, |tb.samples|), CountValue(tb.samples, field, v))
                          && 1 <= info[v].observed <= info[v].total)
  {
    var p := IndexOf(tb.fids, q).value;
    var n := |tb.samples|;
    forall v | PresentWith(tb.data[p], tb.samples, field, v, t, n) >= 1
      ensures v in ValuesOf(tb.samples, field)
      ensures PresentWith(tb.data[p], tb.samples, field, v, t, n) <= CountValue(tb.samples, field, v)
    {
      PresentWithHasValue(tb.data[p], tb.samples, field, v, t, n);
      PresentWithBounded(tb.data[p], tb.samples, field, v, t, n);
    }
  }

  /** Among the first n samples, how many are above t and have a value of field in vals. */
  function Grouped(row: seq<real>, samples: seq<Record>, field: string, vals: set<string>, t: real, n: nat): nat
    requires n <= |row| == |samples|
    requires forall k :: 0 <= k < |samples| ==> field in samples[k]
  {
    if n == 0 then 0
    else Grouped(row, samples, field, vals, t, n - 1) + (if row[n - 1] > t && samples[n - 1][field] in vals then 1 else 0)
  }

  /** The observed counts of the given keys of info, added up. */
  ghost function SumObserved(info: map<string, Dist>, keys: set<string>): nat
    requires keys <= info.Keys
  {
    if keys == {} then 0
    else
      var v :| v in keys;
      info[v].observed + SumObserved(info, keys - {v})
  }

  /** Splitting one value off a set of values splits the grouped count. */
  lemma {:induction false} GroupedSplit(row: seq<real>, samples: seq<Record>, field: string, vals: set<string>, v: string, t: real, n: nat)
    requires n <= |row| == |samples|
    requires forall k :: 0 <= k < |samples| ==> field in samples[k]
    requires v in vals
    ensures Grouped(row, samples, field, vals, t, n)
         == PresentWith(row, samples, field, v, t, n) + Grouped(row, samples, field, vals - {v}, t, n)
  {
    if n > 0 {
      GroupedSplit(row, samples, field, vals, v, t, n - 1);
    }
  }

  /** Adding up per-value counts over a set of values gives the grouped count. */
  lemma {:induction false} SumObservedIsGrouped(row: seq<real>, samples: seq<Record>, field: string, t: real,
                                                info: map<string, Dist>, keys: set<string>)
    requires |row| == |samples|
    requires forall k :: 0 <= k < |samples| ==> field in samples[k]
    requires keys <= info.Keys
    requires forall v :: v in info ==> info[v].observed == PresentWith(row, samples, field, v, t, |samples|)
    ensures SumObserved(info, keys) == Grouped(row, samples, field, keys, t, |samples|)
    decreases keys
  {
    var n := |samples|;
    if keys == {} {
      GroupedNone(row, samples, field, t, n);
    } else {
      var v :| v in keys && SumObserved(info, keys) == info[v].observed + SumObserved(info, keys - {v});
      SumObservedIsGrouped(row, samples, field, t, info, keys - {v});
      GroupedSplit(row, samples, field, keys, v, t, n);
    }
  }

  lemma {:induction false} GroupedNone(row: seq<real>, samples: seq<Record>, field: string, t: real, n: nat)
    requires n <= |row| == |samples|
    requires forall k :: 0 <= k < |samples| ==> field in samples[k]
    ensures Grouped(row, samples, field, {}, t, n) == 0
  {
    if n > 0 {
      GroupedNone(row, samples, field, t, n - 1);
    }
  }

  /** When vals holds the value of every sample above t, the grouped count is the count above t. */
  lemma {:induction false} GroupedCoversAll(row: seq<real>, samples: seq<Record>, field: string, vals: set<string>, t: real, n: nat)
    requires n <= |row| == |samples|
    requires forall k :: 0 <= k < |samples| ==> field in samples[k]
    requires forall k :: 0 <= k < |samples| && row[k] > t ==> samples[k][field] in vals
    ensures Grouped(row, samples, field, vals, t, n) == CountAbove(row[..n], t)
  {
    if n > 0 {
      GroupedCoversAll(row, samples, field, vals, t, n - 1);
      assert row[..n][..n - 1] == row[..n - 1];
    }
  }

  /**
   * get_info partitions the samples where the sequence is present: the
   * observed counts of the returned values add up to get_total_observed.
   */
  lemma InfoPartitionsObserved(tb: Table, q: string, field: string, t: real)
    requires Shaped(tb) && field in tb.columns && q in tb.fids
    ensures InfoSpec(tb, q, field, t).Info?
    ensures var info := InfoSpec(tb, q, field, t).values;
      SumObserved(info, info.Keys) == CountAbove(tb.data[IndexOf(tb.fids, q).value], t)
  {
    InfoSpecEntries(tb, q, field, t);
    var info := InfoSpec(tb, q, field, t).values;
    var p := IndexOf(tb.fids, q).value;
    var row := tb.data[p];
    var n := |tb.samples|;
    forall k | 0 <= k < n && row[k] > t
      ensures tb.samples[k][field] in info.Keys
    {
      var v := tb.samples[k][field];
      PresentWithCounts(row, tb.samples, field, t, k, n);
    }
    SumObservedIsGrouped(row, tb.samples, field, t, info, info.Keys);
    GroupedCoversAll(row, tb.samples, field, info.Keys, t, n);
    assert row[..n] == row;
  }

  /** A sample above t makes its own value's count positive. */
  lemma {:induction false} PresentWithCounts(row: seq<real>, samples: seq<Record>, field: string, t: real, k: nat, n: nat)
    requires n <= |row| == |samples|
    requires forall i :: 0 <= i < |samples| ==> field in samples[i]
    requires k < n && row[k] > t
    ensures PresentWith(row, samples, field, samples[k][field], t, n) >= 1
  {
    if k < n - 1 {
      PresentWithCounts(row, samples, field, t, k, n - 1);
    }
  }

  /**
   * Raising the threshold can only drop values from get_info and lower their
   * observed counts; totals stay the same.
   */
  lemma InfoThresholdMonotone(tb: Table, q: string, field: string, t1: real, t2: real)
    requires Shaped(tb) && field in tb.columns && q in tb.fids && t1 <= t2
    ensures InfoSpec(tb, q, field, t1).Info? && InfoSpec(tb, q, field, t2).Info?
    ensures var lo := InfoSpec(tb, q, field, t1).values;
      var hi := InfoSpec(tb, q, field, t2).values;
      forall v :: v in hi ==> v in lo && hi[v].observed <= lo[v].observed && hi[v].total == lo[v].total
  {
    InfoSpecEntries(tb, q, field, t1);
    InfoSpecEntries(tb, q, field, t2);
    var p := IndexOf(tb.fids, q).value;
    forall v {
      PresentWithAntitone(tb.data[p], tb.samples, field, v, t1, t2, |tb.samples|);
    }
  }

  class DBData {
    var data: Matrix
    var sids: seq<string>
    var fids: seq<string>
    var sampleMetadata: seq<Record>
    var columns: seq<string>
    var seqLength: nat

    /** The store before import_data: nothing loaded yet. */
    constructor ()
      ensures data == [] && sids == [] && fids == [] && sampleMetadata == [] && columns == []
      ensures seqLength == 0
    {
      data, sids, fids, sampleMetadata, columns := [], [], [], [], [];
      seqLength := 0;
    }

    function Snapshot(): Table
      reads this
    {
      Table(data, fids, sampleMetadata, columns)
    }

    ghost predicate Valid()
      reads this
    {
      Shaped(Snapshot()) && |fids| > 0 && seqLength == |fids[0]|
    }

    /**
     * import_data: normalise the table, keep only the samples the mapping file
     * knows (in order, with their records), and take the canonical sequence
     * length from the first feature id.
     */
    method ImportData(table: BiomTable, mapping: MappingFile)
      requires ValidTable(table) && ValidMapping(mapping)
      modifies this
      ensures Valid()
      ensures Snapshot() == Load(table, mapping)
      ensures sids == table.sampleIds
      ensures seqLength == |table.featureIds[0]|
      ensures forall k :: 0 <= k < |sampleMetadata| ==> ColumnSum(data, k) == 1.0
    {
      var loaded := Load(table, mapping);
      LoadAlignsAndNormalizes(table, mapping);
      data := loaded.data;
      sids := table.sampleIds;
      sampleMetadata := loaded.samples;
      columns := loaded.columns;
      fids := table.featureIds;
      seqLength := |fids[0]|;
    }

    /** get_fields: the metadata columns, in order, minus the excluded names. */
    function GetFields(exclude: seq<string>): (r: seq<string>)
      reads this
      ensures |r| <= |columns|
      ensures forall c :: c in r <==> c in columns && c !in exclude
    {
      Without(columns, exclude)
    }

    /** get_total_samples: the number of matrix columns, one per retained sample. */
    function GetTotalSamples(): (r: nat)
      reads this
      requires Valid()
      ensures forall i :: 0 <= i < |data| ==> |data[i]| == r
    {
      |sampleMetadata|
    }

    /** get_seq_pos: the row whose feature id equals the query exactly, or None. */
    function GetSeqPos(sequence: string): (r: Option<nat>)
      reads this
      ensures r.Some? ==> r.value < |fids| && fids[r.value] == sequence
      ensures r.None? <==> sequence !in fids
    {
      IndexOf(fids, sequence)
    }

    /**
     * get_total_observed: None for an unknown sequence, otherwise the number
     * of samples where its abundance is strictly above the threshold.
     */
    function GetTotalObserved(sequence: string, threshold: real): (r: Option<nat>)
      reads this
      requires Valid()
      ensures r.None? <==> sequence !in fids
      ensures r.Some? ==> r.value <= GetTotalSamples()
      ensures r.Some? ==> (r.value == 0 <==> forall j :: 0 <= j < |sampleMetadata| ==> data[GetSeqPos(sequence).value][j] <= threshold)
    {
      match GetSeqPos(sequence)
      case None => None
      case Some(p) => Some(CountAbove(data[p], threshold))
    }

    /**
     * get_value_samples: how many samples carry exactly this value in field;
     * None where the metadata frame has no such column (the KeyError).
     */
    function GetValueSamples(field: string, value: string): (r: Option<nat>)
      reads this
      requires Valid()
      ensures r.None? <==> field !in columns
      ensures r.Some? ==> r.value <= GetTotalSamples()
      ensures r.Some? ==> (r.value == 0 <==> forall k :: 0 <= k < |sampleMetadata| ==> sampleMetadata[k][field] != value)
    {
      if field in columns then Some(CountValue(sampleMetadata, field, value)) else None
    }

    /**
     * get_info: count, per value of field, the samples where the sequence is
     * above the threshold, and pair each count with get_value_samples.
     */
    method GetInfo(sequence: string, field: string, threshold: real) returns (r: SeqInfo)
      requires Valid()
      ensures r == InfoSpec(Snapshot(), sequence, field, threshold)
    {
      var pos := GetSeqPos(sequence);
      if pos.None? {
        return NotFound;
      }
      var tb := Snapshot();
      var counts := CountsByValue(tb, tb.data[pos.value], field, threshold);
      if counts.None? {
        return UnknownField(field);
      }
      if field !in columns {
        return Info(map[]);
      }
      var info: map<string, Dist> := map[];
      var pending := counts.value.Keys;
      while pending != {}
        invariant pending <= counts.value.Keys
        invariant forall v :: v in info <==> v in counts.value && v !in pending
        invariant forall v :: v in info ==> info[v] == Dist(counts.value[v], CountValue(sampleMetadata, field, v))
        decreases pending
      {
        var v :| v in pending;
        info := info[v := Dist(counts.value[v], GetValueSamples(field, v).value)];
        pending := pending - {v};
      }
      InfoSpecEntries(tb, sequence, field, threshold);
      var spec := InfoSpec(tb, sequence, field, threshold).values;
      assert forall v :: v in info <==> v in spec;
      assert info == spec;
      r := Info(info);
    }
  }

  /**
   * The counts loop of get_info: one per sample above t, under that sample's
   * value of field; None stands for the KeyError raised when such a sample
   * exists and field is not a column.
   */
  method CountsByValue(tb: Table, row: seq<real>, field: string, t: real) returns (counts: Option<map<string, nat>>)
    requires Shaped(tb) && |row| == |tb.samples|
    ensures counts.None? <==> field !in tb.columns && CountAbove(row, t) > 0
    ensures counts.Some? && field !in tb.columns ==> counts.value == map[]
    ensures counts.Some? && field in tb.columns ==>
      (forall v :: v in counts.value <==> PresentWith(row, tb.samples, field, v, t, |row|) > 0)
      && (forall v :: v in counts.value ==> counts.value[v] == PresentWith(row, tb.samples, field, v, t, |row|))
  {
    var m: map<string, nat> := map[];
    for j := 0 to |row|
      invariant field !in tb.columns ==> m == map[] && CountAbove(row[..j], t) == 0
      invariant field in tb.columns ==> forall v :: v in m <==> PresentWith(row, tb.samples, field, v, t, j) > 0
      invariant field in tb.columns ==> forall v :: v in m ==> m[v] == PresentWith(row, tb.samples, field, v, t, j)
    {
      assert row[..j + 1][..j] == row[..j];
      if row[j] > t {
        if field !in tb.columns {
          return None;
        }
        var v := tb.samples[j][field];
        m := m[v := (if v in m then m[v] else 0) + 1];
      }
    }
    assert row[..|row|] == row;
    counts := Some(m);
  }

  /** Raising the threshold never increases get_total_observed. */
  lemma TotalObservedAntitone(db: DBData, sequence: string, t1: real, t2: real)
    requires db.Valid() && t1 <= t2 && sequence in db.fids
    ensures db.GetTotalObserved(sequence, t2).value <= db.GetTotalObserved(sequence, t1).value
  {
    CountAboveAntitone(db.data[db.GetSeqPos(sequence).value], t1, t2);
  }
}
