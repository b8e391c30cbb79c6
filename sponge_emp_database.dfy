/**
 * The abundance store of sponge_emp/database.py: a loaded biom table joined
 * with its mapping file, answering per-sequence and per-field-value counts.
 * Its `get_info` takes one or several query sequences and drops values whose
 * accumulated count is below `mincounts`.
 */
module SpongeEmpDatabase {
  import opened Text
  import opened Abundance

  /** get_info either returns {value: distribution} or raises KeyError for a field that is not a column. */
  datatype InfoResult = Info(values: map<string, Dist>) | UnknownField(field: string)

  /** Whether query sequence q is a feature of the table with abundance above t in sample j. */
  predicate PresentIn(tb: Table, q: string, j: nat, t: real)
    requires Shaped(tb) && j < |tb.samples|
  {
    match IndexOf(tb.fids, q)
    case None => false
    case Some(p) => tb.data[p][j] > t
  }

  /** allsum[j]: how many of the query sequences are present in sample j. */
  function Hits(tb: Table, qs: seq<string>, j: nat, t: real): (r: nat)
    requires Shaped(tb) && j < |tb.samples|
    ensures r <= |qs|
  {
    if qs == [] then 0
    else Hits(tb, qs[..|qs| - 1], j, t) + (if PresentIn(tb, qs[|qs| - 1], j, t) then 1 else 0)
  }

  /** counts[v] over the first n samples: the hits of the samples whose field is v. */
  function Tally(tb: Table, qs: seq<string>, field: string, v: string, t: real, n: nat): nat
    requires Shaped(tb) && field in tb.columns && n <= |tb.samples|
  {
    if n == 0 then 0
    else Tally(tb, qs, field, v, t, n - 1) + (if tb.samples[n - 1][field] == v then Hits(tb, qs, n - 1, t) else 0)
  }

  /**
   * What get_info returns: for every value of field whose tally is positive
   * and at least mincounts, its tally and the number of samples with that
   * value times the number of query sequences.
   */
  function InfoSpec(tb: Table, qs: seq<string>, field: string, t: real, mincounts: int): InfoResult
    requires Shaped(tb)
  {
    if field !in tb.columns then
      if exists j :: 0 <= j < |tb.samples| && Hits(tb, qs, j, t) > 0 then UnknownField(field) else Info(map[])
    else
      var n := |tb.samples|;
      Info(map v | v in ValuesOf(tb.samples, field) && Tally(tb, qs, field, v, t, n) > 0 && Tally(tb, qs, field, v, t, n) >= mincounts
                 :: Dist(Tally(tb, qs, field, v, t, n), CountValue(tb.samples, field, v) * |qs|))
  }

  /** A positive tally for v means some sample carries v. */
  lemma {:induction false} TallyPositiveHasValue(tb: Table, qs: seq<string>, field: string, v: string, t: real, n: nat)
    requires Shaped(tb) && field in tb.columns && n <= |tb.samples|
    requires Tally(tb, qs, field, v, t, n) > 0
    ensures exists k :: 0 <= k < n && tb.samples[k][field] == v
  {
    if tb.samples[n - 1][field] != v || Hits(tb, qs, n - 1, t) == 0 {
      TallyPositiveHasValue(tb, qs, field, v, t, n - 1);
    }
  }

  /** Each sample with value v contributes at most one hit per query sequence. */
  lemma {:induction false} TallyBounded(tb: Table, qs: seq<string>, field: string, v: string, t: real, n: nat)
    requires Shaped(tb) && field in tb.columns && n <= |tb.samples|
    ensures Tally(tb, qs, field, v, t, n) <= CountValueUpTo(tb.samples, field, v, n) * |qs|
  {
    if n > 0 {
      TallyBounded(tb, qs, field, v, t, n - 1);
      var c := CountValueUpTo(tb.samples, field, v, n - 1);
      var m := |qs|;
      if tb.samples[n - 1][field] == v {
        assert CountValueUpTo(tb.samples, field, v, n) == c + 1;
        assert (c + 1) * m == c * m + m;
        assert Tally(tb, qs, field, v, t, n) <= c * m + Hits(tb, qs, n - 1, t);
      } else {
        assert CountValueUpTo(tb.samples, field, v, n) == c;
        assert Tally(tb, qs, field, v, t, n) == Tally(tb, qs, field, v, t, n - 1);
      }
    }
  }

  /**
   * The entries of get_info: a value is returned exactly when its tally is at
   * least 1 and at least mincounts; its observed count is the tally, its total
   * is get_value_samples times the number of query sequences, and observed
   * never exceeds total.
   */
  lemma InfoSpecEntries(tb: Table, qs: seq<string>, field: string, t: real, mincounts: int)
    requires Shaped(tb) && field in tb.columns
    ensures InfoSpec(tb, qs, field, t, mincounts).Info?
    ensures var info := InfoSpec(tb, qs, field, t, mincounts).values;
      var n := |tb.samples|;
      forall v :: (v in info <==> Tally(tb, qs, field, v, t, n) >= 1 && Tally(tb, qs, field, v, t, n) >= mincounts)
        && (v in info ==> info[v] == Dist(Tally(tb, qs, field, v, t, n), CountValue(tb.samples, field, v) * |qs|)
                          && info[v].observed <= info[v].total)
  {
    var n := |tb.samples|;
    forall v | Tally(tb, qs, field, v, t, n) >= 1
      ensures v in ValuesOf(tb.samples, field)
      ensures Tally(tb, qs, field, v, t, n) <= CountValue(tb.samples, field, v) * |qs|
    {
      TallyPositiveHasValue(tb, qs, field, v, t, n);
      TallyBounded(tb, qs, field, v, t, n);
    }
  }

  /** Every returned distribution has 1 <= observed <= total. */
  lemma InfoSpecBounded(tb: Table, qs: seq<string>, field: string, t: real, mincounts: int)
    requires Shaped(tb)
    requires InfoSpec(tb, qs, field, t, mincounts).Info?
    ensures var info := InfoSpec(tb, qs, field, t, mincounts).values;
      forall v :: v in info ==> 1 <= info[v].observed <= info[v].total
  {
    if field in tb.columns {
      InfoSpecEntries(tb, qs, field, t, mincounts);
    }
  }

  /** A value observed c >= 1 times is reported when mincounts is c and omitted when it is c + 1. */
  lemma MincountsBoundary(tb: Table, qs: seq<string>, field: string, v: string, t: real, c: nat)
    requires Shaped(tb) && field in tb.columns && c >= 1
    requires Tally(tb, qs, field, v, t, |tb.samples|) == c
    ensures InfoSpec(tb, qs, field, t, c).Info? && v in InfoSpec(tb, qs, field, t, c).values
    ensures InfoSpec(tb, qs, field, t, c + 1).Info? && v !in InfoSpec(tb, qs, field, t, c + 1).values
  {
    InfoSpecEntries(tb, qs, field, t, c);
    InfoSpecEntries(tb, qs, field, t, c + 1);
  }

  class DBData {
    var data: Matrix
    var sids: seq<string>
    var fids: seq<string>
    var sampleMetadata: seq<Record>
    var columns: seq<string>
    var taxonomy: Option<seq<string>>
    var seqLength: nat

    /** The store before import_data: nothing loaded yet. */
    constructor ()
      ensures data == [] && sids == [] && fids == [] && sampleMetadata == [] && columns == []
      ensures taxonomy == None && seqLength == 0
    {
      data, sids, fids, sampleMetadata, columns := [], [], [], [], [];
      taxonomy, seqLength := None, 0;
    }

    function Snapshot(): Table
      reads this
    {
      Table(data, fids, sampleMetadata, columns)
    }

    ghost predicate Valid()
      reads this
    {
      && Shaped(Snapshot())
      && |fids| > 0
      && seqLength == |fids[0]|
      && (taxonomy.Some? ==> |taxonomy.value| == |fids|)
    }

    /**
     * import_data: normalise the table, keep only the samples the mapping file
     * knows (in order, with their records), and take the canonical sequence
     * length from the first feature id.
     */
    method ImportData(table: BiomTable, mapping: MappingFile)
      requires ValidTable(table) && ValidMapping(mapping)
      modifies this
      ensures Valid()
      ensures Snapshot() == Load(table, mapping)
      ensures sids == table.sampleIds && taxonomy == table.taxonomy
      ensures seqLength == |table.featureIds[0]|
      ensures forall k :: 0 <= k < |sampleMetadata| ==> ColumnSum(data, k) == 1.0
    {
      var loaded := Load(table, mapping);
      LoadAlignsAndNormalizes(table, mapping);
      data := loaded.data;
      sids := table.sampleIds;
      sampleMetadata := loaded.samples;
      columns := loaded.columns;
      fids := table.featureIds;
      taxonomy := table.taxonomy;
      seqLength := |fids[0]|;
    }

    /** get_fields: the metadata columns, in order, minus the excluded names. */
    function GetFields(exclude: seq<string>): (r: seq<string>)
      reads this
      ensures |r| <= |columns|
      ensures forall c :: c in r <==> c in columns && c !in exclude
    {
      Without(columns, exclude)
    }

    /** get_total_samples: the number of matrix columns, one per retained sample. */
    function GetTotalSamples(): (r: nat)
      reads this
      requires Valid()
      ensures forall i :: 0 <= i < |data| ==> |data[i]| == r
    {
      |sampleMetadata|
    }

    /** get_seq_pos: the row whose feature id equals the query exactly, or None. */
    function GetSeqPos(sequence: string): (r: Option<nat>)
      reads this
      ensures r.Some? ==> r.value < |fids| && fids[r.value] == sequence
      ensures r.None? <==> sequence !in fids
    {
      IndexOf(fids, sequence)
    }

    /**
     * get_taxonomy: "na" when the query is shorter than the canonical length,
     * when the table has no taxonomy, or when its truncated upper-cased form is
     * not a feature; otherwise that feature's taxonomy.
     */
    function GetTaxonomy(sequence: string): (r: string)
      reads this
      requires Valid()
      ensures |sequence| < seqLength || taxonomy.None? || Upper(sequence[..seqLength]) !in fids ==> r == "na"
      ensures |sequence| >= seqLength && taxonomy.Some? && Upper(sequence[..seqLength]) in fids ==>
        exists p :: 0 <= p < |fids| && fids[p] == Upper(sequence[..seqLength]) && r == taxonomy.value[p]
    {
      if |sequence| < seqLength then "na"
      else
        var key := Upper(sequence[..seqLength]);
        if taxonomy.None? then "na"
        else
          match GetSeqPos(key)
          case None => "na"
          case Some(p) => taxonomy.value[p]
    }

    /**
     * get_total_observed: 0 for an unknown sequence, otherwise the number of
     * samples where its abundance is strictly above the threshold.
     */
    function GetTotalObserved(sequence: string, threshold: real): (r: nat)
      reads this
      requires Valid()
      ensures r <= GetTotalSamples()
      ensures sequence !in fids ==> r == 0
      ensures forall p :: 0 <= p < |fids| && fids[p] == sequence && p == IndexOf(fids, sequence).value ==>
        (r == 0 <==> forall j :: 0 <= j < |sampleMetadata| ==> data[p][j] <= threshold)
    {
      match GetSeqPos(sequence)
      case None => 0
      case Some(p) => CountAbove(data[p], threshold)
    }

    /**
     * get_value_samples: how many samples carry exactly this value in field;
     * None where the metadata frame has no such column (the KeyError).
     */
    function GetValueSamples(field: string, value: string): (r: Option<nat>)
      reads this
      requires Valid()
      ensures r.None? <==> field !in columns
      ensures r.Some? ==> r.value <= GetTotalSamples()
      ensures r.Some? ==> (r.value == 0 <==> forall k :: 0 <= k < |sampleMetadata| ==> sampleMetadata[k][field] != value)
    {
      if field in columns then Some(CountValue(sampleMetadata, field, value)) else None
    }

    /**
     * get_info: accumulate, per sample, how many query sequences are present
     * there (allsum), add those up per value of field (counts), and keep the
     * values reaching mincounts, with total = get_value_samples * len(sequence).
     */
    method GetInfo(input: SeqInput, field: string, threshold: real, mincounts: int) returns (r: InfoResult)
      requires Valid()
      ensures r == InfoSpec(Snapshot(), AsList(input), field, threshold, mincounts)
    {
      var tb := Snapshot();
      var qs := AsList(input);
      var allsum := AllSums(tb, qs, threshold);
      var counts := CountsByValue(tb, qs, allsum, field, threshold);
      if counts.None? {
        return UnknownField(field);
      }
      if field !in columns {
        return Info(map[]);
      }
      var info := KeepFrequent(tb, qs, counts.value, field, threshold, mincounts);
      r := Info(info);
    }
  }

  /** The allsum loop of get_info: for each query sequence found, add one to every sample where it is above t. */
  method AllSums(tb: Table, qs: seq<string>, t: real) returns (allsum: seq<nat>)
    requires Shaped(tb)
    ensures |allsum| == |tb.samples|
    ensures forall j :: 0 <= j < |allsum| ==> allsum[j] == Hits(tb, qs, j, t)
  {
    var n := |tb.samples|;
    var sums := new nat[n](_ => 0);
    for k := 0 to |qs|
      invariant forall j :: 0 <= j < n ==> sums[j] == Hits(tb, qs[..k], j, t)
    {
      assert qs[..k + 1][..k] == qs[..k];
      var pos := IndexOf(tb.fids, qs[k]);
      if pos.Some? {
        var row := tb.data[pos.value];
        for j := 0 to n
          invariant forall i :: 0 <= i < j ==> sums[i] == Hits(tb, qs[..k + 1], i, t)
          invariant forall i :: j <= i < n ==> sums[i] == Hits(tb, qs[..k], i, t)
        {
          if row[j] > t {
            sums[j] := sums[j] + 1;
          }
        }
      }
    }
    assert qs[..|qs|] == qs;
    allsum := sums[..];
  }

  /**
   * The counts loop of get_info: sum allsum per value of field over the samples
   * with a non-zero allsum; None stands for the KeyError raised when such a
   * sample exists and field is not a column.
   */
  method CountsByValue(tb: Table, qs: seq<string>, allsum: seq<nat>, field: string, t: real) returns (counts: Option<map<string, nat>>)
    requires Shaped(tb) && |allsum| == |tb.samples|
    requires forall j :: 0 <= j < |allsum| ==> allsum[j] == Hits(tb, qs, j, t)
    ensures counts.None? <==> field !in tb.columns && exists j :: 0 <= j < |tb.samples| && Hits(tb, qs, j, t) > 0
    ensures counts.Some? && field !in tb.columns ==> counts.value == map[]
    ensures counts.Some? && field in tb.columns ==>
      (forall v :: v in counts.value <==> Tally(tb, qs, field, v, t, |tb.samples|) > 0)
      && (forall v :: v in counts.value ==> counts.value[v] == Tally(tb, qs, field, v, t, |tb.samples|))
  {
    var m: map<string, nat> := map[];
    for j := 0 to |tb.samples|
      invariant field !in tb.columns ==> m == map[] && forall i :: 0 <= i < j ==> allsum[i] == 0
      invariant field in tb.columns ==> forall v :: v in m <==> Tally(tb, qs, field, v, t, j) > 0
      invariant field in tb.columns ==> forall v :: v in m ==> m[v] == Tally(tb, qs, field, v, t, j)
    {
      if allsum[j] != 0 {
        if field !in tb.columns {
          assert Hits(tb, qs, j, t) > 0;
          return None;
        }
        var v := tb.samples[j][field];
        m := m[v := (if v in m then m[v] else 0) + allsum[j]];
      }
    }
    counts := Some(m);
  }

  /** The final loop of get_info: keep the values whose count reaches mincounts. */
  method KeepFrequent(tb: Table, qs: seq<string>, counts: map<string, nat>, field: string, t: real, mincounts: int)
    returns (info: map<string, Dist>)
    requires Shaped(tb) && field in tb.columns
    requires forall v :: v in counts <==> Tally(tb, qs, field, v, t, |tb.samples|) > 0
    requires forall v :: v in counts ==> counts[v] == Tally(tb, qs, field, v, t, |tb.samples|)
    ensures Info(info) == InfoSpec(tb, qs, field, t, mincounts)
  {
    info := map[];
    var pending := counts.Keys;
    while pending != {}
      invariant pending <= counts.Keys
      invariant forall v :: v in info <==> v in counts && v !in pending && counts[v] >= mincounts
      invariant forall v :: v in info ==> info[v] == Dist(counts[v], CountValue(tb.samples, field, v) * |qs|)
      decreases pending
    {
      var v :| v in pending;
      if counts[v] >= mincounts {
        info := info[v := Dist(counts[v], CountValue(tb.samples, field, v) * |qs|)];
      }
      pending := pending - {v};
    }
    InfoSpecEntries(tb, qs, field, t, mincounts);
    var spec := InfoSpec(tb, qs, field, t, mincounts).values;
    assert forall v :: v in info <==> v in spec;
    assert info == spec;
  }

  /** Raising the threshold never increases get_total_observed. */
  lemma TotalObservedAntitone(db: DBData, sequence: string, t1: real, t2: real)
    requires db.Valid() && t1 <= t2
    ensures db.GetTotalObserved(sequence, t2) <= db.GetTotalObserved(sequence, t1)
  {
    var pos := db.GetSeqPos(sequence);
    if pos.Some? {
      CountAboveAntitone(db.data[pos.value], t1, t2);
    }
  }
}
