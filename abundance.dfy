/**
 * Value-level logic shared by both versions of the abundance store (`DBData`):
 * the inputs of a load, the per-sample normalisation, the inner join of the
 * matrix columns with the mapping file, exact-match row lookup and the counts
 * every query is built from.
 */
module Abundance {
  import opened Text

  /** Rows are features (sequences), columns are samples. */
  type Matrix = seq<seq<real>>

  /** One row of the mapping file: field name to value. */
  type Record = map<string, string>

  /** A biom table as read from disk, before normalisation. */
  datatype BiomTable = BiomTable(
    matrix: Matrix,
    sampleIds: seq<string>,
    featureIds: seq<string>,
    taxonomy: Option<seq<string>>)

  /** The tab-delimited mapping file: its header, and the record of each sample id. */
  datatype MappingFile = MappingFile(columns: seq<string>, records: map<string, Record>)

  /** The state a loaded store answers queries from. */
  datatype Table = Table(data: Matrix, fids: seq<string>, samples: seq<Record>, columns: seq<string>)

  /** observed_samples / total_samples of one field value. */
  datatype Dist = Dist(observed: nat, total: nat)

  /** A query names one sequence or a list of them. */
  datatype SeqInput = One(sequence: string) | Many(sequences: seq<string>)

  function AsList(input: SeqInput): (r: seq<string>)
    ensures input.One? ==> r == [input.sequence]
    ensures input.Many? ==> r == input.sequences
  {
    match input
    case One(s) => [s]
    case Many(ss) => ss
  }

  predicate Rectangular(m: Matrix, cols: nat)
  {
    forall i :: 0 <= i < |m| ==> |m[i]| == cols
  }

  predicate HasColumns(rec: Record, columns: seq<string>)
  {
    forall c :: c in columns ==> c in rec
  }

  /** The sum of column j over all rows. */
  function ColumnSum(m: Matrix, j: nat): real
    requires forall i :: 0 <= i < |m| ==> j < |m[i]|
  {
    if m == [] then 0.0 else m[0][j] + ColumnSum(m[1..], j)
  }

  /**
   * What loading takes for granted of a biom table: one row per feature id,
   * one column per sample id, at least one feature (the canonical length is
   * read off the first), non-negative abundances and no empty sample.
   */
  predicate ValidTable(t: BiomTable)
  {
    && |t.featureIds| > 0
    && |t.matrix| == |t.featureIds|
    && Rectangular(t.matrix, |t.sampleIds|)
    && (forall i, j :: 0 <= i < |t.matrix| && 0 <= j < |t.sampleIds| ==> t.matrix[i][j] >= 0.0)
    && (forall j :: 0 <= j < |t.sampleIds| ==> ColumnSum(t.matrix, j) > 0.0)
    && (t.taxonomy.Some? ==> |t.taxonomy.value| == |t.featureIds|)
  }

  /** Missing cells are filled with "na", so every record has every column. */
  predicate ValidMapping(md: MappingFile)
  {
    forall id :: id in md.records ==> HasColumns(md.records[id], md.columns)
  }

  /** Each column divided by its sum (table.norm(axis='sample')). */
  function Normalize(m: Matrix, n: nat): (r: Matrix)
    requires Rectangular(m, n)
    requires forall j :: 0 <= j < n ==> ColumnSum(m, j) > 0.0
    ensures |r| == |m| && Rectangular(r, n)
  {
    seq(|m|, i requires 0 <= i < |m| => seq(n, j requires 0 <= j < n => m[i][j] / ColumnSum(m, j)))
  }

  /** Dividing every entry of a column by c divides its sum by c. */
  lemma {:induction false} ScaledColumnSum(a: Matrix, b: Matrix, j: nat, c: real)
    requires |a| == |b| && c > 0.0
    requires forall i :: 0 <= i < |a| ==> j < |a[i]| && j < |b[i]|
    requires forall i :: 0 <= i < |a| ==> b[i][j] == a[i][j] / c
    ensures ColumnSum(b, j) == ColumnSum(a, j) / c
  {
    if a != [] {
      ScaledColumnSum(a[1..], b[1..], j, c);
      calc {
        ColumnSum(b, j);
        b[0][j] + ColumnSum(b[1..], j);
        a[0][j] / c + ColumnSum(a[1..], j) / c;
        (a[0][j] + ColumnSum(a[1..], j)) / c;
      }
    }
  }

  /** After normalisation every sample's abundances sum to 1. */
  lemma NormalizedColumnsSumToOne(m: Matrix, n: nat)
    requires Rectangular(m, n)
    requires forall j :: 0 <= j < n ==> ColumnSum(m, j) > 0.0
    ensures forall j :: 0 <= j < n ==> ColumnSum(Normalize(m, n), j) == 1.0
  {
    var r := Normalize(m, n);
    forall j | 0 <= j < n
      ensures ColumnSum(r, j) == 1.0
    {
      var c := ColumnSum(m, j);
      ScaledColumnSum(m, r, j, c);
      assert c / c == 1.0;
    }
  }

  /** The columns at the given positions, in that order (data[:, pos]). */
  function SelectColumns(m: Matrix, n: nat, pos: seq<nat>): (r: Matrix)
    requires Rectangular(m, n)
    requires forall k :: 0 <= k < |pos| ==> pos[k] < n
    ensures |r| == |m| && Rectangular(r, |pos|)
    ensures forall i, k :: 0 <= i < |m| && 0 <= k < |pos| ==> r[i][k] == m[i][pos[k]]
  {
    seq(|m|, i requires 0 <= i < |m| => seq(|pos|, k requires 0 <= k < |pos| => m[i][pos[k]]))
  }

  /** A copied column has the sum of the column it was copied from. */
  lemma {:induction false} CopiedColumnSum(a: Matrix, b: Matrix, p: nat, k: nat)
    requires |a| == |b|
    requires forall i :: 0 <= i < |a| ==> p < |a[i]| && k < |b[i]| && b[i][k] == a[i][p]
    ensures ColumnSum(b, k) == ColumnSum(a, p)
  {
    if a != [] {
      CopiedColumnSum(a[1..], b[1..], p, k);
    }
  }

  /**
   * The positions, in increasing order, of the ids that are keys of the
   * mapping file (common_samples_pos).
   */
  function CommonFrom(ids: seq<string>, keys: set<string>, from: nat): (r: seq<nat>)
    requires from <= |ids|
    ensures forall k :: 0 <= k < |r| ==> from <= r[k] < |ids| && ids[r[k]] in keys
    ensures forall k, l :: 0 <= k < l < |r| ==> r[k] < r[l]
    ensures forall p :: from <= p < |ids| && ids[p] in keys ==> p in r
    decreases |ids| - from
  {
    if from == |ids| then []
    else if ids[from] in keys then [from] + CommonFrom(ids, keys, from + 1)
    else CommonFrom(ids, keys, from + 1)
  }

  /**
   * The inner join: the retained sample columns are exactly those whose id
   * is in the mapping file, each once, in their original order.
   */
  function CommonPositions(ids: seq<string>, keys: set<string>): (pos: seq<nat>)
    ensures forall k :: 0 <= k < |pos| ==> pos[k] < |ids| && ids[pos[k]] in keys
    ensures forall k, l :: 0 <= k < l < |pos| ==> pos[k] < pos[l]
    ensures forall p :: 0 <= p < |ids| ==> (p in pos <==> ids[p] in keys)
  {
    CommonFrom(ids, keys, 0)
  }

  /** The state import_data leaves behind, as a value. */
  function Load(t: BiomTable, md: MappingFile): (tb: Table)
    requires ValidTable(t) && ValidMapping(md)
    ensures |tb.data| == |tb.fids| > 0 && Rectangular(tb.data, |tb.samples|)
    ensures forall k :: 0 <= k < |tb.samples| ==> HasColumns(tb.samples[k], tb.columns)
  {
    var pos := CommonPositions(t.sampleIds, md.records.Keys);
    var data := SelectColumns(Normalize(t.matrix, |t.sampleIds|), |t.sampleIds|, pos);
    var samples := seq(|pos|, k requires 0 <= k < |pos| => md.records[t.sampleIds[pos[k]]]);
    Table(data, t.featureIds, samples, md.columns)
  }

  /**
   * After loading, the metadata rows line up with the matrix columns: column k
   * holds sample ids[pos[k]], scaled by that column's total, and row k is
   * that sample's record; the feature ids and metadata columns are the
   * table's and the mapping file's; and every retained column sums to 1.
   */
  lemma {:induction false} LoadAlignsAndNormalizes(t: BiomTable, md: MappingFile)
    requires ValidTable(t) && ValidMapping(md)
    ensures var pos := CommonPositions(t.sampleIds, md.records.Keys);
      var tb := Load(t, md);
      && tb.fids == t.featureIds
      && tb.columns == md.columns
      && |tb.data| == |t.matrix|
      && |tb.samples| == |pos|
      && (forall k :: 0 <= k < |pos| ==> tb.samples[k] == md.records[t.sampleIds[pos[k]]])
      && (forall i, k :: 0 <= i < |tb.data| && 0 <= k < |pos| ==>
            tb.data[i][k] == t.matrix[i][pos[k]] / ColumnSum(t.matrix, pos[k]))
      && (forall k :: 0 <= k < |pos| ==> ColumnSum(tb.data, k) == 1.0)
  {
    var pos := CommonPositions(t.sampleIds, md.records.Keys);
    var n := |t.sampleIds|;
    var norm := Normalize(t.matrix, n);
    var tb := Load(t, md);
    NormalizedColumnsSumToOne(t.matrix, n);
    forall k | 0 <= k < |pos|
      ensures ColumnSum(tb.data, k) == 1.0
    {
      CopiedColumnSum(norm, tb.data, pos[k], k);
    }
  }

  /** The first row whose feature id equals s exactly, or None. */
  function IndexOf(ids: seq<string>, s: string): (r: Option<nat>)
    ensures r.Some? ==> r.value < |ids| && ids[r.value] == s && s !in ids[..r.value]
    ensures r.None? <==> s !in ids
  {
    if ids == [] then None
    else if ids[0] == s then Some(0)
    else
      match IndexOf(ids[1..], s)
      case None => None
      case Some(k) =>
        assert ids[..k + 1] == [ids[0]] + ids[1..][..k];
        Some(k + 1)
  }

  /** How many entries of a row are strictly above the threshold. */
  function CountAbove(row: seq<real>, t: real): (r: nat)
    ensures r <= |row|
    ensures r == 0 <==> forall j :: 0 <= j < |row| ==> row[j] <= t
  {
    if row == [] then 0
    else CountAbove(row[..|row| - 1], t) + (if row[|row| - 1] > t then 1 else 0)
  }

  /** Raising the threshold never increases the count. */
  lemma {:induction false} CountAboveAntitone(row: seq<real>, t1: real, t2: real)
    requires t1 <= t2
    ensures CountAbove(row, t2) <= CountAbove(row, t1)
  {
    if row != [] {
      CountAboveAntitone(row[..|row| - 1], t1, t2);
    }
  }

  predicate AllHave(samples: seq<Record>, field: string)
  {
    forall k :: 0 <= k < |samples| ==> field in samples[k]
  }

  /** How many of the first n samples carry value v in field. */
  function CountValueUpTo(samples: seq<Record>, field: string, v: string, n: nat): (r: nat)
    requires n <= |samples| && AllHave(samples, field)
    ensures r <= n
    ensures r == 0 <==> forall k :: 0 <= k < n ==> samples[k][field] != v
  {
    if n == 0 then 0
    else CountValueUpTo(samples, field, v, n - 1) + (if samples[n - 1][field] == v then 1 else 0)
  }

  function CountValue(samples: seq<Record>, field: string, v: string): nat
    requires AllHave(samples, field)
  {
    CountValueUpTo(samples, field, v, |samples|)
  }

  /** The values field takes over all samples. */
  function ValuesOf(samples: seq<Record>, field: string): set<string>
    requires AllHave(samples, field)
  {
    set k | 0 <= k < |samples| :: samples[k][field]
  }

  /** The columns in order, without the excluded names. */
  function Without(columns: seq<string>, exclude: seq<string>): (r: seq<string>)
    ensures |r| <= |columns|
    ensures forall c :: c in r <==> c in columns && c !in exclude
  {
    if columns == [] then []
    else if columns[0] in exclude then Without(columns[1..], exclude)
    else [columns[0]] + Without(columns[1..], exclude)
  }

  /** A single column survives exactly when it is not excluded. */
  lemma WithoutSingle(c: string, exclude: seq<string>)
    ensures Without([c], exclude) == if c in exclude then [] else [c]
  {
    assert [c][1..] == [];
  }

  /**
   * Filtering distributes over concatenation, so the kept columns keep
   * their order and their multiplicity.
   */
  lemma {:induction false} WithoutAppend(a: seq<string>, b: seq<string>, exclude: seq<string>)
    ensures Without(a + b, exclude) == Without(a, exclude) + Without(b, exclude)
    decreases |a|
  {
    if a == [] {
      assert a + b == b;
    } else {
      assert (a + b)[0] == a[0];
      assert (a + b)[1..] == a[1..] + b;
      WithoutAppend(a[1..], b, exclude);
    }
  }

  /** A well-formed snapshot: one row per feature, one column and one full record per sample. */
  predicate Shaped(tb: Table)
  {
    && |tb.data| == |tb.fids|
    && Rectangular(tb.data, |tb.samples|)
    && (forall k :: 0 <= k < |tb.samples| ==> HasColumns(tb.samples[k], tb.columns))
  }
}
