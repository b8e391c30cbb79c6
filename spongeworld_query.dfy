/**
 * get_sequence_info of spongeworld/spongeworld.py: turn one or several query
 * sequences into the total/observed sample counts and the per-field value
 * distributions, asking the (sponge_emp) abundance store once per field.
 */
module Spongeworld {
  import opened Text
  import opened Abundance
  import DB = SpongeEmpDatabase

  datatype QueryResult = QueryResult(totalSamples: nat, totalObserved: nat, info: map<string, map<string, Dist>>)

  /** The (err, res) pair: an error message, a result, or the KeyError of get_info propagating out. */
  datatype Answer = Error(message: string) | Success(result: QueryResult) | KeyError(field: string)

  /**
   * The sequences that survive: those at least L long, each truncated to L
   * characters and upper-cased, in input order.
   */
  function Usable(L: nat, seqs: seq<string>): (r: seq<string>)
    ensures |r| <= |seqs|
    ensures forall i :: 0 <= i < |r| ==> |r[i]| == L
    ensures r == [] <==> forall i :: 0 <= i < |seqs| ==> |seqs[i]| < L
  {
    if seqs == [] then []
    else
      var rest := Usable(L, seqs[..|seqs| - 1]);
      var s := seqs[|seqs| - 1];
      assert forall i :: 0 <= i < |seqs| - 1 ==> seqs[..|seqs| - 1][i] == seqs[i];
      if |s| < L then rest else rest + [Upper(s[..L])]
  }

  /**
   * A sequence is looked up exactly when it is at least L long, and then in
   * its truncated, upper-cased form.
   */
  lemma {:induction false} UsableMembers(L: nat, seqs: seq<string>)
    ensures forall i :: 0 <= i < |seqs| && |seqs[i]| >= L ==> Upper(seqs[i][..L]) in Usable(L, seqs)
    ensures forall x :: x in Usable(L, seqs) ==> exists i :: 0 <= i < |seqs| && |seqs[i]| >= L && x == Upper(seqs[i][..L])
  {
    if seqs != [] {
      var init := seqs[..|seqs| - 1];
      UsableMembers(L, init);
      assert forall i :: 0 <= i < |init| ==> init[i] == seqs[i];
    }
  }

  /** The sum of get_total_observed over the given sequences. */
  function ObservedSum(db: DB.DBData, qs: seq<string>, t: real): nat
    reads db
    requires db.Valid()
  {
    if qs == [] then 0 else ObservedSum(db, qs[..|qs| - 1], t) + db.GetTotalObserved(qs[|qs| - 1], t)
  }

  /** Each sequence is observed in at most every sample. */
  lemma {:induction false} ObservedSumBounded(db: DB.DBData, qs: seq<string>, t: real)
    requires db.Valid()
    ensures ObservedSum(db, qs, t) <= db.GetTotalSamples() * |qs|
  {
    if qs != [] {
      ObservedSumBounded(db, qs[..|qs| - 1], t);
      assert db.GetTotalSamples() * |qs| == db.GetTotalSamples() * (|qs| - 1) + db.GetTotalSamples();
    }
  }

  /** The first requested field for which get_info raises KeyError, if any. */
  function FirstUnknown(tb: Table, qs: seq<string>, fields: seq<string>, t: real, mincounts: int): (r: Option<string>)
    requires Shaped(tb)
    ensures r.None? <==> forall i :: 0 <= i < |fields| ==> DB.InfoSpec(tb, qs, fields[i], t, mincounts).Info?
    ensures r.Some? ==> r.value in fields && r.value !in tb.columns
  {
    if fields == [] then None
    else
      var prev := FirstUnknown(tb, qs, fields[..|fields| - 1], t, mincounts);
      var f := fields[|fields| - 1];
      assert forall i :: 0 <= i < |fields| - 1 ==> fields[..|fields| - 1][i] == fields[i];
      if prev.Some? then prev
      else if DB.InfoSpec(tb, qs, f, t, mincounts).UnknownField? then Some(f)
      else None
  }

  /** The fields asked about: the given list, or every column except '#SampleID'. */
  function RequestedFields(db: DB.DBData, fields: Option<seq<string>>): (r: seq<string>)
    reads db
    ensures fields.Some? ==> r == fields.value
    ensures fields.None? ==> forall c :: c in r <==> c in db.columns && c != "#SampleID"
  {
    if fields.Some? then fields.value else db.GetFields(["#SampleID"])
  }

  /** The get_info answer of every requested field, keyed by field. */
  function FieldInfos(tb: Table, qs: seq<string>, fs: seq<string>, t: real, mincounts: int): map<string, map<string, Dist>>
    requires Shaped(tb) && FirstUnknown(tb, qs, fs, t, mincounts).None?
  {
    map f | f in fs :: DB.InfoSpec(tb, qs, f, t, mincounts).values
  }

  /** What get_sequence_info returns. */
  function SequenceInfoSpec(db: DB.DBData, input: SeqInput, fields: Option<seq<string>>, t: real, mincounts: int): Answer
    reads db
    requires db.Valid()
  {
    var qs := Usable(db.seqLength, AsList(input));
    var fs := RequestedFields(db, fields);
    if qs == [] then Error("All sequences too short. minimal length is " + NatToString(db.seqLength))
    else
      match FirstUnknown(db.Snapshot(), qs, fs, t, mincounts)
      case Some(f) => KeyError(f)
      case None =>
        Success(QueryResult(db.GetTotalSamples() * |qs|, ObservedSum(db, qs, t),
                            FieldInfos(db.Snapshot(), qs, fs, t, mincounts)))
  }

  /**
   * get_sequence_info: keep the usable sequences while adding up their
   * observed counts, fail when none is left, then ask get_info field by field.
   */
  method GetSequenceInfo(db: DB.DBData, input: SeqInput, fields: Option<seq<string>>, threshold: real, mincounts: int)
    returns (a: Answer)
    requires db.Valid()
    ensures a == SequenceInfoSpec(db, input, fields, threshold, mincounts)
  {
    var fs := RequestedFields(db, fields);
    var newseqs, totalObserved := CollectUsable(db, AsList(input), threshold);
    SequenceInfoCases(db, input, fields, threshold, mincounts);
    if |newseqs| == 0 {
      a := Error("All sequences too short. minimal length is " + NatToString(db.seqLength));
    } else {
      var info := AskFields(db, newseqs, fs, threshold, mincounts);
      if info.Some? {
        a := Success(QueryResult(db.GetTotalSamples() * |newseqs|, totalObserved, info.value));
      } else {
        a := KeyError(FirstUnknown(db.Snapshot(), newseqs, fs, threshold, mincounts).value);
      }
    }
  }

  /** The three outcomes of get_sequence_info, one per case. */
  lemma SequenceInfoCases(db: DB.DBData, input: SeqInput, fields: Option<seq<string>>, t: real, mincounts: int)
    requires db.Valid()
    ensures var qs := Usable(db.seqLength, AsList(input));
      var fs := RequestedFields(db, fields);
      var a := SequenceInfoSpec(db, input, fields, t, mincounts);
      && (qs == [] ==> a == Error("All sequences too short. minimal length is " + NatToString(db.seqLength)))
      && (qs != [] && FirstUnknown(db.Snapshot(), qs, fs, t, mincounts).Some? ==>
            a == KeyError(FirstUnknown(db.Snapshot(), qs, fs, t, mincounts).value))
      && (qs != [] && FirstUnknown(db.Snapshot(), qs, fs, t, mincounts).None? ==>
            a == Success(QueryResult(db.GetTotalSamples() * |qs|, ObservedSum(db, qs, t), FieldInfos(db.Snapshot(), qs, fs, t, mincounts))))
  {
  }

  /** The first loop of get_sequence_info: trim, upper-case and count the usable sequences. */
  method CollectUsable(db: DB.DBData, seqs: seq<string>, threshold: real) returns (newseqs: seq<string>, totalObserved: nat)
    requires db.Valid()
    ensures newseqs == Usable(db.seqLength, seqs)
    ensures totalObserved == ObservedSum(db, newseqs, threshold)
  {
    totalObserved := 0;
    newseqs := [];
    var L := db.seqLength;
    for i := 0 to |seqs|
      invariant newseqs == Usable(L, seqs[..i])
      invariant totalObserved == ObservedSum(db, newseqs, threshold)
    {
      assert seqs[..i + 1][..i] == seqs[..i];
      var s := seqs[i];
      if |s| >= L {
        var q := Upper(s[..L]);
        totalObserved := totalObserved + db.GetTotalObserved(q, threshold);
        newseqs := newseqs + [q];
      }
    }
    assert seqs[..|seqs|] == seqs;
  }

  /**
   * The second loop of get_sequence_info: one get_info per field; None when
   * one of them raises KeyError.
   */
  method AskFields(db: DB.DBData, qs: seq<string>, fs: seq<string>, threshold: real, mincounts: int)
    returns (info: Option<map<string, map<string, Dist>>>)
    requires db.Valid()
    ensures info.None? <==> FirstUnknown(db.Snapshot(), qs, fs, threshold, mincounts).Some?
    ensures info.Some? ==> info.value == FieldInfos(db.Snapshot(), qs, fs, threshold, mincounts)
  {
    var tb := db.Snapshot();
    var m: map<string, map<string, Dist>> := map[];
    for i := 0 to |fs|
      invariant FirstUnknown(tb, qs, fs[..i], threshold, mincounts).None?
      invariant m == FieldInfos(tb, qs, fs[..i], threshold, mincounts)
    {
      assert fs[..i + 1][..i] == fs[..i];
      var cinfo := db.GetInfo(Many(qs), fs[i], threshold, mincounts);
      if cinfo.UnknownField? {
        assert FirstUnknown(tb, qs, fs[..i + 1], threshold, mincounts) == Some(fs[i]);
        FirstUnknownExtends(tb, qs, fs, i + 1, threshold, mincounts);
        return None;
      }
      m := m[fs[i] := cinfo.values];
    }
    assert fs[..|fs|] == fs;
    info := Some(m);
  }

  /** Once a prefix of the fields raises, the whole list raises at the same field. */
  lemma {:induction false} FirstUnknownExtends(tb: Table, qs: seq<string>, fields: seq<string>, n: nat, t: real, mincounts: int)
    requires Shaped(tb) && n <= |fields|
    requires FirstUnknown(tb, qs, fields[..n], t, mincounts).Some?
    ensures FirstUnknown(tb, qs, fields, t, mincounts) == FirstUnknown(tb, qs, fields[..n], t, mincounts)
    decreases |fields| - n
  {
    if n < |fields| {
      assert fields[..n + 1][..n] == fields[..n];
      FirstUnknownExtends(tb, qs, fields, n + 1, t, mincounts);
    } else {
      assert fields[..n] == fields;
    }
  }

  /**
   * A successful answer counts every usable sequence against every sample,
   * observes no more than that, has one entry per requested field, and every
   * value it reports has 1 <= observed <= total.
   */
  lemma SuccessIsWellFormed(db: DB.DBData, input: SeqInput, fields: Option<seq<string>>, t: real, mincounts: int)
    requires db.Valid()
    requires SequenceInfoSpec(db, input, fields, t, mincounts).Success?
    ensures var res := SequenceInfoSpec(db, input, fields, t, mincounts).result;
      var qs := Usable(db.seqLength, AsList(input));
      && |qs| >= 1
      && res.totalSamples == db.GetTotalSamples() * |qs|
      && res.totalObserved <= res.totalSamples
      && res.info.Keys == set f | f in RequestedFields(db, fields)
      && forall f, v :: f in res.info && v in res.info[f] ==> 1 <= res.info[f][v].observed <= res.info[f][v].total
  {
    var qs := Usable(db.seqLength, AsList(input));
    var fs := RequestedFields(db, fields);
    ObservedSumBounded(db, qs, t);
    forall f | f in fs
      ensures DB.InfoSpec(db.Snapshot(), qs, f, t, mincounts).Info?
      ensures var info := DB.InfoSpec(db.Snapshot(), qs, f, t, mincounts).values;
        forall v :: v in info ==> 1 <= info[v].observed <= info[v].total
    {
      var i :| 0 <= i < |fs| && fs[i] == f;
      DB.InfoSpecBounded(db.Snapshot(), qs, f, t, mincounts);
    }
  }

  /** Without a field list, every column but '#SampleID' is reported and nothing raises. */
  lemma DefaultFieldsNeverRaise(db: DB.DBData, input: SeqInput, t: real, mincounts: int)
    requires db.Valid()
    requires Usable(db.seqLength, AsList(input)) != []
    ensures SequenceInfoSpec(db, input, None, t, mincounts).Success?
    ensures SequenceInfoSpec(db, input, None, t, mincounts).result.info.Keys
         == set c | c in db.columns && c != "#SampleID"
  {
    var qs := Usable(db.seqLength, AsList(input));
    var fs := RequestedFields(db, None);
    forall i | 0 <= i < |fs|
      ensures DB.InfoSpec(db.Snapshot(), qs, fs[i], t, mincounts).Info?
    {
      DB.InfoSpecEntries(db.Snapshot(), qs, fs[i], t, mincounts);
    }
  }

  /** When every sequence is shorter than seq_length, the answer is the error naming that length. */
  lemma TooShortIsError(db: DB.DBData, input: SeqInput, fields: Option<seq<string>>, t: real, mincounts: int)
    requires db.Valid()
    requires forall s :: s in AsList(input) ==> |s| < db.seqLength
    ensures SequenceInfoSpec(db, input, fields, t, mincounts)
         == Error("All sequences too short. minimal length is " + NatToString(db.seqLength))
  {
    var seqs := AsList(input);
    assert forall i :: 0 <= i < |seqs| ==> seqs[i] in seqs;
  }

  /**
   * Two full-length upper-case sequences observed in 9 and 10 of 20 samples,
   * plus one that is too short: the query counts 40 samples and 19 observations.
   */
  lemma MultiSequenceTotals(db: DB.DBData, good: string, bad: string, t: real, mincounts: int)
    requires db.Valid() && db.GetTotalSamples() == 20 && db.seqLength > 3
    requires |good| == db.seqLength && Upper(good) == good && db.GetTotalObserved(good, t) == 9
    requires |bad| == db.seqLength && Upper(bad) == bad && db.GetTotalObserved(bad, t) == 10
    ensures SequenceInfoSpec(db, Many([good, bad, "AAA"]), None, t, mincounts).Success?
    ensures SequenceInfoSpec(db, Many([good, bad, "AAA"]), None, t, mincounts).result.totalSamples == 40
    ensures SequenceInfoSpec(db, Many([good, bad, "AAA"]), None, t, mincounts).result.totalObserved == 19
  {
    var L := db.seqLength;
    var seqs := [good, bad, "AAA"];
    assert good[..L] == good && bad[..L] == bad;
    assert seqs[..2][..1] == [good];
    assert seqs[..2] == [good, bad];
    assert Usable(L, [good]) == [good];
    assert Usable(L, [good, bad]) == [good, bad];
    assert Usable(L, seqs) == [good, bad];
    assert ObservedSum(db, [good, bad], t) == 19 by {
      assert [good, bad][..1] == [good];
      assert [good][..0] == [];
      assert ObservedSum(db, [good], t) == ObservedSum(db, [], t) + db.GetTotalObserved(good, t);
      assert ObservedSum(db, [good, bad], t) == ObservedSum(db, [good], t) + db.GetTotalObserved(bad, t);
    }
    DefaultFieldsNeverRaise(db, Many(seqs), t, mincounts);
  }
}
