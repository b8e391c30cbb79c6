/**
 * get_annotation_string of sponge_emp/Site_Main_Flask.py: from a
 * get_sequence_info result, keep the field/value distributions whose
 * one-sided binomial p-value is at most the cutoff, order them by fraction
 * (descending) then p-value (ascending), and render each as
 * "field:value (observed/total)".
 */
module SpongeEmpSite {
  import opened Text
  import opened Abundance
  import opened Sorting
  import Spongeworld

  function Pow(x: real, n: nat): (r: real)
    ensures 0.0 <= x ==> 0.0 <= r
  {
    if n == 0 then 1.0 else x * Pow(x, n - 1)
  }

  /** The binomial coefficient, by Pascal's rule. */
  function Choose(n: nat, k: nat): (r: nat)
    ensures k > n ==> r == 0
    ensures k == 0 || k == n ==> r == 1
  {
    if k == 0 then 1 else if n == 0 then 0 else Choose(n - 1, k - 1) + Choose(n - 1, k)
  }

  /** P(X = i) for X ~ Binomial(n, p). */
  function BinomPmf(i: nat, n: nat, p: real): (r: real)
    requires 0.0 <= p <= 1.0
    ensures 0.0 <= r
  {
    if i > n then 0.0 else Choose(n, i) as real * (Pow(p, i) * Pow(1.0 - p, n - i))
  }

  /** scipy's binom.cdf(k, n, p): P(X <= k), computed exactly; 0 for k < 0. */
  function BinomCdf(k: int, n: nat, p: real): (r: real)
    requires 0.0 <= p <= 1.0
    ensures 0.0 <= r
    ensures k >= 0 ==> r >= BinomPmf(k, n, p)
    decreases k
  {
    if k < 0 then 0.0 else BinomCdf(k - 1, n, p) + BinomPmf(k, n, p)
  }

  /** The CDF never decreases in k. */
  lemma {:induction false} BinomCdfMonotone(k1: int, k2: int, n: nat, p: real)
    requires 0.0 <= p <= 1.0 && k1 <= k2
    ensures BinomCdf(k1, n, p) <= BinomCdf(k2, n, p)
    decreases k2 - k1
  {
    if k1 < k2 {
      BinomCdfMonotone(k1, k2 - 1, n, p);
    }
  }

  /** One kept annotation: the distribution of value in field, its fraction and p-value. */
  datatype Entry = Entry(field: string, value: string, observed: nat, total: nat, frac: real, pval: real)

  function Frac(e: Entry): real { e.frac }

  function PVal(e: Entry): real { e.pval }

  /** The output list, or the KeyError of a requested field that is not in the result. */
  datatype Ranking = Ranked(entries: seq<Entry>) | MissingField(field: string)

  /** A result as get_sequence_info produces it: 1 <= observed <= total everywhere, observed <= total overall. */
  ghost predicate WellFormed(q: Spongeworld.QueryResult)
  {
    && q.totalObserved <= q.totalSamples
    && forall f, v :: f in q.info && v in q.info[f] ==> 1 <= q.info[f][v].observed <= q.info[f][v].total
  }

  /** The null presence probability 1 - total_observed / total_samples. */
  function NullPv(q: Spongeworld.QueryResult): (r: real)
    requires q.totalObserved <= q.totalSamples && 0 < q.totalSamples
    ensures 0.0 <= r <= 1.0
  {
    1.0 - q.totalObserved as real / q.totalSamples as real
  }

  /** The entry for value v of field f: fraction observed/total and p-value binom.cdf(total - observed, total, null_pv). */
  function EntryOf(q: Spongeworld.QueryResult, f: string, v: string): (e: Entry)
    requires WellFormed(q) && 0 < q.totalObserved
    requires f in q.info && v in q.info[f]
    ensures e.field == f && e.value == v
    ensures 0.0 < e.frac <= 1.0
  {
    var d := q.info[f][v];
    Entry(f, v, d.observed, d.total, d.observed as real / d.total as real,
          BinomCdf(d.total - d.observed, d.total, NullPv(q)))
  }

  /** The fields ranked: the one named, or every field of the result. */
  function RankedFields(q: Spongeworld.QueryResult, fieldName: Option<string>): set<string>
  {
    if fieldName.Some? then {fieldName.value} else q.info.Keys
  }

  /** The entries of field f whose p-value is at most the cutoff. */
  function KeptIn(q: Spongeworld.QueryResult, f: string, cutoff: real): set<Entry>
    requires WellFormed(q) && 0 < q.totalObserved && f in q.info
  {
    KeptAmong(q, f, cutoff, q.info[f].Keys)
  }

  /** The entries of the given values of field f whose p-value is at most the cutoff. */
  function KeptAmong(q: Spongeworld.QueryResult, f: string, cutoff: real, vals: set<string>): set<Entry>
    requires WellFormed(q) && 0 < q.totalObserved && f in q.info && vals <= q.info[f].Keys
  {
    set v | v in vals && EntryOf(q, f, v).pval <= cutoff :: EntryOf(q, f, v)
  }

  /** One more value adds its entry when it passes the cutoff, and that entry is new. */
  lemma KeptAmongStep(q: Spongeworld.QueryResult, f: string, cutoff: real, vals: set<string>, v: string)
    requires WellFormed(q) && 0 < q.totalObserved && f in q.info && vals <= q.info[f].Keys
    requires v in q.info[f] && v !in vals
    ensures EntryOf(q, f, v) !in KeptAmong(q, f, cutoff, vals)
    ensures KeptAmong(q, f, cutoff, vals + {v})
         == KeptAmong(q, f, cutoff, vals) + (if EntryOf(q, f, v).pval <= cutoff then {EntryOf(q, f, v)} else {})
  {
  }

  /** A list holding the kept entries of some values extends to one more value by appending its entry if it passes. */
  lemma KeptAmongListStep(q: Spongeworld.QueryResult, f: string, cutoff: real, vals: set<string>, v: string, keep: seq<Entry>)
    requires WellFormed(q) && 0 < q.totalObserved && f in q.info && vals <= q.info[f].Keys
    requires v in q.info[f] && v !in vals
    requires multiset(keep) == multiset(KeptAmong(q, f, cutoff, vals))
    ensures EntryOf(q, f, v).pval <= cutoff ==> multiset(keep + [EntryOf(q, f, v)]) == multiset(KeptAmong(q, f, cutoff, vals + {v}))
    ensures EntryOf(q, f, v).pval > cutoff ==> multiset(keep) == multiset(KeptAmong(q, f, cutoff, vals + {v}))
  {
    KeptAmongStep(q, f, cutoff, vals, v);
    var e := EntryOf(q, f, v);
    if e.pval <= cutoff {
      DisjointUnion(KeptAmong(q, f, cutoff, vals), {e});
    }
  }

  /** The entries of the given fields whose p-value is at most the cutoff. */
  function Kept(q: Spongeworld.QueryResult, fields: set<string>, cutoff: real): set<Entry>
    requires WellFormed(q) && 0 < q.totalObserved
  {
    set f, v | f in fields && f in q.info && v in q.info[f] && EntryOf(q, f, v).pval <= cutoff :: EntryOf(q, f, v)
  }

  /** '%s:%s (%d/%d)' of field, value, observed and total. */
  function Describe(e: Entry): string
  {
    e.field + ":" + e.value + " (" + NatToString(e.observed) + "/" + NatToString(e.total) + ")"
  }

  /** The list of strings get_annotation_string returns for a ranking. */
  function Descriptions(entries: seq<Entry>): (r: seq<string>)
    ensures |r| == |entries|
    ensures forall i :: 0 <= i < |r| ==> r[i] == Describe(entries[i])
  {
    seq(|entries|, i requires 0 <= i < |entries| => Describe(entries[i]))
  }

  /** Different counts of the same field and value never render the same. */
  lemma DescribeDistinguishesCounts(e1: Entry, e2: Entry)
    requires e1.field == e2.field && e1.value == e2.value
    requires Describe(e1) == Describe(e2)
    ensures e1.observed == e2.observed && e1.total == e2.total
  {
    var prefix := e1.field + ":" + e1.value + " (";
    var s1 := NatToString(e1.observed);
    var s2 := NatToString(e2.observed);
    var t1 := NatToString(e1.total);
    var t2 := NatToString(e2.total);
    assert Describe(e1) == prefix + (s1 + "/" + t1 + ")");
    assert Describe(e2) == prefix + (s2 + "/" + t2 + ")");
    var r1 := s1 + "/" + t1 + ")";
    var r2 := s2 + "/" + t2 + ")";
    assert r1 == Describe(e1)[|prefix|..] == r2;
    SplitAtSlash(s1, t1, s2, t2);
    NatToStringInjective(e1.observed, e2.observed);
    NatToStringInjective(e1.total, e2.total);
  }

  /** Two digit strings joined by '/' and closed by ')' split back uniquely. */
  lemma SplitAtSlash(s1: string, t1: string, s2: string, t2: string)
    requires forall i :: 0 <= i < |s1| ==> IsDigit(s1[i])
    requires forall i :: 0 <= i < |s2| ==> IsDigit(s2[i])
    requires s1 + "/" + t1 + ")" == s2 + "/" + t2 + ")"
    ensures s1 == s2 && t1 == t2
  {
    var a := s1 + "/" + t1 + ")";
    var b := s2 + "/" + t2 + ")";
    assert a[|s1|] == '/' && b[|s2|] == '/';
    assert forall i :: 0 <= i < |s1| ==> a[i] == s1[i] && a[i] != '/';
    assert forall i :: 0 <= i < |s2| ==> b[i] == s2[i] && b[i] != '/';
    assert |s1| == |s2|;
    assert s1 == a[..|s1|] == b[..|s2|] == s2;
    assert t1 == a[|s1| + 1..|a| - 1] == b[|s2| + 1..|b| - 1] == t2;
  }

  /** The inner loop: the entries of field f that pass the cutoff, each once. */
  method KeepField(q: Spongeworld.QueryResult, f: string, cutoff: real) returns (keep: seq<Entry>)
    requires WellFormed(q) && 0 < q.totalObserved && f in q.info
    ensures multiset(keep) == multiset(KeptIn(q, f, cutoff))
  {
    keep := [];
    var done: set<string> := {};
    var todo := q.info[f].Keys;
    while todo != {}
      invariant done + todo == q.info[f].Keys && done * todo == {}
      invariant multiset(keep) == multiset(KeptAmong(q, f, cutoff, done))
      decreases todo
    {
      var v :| v in todo;
      var e := EntryOf(q, f, v);
      KeptAmongListStep(q, f, cutoff, done, v, keep);
      if e.pval <= cutoff {
        keep := keep + [e];
      }
      assert multiset(keep) == multiset(KeptAmong(q, f, cutoff, done + {v}));
      done, todo := done + {v}, todo - {v};
    }
  }

  lemma DisjointUnion<T>(a: set<T>, b: set<T>)
    requires a * b == {}
    ensures multiset(a + b) == multiset(a) + multiset(b)
  {
    forall x
      ensures multiset(a + b)[x] == (multiset(a) + multiset(b))[x]
    {
      if x in a {
        assert x !in a * b;
      }
    }
  }

  /** Adding one field to the ranked fields adds exactly that field's kept entries, none of them already kept. */
  lemma KeptStep(q: Spongeworld.QueryResult, done: set<string>, f: string, cutoff: real)
    requires WellFormed(q) && 0 < q.totalObserved && f in q.info && f !in done
    ensures Kept(q, done + {f}, cutoff) == Kept(q, done, cutoff) + KeptIn(q, f, cutoff)
    ensures Kept(q, done, cutoff) * KeptIn(q, f, cutoff) == {}
  {
    forall e | e in Kept(q, done + {f}, cutoff)
      ensures e in Kept(q, done, cutoff) + KeptIn(q, f, cutoff)
    {
      var g, v :| g in done + {f} && g in q.info && v in q.info[g] && EntryOf(q, g, v).pval <= cutoff && e == EntryOf(q, g, v);
      if g == f {
        assert e in KeptIn(q, f, cutoff);
      } else {
        assert e in Kept(q, done, cutoff);
      }
    }
    forall e | e in KeptIn(q, f, cutoff)
      ensures e in Kept(q, done + {f}, cutoff) && e !in Kept(q, done, cutoff)
    {
      var v :| v in q.info[f] && EntryOf(q, f, v).pval <= cutoff && e == EntryOf(q, f, v);
      assert f in done + {f};
    }
  }

  /** Appending one field's kept entries to the entries kept so far keeps the whole list a copy of the kept set. */
  lemma KeptMultisetStep(q: Spongeworld.QueryResult, done: set<string>, f: string, cutoff: real, acc: seq<Entry>, more: seq<Entry>)
    requires WellFormed(q) && 0 < q.totalObserved && f in q.info && f !in done
    requires multiset(acc) == multiset(Kept(q, done, cutoff))
    requires multiset(more) == multiset(KeptIn(q, f, cutoff))
    ensures multiset(acc + more) == multiset(Kept(q, done + {f}, cutoff))
  {
    KeptStep(q, done, f, cutoff);
    DisjointUnion(Kept(q, done, cutoff), KeptIn(q, f, cutoff));
  }

  /** The nested loop of get_annotation_string; None when a ranked field is not in the result. */
  method CollectKept(q: Spongeworld.QueryResult, fields: set<string>, cutoff: real) returns (keep: Option<seq<Entry>>)
    requires WellFormed(q) && 0 < q.totalObserved
    ensures keep.None? <==> !(fields <= q.info.Keys)
    ensures keep.Some? ==> multiset(keep.value) == multiset(Kept(q, fields, cutoff))
  {
    var acc: seq<Entry> := [];
    var done: set<string> := {};
    var todo := fields;
    while todo != {}
      invariant done + todo == fields && done * todo == {}
      invariant done <= q.info.Keys
      invariant multiset(acc) == multiset(Kept(q, done, cutoff))
      decreases todo
    {
      var f :| f in todo;
      if f !in q.info {
        return None;
      }
      var more := KeepField(q, f, cutoff);
      KeptMultisetStep(q, done, f, cutoff, acc, more);
      acc := acc + more;
      done := done + {f};
      todo := todo - {f};
    }
    keep := Some(acc);
  }

  /**
   * get_annotation_string: nothing when the sequence was never observed;
   * otherwise the entries of the ranked fields that pass the cutoff, ordered
   * by fraction descending and then p-value ascending (r), and the list of
   * strings returned for them (desc), one per ranked entry in that order.
   */
  method GetAnnotationString(q: Spongeworld.QueryResult, cutoff: real, fieldName: Option<string>)
    returns (r: Ranking, desc: seq<string>)
    requires WellFormed(q)
    ensures q.totalObserved == 0 ==> r == Ranked([]) && desc == []
    ensures r.MissingField? <==> 0 < q.totalObserved && fieldName.Some? && fieldName.value !in q.info
    ensures r.MissingField? ==> r.field == fieldName.value && desc == []
    ensures r.Ranked? && 0 < q.totalObserved ==>
      && multiset(r.entries) == multiset(Kept(q, RankedFields(q, fieldName), cutoff))
      && SortedLex(r.entries, Frac, PVal)
    ensures r.Ranked? ==> desc == Descriptions(r.entries)
  {
    if q.totalObserved == 0 {
      return Ranked([]), [];
    }
    var keep := CollectKept(q, RankedFields(q, fieldName), cutoff);
    if keep.None? {
      return MissingField(fieldName.value), [];
    }
    var ranked := SortDesc(SortAsc(keep.value, PVal), Frac);
    TwoPassSortIsLex(keep.value, Frac, PVal);
    r := Ranked(ranked);
    desc := Descriptions(ranked);
  }

  /** A kept entry is the entry of a ranked field's value, and passed the cutoff. */
  lemma KeptMember(q: Spongeworld.QueryResult, fields: set<string>, cutoff: real, e: Entry)
    requires WellFormed(q) && 0 < q.totalObserved
    requires e in Kept(q, fields, cutoff)
    ensures e.field in fields && e.field in q.info && e.value in q.info[e.field]
    ensures e == EntryOf(q, e.field, e.value) && e.pval <= cutoff
  {
    var f, v :| f in fields && f in q.info && v in q.info[f] && EntryOf(q, f, v).pval <= cutoff && e == EntryOf(q, f, v);
  }

  /**
   * Every ranked entry passed the cutoff and is the entry of a value of a
   * ranked field, and no field/value pair is listed twice.
   */
  lemma RankedEntriesPass(q: Spongeworld.QueryResult, fieldName: Option<string>, cutoff: real, entries: seq<Entry>)
    requires WellFormed(q) && 0 < q.totalObserved
    requires multiset(entries) == multiset(Kept(q, RankedFields(q, fieldName), cutoff))
    ensures forall i :: 0 <= i < |entries| ==>
      && entries[i].pval <= cutoff
      && entries[i].field in RankedFields(q, fieldName)
      && entries[i].field in q.info && entries[i].value in q.info[entries[i].field]
      && entries[i] == EntryOf(q, entries[i].field, entries[i].value)
    ensures forall i, j :: 0 <= i < j < |entries| ==> entries[i] != entries[j]
  {
    var fields := RankedFields(q, fieldName);
    var K := Kept(q, fields, cutoff);
    forall i | 0 <= i < |entries|
      ensures entries[i].pval <= cutoff && entries[i].field in fields
      ensures entries[i].field in q.info && entries[i].value in q.info[entries[i].field]
      ensures entries[i] == EntryOf(q, entries[i].field, entries[i].value)
    {
      assert entries[i] in multiset(entries);
      KeptMember(q, fields, cutoff, entries[i]);
    }
    forall i, j | 0 <= i < j < |entries|
      ensures entries[i] != entries[j]
    {
      if entries[i] == entries[j] {
        Twice(entries, i, j);
        assert false;
      }
    }
  }

  /** The result the store gives for the good sequence: observed in 9 of 20 samples, all 9 of group '2'. */
  function GoodResult(): Spongeworld.QueryResult
  {
    Spongeworld.QueryResult(20, 9, map["id" := map[], "group" := map["2" := Dist(9, 9)]])
  }

  /** The result for the bad sequence: 10 of 20 samples, 6 of 11 in group '1' and 4 of 9 in group '2'. */
  function BadResult(): Spongeworld.QueryResult
  {
    Spongeworld.QueryResult(20, 10, map["id" := map[], "group" := map["1" := Dist(6, 11), "2" := Dist(4, 9)]])
  }

  /** With cutoff 0.1 the good sequence is annotated "group:2 (9/9)" and nothing else. */
  lemma GoodSequenceAnnotation(entries: seq<Entry>)
    requires WellFormed(GoodResult())
    requires multiset(entries) == multiset(Kept(GoodResult(), RankedFields(GoodResult(), None), 0.1))
    ensures Descriptions(entries) == ["group:2 (9/9)"]
  {
    var q := GoodResult();
    var e := EntryOf(q, "group", "2");
    assert NullPv(q) == 11.0 / 20.0;
    assert e.pval == Pow(9.0 / 20.0, 9) by {
      assert BinomCdf(0, 9, 11.0 / 20.0) == BinomPmf(0, 9, 11.0 / 20.0);
    }
    PowMonotone(9.0 / 20.0, 0.5, 9);
    HalfPow(0.5, 9);
    assert Kept(q, q.info.Keys, 0.1) == {e};
    assert multiset(entries) == multiset{e};
    assert |entries| == 1 && entries[0] == e by {
      assert |multiset(entries)| == 1;
      assert e in multiset(entries);
    }
    assert Describe(e) == "group:2 (9/9)";
  }

  lemma MulLe(x: real, y: real, c: real)
    requires x <= y && 0.0 <= c
    ensures x * c <= y * c && c * x <= c * y
  {
  }

  /** A smaller non-negative base gives a smaller power. */
  lemma {:induction false} PowMonotone(x: real, y: real, n: nat)
    requires 0.0 <= x <= y
    ensures Pow(x, n) <= Pow(y, n)
  {
    if n > 0 {
      PowMonotone(x, y, n - 1);
      var a := Pow(x, n - 1);
      var b := Pow(y, n - 1);
      calc {
        Pow(x, n);
      ==
        x * a;
      <= { MulLe(x, y, a); }
        y * a;
      <= { MulLe(a, b, y); }
        y * b;
      ==
        Pow(y, n);
      }
    }
  }

  /** With cutoff 0.1 the bad sequence gets no annotation. */
  lemma BadSequenceAnnotation(q: Spongeworld.QueryResult, entries: seq<Entry>)
    requires q == BadResult() && WellFormed(q)
    requires multiset(entries) == multiset(Kept(q, RankedFields(q, None), 0.1))
    ensures Descriptions(entries) == []
  {
    var K := Kept(q, RankedFields(q, None), 0.1);
    BadEntriesFail(q);
    forall e | e in K
      ensures false
    {
      KeptMember(q, RankedFields(q, None), 0.1, e);
    }
    assert entries == [] by {
      assert |multiset(entries)| == 0;
    }
  }

  /** No value of any field of the bad sequence's result passes the cutoff 0.1. */
  lemma BadEntriesFail(q: Spongeworld.QueryResult)
    requires q == BadResult() && WellFormed(q)
    ensures forall f, v :: f in q.info && v in q.info[f] ==> EntryOf(q, f, v).pval > 0.1
  {
    forall f, v | f in q.info && v in q.info[f]
      ensures EntryOf(q, f, v).pval > 0.1
    {
      BadValues(q, f, v);
      EvenEntryFails(q, f, v);
    }
  }

  /** The bad sequence's result has values only in field group, each with 5 samples unobserved out of 9 or 11. */
  lemma BadValues(q: Spongeworld.QueryResult, f: string, v: string)
    requires q == BadResult()
    requires f in q.info && v in q.info[f]
    ensures q.info[f][v].total - q.info[f][v].observed == 5
    ensures q.info[f][v].total == 9 || q.info[f][v].total == 11
  {
    assert f == "group";
  }

  /**
   * With the sequence seen in half of 20 samples, a value seen in all but 5
   * of its 9 or 11 samples has p-value above 0.1.
   */
  lemma EvenEntryFails(q: Spongeworld.QueryResult, f: string, v: string)
    requires WellFormed(q) && q.totalObserved == 10 && q.totalSamples == 20
    requires f in q.info && v in q.info[f]
    requires q.info[f][v].total - q.info[f][v].observed == 5
    requires q.info[f][v].total == 9 || q.info[f][v].total == 11
    ensures EntryOf(q, f, v).pval > 0.1
  {
    var d := q.info[f][v];
    var p := NullPv(q);
    assert p == 0.5;
    var k := d.total - d.observed;
    if d.total == 9 {
      FiveOfNine(k, d.total, p);
    } else {
      FiveOfEleven(k, d.total, p);
    }
    PvalAtLeastPmf(q, f, v);
  }

  /** A p-value is at least the probability of exactly the unobserved count. */
  lemma PvalAtLeastPmf(q: Spongeworld.QueryResult, f: string, v: string)
    requires WellFormed(q) && 0 < q.totalObserved
    requires f in q.info && v in q.info[f]
    ensures EntryOf(q, f, v).pval >= BinomPmf(q.info[f][v].total - q.info[f][v].observed, q.info[f][v].total, NullPv(q))
  {
  }

  /** The binomial probability with its three factors grouped as count times joint power. */
  lemma PmfUnfold(k: nat, n: nat, p: real)
    requires k <= n && 0.0 <= p <= 1.0
    ensures BinomPmf(k, n, p) == Choose(n, k) as real * (Pow(p, k) * Pow(1.0 - p, n - k))
  {
  }

  /** At p = 1/2 success and failure powers merge into one power of 1/2. */
  lemma HalfPair(p: real, k: nat, n: nat)
    requires p == 0.5 && k <= n
    ensures Pow(p, k) * Pow(1.0 - p, n - k) == Pow(p, n)
  {
    assert 1.0 - p == p;
    PowAdd(p, k, n - k);
  }

  /** P(X = 5) for X ~ Binomial(9, 1/2) is 126/512 > 0.1. */
  lemma FiveOfNine(k: nat, n: nat, p: real)
    requires k == 5 && n == 9 && p == 0.5
    ensures BinomPmf(k, n, p) > 0.1
  {
    ChooseRow9(n);
    HalfPow(p, n);
    HalfPair(p, k, n);
    PmfUnfold(k, n, p);
    assert BinomPmf(k, n, p) == 126.0 * (1.0 / 512.0);
  }

  /** P(X = 5) for X ~ Binomial(11, 1/2) is 462/2048 > 0.1. */
  lemma FiveOfEleven(k: nat, n: nat, p: real)
    requires k == 5 && n == 11 && p == 0.5
    ensures BinomPmf(k, n, p) > 0.1
  {
    ChooseRow11(n);
    HalfPow(p, n);
    HalfPair(p, k, n);
    PmfUnfold(k, n, p);
    assert BinomPmf(k, n, p) == 462.0 * (1.0 / 2048.0);
  }

  /** Powers of the same base multiply by adding exponents. */
  lemma {:induction false} PowAdd(x: real, a: nat, b: nat)
    ensures Pow(x, a) * Pow(x, b) == Pow(x, a + b)
  {
    if a > 0 {
      PowAdd(x, a - 1, b);
      MulAssoc(x, Pow(x, a - 1), Pow(x, b));
    }
  }

  lemma MulAssoc(x: real, u: real, v: real)
    ensures (x * u) * v == x * (u * v)
  {
  }

  /** 1/2 to the 9th and to the 11th power. */
  lemma HalfPow(p: real, n: nat)
    requires p == 0.5 && (n == 9 || n == 11)
    ensures n == 9 ==> Pow(p, n) == 1.0 / 512.0
    ensures n == 11 ==> Pow(p, n) == 1.0 / 2048.0
  {
    HalfPowStep(p, 1, 0.5);
    HalfPowStep(p, 2, 0.25);
    HalfPowStep(p, 3, 0.125);
    HalfPowStep(p, 4, 0.0625);
    HalfPowStep(p, 5, 1.0 / 32.0);
    HalfPowStep(p, 6, 1.0 / 64.0);
    HalfPowStep(p, 7, 1.0 / 128.0);
    HalfPowStep(p, 8, 1.0 / 256.0);
    HalfPowStep(p, 9, 1.0 / 512.0);
    HalfPowStep(p, 10, 1.0 / 1024.0);
    HalfPowStep(p, 11, 1.0 / 2048.0);
  }

  lemma HalfPowStep(p: real, n: nat, x: real)
    requires p == 0.5 && n > 0
    ensures Pow(p, n - 1) == 2.0 * x ==> Pow(p, n) == x
  {
  }

  /** There are n ways to choose one of n. */
  lemma {:induction false} ChooseOne(n: nat)
    ensures Choose(n, 1) == n
  {
    if n > 0 {
      ChooseOne(n - 1);
    }
  }

  /** Row n of Pascal's triangle, entries 1 to 5, each row from the one before. */
  lemma ChooseRow3(n: nat)
    requires n == 3
    ensures Choose(n, 1) == 3 && Choose(n, 2) == 3 && Choose(n, 3) == 1 && Choose(n, 4) == 0 && Choose(n, 5) == 0
  {
    ChooseOne(n);
    ChooseOne(n - 1);
  }

  lemma ChooseRow4(n: nat)
    requires n == 4
    ensures Choose(n, 1) == 4 && Choose(n, 2) == 6 && Choose(n, 3) == 4 && Choose(n, 4) == 1 && Choose(n, 5) == 0
  {
    ChooseRow3(n - 1);
  }

  lemma ChooseRow5(n: nat)
    requires n == 5
    ensures Choose(n, 1) == 5 && Choose(n, 2) == 10 && Choose(n, 3) == 10 && Choose(n, 4) == 5 && Choose(n, 5) == 1
  {
    ChooseRow4(n - 1);
  }

  lemma ChooseRow6(n: nat)
    requires n == 6
    ensures Choose(n, 1) == 6 && Choose(n, 2) == 15 && Choose(n, 3) == 20 && Choose(n, 4) == 15 && Choose(n, 5) == 6
  {
    ChooseRow5(n - 1);
  }

  lemma ChooseRow7(n: nat)
    requires n == 7
    ensures Choose(n, 1) == 7 && Choose(n, 2) == 21 && Choose(n, 3) == 35 && Choose(n, 4) == 35 && Choose(n, 5) == 21
  {
    ChooseRow6(n - 1);
  }

  lemma ChooseRow8(n: nat)
    requires n == 8
    ensures Choose(n, 1) == 8 && Choose(n, 2) == 28 && Choose(n, 3) == 56 && Choose(n, 4) == 70 && Choose(n, 5) == 56
  {
    ChooseRow7(n - 1);
  }

  lemma ChooseRow9(n: nat)
    requires n == 9
    ensures Choose(n, 1) == 9 && Choose(n, 2) == 36 && Choose(n, 3) == 84 && Choose(n, 4) == 126 && Choose(n, 5) == 126
  {
    ChooseRow8(n - 1);
  }

  lemma ChooseRow10(n: nat)
    requires n == 10
    ensures Choose(n, 1) == 10 && Choose(n, 2) == 45 && Choose(n, 3) == 120 && Choose(n, 4) == 210 && Choose(n, 5) == 252
  {
    ChooseRow9(n - 1);
  }

  lemma ChooseRow11(n: nat)
    requires n == 11
    ensures Choose(n, 1) == 11 && Choose(n, 2) == 55 && Choose(n, 3) == 165 && Choose(n, 4) == 330 && Choose(n, 5) == 462
  {
    ChooseRow10(n - 1);
  }
}
