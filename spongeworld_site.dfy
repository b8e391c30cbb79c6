/**
 * The data-handling helpers of spongeworld/Site_Main_Flask.py: the FASTA
 * reader that keeps lines as they are, the tally of the most common
 * annotation terms, the one-line summary of an annotation and the choice of
 * the annotation server's address.
 */
module SpongeworldSite {
  import opened Text
  import opened Fasta
  import opened Sorting

  // ---------------------------------------------------------------- FASTA

  /** A record list, None for text without a header, or the IndexError of an empty line. */
  datatype FastaParse = Parsed(seqs: seq<string>) | NotFasta | EmptyLine(index: nat)

  /** What the reader keeps: every record but the last, and the last one only when it is not empty. */
  function KeptRecords(recs: seq<string>): (r: seq<string>)
    requires recs != []
    ensures |r| == |recs| - 1 || |r| == |recs|
    ensures r[..|recs| - 1] == recs[..|recs| - 1]
  {
    var last := recs[|recs| - 1];
    recs[..|recs| - 1] + (if last == "" then [] else [last])
  }

  /**
   * get_fasta_seqs (spongeworld): every header closes the current record,
   * even an empty one; lines are concatenated unstripped; None when no line
   * is a header.  An empty line makes `cline[0]` raise.
   */
  method GetFastaSeqs(lines: seq<string>) returns (r: FastaParse)
    ensures r.EmptyLine? <==> exists i :: 0 <= i < |lines| && lines[i] == ""
    ensures r.EmptyLine? ==> r.index < |lines| && lines[r.index] == "" && forall j :: 0 <= j < r.index ==> lines[j] != ""
    ensures !r.EmptyLine? ==> r == if HeaderCount(lines) == 0 then NotFasta else Parsed(KeptRecords(Records(lines)))
  {
    var seqs: seq<string> := [];
    var cseq := "";
    var isfasta := false;
    for i := 0 to |lines|
      invariant forall j :: 0 <= j < i ==> lines[j] != ""
      invariant var recs := Records(lines[..i]);
        seqs == recs[..|recs| - 1] && cseq == recs[|recs| - 1]
      invariant isfasta <==> HeaderCount(lines[..i]) > 0
    {
      RecordsStep(lines, i);
      var cline := lines[i];
      if cline == "" {
        return EmptyLine(i);
      }
      if cline[0] == '>' {
        isfasta := true;
        seqs := seqs + [cseq];
        cseq := "";
      } else {
        cseq := cseq + cline;
      }
    }
    assert lines[..|lines|] == lines;
    if cseq != "" {
      seqs := seqs + [cseq];
    }
    if !isfasta {
      return NotFasta;
    }
    r := Parsed(seqs);
  }

  /** Once the first line is a header, the first record stays empty whatever follows. */
  lemma {:induction false} FirstRecordEmpty(lines: seq<string>, n: nat)
    requires 1 <= n <= |lines| && IsHeader(lines[0])
    ensures |Records(lines[..n])| >= 2 && Records(lines[..n])[0] == ""
  {
    if n == 1 {
      assert lines[..1][..0] == [];
    } else {
      FirstRecordEmpty(lines, n - 1);
      RecordsStep(lines, n - 1);
    }
  }

  /** Text that starts with a header yields a leading empty record. */
  lemma LeadingHeaderGivesEmptyFirst(lines: seq<string>)
    requires |lines| > 0 && IsHeader(lines[0])
    ensures |KeptRecords(Records(lines))| >= 1 && KeptRecords(Records(lines))[0] == ""
  {
    FirstRecordEmpty(lines, |lines|);
    assert lines[..|lines|] == lines;
  }

  /** The kept records, put back together, are exactly the sequence lines. */
  lemma KeptRecordsKeepBody(lines: seq<string>)
    ensures Concat(KeptRecords(Records(lines))) == Body(lines)
  {
    var recs := Records(lines);
    RecordsKeepBody(lines);
    var front := recs[..|recs| - 1];
    var last := recs[|recs| - 1];
    assert recs == front + [last];
    ConcatAppend(front, [last]);
    ConcatAppend(front, if last == "" then [] else [last]);
  }

  // ---------------------------------------------------------------- annotations

  /** One [type, term] pair of an annotation's details. */
  datatype Detail = Detail(kind: string, term: string)

  /** The fields of an annotation record the helpers read. */
  datatype Annotation = Annotation(description: string, annotationType: string, details: seq<Detail>,
                                   websiteSequences: Option<seq<string>>)

  /** A detail counts for the term cloud when its type is 'all' or 'high'. */
  predicate Counted(d: Detail)
  {
    d.kind == "all" || d.kind == "high"
  }

  /** len(website_sequences) when the annotation has them, else 1. */
  function Weight(a: Annotation): nat
  {
    if a.websiteSequences.Some? then |a.websiteSequences.value| else 1
  }

  /** How much one annotation's details add to term t. */
  function DetailTally(details: seq<Detail>, t: string, w: nat): nat
  {
    if details == [] then 0
    else
      var d := details[|details| - 1];
      DetailTally(details[..|details| - 1], t, w) + (if Counted(d) && d.term == t then w else 0)
  }

  /** The count get_common_terms gives to term t. */
  function TermCount(anns: seq<Annotation>, t: string): nat
  {
    if anns == [] then 0
    else
      var a := anns[|anns| - 1];
      TermCount(anns[..|anns| - 1], t) + DetailTally(a.details, t, Weight(a))
  }

  /** The terms of the counted details. */
  function MentionedIn(details: seq<Detail>): set<string>
  {
    if details == [] then {}
    else
      var d := details[|details| - 1];
      MentionedIn(details[..|details| - 1]) + (if Counted(d) then {d.term} else {})
  }

  /** The terms that get an entry: those of a counted detail of some annotation. */
  function Mentioned(anns: seq<Annotation>): set<string>
  {
    if anns == [] then {} else Mentioned(anns[..|anns| - 1]) + MentionedIn(anns[|anns| - 1].details)
  }

  function Count(p: (string, nat)): real { p.1 as real }

  /** Counts add up over concatenated annotation lists. */
  lemma {:induction false} TermCountAppend(a: seq<Annotation>, b: seq<Annotation>, t: string)
    ensures TermCount(a + b, t) == TermCount(a, t) + TermCount(b, t)
    decreases |b|
  {
    if b == [] {
      assert a + b == a;
    } else {
      var init := b[..|b| - 1];
      assert (a + b)[..|a + b| - 1] == a + init;
      TermCountAppend(a, init, t);
    }
  }

  /** Details of any other type add nothing. */
  lemma {:induction false} UncountedDetailsAddNothing(details: seq<Detail>, t: string, w: nat)
    requires forall i :: 0 <= i < |details| ==> !Counted(details[i])
    ensures DetailTally(details, t, w) == 0
  {
    if details != [] {
      UncountedDetailsAddNothing(details[..|details| - 1], t, w);
    }
  }

  /** The first loop of get_common_terms: the defaultdict of term counts. */
  method TallyTerms(anns: seq<Annotation>) returns (terms: map<string, nat>)
    ensures terms.Keys == Mentioned(anns)
    ensures forall t :: t in terms ==> terms[t] == TermCount(anns, t)
  {
    terms := map[];
    for i := 0 to |anns|
      invariant terms.Keys == Mentioned(anns[..i])
      invariant forall t :: t in terms ==> terms[t] == TermCount(anns[..i], t)
    {
      assert anns[..i + 1][..i] == anns[..i];
      terms := TallyOne(anns[..i], anns[i], terms);
    }
    assert anns[..|anns|] == anns;
  }

  /** The inner loop of get_common_terms: add one annotation's counted details. */
  method TallyOne(done: seq<Annotation>, a: Annotation, before: map<string, nat>) returns (terms: map<string, nat>)
    requires before.Keys == Mentioned(done)
    requires forall t :: t in before ==> before[t] == TermCount(done, t)
    ensures terms.Keys == Mentioned(done + [a])
    ensures forall t :: t in terms ==> terms[t] == TermCount(done + [a], t)
  {
    terms := before;
    var w := Weight(a);
    for j := 0 to |a.details|
      invariant terms.Keys == Mentioned(done) + MentionedIn(a.details[..j])
      invariant forall t :: t in terms ==> terms[t] == TermCount(done, t) + DetailTally(a.details[..j], t, w)
    {
      var d := a.details[j];
      ghost var prev := terms;
      if Counted(d) {
        var old_count := 0;
        if d.term in terms {
          old_count := terms[d.term];
        }
        terms := terms[d.term := old_count + w];
      }
      DetailStep(done, a.details, j, w, prev, terms);
    }
    assert a.details[..|a.details|] == a.details;
    AnnotationStep(done, a);
  }

  /**
   * Adding one detail to the running counts (its weight onto its term,
   * starting from 0 for a new term, when the detail is counted) keeps them
   * the tallies of the details read so far.
   */
  lemma DetailStep(done: seq<Annotation>, details: seq<Detail>, j: nat, w: nat, prev: map<string, nat>, next: map<string, nat>)
    requires j < |details|
    requires prev.Keys == Mentioned(done) + MentionedIn(details[..j])
    requires forall t :: t in prev ==> prev[t] == TermCount(done, t) + DetailTally(details[..j], t, w)
    requires Counted(details[j]) ==>
      next == prev[details[j].term := (if details[j].term in prev then prev[details[j].term] else 0) + w]
    requires !Counted(details[j]) ==> next == prev
    ensures next.Keys == Mentioned(done) + MentionedIn(details[..j + 1])
    ensures forall t :: t in next ==> next[t] == TermCount(done, t) + DetailTally(details[..j + 1], t, w)
  {
    var d := details[j];
    assert details[..j + 1][..j] == details[..j];
    if Counted(d) && d.term !in prev {
      UnmentionedHasZero(done, details[..j], d.term, w);
    }
  }

  /** One more annotation adds its details' tally to every term and its mentioned terms to the keys. */
  lemma AnnotationStep(done: seq<Annotation>, a: Annotation)
    ensures Mentioned(done + [a]) == Mentioned(done) + MentionedIn(a.details)
    ensures forall t :: TermCount(done + [a], t) == TermCount(done, t) + DetailTally(a.details, t, Weight(a))
  {
    assert (done + [a])[..|done|] == done;
  }

  /** A term no counted detail mentions has count zero. */
  lemma UnmentionedHasZero(done: seq<Annotation>, details: seq<Detail>, t: string, w: nat)
    requires t !in Mentioned(done) && t !in MentionedIn(details)
    ensures TermCount(done, t) == 0 && DetailTally(details, t, w) == 0
  {
    UnmentionedTermCount(done, t);
    UnmentionedTally(details, t, w);
  }

  lemma {:induction false} UnmentionedTally(details: seq<Detail>, t: string, w: nat)
    requires t !in MentionedIn(details)
    ensures DetailTally(details, t, w) == 0
  {
    if details != [] {
      UnmentionedTally(details[..|details| - 1], t, w);
    }
  }

  lemma {:induction false} UnmentionedTermCount(anns: seq<Annotation>, t: string)
    requires t !in Mentioned(anns)
    ensures TermCount(anns, t) == 0
  {
    if anns != [] {
      UnmentionedTermCount(anns[..|anns| - 1], t);
      UnmentionedTally(anns[|anns| - 1].details, t, Weight(anns[|anns| - 1]));
    }
  }

  /** The second loop of get_common_terms: the dictionary's items as a list, each term once. */
  method Items(terms: map<string, nat>) returns (items: seq<(string, nat)>)
    ensures Distinct(items)
    ensures forall p :: p in items <==> p.0 in terms && p.1 == terms[p.0]
  {
    items := [];
    var pending := terms.Keys;
    while pending != {}
      invariant pending <= terms.Keys
      invariant Distinct(items)
      invariant forall p :: p in items <==> p.0 in terms && p.0 !in pending && p.1 == terms[p.0]
      decreases pending
    {
      var t :| t in pending;
      items := items + [(t, terms[t])];
      pending := pending - {t};
    }
  }

  /**
   * get_common_terms: each term of an 'all' or 'high' detail, once, with its
   * weighted count, ordered by count descending.
   */
  method GetCommonTerms(anns: seq<Annotation>) returns (r: seq<(string, nat)>)
    ensures forall p :: p in r <==> p.0 in Mentioned(anns) && p.1 == TermCount(anns, p.0)
    ensures forall i, j :: 0 <= i < j < |r| ==> r[i].0 != r[j].0
    ensures SortedDesc(r, Count)
  {
    var terms := TallyTerms(anns);
    var items := Items(terms);
    r := SortDesc(items, Count);
    PermutationKeepsDistinct(items, r);
    forall p ensures p in r <==> p in items {
      assert p in r <==> p in multiset(r);
      assert p in items <==> p in multiset(items);
    }
  }

  // ---------------------------------------------------------------- summary string

  /** "description (" when there is a description. */
  function Prefix(a: Annotation): string
  {
    if a.description != "" then a.description + " (" else ""
  }

  /** The terms of the details of one type, in order. */
  function TermsOfKind(details: seq<Detail>, kind: string): (r: seq<string>)
    ensures |r| <= |details|
  {
    if details == [] then []
    else
      var d := details[|details| - 1];
      TermsOfKind(details[..|details| - 1], kind) + (if d.kind == kind then [d.term] else [])
  }

  /** Each word followed by a space. */
  function Words(ws: seq<string>): string
  {
    if ws == [] then "" else Words(ws[..|ws| - 1]) + ws[|ws| - 1] + " "
  }

  /** Each detail's term preceded by a space and followed by a comma. */
  function CommaTerms(details: seq<Detail>): string
  {
    if details == [] then "" else CommaTerms(details[..|details| - 1]) + " " + details[|details| - 1].term + ","
  }

  /** n copies of the literal "cdet,". */
  function CdetTimes(n: nat): string
  {
    if n == 0 then "" else CdetTimes(n - 1) + "cdet,"
  }

  /** What follows the prefix, by annotation type. */
  function Tail(a: Annotation): string
  {
    if a.annotationType == "diffexp" then
      " high in " + Words(TermsOfKind(a.details, "high")) + " compared to " + Words(TermsOfKind(a.details, "low"))
      + " in " + Words(TermsOfKind(a.details, "all"))
    else if a.annotationType == "isa" then " is a " + CdetTimes(|a.details|)
    else if a.annotationType == "contamination" then "contamination"
    else a.annotationType + " " + CommaTerms(a.details)
  }

  /** The summary before its final comma is removed, as the code builds it. */
  function RawSummary(a: Annotation): string
  {
    Prefix(a) + Tail(a)
  }

  /** Remove one trailing comma, if there is one. */
  function DropComma(s: string): (r: string)
    ensures |s| > 0 && s[|s| - 1] == ',' ==> r + "," == s
    ensures !(|s| > 0 && s[|s| - 1] == ',') ==> r == s
  {
    if |s| > 0 && s[|s| - 1] == ',' then s[..|s| - 1] else s
  }

  /** getannotationstrings, as the code computes it. */
  function AnnotationSummary(a: Annotation): string
  {
    DropComma(RawSummary(a))
  }

  /** getannotationstrings: build the summary piece by piece, then drop one trailing comma. */
  method GetAnnotationStrings(a: Annotation) returns (cdesc: string)
    ensures cdesc == AnnotationSummary(a)
  {
    cdesc := "";
    if a.description != "" {
      cdesc := cdesc + a.description + " (";
    }
    assert cdesc == Prefix(a);
    var tail := BuildTail(a);
    cdesc := cdesc + tail;
    assert cdesc == RawSummary(a);
    if |cdesc| >= 1 && cdesc[|cdesc| - 1] == ',' {
      cdesc := cdesc[..|cdesc| - 1];
    }
  }

  /** The type-dependent part of getannotationstrings. */
  method BuildTail(a: Annotation) returns (tail: string)
    ensures tail == Tail(a)
  {
    if a.annotationType == "diffexp" {
      var chigh, clow, call := SplitByKind(a.details);
      tail := AppendWords(" high in ", chigh);
      tail := AppendWords(tail + " compared to ", clow);
      tail := AppendWords(tail + " in ", call);
    } else if a.annotationType == "isa" {
      tail := AppendCdets(" is a ", |a.details|);
    } else if a.annotationType == "contamination" {
      tail := "contamination";
    } else {
      tail := AppendCommaTerms(a.annotationType + " ", a.details);
    }
  }

  /** The loop of the 'isa' case: one "cdet," per detail. */
  method AppendCdets(s: string, n: nat) returns (r: string)
    ensures r == s + CdetTimes(n)
  {
    r := s;
    for i := 0 to n
      invariant r == s + CdetTimes(i)
    {
      r := r + "cdet,";
    }
  }

  /** The loop of the generic case: a space, the term and a comma per detail. */
  method AppendCommaTerms(s: string, details: seq<Detail>) returns (r: string)
    ensures r == s + CommaTerms(details)
  {
    r := s;
    for i := 0 to |details|
      invariant r == s + CommaTerms(details[..i])
    {
      assert details[..i + 1][..i] == details[..i];
      r := r + " " + details[i].term + ",";
    }
    assert details[..|details|] == details;
  }

  /** The detail loop of the 'diffexp' case: the high, low and all terms, each list in detail order. */
  method SplitByKind(details: seq<Detail>) returns (chigh: seq<string>, clow: seq<string>, call: seq<string>)
    ensures chigh == TermsOfKind(details, "high")
    ensures clow == TermsOfKind(details, "low")
    ensures call == TermsOfKind(details, "all")
  {
    chigh, clow, call := [], [], [];
    for i := 0 to |details|
      invariant chigh == TermsOfKind(details[..i], "high")
      invariant clow == TermsOfKind(details[..i], "low")
      invariant call == TermsOfKind(details[..i], "all")
    {
      assert details[..i + 1][..i] == details[..i];
      var d := details[i];
      if d.kind == "all" {
        call := call + [d.term];
        continue;
      }
      if d.kind == "low" {
        clow := clow + [d.term];
        continue;
      }
      if d.kind == "high" {
        chigh := chigh + [d.term];
        continue;
      }
    }
    assert details[..|details|] == details;
  }

  /** `for cval in ...: cdesc += cval + ' '`. */
  method AppendWords(s: string, ws: seq<string>) returns (r: string)
    ensures r == s + Words(ws)
  {
    r := s;
    for i := 0 to |ws|
      invariant r == s + Words(ws[..i])
    {
      assert ws[..i + 1][..i] == ws[..i];
      r := r + ws[i] + " ";
    }
    assert ws[..|ws|] == ws;
  }

  /**
   * In the generic case with at least one detail, exactly one comma is
   * removed: putting it back gives the string as built.
   */
  lemma GenericDropsOneComma(a: Annotation)
    requires a.annotationType !in {"diffexp", "isa", "contamination"} && a.details != []
    ensures AnnotationSummary(a) + "," == RawSummary(a)
  {
  }

  /** A 'contamination' annotation reads "contamination", after its description. */
  lemma ContaminationSummary(a: Annotation)
    requires a.annotationType == "contamination"
    ensures AnnotationSummary(a) == Prefix(a) + "contamination"
  {
    assert RawSummary(a) == Prefix(a) + "contamination";
  }

  /** As written, an 'isa' summary depends only on how many details there are, not on their terms. */
  lemma {:induction false} IsaIgnoresTerms(a: Annotation, b: Annotation)
    requires a.annotationType == "isa" && b.annotationType == "isa"
    requires a.description == b.description && |a.details| == |b.details|
    ensures AnnotationSummary(a) == AnnotationSummary(b)
  {
  }

  /** Two 'isa' annotations naming different things get the same summary " is a cdet". */
  lemma IsaCounterexample()
    ensures var fish := Annotation("", "isa", [Detail("all", "fish")], None);
      var sponge := Annotation("", "isa", [Detail("all", "sponge")], None);
      AnnotationSummary(fish) == AnnotationSummary(sponge) == " is a cdet"
  {
    var fish := Annotation("", "isa", [Detail("all", "fish")], None);
    assert Prefix(fish) == "";
    assert CdetTimes(1) == "" + "cdet,";
    assert RawSummary(fish) == " is a cdet,";
  }

  /** The 'isa' case with each detail's term, as the generic case does it. */
  function IntendedRawSummary(a: Annotation): string
  {
    if a.annotationType == "isa" then Prefix(a) + " is a " + TermsWithCommas(a.details)
    else RawSummary(a)
  }

  /** Each detail's term followed by a comma. */
  function TermsWithCommas(details: seq<Detail>): string
  {
    if details == [] then "" else TermsWithCommas(details[..|details| - 1]) + details[|details| - 1].term + ","
  }

  /** getannotationstrings with the 'isa' case listing the terms. */
  function IntendedSummary(a: Annotation): string
  {
    DropComma(IntendedRawSummary(a))
  }

  /** With the terms listed, an 'isa' annotation with one detail names that detail's term. */
  lemma IsaNamesTerm(a: Annotation)
    requires a.annotationType == "isa" && |a.details| == 1
    ensures IntendedSummary(a) == Prefix(a) + " is a " + a.details[0].term
  {
    var d := a.details[0];
    assert TermsWithCommas(a.details) == d.term + ",";
    assert IntendedRawSummary(a) == (Prefix(a) + " is a " + d.term) + ",";
  }

  /** With the terms listed, 'isa' annotations with different single terms get different summaries. */
  lemma IsaDistinguishesTerms(a: Annotation, b: Annotation)
    requires a.annotationType == "isa" && b.annotationType == "isa" && a.description == b.description
    requires |a.details| == 1 && |b.details| == 1 && a.details[0].term != b.details[0].term
    ensures IntendedSummary(a) != IntendedSummary(b)
  {
    IsaNamesTerm(a);
    IsaNamesTerm(b);
    var n := |Prefix(a) + " is a "|;
    assert IntendedSummary(a)[n..] == a.details[0].term;
    assert IntendedSummary(b)[n..] == b.details[0].term;
  }

  // ---------------------------------------------------------------- server address

  datatype DbAddress = Address(url: string) | UnknownServerType(message: string)

  const LocalAddress := "http://127.0.0.1:5000"
  const MainAddress := "http://amnonim.webfactional.com/scdb_main"
  const DevelopAddress := "http://amnonim.webfactional.com/scdb_develop"

  /**
   * get_db_address: SCDB_WEBSITE_TYPE, lower-cased, picks the local, main or
   * develop server; unset means main; any other value is a ValueError.
   */
  function GetDbAddress(env: Option<string>): (r: DbAddress)
    ensures env.None? ==> r == Address(MainAddress)
    ensures env.Some? && Lower(env.value) == "local" ==> r == Address(LocalAddress)
    ensures env.Some? && Lower(env.value) == "main" ==> r == Address(MainAddress)
    ensures env.Some? && Lower(env.value) == "develop" ==> r == Address(DevelopAddress)
    ensures r.UnknownServerType? <==> env.Some? && Lower(env.value) !in {"local", "main", "develop"}
    ensures r.UnknownServerType? ==> r.message == "unknown server type " + Lower(env.value) + " in SCDB_WEBSITE_TYPE"
  {
    match env
    case None => Address(MainAddress)
    case Some(value) =>
      var servertype := Lower(value);
      if servertype == "local" then Address(LocalAddress)
      else if servertype == "main" then Address(MainAddress)
      else if servertype == "develop" then Address(DevelopAddress)
      else UnknownServerType("unknown server type " + servertype + " in SCDB_WEBSITE_TYPE")
  }

  /** The variable is read case-insensitively: its lower-cased form selects the same server. */
  lemma DbAddressCaseInsensitive(value: string)
    ensures GetDbAddress(Some(value)) == GetDbAddress(Some(Lower(value)))
  {
    LowerIdempotent(value);
  }

  /** "MAIN" in any capitalisation is the default server. */
  lemma DbAddressMainUpper()
    ensures GetDbAddress(Some("MAIN")) == GetDbAddress(None)
  {
    assert Lower("MAIN") == "main";
  }
}
