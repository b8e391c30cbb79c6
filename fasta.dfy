/**
 * The record structure of FASTA text, shared by the two line parsers: a line
 * starting with '>' opens a new record, every other line is appended to the
 * record being read.
 */
module Fasta {

  predicate IsHeader(line: string)
  {
    |line| > 0 && line[0] == '>'
  }

  function HeaderCount(lines: seq<string>): (r: nat)
    ensures r <= |lines|
  {
    if lines == [] then 0
    else HeaderCount(lines[..|lines| - 1]) + (if IsHeader(lines[|lines| - 1]) then 1 else 0)
  }

  /** The non-header lines, concatenated in order. */
  function Body(lines: seq<string>): string
  {
    if lines == [] then ""
    else Body(lines[..|lines| - 1]) + (if IsHeader(lines[|lines| - 1]) then "" else lines[|lines| - 1])
  }

  function Concat(parts: seq<string>): string
  {
    if parts == [] then "" else Concat(parts[..|parts| - 1]) + parts[|parts| - 1]
  }

  /**
   * The records of the text: the lines before the first header form the
   * first (possibly empty) record, and each header starts a new one.
   */
  function Records(lines: seq<string>): (r: seq<string>)
    ensures |r| == 1 + HeaderCount(lines)
  {
    if lines == [] then [""]
    else
      var prev := Records(lines[..|lines| - 1]);
      var line := lines[|lines| - 1];
      if IsHeader(line) then prev + [""]
      else prev[..|prev| - 1] + [prev[|prev| - 1] + line]
  }

  /** The records that are not empty, in order. */
  function NonEmpty(parts: seq<string>): (r: seq<string>)
    ensures |r| <= |parts|
    ensures forall i :: 0 <= i < |r| ==> r[i] != ""
  {
    if parts == [] then []
    else
      var init := parts[..|parts| - 1];
      var last := parts[|parts| - 1];
      assert parts == init + [last];
      NonEmpty(init) + (if last == "" then [] else [last])
  }

  /** Reading one more line: a header opens an empty record, any other line extends the last one. */
  lemma RecordsStep(lines: seq<string>, i: nat)
    requires i < |lines|
    ensures var prev := Records(lines[..i]);
      var next := Records(lines[..i + 1]);
      && (IsHeader(lines[i]) ==> next == prev + [""])
      && (!IsHeader(lines[i]) ==> next == prev[..|prev| - 1] + [prev[|prev| - 1] + lines[i]])
      && HeaderCount(lines[..i + 1]) == HeaderCount(lines[..i]) + (if IsHeader(lines[i]) then 1 else 0)
  {
    assert lines[..i + 1][..i] == lines[..i];
  }

  /** Exactly the non-empty records survive. */
  lemma {:induction false} NonEmptyMembers(parts: seq<string>)
    ensures forall s :: s in NonEmpty(parts) <==> s in parts && s != ""
  {
    if parts != [] {
      var init := parts[..|parts| - 1];
      NonEmptyMembers(init);
      assert parts == init + [parts[|parts| - 1]];
    }
  }

  lemma NonEmptyLast(parts: seq<string>)
    requires parts != []
    ensures NonEmpty(parts) == NonEmpty(parts[..|parts| - 1]) + (if parts[|parts| - 1] == "" then [] else [parts[|parts| - 1]])
  {
  }

  lemma {:induction false} ConcatAppend(parts: seq<string>, more: seq<string>)
    ensures Concat(parts + more) == Concat(parts) + Concat(more)
    decreases |more|
  {
    if more != [] {
      var init := more[..|more| - 1];
      assert (parts + more)[..|parts + more| - 1] == parts + init;
      ConcatAppend(parts, init);
    } else {
      assert parts + more == parts;
    }
  }

  /** Reading the records back in order gives every sequence line exactly once: nothing is lost or duplicated. */
  lemma {:induction false} RecordsKeepBody(lines: seq<string>)
    ensures Concat(Records(lines)) == Body(lines)
  {
    if lines != [] {
      var init := lines[..|lines| - 1];
      var prev := Records(init);
      var line := lines[|lines| - 1];
      RecordsKeepBody(init);
      if IsHeader(line) {
        ConcatAppend(prev, [""]);
      } else {
        var front := prev[..|prev| - 1];
        assert prev == front + [prev[|prev| - 1]];
        ConcatAppend(front, [prev[|prev| - 1]]);
        ConcatAppend(front, [prev[|prev| - 1] + line]);
      }
    }
  }

  /** Dropping empty records does not change the concatenation. */
  lemma {:induction false} NonEmptyKeepsConcat(parts: seq<string>)
    ensures Concat(NonEmpty(parts)) == Concat(parts)
  {
    if parts != [] {
      var init := parts[..|parts| - 1];
      var last := parts[|parts| - 1];
      NonEmptyKeepsConcat(init);
      ConcatAppend(NonEmpty(init), if last == "" then [] else [last]);
    }
  }

  /** Without any header the text is one record holding all its lines. */
  lemma {:induction false} NoHeaderIsOneRecord(lines: seq<string>)
    requires HeaderCount(lines) == 0
    ensures Records(lines) == [Body(lines)]
  {
    if lines != [] {
      NoHeaderIsOneRecord(lines[..|lines| - 1]);
    }
  }
}
