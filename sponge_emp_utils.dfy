/**
 * sponge_emp/utils.py: the FASTA reader that strips every line and skips
 * empty records, and the level gate of the debug log.
 */
module SpongeEmpUtils {
  import opened Text
  import opened Fasta

  /** Every line with its surrounding whitespace removed. */
  function Stripped(lines: seq<string>): (r: seq<string>)
    ensures |r| == |lines|
    ensures forall i :: 0 <= i < |r| ==> r[i] == Strip(lines[i])
  {
    seq(|lines|, i requires 0 <= i < |lines| => Strip(lines[i]))
  }

  /**
   * get_fasta_seqs: None when a line is blank (indexing its first character
   * fails and the failure is caught) or when no line is a header; otherwise
   * the non-empty records of the stripped lines.
   */
  method GetFastaSeqs(lines: seq<string>) returns (r: Option<seq<string>>)
    ensures (exists i :: 0 <= i < |lines| && Strip(lines[i]) == "") ==> r == None
    ensures (forall i :: 0 <= i < |lines| ==> Strip(lines[i]) != "") ==>
      r == if HeaderCount(Stripped(lines)) == 0 then None else Some(NonEmpty(Records(Stripped(lines))))
  {
    r := ReadStripped(Stripped(lines));
  }

  /** The loop of get_fasta_seqs over lines that are already stripped. */
  method ReadStripped(S: seq<string>) returns (r: Option<seq<string>>)
    ensures (exists i :: 0 <= i < |S| && S[i] == "") ==> r == None
    ensures (forall i :: 0 <= i < |S| ==> S[i] != "") ==>
      r == if HeaderCount(S) == 0 then None else Some(NonEmpty(Records(S)))
  {
    var seqs: seq<string> := [];
    var cseq := "";
    var isfasta := false;
    for i := 0 to |S|
      invariant forall j :: 0 <= j < i ==> S[j] != ""
      invariant var recs := Records(S[..i]);
        seqs == NonEmpty(recs[..|recs| - 1]) && cseq == recs[|recs| - 1]
      invariant isfasta <==> HeaderCount(S[..i]) > 0
    {
      ghost var prev := Records(S[..i]);
      RecordsStep(S, i);
      var cline := S[i];
      if cline == "" {
        return None;
      }
      if cline[0] == '>' {
        isfasta := true;
        NonEmptyLast(prev);
        if cseq != "" {
          seqs := seqs + [cseq];
        }
        cseq := "";
      } else {
        cseq := cseq + cline;
      }
    }
    assert S[..|S|] == S;
    NonEmptyLast(Records(S));
    if cseq != "" {
      seqs := seqs + [cseq];
    }
    assert seqs == NonEmpty(Records(S));
    if !isfasta {
      return None;
    }
    r := Some(seqs);
  }

  /** The records returned by the reader, put back together, are exactly the stripped sequence lines. */
  lemma ReaderKeepsSequenceText(lines: seq<string>)
    ensures Concat(NonEmpty(Records(Stripped(lines)))) == Body(Stripped(lines))
  {
    NonEmptyKeepsConcat(Records(Stripped(lines)));
    RecordsKeepBody(Stripped(lines));
  }

  /** The module-level debug level and the messages that reached the error stream. */
  class DebugLog {
    var debugLevel: int
    var emitted: seq<string>

    /** The level starts at 2 and nothing has been printed. */
    constructor ()
      ensures debugLevel == 2 && emitted == []
    {
      debugLevel := 2;
      emitted := [];
    }

    /** debug: the message is printed exactly when its level is at least the current debug level. */
    method Debug(level: int, msg: string)
      modifies this
      ensures debugLevel == old(debugLevel)
      ensures level >= debugLevel ==> emitted == old(emitted) + [msg]
      ensures level < debugLevel ==> emitted == old(emitted)
    {
      if level >= debugLevel {
        emitted := emitted + [msg];
      }
    }

    /** SetDebugLevel: replace the level; nothing is printed. */
    method SetDebugLevel(level: int)
      modifies this
      ensures debugLevel == level && emitted == old(emitted)
    {
      debugLevel := level;
    }
  }
}
