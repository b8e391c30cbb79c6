# SpongeEMP / SpongeWorld abundance core in Dafny

SpongeEMP answers one question: in which sponge samples, and under which
metadata values, does a given 16S DNA sequence occur? This project models the
part of that system that computes the answer. The parts are:

- **The abundance store.** `DBData` exists in two versions, `sponge_emp/database.py`
  and the older `spongeworld/database.py`. It loads a feature × sample abundance
  table and keeps only the samples the mapping file knows, in order. Each sample
  column is normalised to sum to 1, and the canonical sequence length is taken
  from the first feature id. The store then answers three counts: in how many
  samples a sequence is present above a threshold, how many samples carry a
  metadata value, and, per value of a field, how many samples carrying it show
  the sequence (`get_info`).
- **The query aggregator.** `get_sequence_info` in `spongeworld/spongeworld.py`
  truncates and upper-cases each query sequence and drops those that are too
  short. It fails when none is left. Otherwise it scales the sample total by the
  number of usable sequences, adds up their observations and asks `get_info` once
  per field.
- **The significance ranker.** `get_annotation_string` in `sponge_emp/Site_Main_Flask.py`
  keeps the field values whose one-sided binomial p-value is at most the cutoff.
  It orders them by fraction descending, then by p-value ascending, and renders
  each as `field:value (observed/total)`.
- **Text helpers.** Both FASTA line readers, the debug-level gate, the
  annotation-term tally, the one-line annotation summary and the choice of the
  annotation server's address.

## Modules

- `text.dfy` (`Text`): ASCII case mapping, `str.strip`, decimal rendering of counts.
- `sorting.dfy` (`Sorting`): Python's stable `sorted`, ascending and descending,
  over a real key, and the order that two successive sorts produce.
- `abundance.dfy` (`Abundance`): the values both stores share. This covers the
  loaded table, the inner join with the mapping file, normalisation, exact id
  lookup, and counts above a threshold and per value.
- `sponge_emp_database.dfy` (`SpongeEmpDatabase`): the class `DBData` of
  `sponge_emp/database.py`, including the multi-sequence `get_info` with `mincounts`.
- `spongeworld_database.dfy` (`SpongeworldDatabase`): the class `DBData` of
  `spongeworld/database.py`, which answers `None` for an unknown sequence.
- `spongeworld_query.dfy` (`Spongeworld`): `get_sequence_info`, run against the
  `sponge_emp` store. That is the only store whose `get_info` accepts the
  `mincounts` argument the aggregator passes.
- `sponge_emp_site.dfy` (`SpongeEmpSite`): `get_annotation_string` with an exact
  binomial CDF.
- `fasta.dfy` (`Fasta`): the record structure both FASTA readers share.
- `sponge_emp_utils.dfy` (`SpongeEmpUtils`): the stripping FASTA reader and the debug gate.
- `spongeworld_site.dfy` (`SpongeworldSite`): the non-stripping FASTA reader,
  `get_common_terms`, `getannotationstrings` and `get_db_address`.

Each loop of the source is a `method` with loop invariants. Each method is
proved equal to a specification function, or to a property stated outright, and
the lemmas are proved about those functions. The store's loaded state is a
`class` whose fields `ImportData` assigns.

Exceptions are modelled as values:
- a `KeyError` of an unknown field is `UnknownField` / `KeyError` / `MissingField`;
- the `IndexError` of an empty line in the `spongeworld` reader is `EmptyLine`;
- the `ValueError` of an unknown server type is `UnknownServerType`.

## Model

| member | source | states |
|---|---|---|
| Text.Upper | spongeworld/spongeworld.py:113 | `.upper()`: same length, each ASCII lower-case letter replaced by its upper-case letter (code point minus 32), every other character unchanged |
| Text.Lower | spongeworld/Site_Main_Flask.py:27 | `.lower()`: same length, each ASCII upper-case letter replaced by its lower-case letter (code point plus 32), every other character unchanged |
| Text.LowerIdempotent | spongeworld/Site_Main_Flask.py:27 | lower-casing twice is lower-casing once |
| Text.Strip | sponge_emp/utils.py:101 | `.strip()`: the result is a slice s[a..b] of the line with only whitespace before a and after b, it neither starts nor ends with whitespace, and it is empty exactly when the line is all whitespace |
| Text.NatToString | sponge_emp/Site_Main_Flask.py:195 | `%d` of a count is a non-empty run of decimal digits |
| Text.NatToStringRoundTrip | sponge_emp/Site_Main_Flask.py:195 | reading the `%d` rendering back gives the count |
| Text.NatToStringInjective | sponge_emp/Site_Main_Flask.py:195 | different counts render differently |
| Sorting.InsertAsc | sponge_emp/Site_Main_Flask.py:200 | inserting into an ascending list keeps it ascending and adds exactly the new element |
| Sorting.InsertDesc | sponge_emp/Site_Main_Flask.py:201 | inserting into a descending list keeps it descending and adds exactly the new element |
| Sorting.SortAsc | sponge_emp/Site_Main_Flask.py:200 | `sorted(key=...)`: a permutation of the input, ascending by key |
| Sorting.SortDesc | sponge_emp/Site_Main_Flask.py:201 | `sorted(key=..., reverse=True)`: a permutation of the input, descending by key |
| Sorting.InsertDescKeepsLex | sponge_emp/Site_Main_Flask.py:199-201 | the stable descending insertion keeps a (major desc, minor asc) order when the new element's minor key is smallest |
| Sorting.DescAfterAscIsLex | sponge_emp/Site_Main_Flask.py:199-201 | stably sorting descending by fraction a list already ascending by p-value orders it by fraction, ties by p-value |
| Sorting.TwoPassSortIsLex | sponge_emp/Site_Main_Flask.py:199-202 | the two sorts together yield a permutation of the kept entries ordered by fraction descending, then p-value ascending |
| Sorting.PermutationKeepsDistinct | spongeworld/Site_Main_Flask.py:763-765 | sorting a list without repetitions leaves it without repetitions |
| Abundance.AsList | spongeworld/spongeworld.py:104-105 | a single string is the one-element list; a list is itself |
| Abundance.Normalize | sponge_emp/database.py:37 | dividing each column by its positive sum keeps the matrix shape |
| Abundance.ScaledColumnSum | sponge_emp/database.py:37 | dividing a column's entries by c divides its sum by c |
| Abundance.NormalizedColumnsSumToOne | sponge_emp/database.py:37 | after normalisation every sample column sums to 1 |
| Abundance.SelectColumns | sponge_emp/database.py:49 | `data[:, pos]`: column k of the result is column pos[k] of the input, for every row |
| Abundance.CopiedColumnSum | sponge_emp/database.py:49 | a copied column keeps its sum |
| Abundance.CommonFrom | sponge_emp/database.py:47 | the positions from `from` on whose sample id is in the mapping file, strictly increasing, none missing |
| Abundance.CommonPositions | sponge_emp/database.py:47-48 | a position is kept iff its sample id is in the mapping file's index; kept positions are strictly increasing |
| Abundance.Load | sponge_emp/database.py:31-63 | the loaded state has one row per feature, one column and one complete metadata record per retained sample |
| Abundance.LoadAlignsAndNormalizes | sponge_emp/database.py:37-50 | after loading, the feature ids are the table's and the columns the mapping file's; entry (i, k) is the table's entry (i, pos[k]) divided by that column's total, where pos lists the common samples; row k of the metadata is that sample's record; and every column sums to 1 |
| Abundance.IndexOf | sponge_emp/database.py:133-136 | the first row whose id equals the query exactly; None iff no id equals it |
| Abundance.CountAbove | sponge_emp/database.py:152 | the number of samples strictly above the threshold is at most the sample count, and 0 iff every entry is at most the threshold |
| Abundance.CountAboveAntitone | sponge_emp/database.py:152 | raising the threshold never increases that number |
| Abundance.CountValueUpTo | sponge_emp/database.py:171 | the number of samples with exactly that value is at most the sample count, and 0 iff no sample has the value |
| Abundance.Without | sponge_emp/database.py:78-79 | a column is kept iff it is a metadata column and not excluded |
| Abundance.WithoutSingle | sponge_emp/database.py:78-79 | a single column is kept exactly when it is not in the exclude list |
| Abundance.WithoutAppend | sponge_emp/database.py:78-79 | filtering distributes over concatenation, so the kept columns keep their order and their multiplicity |
| SpongeEmpDatabase.Hits | sponge_emp/database.py:204-210 | `allsum[j]` is at most the number of query sequences |
| SpongeEmpDatabase.TallyPositiveHasValue | sponge_emp/database.py:212-216 | a value with a positive count is carried by some sample |
| SpongeEmpDatabase.TallyBounded | sponge_emp/database.py:212-224 | a value's count is at most its sample count times the number of query sequences |
| SpongeEmpDatabase.InfoSpecEntries | sponge_emp/database.py:204-225 | for a known field, a value is returned iff its accumulated count is >= 1 and >= mincounts; observed is that count, total is `get_value_samples` × `len(sequence)`, and observed <= total |
| SpongeEmpDatabase.InfoSpecBounded | sponge_emp/database.py:222-225 | every returned distribution has 1 <= observed <= total |
| SpongeEmpDatabase.MincountsBoundary | sponge_emp/database.py:219-221 | a value counted c >= 1 times is returned at mincounts c and omitted at mincounts c+1 |
| SpongeEmpDatabase.DBData.constructor | sponge_emp/database.py:13-29 | a new store holds nothing until `import_data` |
| SpongeEmpDatabase.DBData.ImportData | sponge_emp/database.py:31-63 | the store holds the joined, normalised table (columns sum to 1), the feature taxonomy, and `seq_length` = length of the first feature id |
| SpongeEmpDatabase.DBData.GetFields | sponge_emp/database.py:65-80 | a field is returned iff it is a metadata column not in the exclude list; the list is `Without(columns, exclude)`, whose order and multiplicity `WithoutSingle` and `WithoutAppend` fix |
| SpongeEmpDatabase.DBData.GetTotalSamples | sponge_emp/database.py:82-91 | the number of sample columns of every row |
| SpongeEmpDatabase.DBData.GetSeqPos | sponge_emp/database.py:119-136 | a row whose feature id equals the query exactly; None iff the query is no feature id |
| SpongeEmpDatabase.DBData.GetTaxonomy | sponge_emp/database.py:93-117 | 'na' when the query is shorter than `seq_length`, when there is no taxonomy, or when the truncated upper-cased query is unknown; otherwise that feature's taxonomy |
| SpongeEmpDatabase.DBData.GetTotalObserved | sponge_emp/database.py:138-154 | 0 for an unknown sequence; at most `get_total_samples`; 0 iff no sample is above the threshold |
| SpongeEmpDatabase.DBData.GetValueSamples | sponge_emp/database.py:156-172 | None (the KeyError) iff the field is not a metadata column; otherwise at most the sample count, and 0 iff no sample has the value |
| SpongeEmpDatabase.DBData.GetInfo | sponge_emp/database.py:174-226 | the result is the specification `InfoSpec` (its entries are given by InfoSpecEntries), or the KeyError of a field that is no column |
| SpongeEmpDatabase.AllSums | sponge_emp/database.py:204-210 | `allsum[j]` is the number of found query sequences present above the threshold in sample j |
| SpongeEmpDatabase.CountsByValue | sponge_emp/database.py:212-216 | `counts[v]` is the sum of `allsum` over the samples with value v, with a key iff that sum is positive; KeyError iff the field is no column and some sample has a hit |
| SpongeEmpDatabase.KeepFrequent | sponge_emp/database.py:218-225 | the values kept are exactly those counted at least mincounts times, with their totals |
| SpongeEmpDatabase.TotalObservedAntitone | sponge_emp/database.py:148-154 | raising the threshold never increases `get_total_observed` |
| SpongeworldDatabase.PresentWith | spongeworld/database.py:176-181 | a value's observed count is at most the number of samples considered |
| SpongeworldDatabase.PresentWithBounded | spongeworld/database.py:181-187 | a value's observed count is at most its `get_value_samples` |
| SpongeworldDatabase.PresentWithHasValue | spongeworld/database.py:179-181 | a value with a positive count is carried by some sample |
| SpongeworldDatabase.PresentWithAntitone | spongeworld/database.py:176 | raising the threshold never increases a value's count |
| SpongeworldDatabase.InfoSpecEntries | spongeworld/database.py:173-190 | for a known sequence and field, a value is returned iff some sample with it is above the threshold; observed is that number, total is `get_value_samples`, and 1 <= observed <= total |
| SpongeworldDatabase.GroupedSplit | spongeworld/database.py:178-181 | counting samples per set of values splits over one value |
| SpongeworldDatabase.SumObservedIsGrouped | spongeworld/database.py:178-188 | the observed counts of a set of returned values add up to the samples above the threshold with one of those values |
| SpongeworldDatabase.GroupedNone | spongeworld/database.py:178-181 | no values, no samples |
| SpongeworldDatabase.GroupedCoversAll | spongeworld/database.py:176-181 | when the values cover every present sample, the grouped count is the count above the threshold |
| SpongeworldDatabase.InfoPartitionsObserved | spongeworld/database.py:173-190 | the observed counts over all returned values add up to the number of samples above the threshold, i.e. `get_total_observed` |
| SpongeworldDatabase.PresentWithCounts | spongeworld/database.py:179-181 | a sample above the threshold makes its own value's count positive |
| SpongeworldDatabase.InfoThresholdMonotone | spongeworld/database.py:176-187 | at a higher threshold every returned value was returned before, with a count no larger and the same total |
| SpongeworldDatabase.DBData.constructor | spongeworld/database.py:13-29 | a new store holds nothing until `import_data` |
| SpongeworldDatabase.DBData.ImportData | spongeworld/database.py:31-63 | the store holds the joined, normalised table (columns sum to 1) and `seq_length` = length of the first feature id |
| SpongeworldDatabase.DBData.GetFields | spongeworld/database.py:65-80 | a field is returned iff it is a metadata column not in the exclude list; the list is `Without(columns, exclude)`, whose order and multiplicity `WithoutSingle` and `WithoutAppend` fix |
| SpongeworldDatabase.DBData.GetTotalSamples | spongeworld/database.py:82-91 | the number of sample columns of every row |
| SpongeworldDatabase.DBData.GetSeqPos | spongeworld/database.py:93-110 | a row whose feature id equals the query exactly; None iff the query is no feature id |
| SpongeworldDatabase.DBData.GetTotalObserved | spongeworld/database.py:112-128 | None iff the sequence is unknown; otherwise at most `get_total_samples`, and 0 iff no sample is above the threshold |
| SpongeworldDatabase.DBData.GetValueSamples | spongeworld/database.py:130-146 | None (the KeyError) iff the field is not a metadata column; otherwise at most the sample count, and 0 iff no sample has the value |
| SpongeworldDatabase.DBData.GetInfo | spongeworld/database.py:148-190 | the result is the specification `InfoSpec`: None for an unknown sequence, else the entries of InfoSpecEntries, or the KeyError of a field that is no column |
| SpongeworldDatabase.CountsByValue | spongeworld/database.py:176-181 | one per sample above the threshold under that sample's value, with a key iff positive; KeyError iff the field is no column and some sample is above |
| SpongeworldDatabase.TotalObservedAntitone | spongeworld/database.py:122-128 | raising the threshold never increases `get_total_observed` of a known sequence |
| Spongeworld.Usable | spongeworld/spongeworld.py:109-115 | every kept sequence has exactly `seq_length` characters; none is kept iff every sequence is too short |
| Spongeworld.UsableMembers | spongeworld/spongeworld.py:109-115 | a sequence is looked up iff it is at least `seq_length` long, and then as its truncated upper-cased prefix |
| Spongeworld.ObservedSumBounded | spongeworld/spongeworld.py:114-121 | `total_observed` <= `get_total_samples` × number of usable sequences |
| Spongeworld.FirstUnknown | spongeworld/spongeworld.py:126-129 | None iff `get_info` succeeds on every requested field; otherwise a requested field that is no column |
| Spongeworld.RequestedFields | spongeworld/spongeworld.py:101-102 | the given list, or every metadata column except '#SampleID' |
| Spongeworld.GetSequenceInfo | spongeworld/spongeworld.py:67-131 | the answer is `SequenceInfoSpec`: the too-short error, the propagated KeyError, or the totals and per-field info |
| Spongeworld.CollectUsable | spongeworld/spongeworld.py:107-115 | the kept sequences and the sum of their `get_total_observed` |
| Spongeworld.AskFields | spongeworld/spongeworld.py:125-129 | one `get_info` result per requested field, or the KeyError of the first field that raises |
| Spongeworld.FirstUnknownExtends | spongeworld/spongeworld.py:126-129 | once a field raises, the later fields are not asked |
| Spongeworld.SuccessIsWellFormed | spongeworld/spongeworld.py:117-131 | on success: at least one usable sequence, `total_samples` = samples × usable sequences, `total_observed` <= `total_samples`, one info key per requested field, 1 <= observed <= total everywhere |
| Spongeworld.DefaultFieldsNeverRaise | spongeworld/spongeworld.py:101-102 | without a field list the answer succeeds and has one key per column except '#SampleID' |
| Spongeworld.TooShortIsError | spongeworld/spongeworld.py:117-119 | when every sequence is shorter than `seq_length` the answer is the error naming that length |
| Spongeworld.MultiSequenceTotals | spongeworld/spongeworld.py:109-124 | two usable sequences observed 9 and 10 times in 20 samples plus a too-short one give totals 40 and 19 |
| SpongeEmpSite.Choose | sponge_emp/Site_Main_Flask.py:193 | the binomial coefficient is 0 above n and 1 at 0 and n |
| SpongeEmpSite.BinomPmf | sponge_emp/Site_Main_Flask.py:193 | a binomial probability is non-negative |
| SpongeEmpSite.BinomCdf | sponge_emp/Site_Main_Flask.py:193 | `binom.cdf(k, n, p)` is non-negative and at least P(X = k) |
| SpongeEmpSite.BinomCdfMonotone | sponge_emp/Site_Main_Flask.py:193 | the CDF never decreases in k |
| SpongeEmpSite.NullPv | sponge_emp/Site_Main_Flask.py:183 | `1 - total_observed/total_samples` is a probability |
| SpongeEmpSite.EntryOf | sponge_emp/Site_Main_Flask.py:189-193 | an entry records its field and value, and its fraction lies in (0, 1] |
| SpongeEmpSite.Descriptions | sponge_emp/Site_Main_Flask.py:202 | one string per ranked entry, in order |
| SpongeEmpSite.DescribeDistinguishesCounts | sponge_emp/Site_Main_Flask.py:195 | the string of a field value determines its observed and total counts |
| SpongeEmpSite.SplitAtSlash | sponge_emp/Site_Main_Flask.py:195 | the `obs/total)` tail splits uniquely |
| SpongeEmpSite.KeepField | sponge_emp/Site_Main_Flask.py:189-196 | the inner loop keeps each value of the field whose p-value is <= the cutoff, once |
| SpongeEmpSite.KeptStep | sponge_emp/Site_Main_Flask.py:188-196 | each further field adds exactly its own kept entries |
| SpongeEmpSite.KeptAmongStep | sponge_emp/Site_Main_Flask.py:189-196 | one more value of a field adds its entry, not already kept, exactly when it passes the cutoff |
| SpongeEmpSite.KeptAmongListStep | sponge_emp/Site_Main_Flask.py:189-196 | appending a passing value's entry (and nothing for a failing one) keeps the list a copy of the kept entries |
| SpongeEmpSite.KeptMultisetStep | sponge_emp/Site_Main_Flask.py:188-196 | appending one field's kept list to the list so far gives the kept entries of both |
| SpongeEmpSite.CollectKept | sponge_emp/Site_Main_Flask.py:188-196 | the `keep` list is a permutation of the kept entries of the ranked fields; KeyError iff a ranked field is missing |
| SpongeEmpSite.GetAnnotationString | sponge_emp/Site_Main_Flask.py:149-204 | [] when `total_observed` is 0; KeyError iff the named field is missing; otherwise a permutation of the entries passing the cutoff, ordered by fraction desc then p-value asc, and the returned strings are those entries' `Descriptions`, in that order |
| SpongeEmpSite.KeptMember | sponge_emp/Site_Main_Flask.py:188-196 | a kept entry is the entry of a ranked field's value and passed the cutoff |
| SpongeEmpSite.RankedEntriesPass | sponge_emp/Site_Main_Flask.py:184-196 | every output entry passed the cutoff, belongs to a ranked field (the named one, or all), and appears once |
| SpongeEmpSite.GoodSequenceAnnotation | sponge_emp/tests/test_Site_Main_Flask.py:20-23 | the good sequence (9/20 observed, group 2 9/9) is annotated exactly `group:2 (9/9)` |
| SpongeEmpSite.BadSequenceAnnotation | sponge_emp/tests/test_Site_Main_Flask.py:25-28 | the bad sequence (10/20, group 1 6/11, group 2 4/9) gets no annotation |
| SpongeEmpSite.FiveOfNine | sponge_emp/Site_Main_Flask.py:193 | for 9 trials at p = 1/2, P(X = 5) = 126/512 exceeds 0.1 |
| SpongeEmpSite.FiveOfEleven | sponge_emp/Site_Main_Flask.py:193 | for 11 trials at p = 1/2, P(X = 5) = 462/2048 exceeds 0.1 |
| SpongeEmpSite.PvalAtLeastPmf | sponge_emp/Site_Main_Flask.py:189-193 | an entry's p-value is at least the probability of exactly its unobserved count |
| SpongeEmpSite.EvenEntryFails | sponge_emp/Site_Main_Flask.py:183-193 | with the sequence in 10 of 20 samples, a value unobserved in 5 of its 9 or 11 samples has p-value above 0.1 |
| SpongeEmpSite.BadValues | sponge_emp/tests/test_Site_Main_Flask.py:25-28 | the bad sequence's result has values only in `group`, each 5 short of its 9 or 11 samples |
| SpongeEmpSite.BadEntriesFail | sponge_emp/tests/test_Site_Main_Flask.py:25-28 | no value of the bad sequence's result passes the cutoff 0.1 |
| SpongeEmpUtils.Stripped | sponge_emp/utils.py:101 | every line stripped, in order |
| SpongeEmpUtils.GetFastaSeqs | sponge_emp/utils.py:77-124 | None when a stripped line is empty (the caught IndexError) or no line is a header; otherwise the non-empty records of the stripped lines |
| SpongeEmpUtils.ReadStripped | sponge_emp/utils.py:97-121 | the loop over stripped lines: a header closes the current record, kept only if non-empty |
| SpongeEmpUtils.ReaderKeepsSequenceText | sponge_emp/utils.py:100-111 | the returned sequences, concatenated, are exactly the non-header lines: nothing lost, nothing duplicated |
| SpongeEmpUtils.DebugLog.constructor | sponge_emp/utils.py:6 | the debug level starts at 2 |
| SpongeEmpUtils.DebugLog.Debug | sponge_emp/utils.py:9-21 | a message is emitted iff its level is >= the debug level |
| SpongeEmpUtils.DebugLog.SetDebugLevel | sponge_emp/utils.py:24-27 | the level is replaced; nothing is emitted |
| Fasta.HeaderCount | sponge_emp/utils.py:102 | the number of '>' lines, at most the number of lines |
| Fasta.Records | sponge_emp/utils.py:100-108 | one record before the first header and one per header |
| Fasta.NonEmpty | sponge_emp/utils.py:104-105 | the records that are appended contain no empty string |
| Fasta.NonEmptyMembers | sponge_emp/utils.py:104-111 | exactly the non-empty records are returned |
| Fasta.RecordsStep | sponge_emp/utils.py:102-108 | a header opens an empty record; any other line extends the current one |
| Fasta.NonEmptyLast | sponge_emp/utils.py:109-111 | the last record is appended only when non-empty |
| Fasta.RecordsKeepBody | sponge_emp/utils.py:100-108 | the records, concatenated, are the non-header lines |
| Fasta.NonEmptyKeepsConcat | sponge_emp/utils.py:104-111 | dropping empty records does not change that concatenation |
| Fasta.NoHeaderIsOneRecord | sponge_emp/utils.py:116-118 | text without a header is a single record holding all its lines |
| SpongeworldSite.KeptRecords | spongeworld/Site_Main_Flask.py:827-833 | all records but the last, then the last only if non-empty |
| SpongeworldSite.GetFastaSeqs | spongeworld/Site_Main_Flask.py:807-841 | IndexError at the first empty line; otherwise None iff no line is a header, else every record (empty ones included) with the last only if non-empty |
| SpongeworldSite.FirstRecordEmpty | spongeworld/Site_Main_Flask.py:825-828 | after a leading header the first record stays empty |
| SpongeworldSite.LeadingHeaderGivesEmptyFirst | spongeworld/Site_Main_Flask.py:825-828 | text starting with '>' yields a leading '' |
| SpongeworldSite.KeptRecordsKeepBody | spongeworld/Site_Main_Flask.py:824-833 | the returned records, concatenated, are the unstripped non-header lines |
| SpongeworldSite.TermCountAppend | spongeworld/Site_Main_Flask.py:754-761 | term counts add up over concatenated annotation lists |
| SpongeworldSite.UncountedDetailsAddNothing | spongeworld/Site_Main_Flask.py:756 | details of types other than 'all' and 'high' add nothing |
| SpongeworldSite.TallyTerms | spongeworld/Site_Main_Flask.py:753-761 | the dictionary's terms are exactly those of counted details, each with its weighted count |
| SpongeworldSite.TallyOne | spongeworld/Site_Main_Flask.py:755-761 | one annotation adds its weight (`len(website_sequences)` or 1) to each of its counted terms |
| SpongeworldSite.DetailStep | spongeworld/Site_Main_Flask.py:756-761 | `terms[t] += weight` for a counted detail (from 0 for a new term) keeps every count equal to the tally so far and the keys equal to the counted terms |
| SpongeworldSite.AnnotationStep | spongeworld/Site_Main_Flask.py:754-761 | one more annotation adds its details' weighted tally to every term's count |
| SpongeworldSite.UnmentionedHasZero | spongeworld/Site_Main_Flask.py:753-761 | a term no counted detail names has count 0 |
| SpongeworldSite.UnmentionedTally | spongeworld/Site_Main_Flask.py:755-761 | the same, for one annotation's details |
| SpongeworldSite.UnmentionedTermCount | spongeworld/Site_Main_Flask.py:754-761 | the same, over all annotations |
| SpongeworldSite.Items | spongeworld/Site_Main_Flask.py:762-764 | the dictionary's items as a list without repetitions |
| SpongeworldSite.GetCommonTerms | spongeworld/Site_Main_Flask.py:741-766 | a (term, count) pair is returned iff the term is in a counted detail and count is its weighted total; each term once; sorted by count descending |
| SpongeworldSite.TermsOfKind | spongeworld/Site_Main_Flask.py:274-283 | the terms of one detail type, at most one per detail |
| SpongeworldSite.DropComma | spongeworld/Site_Main_Flask.py:304-305 | exactly one trailing ',' is removed: putting it back gives the input; without one, the input is unchanged |
| SpongeworldSite.GetAnnotationStrings | spongeworld/Site_Main_Flask.py:257-306 | the summary built piece by piece equals `AnnotationSummary` |
| SpongeworldSite.BuildTail | spongeworld/Site_Main_Flask.py:270-302 | the type-dependent part of the summary |
| SpongeworldSite.SplitByKind | spongeworld/Site_Main_Flask.py:271-283 | the high, low and all terms, each in detail order |
| SpongeworldSite.AppendWords | spongeworld/Site_Main_Flask.py:284-292 | each word is followed by a space |
| SpongeworldSite.AppendCdets | spongeworld/Site_Main_Flask.py:293-296 | one literal `cdet,` per detail |
| SpongeworldSite.AppendCommaTerms | spongeworld/Site_Main_Flask.py:299-302 | a space, the term and a comma per detail |
| SpongeworldSite.GenericDropsOneComma | spongeworld/Site_Main_Flask.py:299-305 | an annotation of another type with details loses exactly its final comma |
| SpongeworldSite.ContaminationSummary | spongeworld/Site_Main_Flask.py:297-298 | a 'contamination' annotation reads `contamination` after its description |
| SpongeworldSite.IsaIgnoresTerms | spongeworld/Site_Main_Flask.py:293-296 | an 'isa' summary depends only on the number of details |
| SpongeworldSite.IsaCounterexample | spongeworld/Site_Main_Flask.py:293-296 | 'isa fish' and 'isa sponge' both render ` is a cdet` |
| SpongeworldSite.IsaNamesTerm | spongeworld/Site_Main_Flask.py:293-296 | with the term listed, a one-detail 'isa' renders ` is a <term>` |
| SpongeworldSite.IsaDistinguishesTerms | spongeworld/Site_Main_Flask.py:293-296 | with the term listed, different 'isa' terms give different summaries |
| SpongeworldSite.GetDbAddress | spongeworld/Site_Main_Flask.py:13-43 | lower-cased 'local', 'main', 'develop' give their fixed URLs; unset gives main; any other value gives the 'unknown server type' error |
| SpongeworldSite.DbAddressCaseInsensitive | spongeworld/Site_Main_Flask.py:27 | the value selects the same server as its lower-cased form |
| SpongeworldSite.DbAddressMainUpper | spongeworld/Site_Main_Flask.py:26-40 | `MAIN` selects the default server |

## Proof helpers

Lemmas that the proofs above use but that state no behaviour of the system on their own:

- `SpongeEmpSite.DisjointUnion`: the union of two disjoint sets has the sum of their multisets.
- `SpongeEmpSite.PowMonotone`: a smaller non-negative base gives a smaller power.
- `SpongeEmpSite.PmfUnfold`: P(X = k) is the count of k-subsets times the success and failure powers.
- `SpongeEmpSite.HalfPair`: at p = 1/2, success and failure powers combine into (1/2)^n.
- `SpongeEmpSite.PowAdd`: x^a * x^b = x^(a+b).
- `SpongeEmpSite.HalfPow`: (1/2)^9 = 1/512 and (1/2)^11 = 1/2048.
- `SpongeEmpSite.ChooseOne`: n choose 1 is n.
- `SpongeEmpSite.ChooseRow9`: row 9 of Pascal's triangle, entries 1 to 5 (126 at 5).
- `SpongeEmpSite.ChooseRow11`: row 11 of Pascal's triangle, entries 1 to 5 (462 at 5).
- `Fasta.ConcatAppend`: concatenation distributes over list concatenation.

## Left out

- Reading the biom table and the mapping file (`biom.load_table`, `pd.read_table`, `fillna`). `ImportData` takes the parsed table and records as values.
- The loaded table is assumed to have at least one feature, no empty sample and non-negative abundances (`Abundance.ValidTable`). The mapping file is assumed to have every column in every record (`fillna('na')`). On other input the source raises or produces NaN columns, and the model does not cover that.
- Floating point: normalisation, fractions and the p-value use exact reals. `binom.cdf` is the exact finite sum.
- `get_seq_pos` with duplicate feature ids: pandas `get_loc` then returns a slice or mask. The model returns the first match.
- The order of Python dictionaries is not modelled. Maps and sets stand for `counts`, `info` and the term dictionary.
- SpongeEmpSite.GetAnnotationString: because of that, ties in both fraction and p-value may come out in any order, where the source keeps dictionary order.
- SpongeworldSite.GetCommonTerms: terms with equal counts may come out in any order, for the same reason.
- Spongeworld.GetSequenceInfo: run against the `sponge_emp` store. The `spongeworld` store's `get_info` takes no `mincounts`, and its `get_total_observed` may return None, which line 114 would add to an int.
- The debug messages are not modelled inside the stores and query functions. `DebugLog` models only the level gate, with output collected in a sequence instead of written to stderr.
- Only ASCII letters change case, and only ASCII whitespace is stripped.
- Opening and closing files in the FASTA readers, and the exceptions other than the empty line that the `except:` of `sponge_emp/utils.py` would catch. Input is the sequence of lines the file yields.
- The seqs1.fasta example and the test biom and mapping files. The concrete tests are modelled on their stated counts (GoodSequenceAnnotation, BadSequenceAnnotation, MultiSequenceTotals), not on the files.
- Flask routes, HTML assembly, `requests` calls to the annotation server, `Server_Main.py`, the drawing code (`plot_pie_chart`, `draw_cloud`, `test_image`), `getdoc`, `get_data_path` and `setup.py`. These are I/O and presentation.

## Findings

| source | as written | input that shows it | evidently intended | confidence | as-written member | corrected member |
|---|---|---|---|---|---|---|
| spongeworld/Site_Main_Flask.py:295-296 | the 'isa' case appends the literal text `cdet,` once per detail | an 'isa' annotation with the single detail ('all', 'fish') renders ` is a cdet`, the same as one with ('all', 'sponge') | append each detail's term, as the generic case does | high; not executed | SpongeworldSite.IsaCounterexample | SpongeworldSite.IsaDistinguishesTerms |
