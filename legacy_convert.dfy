/**
 * The older converter end to end (sumstats_to_chisq.py, lines 410-726): the
 * columns are chosen from the header, the chunks are read with them, and the
 * steps after the chunk loop run with the null value the selection parsed.
 * Every setting is read once, from the command line, and passed on to the
 * stage that reads it.
 */
module LegacyConvert {
  import opened Wrappers
  import opened Schema
  import opened MungeN
  import opened LegacyFilters
  import opened LegacyN
  import opened LegacySelect
  import opened LegacyMain
  import MungeHeader

  /** The command-line settings of the older converter. */
  datatype ChisqArgs = ChisqArgs(
    flags: MungeHeader.FlagArgs,
    merge: bool,                        // `--merge`
    mergeList: Option<seq<Row>>,        // the `--merge-alleles` list, already read
    n: NArgs,                           // `--N`, `--N-cas`, `--N-con`, `--N-min`, `--nstudy-min`
    daner: bool,
    noFilterN: bool,
    a1Inc: bool,
    noAlleles: bool,
    infoMin: real,
    mafMin: real,
    strand: map<string, bool>,          // `STRAND_AMBIGUOUS`
    matchAlleles: map<string, bool>)    // `MATCH_ALLELES`

  /** The settings the column selection reads (lines 410-523). */
  function SelectArgsOf(a: ChisqArgs): SelectArgs
  {
    SelectArgs(a.flags, a.merge, a.mergeList.Some?, CheckArgs(a.n.n, a.n.nCas, a.n.nCon, a.daner, a.a1Inc))
  }

  /**
   * The settings of the steps after the chunk loop. `get_flip_alleles` tests
   * `--signed-sumstats` against None (line 267), so the empty text counts as
   * given there, while its null value is parsed only for a non-empty flag
   * (lines 441-457).
   */
  function LegacyArgsOf(a: ChisqArgs, s: Selection): LegacyArgs
  {
    LegacyArgs(LegacyNArgs(a.n, a.daner, a.noFilterN), a.noAlleles, a.flags.signedSumstats.Some?, s.signedNull,
               a.a1Inc, a.mergeList, a.strand, a.matchAlleles)
  }

  /** The distinct fields of the columns read. */
  function FieldSet(fields: seq<Field>): set<Field>
  {
    set f | f in fields
  }

  /**
   * The chunks are what `read_csv` yields for the columns a successful
   * selection reads: the fields read, INFO apart, are the chunk's columns,
   * and every INFO column read is one of its INFO values.
   */
  predicate FramesRead(a: SelectArgs, header: seq<string>, parseReal: string -> Option<real>, chunks: seq<Frame>)
  {
    SelectedBy(a, header, parseReal).Some? ==>
      var fields := SelectedBy(a, header, parseReal).value.fields;
      forall k :: 0 <= k < |chunks| ==>
        && chunks[k].Valid()
        && chunks[k].cols == FieldSet(fields) - {Info}
        && chunks[k].infoCols == multiset(fields)[Info]
  }

  /**
   * Lines 553-726 once the columns are chosen. Two columns read as P make
   * `dat.P` a frame, whose `dtype` the first chunk's `filter_snps` reads
   * (line 202); otherwise the chunk loop and the steps after it.
   */
  function AfterSelection(a: ChisqArgs, s: Selection, header: seq<string>, parseInt: string -> Option<int>,
                          chunks: seq<Frame>, quantile: seq<Option<real>> -> Option<real>, chisqOf: real -> real): Result<ChisqOutput, Failure>
  {
    if chunks != [] && multiset(s.fields)[P] > 1 then Err(PColumnRepeated)
    else ConvertResult(chunks, FieldSet(s.fields) - {Info}, a.infoMin, a.mafMin, LegacyArgsOf(a, s), header, parseInt, quantile, chisqOf)
  }

  /**
   * With `--signed-sumstats ""` the flip always fails, `--a1-inc` or not: the
   * statistic is taken to be SIGNED_SUMSTAT, and either no column is read as
   * SIGNED_SUMSTAT or its null value was never set (lines 267-270).
   */
  lemma EmptySignedFlagFails(a: ChisqArgs, header: seq<string>, parseReal: string -> Option<real>, t: Table)
    requires a.flags.signedSumstats == Some("")
    requires SelectedBy(SelectArgsOf(a), header, parseReal).Some?
    ensures var la := LegacyArgsOf(a, SelectedBy(SelectArgsOf(a), header, parseReal).value);
      FlipResult(t, la) == if SignedSumstat in t.cols then Err(NoNullValue) else Err(MissingAttribute(SignedSumstat))
  {
    var sa := SelectArgsOf(a);
    var fs := FlagSetupFor(sa.flags, parseReal);
    SelectedNull(sa, header, fs, DanerCnames(header, sa.checks.daner));
    FlipWithoutNull(t, LegacyArgsOf(a, SelectedBy(sa, header, parseReal).value));
  }

  /**
   * The older converter: choose the columns (`sel`), then read the chunks and
   * run the steps after the loop with the settings of the selection.
   * `parseReal` is Python's `float` on the `--signed-sumstats` text,
   * `parseInt` its `int` on the `--daner` header numbers, and `quantile` and
   * `chisqOf` are as for `ConvertChunks`.
   */
  method ConvertFile(a: ChisqArgs, header: seq<string>, parseReal: string -> Option<real>, parseInt: string -> Option<int>,
                     chunks: seq<Frame>, quantile: seq<Option<real>> -> Option<real>, chisqOf: real -> real)
    returns (r: Result<ChisqOutput, Failure>, sel: Result<Selection, Failure>)
    requires FramesRead(SelectArgsOf(a), header, parseReal, chunks)
    ensures sel == Err(IncompatibleMergeFlags) <==> a.merge && a.mergeList.Some?
    ensures sel.Ok? <==> SelectedBy(SelectArgsOf(a), header, parseReal).Some?
    ensures sel.Ok? ==> sel.value == SelectedBy(SelectArgsOf(a), header, parseReal).value
    ensures sel.Err? ==> r == Err(sel.error)
    ensures sel.Ok? ==> r == AfterSelection(a, sel.value, header, parseInt, chunks, quantile, chisqOf)
    ensures sel.Ok? && chunks != [] && multiset(sel.value.fields)[P] > 1 ==> r == Err(PColumnRepeated)
    ensures r.Ok? ==> Chisq in r.value.printCols && N in r.value.printCols && Info !in r.value.printCols
  {
    sel := SelectColumns(SelectArgsOf(a), header, parseReal);
    if sel.Err? {
      return Err(sel.error), sel;
    }
    var s := sel.value;
    if chunks != [] && multiset(s.fields)[P] > 1 {
      return Err(PColumnRepeated), sel;
    }
    var tot, mergeDrops, drops;
    r, tot, mergeDrops, drops :=
      ConvertChunks(chunks, FieldSet(s.fields) - {Info}, a.infoMin, a.mafMin, LegacyArgsOf(a, s), header, parseInt, quantile, chisqOf);
  }
}
