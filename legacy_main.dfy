/**
 * The main sequence of the older converter (sumstats_to_chisq.py, lines
 * 553-726) after the columns are chosen: the chunk loop, the sample-size
 * steps, CHISQ, the allele steps and the columns written to the `.chisq`
 * file.
 */
module LegacyMain {
  import opened Wrappers
  import opened Schema
  import opened LegacyFilters
  import opened LegacyChunks
  import opened LegacyN
  import opened LegacyAlleles
  import MungeN
  import opened Seqs

  /**
   * The columns written (lines 725-726), as a set. MAF is not modelled: it can
   * only come from an extra column of the `--merge-alleles` list, and the
   * list's extra columns are left out.
   */
  function ChisqColumns(cols: set<Field>): (pc: set<Field>)
    ensures pc <= cols
    ensures forall f :: f in pc <==> f in cols && f in {Snp, Info, N, Chisq, IncAllele, DecAllele}
  {
    cols * {Snp, Info, N, Chisq, IncAllele, DecAllele}
  }

  /** The settings of the steps after the chunk loop. */
  datatype LegacyArgs = LegacyArgs(
    n: LegacyNArgs, noAlleles: bool, signedGiven: bool, signedNull: Option<real>, a1Inc: bool,
    mergeList: Option<seq<Row>>, strand: map<string, bool>, matchAlleles: map<string, bool>)

  /** The converted table and the columns written out. */
  datatype ChisqOutput = ChisqOutput(dat: Table, printCols: set<Field>)

  /** The conditions the steps after the chunk loop raise. */
  predicate TailFailure(e: Failure)
  {
    || e == NoSnpsRemain || e.MissingDanerColumn? || e.UnparsableNumber? || e == NoNSpecified
    || e == MinNAttributeMissing || e == AllelesNotText || e == NotCodedACGT || e == StrandKeyMissing
    || e == AllStrandAmbiguous || e.MissingAttribute? || e == NoSignedStatFound || e == NoNullValue
    || e == AlleleMatchKeyMissing || e == AllAllelesDiscordant || e == NoAlleleColumns
  }

  /** The fields the allele steps rename or drop: the alleles and the directional statistics. */
  const AlleleFields: set<Field> := {A1, A2, IncAllele, DecAllele, SignedSumstat, OR, Z, Beta, LogOdds}

  /** Every output row holds single-base increasing and decreasing alleles. */
  predicate BaseCoded(rows: seq<Row>)
  {
    forall i :: 0 <= i < |rows| ==>
      && TextAt(rows[i], IncAllele).Some? && IsBase(TextAt(rows[i], IncAllele).value)
      && TextAt(rows[i], DecAllele).Some? && IsBase(TextAt(rows[i], DecAllele).value)
  }

  /** Rows that passed the allele filters keep single-base alleles once flipped. */
  lemma FlipBaseCoded(t: Table, u: Table, flip: seq<bool>, strand: map<string, bool>)
    requires forall j :: 0 <= j < |t.rows| ==> AllelesPass(t.rows[j], strand)
    requires |u.rows| == |t.rows| == |flip|
    requires forall i :: 0 <= i < |t.rows| ==> Get(u.rows[i], A1) == Get(t.rows[i], A1) && Get(u.rows[i], A2) == Get(t.rows[i], A2)
    ensures BaseCoded(FlipAlleles(u, flip).rows)
  {
    var out := FlipAlleles(u, flip);
    forall i | 0 <= i < |out.rows|
      ensures TextAt(out.rows[i], IncAllele).Some? && IsBase(TextAt(out.rows[i], IncAllele).value)
      ensures TextAt(out.rows[i], DecAllele).Some? && IsBase(TextAt(out.rows[i], DecAllele).value)
    {
      assert AllelesPass(t.rows[i], strand);
    }
  }

  /**
   * Lines 681-682 as a value: `get_flip_alleles` (lines 266-299) chooses the
   * statistic, compares it with its null and drops it; `flip_alleles` then
   * renames and swaps the alleles.
   */
  function FlipResult(t: Table, a: LegacyArgs): Result<Table, Failure>
  {
    var f := DirectionalField(t.cols, a.signedGiven);
    if f.None? then
      (if a.a1Inc then Ok(FlipAlleles(t, seq(|t.rows|, i => false))) else Err(NoSignedStatFound))
    else if f.value == Beta || f.value !in t.cols then Err(MissingAttribute(f.value))
    else if f.value == SignedSumstat && a.signedNull.None? then Err(NoNullValue)
    else
      var point := if f.value == SignedSumstat then a.signedNull.value else NullValue(f.value);
      Ok(FlipAlleles(Table(t.cols - {f.value}, MungeN.DropColumns(t.rows, {f.value})), FlipMask(t.rows, f.value, point)))
  }

  /**
   * `--signed-sumstats` given without a null value: the flip fails, for want
   * of the column or of the null value (lines 267-270).
   */
  lemma FlipWithoutNull(t: Table, a: LegacyArgs)
    requires a.signedGiven && a.signedNull.None?
    ensures FlipResult(t, a) == if SignedSumstat in t.cols then Err(NoNullValue) else Err(MissingAttribute(SignedSumstat))
  {
    assert DirectionalField(t.cols, a.signedGiven) == Some(SignedSumstat);
  }

  /**
   * Lines 681-682 on rows that passed the allele filters: the directional
   * statistic is chosen and dropped, and the alleles renamed and flipped;
   * every row keeps single-base alleles.
   */
  method FlipStep(t: Table, a: LegacyArgs) returns (r: Result<Table, Failure>)
    requires t.Rectangular() && A1 in t.cols && A2 in t.cols
    requires forall j :: 0 <= j < |t.rows| ==> AllelesPass(t.rows[j], a.strand)
    ensures r.Err? ==> r.error.MissingAttribute? || r.error == NoSignedStatFound || r.error == NoNullValue
    ensures r.Ok? ==> r.value.Rectangular() && BaseCoded(r.value.rows) && |r.value.rows| == |t.rows|
    ensures r.Ok? ==> IncAllele in r.value.cols && DecAllele in r.value.cols && A1 !in r.value.cols && A2 !in r.value.cols
    ensures r.Ok? ==> r.value.cols <= t.cols - {A1, A2} + {IncAllele, DecAllele}
    ensures r.Ok? ==> KeepsTailFields(t.cols, r.value.cols)
    ensures var f := DirectionalField(t.cols, a.signedGiven);
      r.Err? <==>
        || (f.None? && !a.a1Inc)
        || (f.Some? && (f.value == Beta || f.value !in t.cols))
        || (f == Some(SignedSumstat) && a.signedNull.None?)
    ensures var f := DirectionalField(t.cols, a.signedGiven);
      r.Ok? && f.Some? ==>
        var point := if f.value == SignedSumstat then a.signedNull.value else NullValue(f.value);
        r.value.rows == FlipAlleles(Table(t.cols - {f.value}, MungeN.DropColumns(t.rows, {f.value})), FlipMask(t.rows, f.value, point)).rows
    ensures r == FlipResult(t, a)
  {
    var flip, u := GetFlipAlleles(t, a.signedGiven, a.signedNull, a.a1Inc);
    if flip.Err? {
      return Err(flip.error);
    }
    FlipBaseCoded(t, u, flip.value, a.strand);
    r := Ok(FlipAlleles(u, flip.value));
  }

  /** Lines 653-718 as a value: filters, flip, then the merge when a list is given. */
  function AlleleStepsResult(t: Table, a: LegacyArgs): Result<Table, Failure>
  {
    var kept := AlleleFilterResult(t, a.strand);
    if kept.Err? then kept
    else
      var flipped := FlipResult(kept.value, a);
      if flipped.Err? || a.mergeList.None? then flipped
      else MergeAllelesResult(flipped.value, a.mergeList.value, a.matchAlleles)
  }

  /**
   * Lines 653-718 when both allele columns are present: the allele filters,
   * the flip, and the merge with the `--merge-alleles` list when one is given.
   */
  method AlleleSteps(t: Table, a: LegacyArgs) returns (r: Result<Table, Failure>)
    requires t.Rectangular() && A1 in t.cols && A2 in t.cols
    ensures r.Err? ==> TailFailure(r.error)
    ensures r.Ok? ==> IncAllele in r.value.cols && DecAllele in r.value.cols && A1 !in r.value.cols && A2 !in r.value.cols
    ensures r.Ok? && a.mergeList.None? ==> r.value.Rectangular() && BaseCoded(r.value.rows) && |r.value.rows| <= |t.rows|
    ensures r.Ok? && a.mergeList.None? ==> r.value.cols <= t.cols - {A1, A2} + {IncAllele, DecAllele}
    ensures r.Ok? ==> KeepsTailFields(t.cols, r.value.cols)
    ensures r == AlleleStepsResult(t, a)
  {
    var kept := AlleleFilterStep(t, a.strand);
    if kept.Err? {
      return Err(kept.error);
    }
    var flipped := FlipStep(kept.value, a);
    if flipped.Err? || a.mergeList.None? {
      return flipped;
    }
    r := MergeAlleles(flipped.value, a.mergeList.value, a.matchAlleles);
    MergeColumnsKeep(t.cols, flipped.value.cols);
  }

  /** Lines 653-721 as a value. */
  function AllelesOrFailResult(t: Table, a: LegacyArgs): Result<Table, Failure>
  {
    if a.noAlleles then Ok(t)
    else if !(A1 in t.cols && A2 in t.cols) then Err(NoAlleleColumns)
    else AlleleStepsResult(t, a)
  }

  /**
   * Lines 653-721: the allele steps when both allele columns are present
   * and `--no-alleles` is not given; without the columns, the failure.
   */
  method AllelesOrFail(t: Table, a: LegacyArgs) returns (r: Result<Table, Failure>)
    requires t.Rectangular()
    ensures a.noAlleles ==> r == Ok(t)
    ensures !a.noAlleles && !(A1 in t.cols && A2 in t.cols) ==> r == Err(NoAlleleColumns)
    ensures r.Err? ==> TailFailure(r.error)
    ensures r.Ok? ==> KeepsTailFields(t.cols, r.value.cols)
    ensures r.Ok? && !a.noAlleles ==>
      && IncAllele in r.value.cols && DecAllele in r.value.cols
      && A1 !in r.value.cols && A2 !in r.value.cols
    ensures r.Ok? && !a.noAlleles && a.mergeList.None? ==> BaseCoded(r.value.rows)
    ensures r == AllelesOrFailResult(t, a)
  {
    if a.noAlleles {
      return Ok(t);
    }
    if !(A1 in t.cols && A2 in t.cols) {
      return Err(NoAlleleColumns);
    }
    r := AlleleSteps(t, a);
  }

  /**
   * Lines 583-726 as one value: the empty check, the sample-size steps,
   * CHISQ, the allele steps and the columns written; the first failure ends
   * the run.
   */
  function ChisqTailResult(t: Table, a: LegacyArgs, header: seq<string>, parseInt: string -> Option<int>,
                           quantile: seq<Option<real>> -> Option<real>, chisqOf: real -> real): Result<ChisqOutput, Failure>
  {
    if |t.rows| == 0 then Err(NoSnpsRemain)
    else
      var withN := SampleSizeStepsResult(t, a.n, header, parseInt, quantile);
      if withN.Err? then Err(withN.error)
      else
        var out := AllelesOrFailResult(ChisqTable(withN.value, chisqOf), a);
        if out.Err? then Err(out.error)
        else Ok(ChisqOutput(out.value, ChisqColumns(out.value.cols)))
  }

  /**
   * Lines 583-726 on the concatenated table: the empty check, NSTUDY, N and
   * its filter, CHISQ, the allele steps (or, without allele columns and
   * without `--no-alleles`, the failure), and the columns written.
   * `quantile` is pandas' 0.9 quantile (`dat.N.quantile(0.9)` on the N column) and `chisqOf` is `chi2.isf(p, 1)`.
   */
  method ChisqTail(t: Table, a: LegacyArgs, header: seq<string>, parseInt: string -> Option<int>,
                   quantile: seq<Option<real>> -> Option<real>, chisqOf: real -> real)
    returns (r: Result<ChisqOutput, Failure>)
    requires t.Rectangular()
    ensures |t.rows| == 0 ==> r == Err(NoSnpsRemain)
    ensures r.Err? ==> TailFailure(r.error)
    ensures !a.n.daner && MungeN.NoNSource(t.cols, a.n.n) ==> r.Err?
    ensures r.Ok? ==> r.value.printCols == ChisqColumns(r.value.dat.cols)
    ensures r.Ok? ==> Chisq in r.value.dat.cols && N in r.value.dat.cols && P !in r.value.dat.cols
    ensures r.Ok? && !a.noAlleles ==>
      && IncAllele in r.value.dat.cols && DecAllele in r.value.dat.cols
      && A1 !in r.value.dat.cols && A2 !in r.value.dat.cols
    ensures r.Ok? && !a.noAlleles && a.mergeList.None? ==> BaseCoded(r.value.dat.rows)
    ensures r.Ok? ==> (Info in r.value.dat.cols <==> Info in t.cols) && (Snp in t.cols ==> Snp in r.value.dat.cols)
    ensures r == ChisqTailResult(t, a, header, parseInt, quantile, chisqOf)
  {
    if |t.rows| == 0 {
      return Err(NoSnpsRemain);
    }
    var withN := SampleSizeSteps(t, a.n, header, parseInt, quantile);
    if withN.Err? {
      return Err(withN.error);
    }
    var dat := ChisqTable(withN.value, chisqOf);
    var out := AllelesOrFail(dat, a);
    if out.Err? {
      return Err(out.error);
    }
    dat := out.value;
    r := Ok(ChisqOutput(dat, ChisqColumns(dat.cols)));
  }

  /** The SNPs of the `--merge-alleles` list, which the chunk loop keeps (line 561). */
  function ListSnps(list: seq<Row>): (s: set<Cell>)
    ensures forall i :: 0 <= i < |list| ==> Get(list[i], Snp) in s
    ensures forall c :: c in s ==> exists i :: 0 <= i < |list| && Get(list[i], Snp) == c
  {
    set i | 0 <= i < |list| :: Get(list[i], Snp)
  }

  /** The rows the chunk loop keeps SNPs for: those of the `--merge-alleles` list, when one is given. */
  function MergeSnps(a: LegacyArgs): Option<set<Cell>>
  {
    if a.mergeList.Some? then Some(ListSnps(a.mergeList.value)) else None
  }

  /** Lines 553-726 as one value: the chunk loop's table, then the steps after it. */
  function ConvertResult(chunks: seq<Frame>, cols: set<Field>, infoMin: real, mafMin: real,
                         a: LegacyArgs, header: seq<string>, parseInt: string -> Option<int>,
                         quantile: seq<Option<real>> -> Option<real>, chisqOf: real -> real): Result<ChisqOutput, Failure>
  {
    var read := ReadResult(chunks, cols, MergeSnps(a), infoMin, mafMin);
    if read.Err? then Err(read.error) else ChisqTailResult(read.value, a, header, parseInt, quantile, chisqOf)
  }

  /**
   * Lines 553-726 on the chunks of one file, all with the same columns:
   * the chunk loop, then the steps after it. The SNP column is always
   * written; INFO, listed among the columns to write, never is, because
   * `filter_snps` has already dropped it.
   */
  method ConvertChunks(chunks: seq<Frame>, cols: set<Field>, infoMin: real, mafMin: real,
                       a: LegacyArgs, header: seq<string>, parseInt: string -> Option<int>,
                       quantile: seq<Option<real>> -> Option<real>, chisqOf: real -> real)
    returns (r: Result<ChisqOutput, Failure>, tot: nat, mergeDrops: nat, drops: Drops)
    requires forall k :: 0 <= k < |chunks| ==> chunks[k].Valid() && chunks[k].cols == cols
    ensures chunks == [] ==> r == Err(NothingToConcatenate)
    ensures r.Err? ==> TailFailure(r.error) || r.error == PNotNumeric || r.error == NothingToConcatenate
    ensures r.Ok? ==> r.value.printCols == ChisqColumns(r.value.dat.cols)
    ensures r.Ok? ==> Chisq in r.value.printCols && N in r.value.printCols
    ensures r.Ok? && Snp in cols ==> Snp in r.value.printCols
    ensures r.Ok? ==> Info !in r.value.printCols
    ensures r == ConvertResult(chunks, cols, infoMin, mafMin, a, header, parseInt, quantile, chisqOf)
    ensures fresh(drops)
    ensures ReadResult(chunks, cols, MergeSnps(a), infoMin, mafMin).Ok? ==>
      && tot == RowsIn(chunks)
      && tot == |Flatten(KeptLists(chunks, MergeSnps(a), infoMin, mafMin))| + drops.Total() + mergeDrops
      && (a.mergeList.None? ==> mergeDrops == 0)
  {
    var merge := MergeSnps(a);
    var read;
    read, tot, mergeDrops, drops := ReadChunks(chunks, cols, merge, infoMin, mafMin);
    if read.Err? {
      return Err(read.error), tot, mergeDrops, drops;
    }
    ReadRowsRectangular(chunks, cols, merge, infoMin, mafMin);
    r := ChisqTail(read.value, a, header, parseInt, quantile, chisqOf);
  }
}
