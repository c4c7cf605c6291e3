/**
 * The steps of `munge_sumstats` after the rows are read
 * (src/ldsc/munge_sumstats/munge_sumstats.py, lines 636-666): the empty
 * check, the removal of duplicated SNPs, `process_n`, `p_to_z`, the median
 * check and sign flip, the allele merge and the choice of output columns.
 */
module MungeMain {
  import opened Wrappers
  import opened Schema
  import opened Seqs
  import opened MungeN
  import opened MungeSign
  import opened MungeMerge
  import opened Dedup

  /** The output columns of lines 662-666, as a set (their order is not modelled). */
  function PrintColumns(cols: set<Field>, keepMaf: bool): (pc: set<Field>)
    ensures pc <= cols
    ensures forall f :: f in {Snp, N, Z, A1, A2} ==> (f in pc <==> f in cols)
    ensures Frq in pc <==> keepMaf && Frq in cols
    ensures forall f :: f in pc ==> f in {Snp, N, Z, A1, A2, Frq}
  {
    (cols * {Snp, N, Z, A1, A2}) + (if keepMaf && Frq in cols then {Frq} else {})
  }

  /** The settings the last steps read. */
  datatype TailArgs = TailArgs(
    n: NArgs, a1Inc: bool, keepMaf: bool, signedNull: Option<real>,
    mergeAlleles: Option<seq<Row>>, matchAlleles: set<string>)

  /** The converted table and the columns written out. */
  datatype Output = Output(dat: Table, printCols: set<Field>)

  /** The rows kept by `drop_duplicates` keep the columns of the table. */
  lemma DropDuplicatesRectangular(t: Table)
    requires t.Rectangular()
    ensures Table(t.cols, DropDuplicates(t.rows)).Rectangular()
  {
    var rows := DropDuplicates(t.rows);
    forall i | 0 <= i < |rows| ensures rows[i].Keys == t.cols {
      var k :| 0 <= k < |t.rows| && t.rows[k] == rows[i];
    }
  }

  /**
   * Lines 649-656: `p_to_z`, the rename of P to Z and, unless `--a1-inc`,
   * the median check of the signed statistic, the sign flip and its drop.
   * Without a null value the median check's subtraction raises.
   */
  function ZResult(t: Table, a: TailArgs, median: seq<Option<real>> -> Option<real>, zOf: real -> real)
    : Result<Table, Failure>
  {
    var z := PToZ(t.rows, zOf);
    if a.a1Inc then Ok(Table(t.cols - {P} + {Z}, z))
    else if a.signedNull.None? then Err(NoNullValue)
    else if CheckMedian(median(Column(z, SignedSumstat)), a.signedNull.value, 0.1).Err? then Err(MedianOffNull)
    else Ok(Table(t.cols - {P} + {Z} - {SignedSumstat}, FlipSigns(z, a.signedNull.value)))
  }

  method ZStep(t: Table, a: TailArgs, median: seq<Option<real>> -> Option<real>, zOf: real -> real)
    returns (r: Result<Table, Failure>)
    ensures r.Err? <==>
      !a.a1Inc && (a.signedNull.None? || CheckMedian(median(Column(PToZ(t.rows, zOf), SignedSumstat)), a.signedNull.value, 0.1).Err?)
    ensures r.Err? ==> r.error == if a.signedNull.None? then NoNullValue else MedianOffNull
    ensures r.Ok? && a.a1Inc ==> r.value == Table(t.cols - {P} + {Z}, PToZ(t.rows, zOf))
    ensures r.Ok? && !a.a1Inc ==>
      && a.signedNull.Some?
      && r.value == Table(t.cols - {P} + {Z} - {SignedSumstat}, FlipSigns(PToZ(t.rows, zOf), a.signedNull.value))
    ensures r == ZResult(t, a, median, zOf)
  {
    var dat := Table(t.cols - {P} + {Z}, PToZ(t.rows, zOf));
    if !a.a1Inc {
      if a.signedNull.None? {
        return Err(NoNullValue);
      }
      var check := CheckMedian(median(Column(dat.rows, SignedSumstat)), a.signedNull.value, 0.1);
      if check.Err? {
        return Err(check.error);
      }
      dat := Table(dat.cols - {SignedSumstat}, FlipSigns(dat.rows, a.signedNull.value));
    }
    r := Ok(dat);
  }

  /** Lines 659-660: the allele merge when `--merge-alleles` is given. */
  function MergeResult(t: Table, a: TailArgs): Result<Table, Failure>
  {
    if a.mergeAlleles.None? then Ok(t) else Merged(t, a.mergeAlleles.value, a.matchAlleles)
  }

  /** Lines 659-660 as a step; the list's rows come out in its order. */
  method MergeStep(t: Table, a: TailArgs) returns (r: Result<Table, Failure>)
    ensures a.mergeAlleles.None? ==> r == Ok(t)
    ensures r.Err? ==> a.mergeAlleles.Some? && r.error == AllAllelesDiscordant
    ensures r.Ok? && a.mergeAlleles.Some? ==>
      && r.value.cols == t.cols + {Snp} - {MA}
      && |r.value.rows| >= |a.mergeAlleles.value|
    ensures a.mergeAlleles.Some? ==>
      var joined := LeftJoin(a.mergeAlleles.value, t.rows, t.cols - {Snp});
      && (r.Err? <==> Count(MatchMask(joined, a.matchAlleles)) == 0)
      && (r.Ok? ==> |r.value.rows| == |joined|)
      && (r.Ok? ==> forall i :: 0 <= i < |joined| ==> r.value.rows[i] == Settle(joined[i], Matches(joined[i], a.matchAlleles)))
    ensures r == MergeResult(t, a)
  {
    if a.mergeAlleles.None? {
      return Ok(t);
    }
    r := AlleleMerge(t, a.mergeAlleles.value, a.matchAlleles);
    if r.Ok? {
      assert |r.value.rows| == |LeftJoin(a.mergeAlleles.value, t.rows, t.cols - {Snp})|;
    }
  }

  /**
   * Lines 636-666 as one value: the empty check, then `process_n` on the
   * rows `drop_duplicates` keeps, then `p_to_z` with the median check and
   * sign flip, then the allele merge; the first failure ends the run.
   */
  function TailResult(t: Table, a: TailArgs, quantile: seq<Option<real>> -> Option<real>, median: seq<Option<real>> -> Option<real>, zOf: real -> real)
    : Result<Output, Failure>
  {
    if |t.rows| == 0 then Err(NoSnpsRemain)
    else
      var withN := ProcessNResult(Table(t.cols, DropDuplicates(t.rows)), a.n, quantile);
      if withN.Err? then Err(withN.error)
      else
        var withZ := ZResult(withN.value, a, median, zOf);
        if withZ.Err? then Err(withZ.error)
        else
          var merged := MergeResult(withZ.value, a);
          if merged.Err? then Err(merged.error)
          else Ok(Output(merged.value, PrintColumns(merged.value.cols, a.keepMaf)))
  }

  /**
   * Lines 636-666 on the concatenated rows of `parse_dat`. `quantile` is pandas'
   * 0.9 quantile, applied to N at the threshold step, `median` is `np.median` and `zOf`
   * is `sqrt(chi2.isf(p, 1))`.
   */
  method MungeTail(t: Table, a: TailArgs, quantile: seq<Option<real>> -> Option<real>, median: seq<Option<real>> -> Option<real>, zOf: real -> real)
    returns (r: Result<Output, Failure>)
    requires t.Rectangular()
    ensures |t.rows| == 0 ==> r == Err(NoSnpsRemain)
    ensures |t.rows| > 0 && NoNSource(t.cols, a.n) ==> r == Err(CannotDetermineN)
    ensures r.Err? ==> r.error in {NoSnpsRemain, CannotDetermineN, NoNullValue, MedianOffNull, AllAllelesDiscordant}
    ensures r.Err? && r.error == NoNullValue ==> !a.a1Inc && a.signedNull.None?
    ensures r.Err? && r.error == MedianOffNull ==> !a.a1Inc
    ensures r.Err? && r.error == AllAllelesDiscordant ==> a.mergeAlleles.Some?
    ensures r.Ok? ==> |t.rows| > 0 && !NoNSource(t.cols, a.n)
    ensures r.Ok? ==> r.value.printCols == PrintColumns(r.value.dat.cols, a.keepMaf)
    ensures r.Ok? ==> N in r.value.dat.cols && Z in r.value.dat.cols && P !in r.value.dat.cols
    ensures r.Ok? && !a.a1Inc ==> SignedSumstat !in r.value.dat.cols
    ensures r.Ok? && a.mergeAlleles.None? ==> |r.value.dat.rows| <= |DropDuplicates(t.rows)|
    ensures r.Ok? && a.mergeAlleles.Some? ==>
      && |r.value.dat.rows| >= |a.mergeAlleles.value|
      && MA !in r.value.dat.cols
    ensures r == TailResult(t, a, quantile, median, zOf)
  {
    if |t.rows| == 0 {
      return Err(NoSnpsRemain);
    }
    var rows := DropDuplicates(t.rows);
    DropDuplicatesRectangular(t);
    var withN := ProcessN(Table(t.cols, rows), a.n, quantile);
    if withN.Err? {
      return Err(withN.error);
    }
    var withZ := ZStep(withN.value, a, median, zOf);
    if withZ.Err? {
      return Err(withZ.error);
    }
    var merged := MergeStep(withZ.value, a);
    if merged.Err? {
      return Err(merged.error);
    }
    r := Ok(Output(merged.value, PrintColumns(merged.value.cols, a.keepMaf)));
  }
}
