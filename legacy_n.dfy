/**
 * The sample-size steps of the older converter (sumstats_to_chisq.py, lines
 * 583-650): the empty check, the NSTUDY check, the choice of N, the filter of
 * low N and the conversion of P to CHISQ. The table is the concatenation the
 * chunk loop returns.
 */
module LegacyN {
  import opened Wrappers
  import opened Schema
  import opened Seqs
  import opened Text
  import opened MungeN
  import MungeResolve
  import LegacyFilters

  /** The sample-size settings: the flags `process_n` of the newer converter also reads, `--daner` and `--no-filter-n`. */
  datatype LegacyNArgs = LegacyNArgs(n: NArgs, daner: bool, noFilterN: bool)

  /** `xs < t` as a mask: a missing value, or a missing threshold, never passes. */
  function Below(xs: seq<Option<real>>, t: Option<real>): (m: seq<bool>)
    ensures |m| == |xs|
    ensures forall i :: 0 <= i < |xs| ==> (m[i] <==> xs[i].Some? && t.Some? && xs[i].value < t.value)
  {
    seq(|xs|, i requires 0 <= i < |xs| => xs[i].Some? && t.Some? && xs[i].value < t.value)
  }

  /** `xs > t` as a mask: a missing value, or a missing threshold, never passes. */
  function Exceeds(xs: seq<Option<real>>, t: Option<real>): (m: seq<bool>)
    ensures |m| == |xs|
    ensures forall i :: 0 <= i < |xs| ==> (m[i] <==> xs[i].Some? && t.Some? && xs[i].value > t.value)
  {
    seq(|xs|, i requires 0 <= i < |xs| => xs[i].Some? && t.Some? && xs[i].value > t.value)
  }

  /** Line 587: the NSTUDY check runs with NSTUDY and neither N nor N_CAS. */
  predicate NStudyApplies(cols: set<Field>)
  {
    NStudy in cols && N !in cols && NCas !in cols
  }

  /** Lines 587-596 as a value: the failure when no row is below the threshold, else the drop of NSTUDY. */
  function NStudyResult(t: Table, a: NArgs): Result<Table, Failure>
  {
    if !NStudyApplies(t.cols) then Ok(t)
    else if Count(Below(Column(t.rows, NStudy), NStudyThreshold(a, t.rows))) == 0 then Err(NoSnpsRemain)
    else Ok(Table(t.cols - {NStudy}, DropColumns(t.rows, {NStudy})))
  }

  /**
   * Lines 587-596. The rows below the threshold are counted but never
   * removed: `filter_verbose` raises when NO row is below it, and the NSTUDY
   * column is dropped.
   */
  method NStudyStep(t: Table, a: NArgs) returns (r: Result<Table, Failure>)
    requires t.Rectangular()
    ensures !NStudyApplies(t.cols) ==> r == Ok(t)
    ensures NStudyApplies(t.cols) ==>
      (r.Err? <==> Count(Below(Column(t.rows, NStudy), NStudyThreshold(a, t.rows))) == 0)
    ensures r.Err? ==> r.error == NoSnpsRemain
    ensures r.Ok? && NStudyApplies(t.cols) ==> r.value == Table(t.cols - {NStudy}, DropColumns(t.rows, {NStudy}))
    ensures r.Ok? ==> r.value.Rectangular()
    ensures r == NStudyResult(t, a)
  {
    if NStudyApplies(t.cols) {
      var ii := Below(Column(t.rows, NStudy), NStudyThreshold(a, t.rows));
      var check := LegacyFilters.FilterVerbose(|t.rows|, Count(ii));
      if check.Err? {
        return Err(check.error);
      }
      r := Ok(Table(t.cols - {NStudy}, DropColumns(t.rows, {NStudy})));
    } else {
      r := Ok(t);
    }
  }

  /**
   * Without a truthy `--nstudy-min` the threshold is the largest NSTUDY, so
   * the check raises exactly when every present NSTUDY equals that maximum.
   */
  lemma NStudyRaisesAtMax(a: NArgs, rows: seq<Row>)
    requires !Truthy(a.nstudyMin)
    ensures Count(Below(Column(rows, NStudy), NStudyThreshold(a, rows))) == 0 <==>
      forall i :: 0 <= i < |rows| && NumAt(rows[i], NStudy).Some? ==> NumAt(rows[i], NStudy) == MaxPresent(Column(rows, NStudy))
  {
    var xs := Column(rows, NStudy);
    var m := Below(xs, MaxPresent(xs));
    CountZero(m);
    forall i | 0 <= i < |rows| && xs[i].Some?
      ensures !m[i] <==> xs[i] == MaxPresent(xs)
    {
      assert xs[i].value <= MaxPresent(xs).value;
    }
  }

  /** The N of a `--daner` file, the two suffixes of its first FRQ_A_ and FRQ_U_ headers read by `int`. */
  function DanerN(header: seq<string>, parseInt: string -> Option<int>): (r: Result<real, Failure>)
    ensures var u := MungeResolve.FirstWithPrefix(header, "FRQ_U_");
      var a := MungeResolve.FirstWithPrefix(header, "FRQ_A_");
      && (u.None? ==> r == Err(MissingDanerColumn("FRQ_U_")))
      && (r.Ok? <==> u.Some? && a.Some? && parseInt(u.value[6..]).Some? && parseInt(a.value[6..]).Some?)
      && (r.Ok? ==> r.value == (parseInt(a.value[6..]).value + parseInt(u.value[6..]).value) as real)
  {
    var u := MungeResolve.FirstWithPrefix(header, "FRQ_U_");
    if u.None? then Err(MissingDanerColumn("FRQ_U_"))
    else
      var nCon := parseInt(u.value[6..]);
      if nCon.None? then Err(UnparsableNumber(u.value[6..]))
      else
        var a := MungeResolve.FirstWithPrefix(header, "FRQ_A_");
        if a.None? then Err(MissingDanerColumn("FRQ_A_"))
        else
          var nCas := parseInt(a.value[6..]);
          if nCas.None? then Err(UnparsableNumber(a.value[6..]))
          else Ok((nCas.value + nCon.value) as real)
  }

  /** Where N comes from, in the order lines 599-633 try the sources. */
  datatype NSource = FromDaner | FromConstant | FromConstantSum | FromCounts | FromColumn | NoSource

  function SourceOf(a: LegacyNArgs, cols: set<Field>): (s: NSource)
    ensures s == FromCounts ==> CaseControl(cols)
    ensures s == FromColumn ==> N in cols
    ensures s == NoSource <==> !a.daner && NoNSource(cols, a.n)
  {
    if a.daner then FromDaner
    else if Truthy(a.n.n) then FromConstant
    else if Truthy(a.n.nCas) && Truthy(a.n.nCon) then FromConstantSum
    else if CaseControl(cols) then FromCounts
    else if N in cols then FromColumn
    else NoSource
  }

  /** A `--daner` file takes its N from the header whatever the other flags and columns say. */
  lemma DanerTakesPrecedence(a: LegacyNArgs, cols: set<Field>)
    requires a.daner
    ensures SourceOf(a, cols) == FromDaner
  {
  }

  /** `dat['N'] = v`: every row gets N = `v`. */
  function WithConstantN(t: Table, v: real): (u: Table)
    ensures u.cols == t.cols + {N} && |u.rows| == |t.rows|
    ensures forall i :: 0 <= i < |t.rows| ==> u.rows[i] == t.rows[i][N := Some(Num(v))]
    ensures t.Rectangular() ==> u.Rectangular()
  {
    var cells := seq(|t.rows|, i => Some(Num(v)));
    Table(t.cols + {N}, SetColumn(t.rows, N, cells))
  }

  /** Lines 599-633 as a value, source by source. */
  function SampleSizeResult(t: Table, a: LegacyNArgs, header: seq<string>, parseInt: string -> Option<int>)
    : Result<Table, Failure>
  {
    match SourceOf(a, t.cols)
    case FromDaner =>
      (match DanerN(header, parseInt)
       case Ok(v) => Ok(WithConstantN(t, v))
       case Err(e) => Err(e))
    case FromConstant => Ok(WithConstantN(t, a.n.n.value))
    case FromConstantSum => Ok(WithConstantN(t, a.n.nCas.value + a.n.nCon.value))
    case FromCounts => Ok(Table(t.cols - {NCas, NCon} + {N}, CaseControlRows(t.rows)))
    case FromColumn => Ok(t)
    case NoSource => Err(NoNSpecified)
  }

  /**
   * Lines 599-633: N from the `--daner` header, from `--N`, from
   * `--N-cas` + `--N-con`, rescaled from the N_CAS and N_CON columns, or
   * read from the N column; without any of them the conversion fails.
   */
  method SampleSizeStep(t: Table, a: LegacyNArgs, header: seq<string>, parseInt: string -> Option<int>)
    returns (r: Result<Table, Failure>)
    requires t.Rectangular()
    ensures r.Ok? ==> r.value.Rectangular() && N in r.value.cols && |r.value.rows| == |t.rows|
    ensures SourceOf(a, t.cols) == FromDaner ==>
      match DanerN(header, parseInt)
      case Ok(v) => r == Ok(WithConstantN(t, v))
      case Err(e) => r == Err(e)
    ensures SourceOf(a, t.cols) == FromConstant ==> r == Ok(WithConstantN(t, a.n.n.value))
    ensures SourceOf(a, t.cols) == FromConstantSum ==> r == Ok(WithConstantN(t, a.n.nCas.value + a.n.nCon.value))
    ensures SourceOf(a, t.cols) == FromCounts ==>
      && r.Ok? && r.value.cols == t.cols - {NCas, NCon} + {N}
      && Column(r.value.rows, N) == RescaledN(t.rows)
      && forall i, g :: 0 <= i < |t.rows| && g !in {N, NCas, NCon} ==> Get(r.value.rows[i], g) == Get(t.rows[i], g)
    ensures SourceOf(a, t.cols) == FromColumn ==> r == Ok(t)
    ensures SourceOf(a, t.cols) == NoSource ==> r == Err(NoNSpecified)
    ensures r == SampleSizeResult(t, a, header, parseInt)
  {
    match SourceOf(a, t.cols)
    case FromDaner =>
      var n := DanerN(header, parseInt);
      if n.Err? {
        return Err(n.error);
      }
      r := Ok(WithConstantN(t, n.value));
    case FromConstant =>
      r := Ok(WithConstantN(t, a.n.n.value));
    case FromConstantSum =>
      r := Ok(WithConstantN(t, a.n.nCas.value + a.n.nCon.value));
    case FromCounts =>
      var u := CaseControlStep(t);
      r := Ok(u);
    case FromColumn =>
      r := Ok(t);
    case NoSource =>
      r := Err(NoNSpecified);
  }

  /** Line 636: the N filter runs unless `--no-filter-n`, `--N` or `--N-cas` is given. */
  predicate NFilterApplies(a: LegacyNArgs)
  {
    !a.noFilterN && a.n.n.None? && a.n.nCas.None?
  }

  /** Lines 636-646 as a value. */
  function NFilterResult(t: Table, a: LegacyNArgs, quantile: seq<Option<real>> -> Option<real>): Result<Table, Failure>
  {
    if !NFilterApplies(a) then Ok(t)
    else if Truthy(a.n.nMin) then Err(MinNAttributeMissing)
    else Ok(Table(t.cols, Select(t.rows, Exceeds(Column(t.rows, N), NThreshold(a.n, Column(t.rows, N), quantile)))))
  }

  /**
   * Lines 636-646: the rows whose N exceeds `dat.N.quantile(0.9) / 1.5` are
   * kept, `quantile` being pandas' 0.9 quantile, applied to the N column. A truthy `--n-min` makes the source read the
   * attribute `args.min_n`, which the parser never defines, so it raises.
   */
  method NFilterStep(t: Table, a: LegacyNArgs, quantile: seq<Option<real>> -> Option<real>) returns (r: Result<Table, Failure>)
    requires t.Rectangular()
    ensures !NFilterApplies(a) ==> r == Ok(t)
    ensures NFilterApplies(a) && Truthy(a.n.nMin) ==> r == Err(MinNAttributeMissing)
    ensures NFilterApplies(a) && !Truthy(a.n.nMin) ==>
      r == Ok(Table(t.cols, Select(t.rows, Exceeds(Column(t.rows, N), NThreshold(a.n, Column(t.rows, N), quantile)))))
    ensures r.Ok? ==> r.value.Rectangular() && r.value.cols == t.cols
    ensures r == NFilterResult(t, a, quantile)
  {
    if !NFilterApplies(a) {
      return Ok(t);
    }
    if Truthy(a.n.nMin) {
      return Err(MinNAttributeMissing);
    }
    var ii := Exceeds(Column(t.rows, N), NThreshold(a.n, Column(t.rows, N), quantile));
    SelectRectangular(t.rows, ii, t.cols);
    r := Ok(Table(t.cols, Select(t.rows, ii)));
  }

  /** Every row whose N is above the threshold is kept by the N filter. */
  lemma NFilterKeeps(rows: seq<Row>, t: Option<real>, i: nat)
    requires i < |rows|
    ensures NumAt(rows[i], N).Some? && t.Some? && NumAt(rows[i], N).value > t.value ==>
      rows[i] in Select(rows, Exceeds(Column(rows, N), t))
  {
    var keep := Exceeds(Column(rows, N), t);
    if keep[i] {
      SelectIn(rows, keep, i);
    }
  }

  /** Every row the N filter keeps has an N above the threshold. */
  lemma NFilterAbove(rows: seq<Row>, t: Option<real>)
    ensures t.Some? || Select(rows, Exceeds(Column(rows, N), t)) == []
    ensures forall r :: r in Select(rows, Exceeds(Column(rows, N), t)) ==>
      NumAt(r, N).Some? && NumAt(r, N).value > t.value
  {
    var keep := Exceeds(Column(rows, N), t);
    var kept := Select(rows, keep);
    forall j | 0 <= j < |kept| ensures NumAt(kept[j], N).Some? && t.Some? && NumAt(kept[j], N).value > t.value {
      var k := SelectOrigin(rows, keep, j);
      assert keep[k];
    }
    assert kept != [] ==> t.Some? by {
      if kept != [] {
        var k := SelectOrigin(rows, keep, 0);
        assert keep[k];
      }
    }
  }

  /**
   * A constant positive N (a `--daner` file, say) survives the filter: its
   * 0.9 quantile is that constant, and the constant exceeds two thirds of itself.
   */
  lemma ConstantNKept(rows: seq<Row>, a: NArgs, c: real, quantile: seq<Option<real>> -> Option<real>)
    requires c > 0.0 && !Truthy(a.nMin)
    requires forall i :: 0 <= i < |rows| ==> NumAt(rows[i], N) == Some(c)
    requires quantile(Column(rows, N)) == Some(c)
    ensures Select(rows, Exceeds(Column(rows, N), NThreshold(a, Column(rows, N), quantile))) == rows
  {
    var keep := Exceeds(Column(rows, N), NThreshold(a, Column(rows, N), quantile));
    assert c > c / 1.5;
    SelectAllTrue(rows, keep);
  }

  /** The conditions the sample-size steps raise. */
  predicate SampleSizeFailure(e: Failure)
  {
    e == NoSnpsRemain || e.MissingDanerColumn? || e.UnparsableNumber? || e == NoNSpecified || e == MinNAttributeMissing
  }

  /** Lines 587-646 as one value: the three steps in order, the first failure ending the run. */
  function SampleSizeStepsResult(t: Table, a: LegacyNArgs, header: seq<string>, parseInt: string -> Option<int>, quantile: seq<Option<real>> -> Option<real>)
    : Result<Table, Failure>
  {
    var s1 := NStudyResult(t, a.n);
    if s1.Err? then s1
    else
      var s2 := SampleSizeResult(s1.value, a, header, parseInt);
      if s2.Err? then s2 else NFilterResult(s2.value, a, quantile)
  }

  /**
   * Lines 587-646 in sequence: the NSTUDY check, the choice of N and the N
   * filter. Only the sample-size columns change; without a source of N
   * (and no `--daner` file) the steps fail.
   */
  method SampleSizeSteps(t: Table, a: LegacyNArgs, header: seq<string>, parseInt: string -> Option<int>, quantile: seq<Option<real>> -> Option<real>)
    returns (r: Result<Table, Failure>)
    requires t.Rectangular()
    ensures r.Err? ==> SampleSizeFailure(r.error)
    ensures !a.daner && NoNSource(t.cols, a.n) ==> r.Err?
    ensures r.Ok? ==> r.value.Rectangular() && N in r.value.cols
    ensures r.Ok? ==> forall f :: f !in {N, NCas, NCon, NStudy} ==> (f in r.value.cols <==> f in t.cols)
    ensures r == SampleSizeStepsResult(t, a, header, parseInt, quantile)
  {
    var s1 := NStudyStep(t, a.n);
    if s1.Err? {
      return Err(s1.error);
    }
    assert NoNSource(t.cols, a.n) ==> NoNSource(s1.value.cols, a.n);
    var s2 := SampleSizeStep(s1.value, a, header, parseInt);
    if s2.Err? {
      return Err(s2.error);
    }
    r := NFilterStep(s2.value, a, quantile);
  }

  /** Line 649-650 on one row: P becomes `chi2.isf(P, 1)` (`chisqOf`) under the name CHISQ. */
  function ChisqRow(r: Row, chisqOf: real -> real): (s: Row)
    ensures P !in s && Chisq in s
    ensures NumAt(s, Chisq) == if NumAt(r, P).Some? then Some(chisqOf(NumAt(r, P).value)) else None
    ensures forall f :: f != P && f != Chisq ==> Get(s, f) == Get(r, f) && (f in s <==> f in r)
    ensures s.Keys == r.Keys - {P} + {Chisq}
  {
    var c: Cell := if NumAt(r, P).Some? then Some(Num(chisqOf(NumAt(r, P).value))) else None;
    (r - {P})[Chisq := c]
  }

  /** Lines 649-650: P converted to CHISQ on every row. */
  function ChisqTable(t: Table, chisqOf: real -> real): (u: Table)
    ensures u.cols == t.cols - {P} + {Chisq} && |u.rows| == |t.rows|
    ensures t.Rectangular() ==> u.Rectangular()
  {
    var rows := seq(|t.rows|, i requires 0 <= i < |t.rows| => ChisqRow(t.rows[i], chisqOf));
    assert forall i :: 0 <= i < |t.rows| ==> rows[i].Keys == t.rows[i].Keys - {P} + {Chisq};
    Table(t.cols - {P} + {Chisq}, rows)
  }

  /** Each row of the converted table is its row with P turned into CHISQ. */
  lemma ChisqTableRows(t: Table, chisqOf: real -> real, i: nat)
    requires i < |t.rows|
    ensures ChisqTable(t, chisqOf).rows[i] == ChisqRow(t.rows[i], chisqOf)
  {
  }
}
