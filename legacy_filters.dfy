/**
 * The row filters of the older converter (sumstats_to_chisq.py, lines
 * 175-264): `filter_verbose`, `filter_na` and `filter_snps`, with the
 * per-reason drop counters they increment. Both filters are modelled as the
 * chunk loop calls them: quietly (`verbose=False`) and with the counters.
 */
module LegacyFilters {
  import opened Wrappers
  import opened Schema
  import opened Seqs
  import opened Dedup
  import MungeFilters

  /**
   * A row of a chunk: its cells, and the values of its INFO columns, of which
   * `--info-list` can give several (`None` where missing).
   */
  datatype LRow = LRow(cells: Row, infos: seq<Option<real>>)

  /** A chunk after its columns were renamed: the non-INFO fields, the number of INFO columns, the rows. */
  datatype Frame = Frame(cols: set<Field>, infoCols: nat, rows: seq<LRow>)
  {
    predicate Valid()
    {
      Info !in cols && forall i :: 0 <= i < |rows| ==> rows[i].cells.Keys == cols && |rows[i].infos| == infoCols
    }
  }

  /** The `drops` dictionary: rows removed for each reason. */
  class Drops {
    var rs: nat
    var na: nat
    var p: nat
    var info: nat
    var frq: nat

    constructor()
      ensures rs == 0 && na == 0 && p == 0 && info == 0 && frq == 0
    {
      rs, na, p, info, frq := 0, 0, 0, 0, 0;
    }

    /** All rows the filters removed. */
    function Total(): nat
      reads this
    {
      rs + na + p + info + frq
    }
  }

  /** `filter_verbose`: the message aside, it raises when nothing remains. */
  function FilterVerbose(oldLen: nat, newLen: nat): (r: Result<(), Failure>)
    ensures r.Err? <==> newLen == 0
    ensures r.Err? ==> r.error == NoSnpsRemain
  {
    if newLen == 0 then Err(NoSnpsRemain) else Ok(())
  }

  /** The cells of some rows. */
  function Cells(rows: seq<LRow>): (cs: seq<Row>)
    ensures |cs| == |rows| && forall i :: 0 <= i < |rows| ==> cs[i] == rows[i].cells
  {
    seq(|rows|, i requires 0 <= i < |rows| => rows[i].cells)
  }

  lemma {:induction false} CellsSelect(rows: seq<LRow>, m: seq<bool>)
    requires |rows| == |m|
    ensures Cells(Select(rows, m)) == Select(Cells(rows), m)
  {
    if rows != [] {
      CellsSelect(rows[1..], m[1..]);
      assert Cells(rows)[1..] == Cells(rows[1..]);
      assert Cells(Select(rows, m)) == Cells(if m[0] then [rows[0]] else []) + Cells(Select(rows[1..], m[1..]));
    }
  }

  /** Line 185: `drop_duplicates(subset='SNP')`, the first row of every SNP. */
  function DedupRows(rows: seq<LRow>): seq<LRow>
  {
    Select(rows, FirstMask(Cells(rows)))
  }

  /** The de-duplicated rows are those `drop_duplicates` keeps: unique SNPs, none lost. */
  lemma DedupRowsFirst(rows: seq<LRow>)
    ensures Cells(DedupRows(rows)) == DropDuplicates(Cells(rows))
    ensures UniqueSnps(Cells(DedupRows(rows)))
    ensures Snps(Cells(DedupRows(rows))) == Snps(Cells(rows))
  {
    CellsSelect(rows, FirstMask(Cells(rows)));
    DropDuplicatesFirst(Cells(rows));
  }

  /** No cell outside INFO is missing (`dropna(how="any")` on the non-INFO columns). */
  predicate Complete(r: LRow)
  {
    forall f :: f in r.cells ==> r.cells[f].Some?
  }

  function CompleteMask(rows: seq<LRow>): (m: seq<bool>)
    ensures |m| == |rows| && forall i :: 0 <= i < |rows| ==> (m[i] <==> Complete(rows[i]))
  {
    seq(|rows|, i requires 0 <= i < |rows| => Complete(rows[i]))
  }

  /** Lines 183-199: the rows `filter_na` keeps. */
  function NaRows(rows: seq<LRow>): seq<LRow>
  {
    var d := DedupRows(rows);
    Select(d, CompleteMask(d))
  }

  /**
   * The rows `filter_na` keeps have distinct SNPs, each kept row is the first
   * of its SNP, and none of them has a missing value outside INFO.
   */
  lemma NaRowsProperties(rows: seq<LRow>)
    ensures UniqueSnps(Cells(NaRows(rows)))
    ensures forall j :: 0 <= j < |NaRows(rows)| ==> Complete(NaRows(rows)[j])
    ensures forall j :: 0 <= j < |NaRows(rows)| ==> NaRows(rows)[j] in DedupRows(rows)
  {
    var d := DedupRows(rows);
    var m := CompleteMask(d);
    var kept := Select(d, m);
    DedupRowsFirst(rows);
    CellsSelect(d, m);
    forall j | 0 <= j < |kept| ensures Complete(kept[j]) && kept[j] in d {
      var i := SelectOrigin(d, m, j);
    }
    SelectUnique(Cells(d), m);
  }

  /** A row is kept by `filter_na` exactly when it is the first of its SNP and has no missing value outside INFO. */
  lemma NaRowsKeeps(rows: seq<LRow>, i: nat)
    requires i < |rows|
    requires Get(rows[i].cells, Snp) !in Snps(Cells(rows)[..i]) && Complete(rows[i])
    ensures rows[i] in NaRows(rows)
  {
    var fm := FirstMask(Cells(rows));
    SelectIn(rows, fm, i);
    var d := DedupRows(rows);
    var j :| 0 <= j < |d| && d[j] == rows[i];
    SelectIn(d, CompleteMask(d), j);
  }

  /**
   * Lines 183-199: `filter_na` on a chunk; `drops['RS']` and `drops['NA']`
   * grow by the rows each step removed.
   */
  method FilterNa(dat: Frame, drops: Drops) returns (out: Frame)
    modifies drops
    ensures out == Frame(dat.cols, dat.infoCols, NaRows(dat.rows))
    ensures drops.rs == old(drops.rs) + (|dat.rows| - |DedupRows(dat.rows)|)
    ensures drops.na == old(drops.na) + (|DedupRows(dat.rows)| - |out.rows|)
    ensures drops.p == old(drops.p) && drops.info == old(drops.info) && drops.frq == old(drops.frq)
  {
    var rows := DedupRows(dat.rows);
    drops.rs := drops.rs + (|dat.rows| - |rows|);
    var kept := Select(rows, CompleteMask(rows));
    drops.na := drops.na + (|rows| - |kept|);
    out := Frame(dat.cols, dat.infoCols, kept);
  }

  /** Lines 207-211: `0 < P <= 1` (false for a missing P). */
  predicate PIn(r: LRow)
  {
    NumAt(r.cells, P).Some? && 0.0 < NumAt(r.cells, P).value <= 1.0
  }

  /**
   * Lines 222-229: one INFO column passes above `info_min`; several pass when
   * their sum, missing values skipped, is above `info_min` times their number.
   */
  predicate InfoOk(r: LRow, infoMin: real)
  {
    if |r.infos| == 1 then r.infos[0].Some? && r.infos[0].value > infoMin
    else MungeFilters.SumPresent(r.infos) > infoMin * (|r.infos| as real)
  }

  /** Lines 252-253: the minor-allele frequency `min(FRQ, 1 - FRQ)` is above `maf_min`. */
  predicate FrqOk(r: LRow, mafMin: real)
  {
    NumAt(r.cells, Frq).Some? && MungeFilters.Min(NumAt(r.cells, Frq).value, 1.0 - NumAt(r.cells, Frq).value) > mafMin
  }

  /** Every condition `filter_snps` places on a row of `dat`. */
  predicate SnpPasses(dat: Frame, r: LRow, infoMin: real, mafMin: real)
  {
    PIn(r) && (dat.infoCols > 0 ==> InfoOk(r, infoMin)) && (Frq in dat.cols ==> FrqOk(r, mafMin))
  }

  function PMask(rows: seq<LRow>): (m: seq<bool>)
    ensures |m| == |rows| && forall i :: 0 <= i < |rows| ==> (m[i] <==> PIn(rows[i]))
  {
    seq(|rows|, i requires 0 <= i < |rows| => PIn(rows[i]))
  }

  function InfoMask(rows: seq<LRow>, infoMin: real): (m: seq<bool>)
    ensures |m| == |rows| && forall i :: 0 <= i < |rows| ==> (m[i] <==> InfoOk(rows[i], infoMin))
  {
    seq(|rows|, i requires 0 <= i < |rows| => InfoOk(rows[i], infoMin))
  }

  function FrqMask(rows: seq<LRow>, mafMin: real): (m: seq<bool>)
    ensures |m| == |rows| && forall i :: 0 <= i < |rows| ==> (m[i] <==> FrqOk(rows[i], mafMin))
  {
    seq(|rows|, i requires 0 <= i < |rows| => FrqOk(rows[i], mafMin))
  }

  /** `ii` after the INFO step: the P test, and the INFO test when there is an INFO column. */
  function InfoStage(dat: Frame, infoMin: real): (m: seq<bool>)
    ensures |m| == |dat.rows|
  {
    if dat.infoCols > 0 then And(PMask(dat.rows), InfoMask(dat.rows, infoMin)) else PMask(dat.rows)
  }

  /** `ii` after the FRQ step: the rows `filter_snps` keeps. */
  function FrqStage(dat: Frame, infoMin: real, mafMin: real): (m: seq<bool>)
    ensures |m| == |dat.rows|
  {
    if Frq in dat.cols then And(InfoStage(dat, infoMin), FrqMask(dat.rows, mafMin)) else InfoStage(dat, infoMin)
  }

  /** The staged mask keeps exactly the rows that pass every test. */
  lemma FrqStageExact(dat: Frame, infoMin: real, mafMin: real)
    ensures forall i :: 0 <= i < |dat.rows| ==>
      (FrqStage(dat, infoMin, mafMin)[i] <==> SnpPasses(dat, dat.rows[i], infoMin, mafMin))
  {
  }

  /** A kept row passes every test of `filter_snps`. */
  lemma KeptRowsPass(dat: Frame, infoMin: real, mafMin: real)
    ensures var kept := Select(dat.rows, FrqStage(dat, infoMin, mafMin));
      forall j :: 0 <= j < |kept| ==> SnpPasses(dat, kept[j], infoMin, mafMin)
  {
    var m := FrqStage(dat, infoMin, mafMin);
    FrqStageExact(dat, infoMin, mafMin);
    forall j | 0 <= j < |Select(dat.rows, m)| ensures SnpPasses(dat, Select(dat.rows, m)[j], infoMin, mafMin) {
      var i := SelectOrigin(dat.rows, m, j);
    }
  }

  /** Each stage keeps at most the rows of the one before, so the counters never go negative. */
  lemma StagesShrink(dat: Frame, infoMin: real, mafMin: real)
    ensures Count(FrqStage(dat, infoMin, mafMin)) <= Count(InfoStage(dat, infoMin)) <= Count(PMask(dat.rows)) <= |dat.rows|
  {
    if dat.infoCols > 0 {
      CountAndBound(PMask(dat.rows), InfoMask(dat.rows, infoMin));
    }
    if Frq in dat.cols {
      CountAndBound(InfoStage(dat, infoMin), FrqMask(dat.rows, mafMin));
    }
  }

  /**
   * A frequency outside [0, 1] is only warned about, yet with a non-negative
   * `maf_min` the folded frequency drops it anyway.
   */
  lemma FrqOutOfRangeDropped(r: LRow, mafMin: real)
    requires mafMin >= 0.0
    requires NumAt(r.cells, Frq).Some? && (NumAt(r.cells, Frq).value < 0.0 || NumAt(r.cells, Frq).value > 1.0)
    ensures !FrqOk(r, mafMin)
  {
  }

  /** An INFO value above 1.5 is only warned about: it passes when it exceeds `info_min`. */
  lemma InfoOutOfRangeKept(r: LRow, infoMin: real)
    requires |r.infos| == 1 && r.infos[0].Some? && r.infos[0].value > 1.5 && r.infos[0].value > infoMin
    ensures InfoOk(r, infoMin)
  {
  }

  /** Whether some P cell holds text, which `astype('float')` cannot convert. */
  predicate PHasText(rows: seq<LRow>)
  {
    exists i :: 0 <= i < |rows| && TextAt(rows[i].cells, P).Some?
  }

  /**
   * A row as `filter_snps` returns it: the INFO columns dropped (line 242)
   * and FRQ dropped (line 261).
   */
  function OutRow(r: LRow): Row
  {
    r.cells - {Frq}
  }

  /** The columns of the frame `filter_snps` returns. */
  function OutCols(cols: set<Field>): set<Field>
  {
    cols - {Frq}
  }

  /**
   * An output row has neither FRQ nor INFO, and agrees with its input on
   * every other field; its fields are the frame's output columns.
   */
  lemma OutRowShape(r: LRow, cols: set<Field>)
    requires r.cells.Keys == cols && Info !in cols
    ensures Frq !in OutRow(r) && Info !in OutRow(r)
    ensures forall f :: f != Frq ==> (f in OutRow(r) <==> f in r.cells) && Get(OutRow(r), f) == Get(r.cells, f)
    ensures OutRow(r).Keys == OutCols(cols)
  {
  }

  /** The rows of the output: INFO and FRQ dropped. */
  function Stripped(rows: seq<LRow>): (out: seq<Row>)
    ensures |out| == |rows| && forall i :: 0 <= i < |rows| ==> out[i] == OutRow(rows[i])
  {
    seq(|rows|, i requires 0 <= i < |rows| => OutRow(rows[i]))
  }

  /** Lines 206-213: `P > 0`, narrowed by `P <= 1` when some P exceeds 1. */
  method PValueMask(rows: seq<LRow>) returns (ii: seq<bool>)
    ensures ii == PMask(rows)
  {
    ii := seq(|rows|, i requires 0 <= i < |rows| => NumAt(rows[i].cells, P).Some? && NumAt(rows[i].cells, P).value > 0.0);
    var jj := seq(|rows|, i requires 0 <= i < |rows| => NumAt(rows[i].cells, P).Some? && NumAt(rows[i].cells, P).value <= 1.0);
    var badP := |rows| - Count(jj);
    if badP > 0 {
      ii := And(ii, jj);
    } else {
      CountFull(jj);
    }
    forall i | 0 <= i < |rows| ensures ii[i] <==> PIn(rows[i]) {
      assert jj[i] <==> NumAt(rows[i].cells, P).Some? && NumAt(rows[i].cells, P).value <= 1.0;
    }
  }

  /**
   * Lines 201-264: `filter_snps` on a chunk. The mask `ii` is narrowed by the
   * P, INFO and FRQ tests in turn, each adding the rows it removes to its
   * counter; INFO and FRQ are dropped and the kept rows returned. The folding
   * of FRQ to `min(FRQ, 1 - FRQ)` is stored in a column dropped right after,
   * so only the test sees it.
   */
  method FilterSnps(dat: Frame, drops: Drops, infoMin: real, mafMin: real) returns (r: Result<Table, Failure>)
    modifies drops
    ensures r.Err? <==> PHasText(dat.rows)
    ensures r.Err? ==> r.error == PNotNumeric && drops.Total() == old(drops.Total())
    ensures r.Ok? ==> r.value == Table(OutCols(dat.cols), Stripped(Select(dat.rows, FrqStage(dat, infoMin, mafMin))))
    ensures r.Ok? ==> drops.p == old(drops.p) + (|dat.rows| - Count(PMask(dat.rows)))
    ensures r.Ok? ==> drops.info == old(drops.info) + (Count(PMask(dat.rows)) - Count(InfoStage(dat, infoMin)))
    ensures r.Ok? ==> drops.frq == old(drops.frq) + (Count(InfoStage(dat, infoMin)) - Count(FrqStage(dat, infoMin, mafMin)))
    ensures r.Ok? ==> drops.Total() == old(drops.Total()) + (|dat.rows| - |r.value.rows|)
    ensures drops.rs == old(drops.rs) && drops.na == old(drops.na)
  {
    if PHasText(dat.rows) {
      return Err(PNotNumeric);
    }
    var rows := dat.rows;
    StagesShrink(dat, infoMin, mafMin);
    var ii := PValueMask(rows);
    var newLen := Count(ii);
    drops.p := drops.p + (|rows| - newLen);
    // filter on INFO
    if dat.infoCols > 0 {
      ii := And(ii, InfoMask(rows, infoMin));
      drops.info := drops.info + (newLen - Count(ii));
      newLen := Count(ii);
    }
    // filter on MAF
    if Frq in dat.cols {
      ii := And(ii, FrqMask(rows, mafMin));
      drops.frq := drops.frq + (newLen - Count(ii));
    }
    r := Ok(Table(OutCols(dat.cols), Stripped(Select(rows, ii))));
  }
}
