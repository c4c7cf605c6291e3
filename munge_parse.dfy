/**
 * `parse_dat` of the newer converter
 * (src/ldsc/munge_sumstats/munge_sumstats.py, lines 228-318): the chunk loop
 * that drops rows with missing values, rows outside the reference panel and
 * rows failing the INFO, FRQ, P and allele filters, counting each drop.
 *
 * Each row's fate is the first stage it fails (`FirstFailed`); the rows kept are
 * `Survivors`, the counters `FateCounts`. `ProcessChunk` and `ParseDat`
 * compute them the way the source does, with masks over whole chunks.
 */
module MungeParse {
  import opened Wrappers
  import opened Schema
  import opened Seqs
  import opened Text
  import opened MungeFilters

  /** The settings `parse_dat` reads. */
  datatype ParseConfig = ParseConfig(
    cols: set<Field>,         // the fields of the translation (the columns read)
    naExempt: Option<Field>,  // `NaExempt` of the translation: the field whose raw header is "INFO"
    infoMin: real,
    mafMin: real,
    keepMaf: bool,
    noAlleles: bool,
    merge: Option<set<string>>,  // the reference SNPs of `--merge-alleles`
    validSnps: set<string>)      // `sumstats.VALID_SNPS`

  /**
   * One chunk as `read_csv` yields it, its columns renamed to fields, with
   * the fields whose column was read with a non-numeric dtype.
   */
  datatype Chunk = Chunk(rows: seq<Row>, textCols: set<Field>)

  /** The `drops` counters. */
  datatype Drops = Drops(na: nat, p: nat, info: nat, frq: nat, a: nat, snp: nat, merge: nat)
  {
    function Total(): nat
    {
      na + p + info + frq + a + snp + merge
    }

    function Plus(d: Drops): Drops
    {
      Drops(na + d.na, p + d.p, info + d.info, frq + d.frq, a + d.a, snp + d.snp, merge + d.merge)
    }
  }

  /** `dropna` over every column read except the one whose raw header is "INFO". */
  predicate NaOk(c: ParseConfig, r: Row)
  {
    forall f :: f in c.cols && c.naExempt != Some(f) ==> Get(r, f).Some?
  }

  /**
   * The field exempt from the NA drop for the translation `t` (raw header to
   * field): `dropna` runs before the columns are renamed (lines 241-244), so
   * only a column whose raw header is exactly `INFO` escapes it.
   */
  function NaExempt(t: map<string, Field>): (f: Option<Field>)
    ensures f.Some? <==> "INFO" in t
    ensures f.Some? ==> f.value == t["INFO"]
  {
    if "INFO" in t then Some(t["INFO"]) else None
  }

  /** The settings of a read whose columns come from the translation `t`. */
  predicate ConfiguredFrom(c: ParseConfig, t: map<string, Field>)
  {
    c.cols == t.Values && c.naExempt == NaExempt(t)
  }

  /**
   * A header spelt other than `INFO` (say `info`) that resolves to INFO is
   * not exempt: a row missing its INFO value fails the NA drop. A header
   * spelt `INFO` is exempt, and only it.
   */
  lemma InfoSpellingDecidesExemption(c: ParseConfig, t: map<string, Field>, x: string, r: Row)
    requires ConfiguredFrom(c, t) && x in t && t[x] == Info
    ensures "INFO" !in t ==> (NaOk(c, r) ==> Get(r, Info).Some?)
    ensures "INFO" in t && t["INFO"] == Info ==>
      (NaOk(c, r) <==> forall f :: f in c.cols && f != Info ==> Get(r, f).Some?)
  {
    assert Info in c.cols;
  }

  /** `dat.SNP.isin(merge_alleles.SNP)`, when `--merge-alleles` is given. */
  predicate MergeOk(c: ParseConfig, r: Row)
  {
    c.merge.None? || (TextAt(r, Snp).Some? && TextAt(r, Snp).value in c.merge.value)
  }

  /** `filter_info` on the single INFO column, when there is one. */
  predicate InfoOk(c: ParseConfig, r: Row)
  {
    Info !in c.cols || InfoPasses([NumAt(r, Info)], c.infoMin)
  }

  /** `filter_frq`, when there is an FRQ column. */
  predicate FrqOk(c: ParseConfig, r: Row)
  {
    Frq !in c.cols || FrqPasses(NumAt(r, Frq), c.mafMin)
  }

  /** `filter_pvals`. */
  predicate POk(r: Row)
  {
    NumAt(r, P).Some? && 0.0 < NumAt(r, P).value <= 1.0
  }

  /** `.str.upper()` on one cell: text is upper-cased, anything else becomes NaN. */
  function UpperCell(x: Cell): Cell
  {
    match x
    case Some(Text(s)) => Some(Text(Upper(s)))
    case _ => None
  }

  /** Upper-case the allele columns of a row. */
  function UpperAlleles(r: Row): (u: Row)
    ensures Get(u, A1) == UpperCell(Get(r, A1)) && Get(u, A2) == UpperCell(Get(r, A2))
    ensures forall f :: f != A1 && f != A2 ==> Get(u, f) == Get(r, f)
  {
    var r1 := if A1 in r then r[A1 := UpperCell(r[A1])] else r;
    if A2 in r1 then r1[A2 := UpperCell(r1[A2])] else r1
  }

  /** The upper-cased allele pair is in `VALID_SNPS`, unless `--no-alleles`. */
  predicate AllelesOk(c: ParseConfig, r: Row)
  {
    c.noAlleles || AllelesPass(TextAt(UpperAlleles(r), A1), TextAt(UpperAlleles(r), A2), c.validSnps)
  }

  /**
   * The test of stage `k`, in the order `parse_dat` applies them: 0 the NA
   * drop, 1 the reference panel, 2 INFO, 3 FRQ, 4 P, 5 the alleles.
   */
  predicate Passes(c: ParseConfig, r: Row, k: nat)
  {
    if k == 0 then NaOk(c, r)
    else if k == 1 then MergeOk(c, r)
    else if k == 2 then InfoOk(c, r)
    else if k == 3 then FrqOk(c, r)
    else if k == 4 then POk(r)
    else AllelesOk(c, r)
  }

  /**
   * The first stage from `k` on that the row fails, or 6 when it fails none.
   * A row's fate is `FirstFailed(c, r, 0)`: the stage that drops it, or 6
   * when it is kept.
   */
  function FirstFailed(c: ParseConfig, r: Row, k: nat): (n: nat)
    requires k <= 6
    ensures k <= n <= 6
    decreases 6 - k
  {
    if k == 6 then 6 else if !Passes(c, r, k) then k else FirstFailed(c, r, k + 1)
  }

  /** Starting at stage `j`, a row gets past stage `k` exactly when it passes every test from `j` to `k`. */
  lemma {:induction false} PastStages(c: ParseConfig, r: Row, j: nat, k: nat)
    requires j <= k <= 5
    ensures FirstFailed(c, r, j) > k <==> forall m :: j <= m <= k ==> Passes(c, r, m)
    decreases k - j
  {
    if j < k {
      PastStages(c, r, j + 1, k);
    }
  }

  /** A row gets past stage `k` when it gets past the stage before and passes test `k`. */
  lemma Stage(c: ParseConfig, r: Row, k: nat)
    requires k <= 5
    ensures FirstFailed(c, r, 0) > k <==> (k == 0 || FirstFailed(c, r, 0) > k - 1) && Passes(c, r, k)
  {
    PastStages(c, r, 0, k);
    if k > 0 {
      PastStages(c, r, 0, k - 1);
    }
  }

  /** The columns a kept row loses: INFO, and FRQ unless `--keep-maf`. */
  function DropCols(c: ParseConfig, r: Row): (d: Row)
    ensures Info !in d && (!c.keepMaf ==> Frq !in d)
    ensures forall f :: f != Info && (c.keepMaf || f != Frq) ==> Get(d, f) == Get(r, f)
  {
    map f | f in r && f != Info && (c.keepMaf || f != Frq) :: r[f]
  }

  /** A kept row as it is appended to `dat_list`. */
  function Out(c: ParseConfig, r: Row): Row
  {
    if c.noAlleles then DropCols(c, r) else UpperAlleles(DropCols(c, r))
  }

  /** Each row's fate. */
  function Ranks(c: ParseConfig, rows: seq<Row>): (rs: seq<nat>)
    ensures |rs| == |rows|
  {
    if rows == [] then [] else [FirstFailed(c, rows[0], 0)] + Ranks(c, rows[1..])
  }

  lemma {:induction false} RanksAt(c: ParseConfig, rows: seq<Row>, i: nat)
    requires i < |rows|
    ensures Ranks(c, rows)[i] == FirstFailed(c, rows[i], 0)
  {
    if i > 0 {
      RanksAt(c, rows[1..], i - 1);
    }
  }

  /** Each row as it would be returned. */
  function Outs(c: ParseConfig, rows: seq<Row>): (os: seq<Row>)
    ensures |os| == |rows|
  {
    if rows == [] then [] else [Out(c, rows[0])] + Outs(c, rows[1..])
  }

  lemma {:induction false} OutsAt(c: ParseConfig, rows: seq<Row>, i: nat)
    requires i < |rows|
    ensures Outs(c, rows)[i] == Out(c, rows[i])
  {
    if i > 0 {
      OutsAt(c, rows[1..], i - 1);
    }
  }

  /** The rows `parse_dat` keeps, in order, as they are returned. */
  function Survivors(c: ParseConfig, rows: seq<Row>): (s: seq<Row>)
    ensures |s| == Count(Above(Ranks(c, rows), 5))
  {
    Select(Outs(c, rows), Above(Ranks(c, rows), 5))
  }

  /** The counter a fate of rank `k` increments. */
  function RankDrop(k: nat): Drops
  {
    match k
    case 0 => Drops(1, 0, 0, 0, 0, 0, 0)
    case 1 => Drops(0, 0, 0, 0, 0, 0, 1)
    case 2 => Drops(0, 0, 1, 0, 0, 0, 0)
    case 3 => Drops(0, 0, 0, 1, 0, 0, 0)
    case 4 => Drops(0, 1, 0, 0, 0, 0, 0)
    case 5 => Drops(0, 0, 0, 0, 1, 0, 0)
    case _ => Drops(0, 0, 0, 0, 0, 0, 0)
  }

  /** The counters a sequence of ranks adds up to. */
  function Tally(rs: seq<nat>): Drops
  {
    if rs == [] then Drops(0, 0, 0, 0, 0, 0, 0) else RankDrop(rs[0]).Plus(Tally(rs[1..]))
  }

  lemma {:induction false} TallyAppend(a: seq<nat>, b: seq<nat>)
    ensures Tally(a + b) == Tally(a).Plus(Tally(b))
  {
    if a != [] {
      assert (a + b)[0] == a[0] && (a + b)[1..] == a[1..] + b;
      TallyAppend(a[1..], b);
    } else {
      assert a + b == b;
    }
  }

  /** The counter that rank `k` increments. */
  function Counter(d: Drops, k: nat): nat
  {
    match k
    case 0 => d.na
    case 1 => d.merge
    case 2 => d.info
    case 3 => d.frq
    case 4 => d.p
    case _ => d.a
  }

  lemma CounterPlus(d: Drops, e: Drops, k: nat)
    ensures Counter(d.Plus(e), k) == Counter(d, k) + Counter(e, k)
  {
  }

  lemma CounterRankDrop(j: nat, k: nat)
    requires k <= 5
    ensures Counter(RankDrop(j), k) == if j == k then 1 else 0
  {
  }

  /** Each counter is the number of rows of one rank. */
  lemma {:induction false} TallyCount(rs: seq<nat>, k: nat)
    requires k <= 5
    ensures Counter(Tally(rs), k) == CountEq(rs, k)
  {
    if rs != [] {
      TallyCount(rs[1..], k);
      CounterPlus(RankDrop(rs[0]), Tally(rs[1..]), k);
      CounterRankDrop(rs[0], k);
    }
  }

  lemma {:induction false} TallySnp(rs: seq<nat>)
    ensures Tally(rs).snp == 0
  {
    if rs != [] {
      TallySnp(rs[1..]);
    }
  }

  /** The counters of a sequence of ranks, field by field. */
  lemma TallyFields(rs: seq<nat>)
    ensures Tally(rs) == Drops(CountEq(rs, 0), CountEq(rs, 4), CountEq(rs, 2), CountEq(rs, 3), CountEq(rs, 5), 0, CountEq(rs, 1))
  {
    TallyCount(rs, 0);
    TallyCount(rs, 1);
    TallyCount(rs, 2);
    TallyCount(rs, 3);
    TallyCount(rs, 4);
    TallyCount(rs, 5);
    TallySnp(rs);
    var d := Tally(rs);
    assert d == Drops(d.na, d.p, d.info, d.frq, d.a, d.snp, d.merge);
  }

  /** The rows of ranks 0 to 5 and the rows above rank 5 make up all rows. */
  lemma {:induction false} TallyTotal(rs: seq<nat>)
    ensures |rs| == Count(Above(rs, 5)) + Tally(rs).Total()
  {
    if rs != [] {
      TallyTotal(rs[1..]);
    }
  }

  /** The counters the rows' fates add up to (the "SNP" counter is never incremented). */
  function FateCounts(c: ParseConfig, rows: seq<Row>): Drops
  {
    Tally(Ranks(c, rows))
  }

  lemma {:induction false} RanksSelect(c: ParseConfig, rows: seq<Row>, m: seq<bool>)
    requires |m| == |rows|
    ensures Ranks(c, Select(rows, m)) == Select<nat>(Ranks(c, rows), m)
  {
    if rows != [] {
      RanksSelect(c, rows[1..], m[1..]);
      var rest := Select(rows[1..], m[1..]);
      if m[0] {
        assert Select(rows, m) == [rows[0]] + rest;
        assert ([rows[0]] + rest)[1..] == rest;
      } else {
        assert Select(rows, m) == rest;
      }
    }
  }

  lemma {:induction false} OutsSelect(c: ParseConfig, rows: seq<Row>, m: seq<bool>)
    requires |m| == |rows|
    ensures Outs(c, Select(rows, m)) == Select(Outs(c, rows), m)
  {
    if rows != [] {
      OutsSelect(c, rows[1..], m[1..]);
      var rest := Select(rows[1..], m[1..]);
      if m[0] {
        assert Select(rows, m) == [rows[0]] + rest;
        assert ([rows[0]] + rest)[1..] == rest;
      } else {
        assert Select(rows, m) == rest;
      }
    }
  }

  lemma {:induction false} RanksAppend(c: ParseConfig, a: seq<Row>, b: seq<Row>)
    ensures Ranks(c, a + b) == Ranks(c, a) + Ranks(c, b)
    ensures Outs(c, a + b) == Outs(c, a) + Outs(c, b)
  {
    if a != [] {
      assert (a + b)[0] == a[0] && (a + b)[1..] == a[1..] + b;
      RanksAppend(c, a[1..], b);
    } else {
      assert a + b == b;
    }
  }
  /** Rows keep their input order: the survivors of two runs of rows are concatenated. */
  lemma SurvivorsAppend(c: ParseConfig, a: seq<Row>, b: seq<Row>)
    ensures Survivors(c, a + b) == Survivors(c, a) + Survivors(c, b)
  {
    RanksAppend(c, a, b);
    AboveAppend(Ranks(c, a), Ranks(c, b), 5);
    SelectAppend(Outs(c, a), Above(Ranks(c, a), 5), Outs(c, b), Above(Ranks(c, b), 5));
  }

  lemma CountsAppend(c: ParseConfig, a: seq<Row>, b: seq<Row>)
    ensures FateCounts(c, a + b) == FateCounts(c, a).Plus(FateCounts(c, b))
  {
    RanksAppend(c, a, b);
    TallyAppend(Ranks(c, a), Ranks(c, b));
  }

  /** Every row read is either kept or counted under exactly one reason. */
  lemma FateAccounting(c: ParseConfig, rows: seq<Row>)
    ensures |rows| == |Survivors(c, rows)| + FateCounts(c, rows).Total()
  {
    TallyTotal(Ranks(c, rows));
  }

  /** Every returned row is the output of a row read that passed every test. */
  lemma SurvivorOrigin(c: ParseConfig, rows: seq<Row>, j: nat)
    requires j < |Survivors(c, rows)|
    ensures exists i :: 0 <= i < |rows| && FirstFailed(c, rows[i], 0) == 6 && Survivors(c, rows)[j] == Out(c, rows[i])
  {
    SelectFrom(Outs(c, rows), Above(Ranks(c, rows), 5), j);
    var i :| 0 <= i < |rows| && Above(Ranks(c, rows), 5)[i] && Outs(c, rows)[i] == Survivors(c, rows)[j];
    RanksAt(c, rows, i);
    OutsAt(c, rows, i);
  }

  /**
   * What a kept row is returned as: a P-value in (0, 1], no INFO column, FRQ
   * only with `--keep-maf`, and (unless `--no-alleles`) an upper-case allele
   * pair in `VALID_SNPS`.
   */
  lemma KeptOut(c: ParseConfig, r: Row)
    requires FirstFailed(c, r, 0) == 6
    ensures POk(Out(c, r)) && Info !in Out(c, r)
    ensures !c.keepMaf ==> Frq !in Out(c, r)
    ensures !c.noAlleles ==> AllelesPass(TextAt(Out(c, r), A1), TextAt(Out(c, r), A2), c.validSnps)
  {
    Stage(c, r, 5);
    Stage(c, r, 4);
    assert POk(r) && AllelesOk(c, r);
    OutCells(c, r);
  }

  /** A returned row keeps the P value, loses INFO (and FRQ unless `--keep-maf`) and carries the upper-cased alleles. */
  lemma OutCells(c: ParseConfig, r: Row)
    ensures NumAt(Out(c, r), P) == NumAt(r, P) && Info !in Out(c, r)
    ensures !c.keepMaf ==> Frq !in Out(c, r)
    ensures !c.noAlleles ==>
      TextAt(Out(c, r), A1) == TextAt(UpperAlleles(r), A1) && TextAt(Out(c, r), A2) == TextAt(UpperAlleles(r), A2)
  {
    var d := DropCols(c, r);
    assert Get(d, P) == Get(r, P);
    if !c.noAlleles {
      var u := UpperAlleles(d);
      assert Out(c, r) == u;
      assert Get(u, P) == Get(d, P);
      assert Get(u, A1) == UpperCell(Get(r, A1)) == Get(UpperAlleles(r), A1);
      assert Get(u, A2) == UpperCell(Get(r, A2)) == Get(UpperAlleles(r), A2);
    } else {
      assert Out(c, r) == d;
    }
  }

  /** What every returned row holds (see `KeptOut`). */
  lemma SurvivorRows(c: ParseConfig, rows: seq<Row>, j: nat)
    requires j < |Survivors(c, rows)|
    ensures POk(Survivors(c, rows)[j]) && Info !in Survivors(c, rows)[j]
    ensures !c.keepMaf ==> Frq !in Survivors(c, rows)[j]
    ensures !c.noAlleles ==>
      AllelesPass(TextAt(Survivors(c, rows)[j], A1), TextAt(Survivors(c, rows)[j], A2), c.validSnps)
  {
    SurvivorOrigin(c, rows, j);
    var i :| 0 <= i < |rows| && FirstFailed(c, rows[i], 0) == 6 && Survivors(c, rows)[j] == Out(c, rows[i]);
    KeptOut(c, rows[i]);
  }

  /**
   * The failure a chunk raises, if any: a mapped numeric column read as
   * text; or, unless the reference panel leaves no row of the chunk (the
   * `continue` at line 261 skips the rest), allele columns that are not text
   * (`.str.upper()` at lines 292-293).
   */
  function ChunkError(c: ParseConfig, ch: Chunk): (e: Option<Failure>)
    ensures e == Some(NonNumericColumn) <==> c.cols * NumericFields * ch.textCols != {}
    ensures e.Some? ==> e == Some(NonNumericColumn) || e == Some(AllelesNotText)
    ensures e == Some(AllelesNotText) ==>
      && !c.noAlleles && (A1 !in ch.textCols || A2 !in ch.textCols)
      && (c.merge.None? || Count(Above(Ranks(c, ch.rows), 1)) > 0)
  {
    if c.cols * NumericFields * ch.textCols != {} then Some(NonNumericColumn)
    else if c.merge.Some? && Count(Above(Ranks(c, ch.rows), 1)) == 0 then None
    else if !c.noAlleles && (A1 !in ch.textCols || A2 !in ch.textCols) then Some(AllelesNotText)
    else None
  }

  /** Every row gets past stage `k`. */
  predicate AllPast(c: ParseConfig, rows: seq<Row>, k: nat)
  {
    forall i :: 0 <= i < |rows| ==> Ranks(c, rows)[i] > k
  }

  /**
   * Keeping the rows that get past stage `k` leaves rows that all get past
   * it, the same survivors and the same counts for the later stages.
   */
  lemma Narrow(c: ParseConfig, rows: seq<Row>, k: nat)
    requires k <= 5
    ensures AllPast(c, Select(rows, Above(Ranks(c, rows), k)), k)
    ensures Survivors(c, Select(rows, Above(Ranks(c, rows), k))) == Survivors(c, rows)
    ensures forall j: nat :: j > k ==> CountEq(Ranks(c, Select(rows, Above(Ranks(c, rows), k))), j) == CountEq(Ranks(c, rows), j)
  {
    var rs := Ranks(c, rows);
    var sel := Select(rows, Above(rs, k));
    var rsel := Select<nat>(rs, Above(rs, k));
    RanksSelect(c, rows, Above(rs, k));
    SelectAbove(rs, k);
    assert Ranks(c, sel) == rsel;
    forall i | 0 <= i < |sel| ensures Ranks(c, sel)[i] > k {
      assert i < |rsel|;
      assert rsel[i] > k;
    }
    NarrowSurvivors(c, rows, k);
  }

  /** Keeping the rows past stage `k` and then those past stage `j >= k` keeps the rows past `j`. */
  lemma NarrowTwice(c: ParseConfig, rows: seq<Row>, k: nat, j: nat)
    requires k <= j
    ensures Select(Select(rows, Above(Ranks(c, rows), k)), Above(Ranks(c, Select(rows, Above(Ranks(c, rows), k))), j))
            == Select(rows, Above(Ranks(c, rows), j))
  {
    RanksSelect(c, rows, Above(Ranks(c, rows), k));
    SelectAboveTwice(rows, Ranks(c, rows), k, j);
  }

  lemma NarrowSurvivors(c: ParseConfig, rows: seq<Row>, k: nat)
    requires k <= 5
    ensures Survivors(c, Select(rows, Above(Ranks(c, rows), k))) == Survivors(c, rows)
  {
    var rs := Ranks(c, rows);
    var sel := Select(rows, Above(rs, k));
    RanksSelect(c, rows, Above(rs, k));
    OutsSelect(c, rows, Above(rs, k));
    SelectAboveTwice(Outs(c, rows), rs, k, 5);
    assert Survivors(c, sel) == Select(Outs(c, sel), Above(Ranks(c, sel), 5));
  }

  /** `dropna`'s mask. */
  function NaMask(c: ParseConfig, rows: seq<Row>): seq<bool>
  {
    seq(|rows|, i requires 0 <= i < |rows| => NaOk(c, rows[i]))
  }

  /** `dat.SNP.isin(merge_alleles.SNP)`. */
  function MergeMask(c: ParseConfig, rows: seq<Row>): seq<bool>
  {
    seq(|rows|, i requires 0 <= i < |rows| => MergeOk(c, rows[i]))
  }

  /** `filter_info(dat["INFO"], args)`. */
  function InfoMask(c: ParseConfig, rows: seq<Row>): seq<bool>
  {
    seq(|rows|, i requires 0 <= i < |rows| => InfoPasses([NumAt(rows[i], Info)], c.infoMin))
  }

  /** `filter_frq(dat["FRQ"], args)`. */
  function FrqMask(c: ParseConfig, rows: seq<Row>): seq<bool>
  {
    seq(|rows|, i requires 0 <= i < |rows| => FrqPasses(NumAt(rows[i], Frq), c.mafMin))
  }

  /** The P column, `dat.P`. */
  function PColumn(rows: seq<Row>): seq<Option<real>>
  {
    seq(|rows|, i requires 0 <= i < |rows| => NumAt(rows[i], P))
  }

  /** `dat.drop(...)` of the INFO column, and of FRQ unless `--keep-maf`. */
  function DropAll(c: ParseConfig, rows: seq<Row>): seq<Row>
  {
    seq(|rows|, i requires 0 <= i < |rows| => DropCols(c, rows[i]))
  }

  /** `dat.A1 = dat.A1.str.upper()` and the same for A2. */
  function UpperAll(rows: seq<Row>): seq<Row>
  {
    seq(|rows|, i requires 0 <= i < |rows| => UpperAlleles(rows[i]))
  }

  /** `filter_alleles(dat.A1 + dat.A2)`. */
  function AlleleMask(c: ParseConfig, rows: seq<Row>): seq<bool>
  {
    seq(|rows|, i requires 0 <= i < |rows| => AllelesPass(TextAt(rows[i], A1), TextAt(rows[i], A2), c.validSnps))
  }

  lemma NaMaskRanks(c: ParseConfig, rows: seq<Row>)
    ensures NaMask(c, rows) == Above(Ranks(c, rows), 0)
  {
    forall i | 0 <= i < |rows| ensures NaMask(c, rows)[i] == Above(Ranks(c, rows), 0)[i] {
      RanksAt(c, rows, i);
      Stage(c, rows[i], 0);
    }
  }

  lemma MergeMaskRanks(c: ParseConfig, rows: seq<Row>)
    requires AllPast(c, rows, 0)
    ensures c.merge.Some? ==> MergeMask(c, rows) == Above(Ranks(c, rows), 1)
    ensures c.merge.None? ==> Above(Ranks(c, rows), 1) == AllTrue(|rows|)
  {
    forall i | 0 <= i < |rows| ensures MergeMask(c, rows)[i] == Above(Ranks(c, rows), 1)[i] {
      RanksAt(c, rows, i);
      Stage(c, rows[i], 1);
    }
  }

  lemma InfoMaskRanks(c: ParseConfig, rows: seq<Row>)
    requires AllPast(c, rows, 1)
    ensures Info in c.cols ==> And(AllTrue(|rows|), InfoMask(c, rows)) == Above(Ranks(c, rows), 2)
    ensures Info !in c.cols ==> AllTrue(|rows|) == Above(Ranks(c, rows), 2)
  {
    var past2 := Above(Ranks(c, rows), 2);
    forall i | 0 <= i < |rows| ensures past2[i] == (Info !in c.cols || InfoMask(c, rows)[i]) {
      RanksAt(c, rows, i);
      Stage(c, rows[i], 2);
    }
    if Info in c.cols {
      assert And(AllTrue(|rows|), InfoMask(c, rows)) == past2;
    } else {
      assert AllTrue(|rows|) == past2;
    }
  }

  lemma FrqMaskRanks(c: ParseConfig, rows: seq<Row>)
    ensures Frq in c.cols ==> And(Above(Ranks(c, rows), 2), FrqMask(c, rows)) == Above(Ranks(c, rows), 3)
    ensures Frq !in c.cols ==> Above(Ranks(c, rows), 2) == Above(Ranks(c, rows), 3)
  {
    var past2, past3 := Above(Ranks(c, rows), 2), Above(Ranks(c, rows), 3);
    forall i | 0 <= i < |rows| ensures past3[i] == (past2[i] && FrqOk(c, rows[i])) {
      RanksAt(c, rows, i);
      Stage(c, rows[i], 3);
    }
    if Frq in c.cols {
      assert And(past2, FrqMask(c, rows)) == past3;
    } else {
      assert past2 == past3;
    }
  }

  /** The P stage on one row, read after the INFO and FRQ columns are dropped. */
  lemma PRow(c: ParseConfig, r: Row)
    ensures FirstFailed(c, r, 0) > 4 <==> FirstFailed(c, r, 0) > 3 && POk(DropCols(c, r))
  {
    Stage(c, r, 4);
    assert NumAt(DropCols(c, r), P) == NumAt(r, P);
  }

  lemma PMaskRanks(c: ParseConfig, rows: seq<Row>)
    ensures And(Above(Ranks(c, rows), 3), FilterPvals(PColumn(DropAll(c, rows)))) == Above(Ranks(c, rows), 4)
  {
    var dat := DropAll(c, rows);
    forall i | 0 <= i < |rows|
      ensures Above(Ranks(c, rows), 4)[i] == (Above(Ranks(c, rows), 3)[i] && FilterPvals(PColumn(dat))[i])
    {
      RanksAt(c, rows, i);
      PRow(c, rows[i]);
      assert PColumn(dat)[i] == NumAt(DropCols(c, rows[i]), P);
    }
  }

  /** The allele stage on one row, read after the drop and the upper-casing. */
  lemma AlleleRow(c: ParseConfig, r: Row)
    requires !c.noAlleles
    ensures Out(c, r) == UpperAlleles(DropCols(c, r))
    ensures FirstFailed(c, r, 0) > 5 <==>
      FirstFailed(c, r, 0) > 4 && AllelesPass(TextAt(Out(c, r), A1), TextAt(Out(c, r), A2), c.validSnps)
  {
    Stage(c, r, 5);
    assert TextAt(Out(c, r), A1) == TextAt(UpperAlleles(r), A1);
    assert TextAt(Out(c, r), A2) == TextAt(UpperAlleles(r), A2);
  }

  lemma AlleleMaskRanks(c: ParseConfig, rows: seq<Row>)
    requires !c.noAlleles
    ensures UpperAll(DropAll(c, rows)) == Outs(c, rows)
    ensures And(Above(Ranks(c, rows), 4), AlleleMask(c, Outs(c, rows))) == Above(Ranks(c, rows), 5)
  {
    forall i | 0 <= i < |rows|
      ensures Outs(c, rows)[i] == UpperAll(DropAll(c, rows))[i]
    {
      OutsAt(c, rows, i);
      AlleleRow(c, rows[i]);
    }
    var outs := Outs(c, rows);
    forall i | 0 <= i < |rows|
      ensures Above(Ranks(c, rows), 5)[i] == (Above(Ranks(c, rows), 4)[i] && AlleleMask(c, outs)[i])
    {
      RanksAt(c, rows, i);
      OutsAt(c, rows, i);
      AlleleRow(c, rows[i]);
    }
  }

  /** With `--no-alleles` the allele stage drops nothing and leaves the rows as the P stage left them. */
  lemma NoAlleleStage(c: ParseConfig, rows: seq<Row>)
    requires c.noAlleles && AllPast(c, rows, 1)
    ensures Above(Ranks(c, rows), 4) == Above(Ranks(c, rows), 5)
    ensures DropAll(c, rows) == Outs(c, rows)
    ensures CountEq(Ranks(c, rows), 5) == 0
  {
    forall i | 0 <= i < |rows|
      ensures Above(Ranks(c, rows), 5)[i] == Above(Ranks(c, rows), 4)[i]
      ensures Outs(c, rows)[i] == DropAll(c, rows)[i]
    {
      RanksAt(c, rows, i);
      OutsAt(c, rows, i);
      Stage(c, rows[i], 5);
    }
    CountAboveStep(Ranks(c, rows), 4);
  }

  /** What one chunk contributes: its kept rows and its counters. */
  datatype ChunkResult = ChunkResult(kept: seq<Row>, drops: Drops)

  /** `dropna` (lines 240-244): the rows that get past the NA test, and how many do not. */
  method NaStep(c: ParseConfig, rows: seq<Row>) returns (dat: seq<Row>, dropped: nat)
    ensures dat == Select(rows, Above(Ranks(c, rows), 0))
    ensures dropped == CountEq(Ranks(c, rows), 0)
  {
    NaMaskRanks(c, rows);
    dat := Select(rows, NaMask(c, rows));
    CountAboveZero(Ranks(c, rows));
    dropped := |rows| - |dat|;
  }

  /** The `--merge-alleles` test (lines 256-264): the rows kept and the number dropped. */
  method PanelStep(c: ParseConfig, dat: seq<Row>) returns (base: seq<Row>, dropped: nat)
    requires AllPast(c, dat, 0)
    ensures base == Select(dat, Above(Ranks(c, dat), 1))
    ensures dropped == CountEq(Ranks(c, dat), 1)
  {
    var rs := Ranks(c, dat);
    MergeMaskRanks(c, dat);
    CountAboveStep(rs, 0);
    assert Above(rs, 0) == AllTrue(|dat|);
    CountAllTrue(Above(rs, 0));
    if c.merge.Some? {
      var ii := MergeMask(c, dat);
      base := Select(dat, ii);
      dropped := |dat| - |base|;
    } else {
      CountAllTrue(Above(rs, 1));
      SelectAllTrue(dat, Above(rs, 1));
      base := dat;
      dropped := 0;
    }
  }

  /** The INFO stage (lines 266-271) on the rows left after the NA and merge steps. */
  method InfoStage(c: ParseConfig, base: seq<Row>) returns (ii: seq<bool>, info: nat)
    requires AllPast(c, base, 1)
    ensures ii == Above(Ranks(c, base), 2) && info == CountEq(Ranks(c, base), 2)
  {
    InfoMaskRanks(c, base);
    CountAboveStep(Ranks(c, base), 1);
    ii := AllTrue(|base|);
    assert ii == Above(Ranks(c, base), 1);
    info := 0;
    if Info in c.cols {
      var before := Count(ii);
      ii := And(ii, InfoMask(c, base));
      info := before - Count(ii);
    }
  }

  /** The FRQ stage (lines 273-278). */
  method FrqStage(c: ParseConfig, base: seq<Row>, ii0: seq<bool>) returns (ii: seq<bool>, frq: nat)
    requires ii0 == Above(Ranks(c, base), 2)
    ensures ii == Above(Ranks(c, base), 3) && frq == CountEq(Ranks(c, base), 3)
  {
    FrqMaskRanks(c, base);
    CountAboveStep(Ranks(c, base), 2);
    ii, frq := ii0, 0;
    if Frq in c.cols {
      ii := And(ii0, FrqMask(c, base));
      frq := Count(ii0) - Count(ii);
    }
  }

  /** Dropping INFO (and FRQ) and the P stage (lines 280-290). */
  method PStage(c: ParseConfig, base: seq<Row>, ii0: seq<bool>) returns (ii: seq<bool>, dat: seq<Row>, p: nat)
    requires ii0 == Above(Ranks(c, base), 3)
    ensures ii == Above(Ranks(c, base), 4) && dat == DropAll(c, base) && p == CountEq(Ranks(c, base), 4)
  {
    PMaskRanks(c, base);
    CountAboveStep(Ranks(c, base), 3);
    dat := DropAll(c, base);
    ii := And(ii0, FilterPvals(PColumn(dat)));
    p := Count(ii0) - Count(ii);
  }

  /** The allele stage (lines 291-297) after the P test. */
  method AlleleStage(c: ParseConfig, base: seq<Row>, ii0: seq<bool>, dat: seq<Row>) returns (ii: seq<bool>, outs: seq<Row>, a: nat)
    requires !c.noAlleles
    requires ii0 == Above(Ranks(c, base), 4) && dat == DropAll(c, base)
    ensures ii == Above(Ranks(c, base), 5) && outs == Outs(c, base)
    ensures a == CountEq(Ranks(c, base), 5)
  {
    AlleleMaskRanks(c, base);
    CountAboveStep(Ranks(c, base), 4);
    outs := UpperAll(dat);
    assert outs == Outs(c, base);
    ii := And(ii0, AlleleMask(c, outs));
    a := Count(ii0) - Count(ii);
  }

  /** When the reference panel leaves no row, the chunk's counters are its NA and merge drops and it keeps nothing. */
  lemma MergeLeftNone(c: ParseConfig, rows: seq<Row>)
    requires Count(Above(Ranks(c, rows), 1)) == 0
    ensures FateCounts(c, rows) == Drops(CountEq(Ranks(c, rows), 0), 0, 0, 0, 0, 0, CountEq(Ranks(c, rows), 1))
    ensures Survivors(c, rows) == []
  {
    var rs := Ranks(c, rows);
    TallyFields(rs);
    NothingAbove(rs, 1);
    CountAboveStep(rs, 1);
    CountAboveStep(rs, 2);
    CountAboveStep(rs, 3);
    CountAboveStep(rs, 4);
  }

  /** A chunk's counters, the later ones read off the rows that get past the merge step. */
  lemma ChunkCounts(c: ParseConfig, rows: seq<Row>)
    ensures var base := Ranks(c, Select(rows, Above(Ranks(c, rows), 1)));
      FateCounts(c, rows) == Drops(CountEq(Ranks(c, rows), 0), CountEq(base, 4), CountEq(base, 2),
                                   CountEq(base, 3), CountEq(base, 5), 0, CountEq(Ranks(c, rows), 1))
  {
    TallyFields(Ranks(c, rows));
    Narrow(c, rows, 1);
  }

  /** The body of the chunk loop (lines 239-302) for one chunk. */
  method ProcessChunk(c: ParseConfig, ch: Chunk) returns (r: Result<ChunkResult, Failure>)
    ensures r.Err? <==> ChunkError(c, ch).Some?
    ensures r.Err? ==> r.error == ChunkError(c, ch).value
    ensures r.Ok? ==> r.value.kept == Survivors(c, ch.rows) && r.value.drops == FateCounts(c, ch.rows)
  {
    var rows := ch.rows;
    var dat, na := NaStep(c, rows);
    if c.cols * NumericFields * ch.textCols != {} {
      return Err(NonNumericColumn);
    }
    Narrow(c, rows, 0);
    var base, merge := PanelStep(c, dat);
    NarrowTwice(c, rows, 0, 1);
    Narrow(c, rows, 1);
    if c.merge.Some? && |base| == 0 {
      MergeLeftNone(c, rows);
      return Ok(ChunkResult([], Drops(na, 0, 0, 0, 0, 0, merge)));
    }
    var ii, info := InfoStage(c, base);
    var frq;
    ii, frq := FrqStage(c, base, ii);
    var dat3, p;
    ii, dat3, p := PStage(c, base, ii);
    var outs := dat3;
    var a := 0;
    if !c.noAlleles {
      if A1 !in ch.textCols || A2 !in ch.textCols {
        return Err(AllelesNotText);
      }
      ii, outs, a := AlleleStage(c, base, ii, dat3);
    } else {
      NoAlleleStage(c, base);
    }
    ChunkCounts(c, rows);
    var drops := Drops(na, p, info, frq, a, 0, merge);
    if Count(ii) == 0 {
      return Ok(ChunkResult([], drops));
    }
    r := Ok(ChunkResult(Select(outs, ii), drops));
  }

  /** All rows of a list of chunks, in order. */
  function AllRows(chunks: seq<Chunk>): seq<Row>
  {
    if chunks == [] then [] else AllRows(chunks[..|chunks| - 1]) + chunks[|chunks| - 1].rows
  }

  /** What `parse_dat` returns: the kept rows, the number of rows read and the counters. */
  datatype Parsed = Parsed(rows: seq<Row>, total: nat, drops: Drops)

  /** The failure of the first failing chunk, if any. */
  function ChunksError(c: ParseConfig, chunks: seq<Chunk>): Option<Failure>
  {
    if chunks == [] then None
    else
      var e := ChunksError(c, chunks[..|chunks| - 1]);
      if e.Some? then e else ChunkError(c, chunks[|chunks| - 1])
  }

  /** `ChunksError` is the failure of the first chunk that fails. */
  lemma {:induction false} ChunksErrorFirst(c: ParseConfig, chunks: seq<Chunk>)
    ensures ChunksError(c, chunks).None? <==> forall i :: 0 <= i < |chunks| ==> ChunkError(c, chunks[i]).None?
    ensures ChunksError(c, chunks).Some? ==>
      exists i :: 0 <= i < |chunks| && ChunkError(c, chunks[i]) == ChunksError(c, chunks)
        && forall j :: 0 <= j < i ==> ChunkError(c, chunks[j]).None?
  {
    if chunks != [] {
      var front := chunks[..|chunks| - 1];
      ChunksErrorFirst(c, front);
      assert forall i :: 0 <= i < |front| ==> front[i] == chunks[i];
    }
  }

  /** Once a prefix of the chunks fails, the whole list fails the same way. */
  lemma {:induction false} ChunksErrorPrefix(c: ParseConfig, chunks: seq<Chunk>, n: nat)
    requires n <= |chunks| && ChunksError(c, chunks[..n]).Some?
    ensures ChunksError(c, chunks) == ChunksError(c, chunks[..n])
    decreases |chunks|
  {
    if n < |chunks| {
      var front := chunks[..|chunks| - 1];
      assert front[..n] == chunks[..n];
      ChunksErrorPrefix(c, front, n);
    } else {
      assert chunks[..n] == chunks;
    }
  }

  /**
   * One turn of the chunk loop of `parse_dat`, on chunk `i`: a failing chunk
   * raises the failure of the whole list; otherwise the row count, the
   * counters and the kept rows grow by those of the chunk.
   */
  method ParseNext(c: ParseConfig, chunks: seq<Chunk>, i: nat, tot: nat, drops: Drops, datList: seq<seq<Row>>)
    returns (err: Option<Failure>, tot': nat, drops': Drops, datList': seq<seq<Row>>)
    requires i < |chunks| && ChunksError(c, chunks[..i]).None?
    requires tot == |AllRows(chunks[..i])| && drops == FateCounts(c, AllRows(chunks[..i]))
    requires Flatten(datList) == Survivors(c, AllRows(chunks[..i])) && (datList == [] <==> Flatten(datList) == [])
    ensures err.Some? ==> ChunksError(c, chunks) == err
    ensures err.None? ==> ChunksError(c, chunks[..i + 1]).None?
    ensures err.None? ==> tot' == |AllRows(chunks[..i + 1])| && drops' == FateCounts(c, AllRows(chunks[..i + 1]))
    ensures err.None? ==>
      Flatten(datList') == Survivors(c, AllRows(chunks[..i + 1])) && (datList' == [] <==> Flatten(datList') == [])
  {
    assert chunks[..i + 1][..i] == chunks[..i];
    CountsAppend(c, AllRows(chunks[..i]), chunks[i].rows);
    SurvivorsAppend(c, AllRows(chunks[..i]), chunks[i].rows);
    tot', drops', datList' := tot + |chunks[i].rows|, drops, datList;
    var res := ProcessChunk(c, chunks[i]);
    if res.Err? {
      assert ChunksError(c, chunks[..i + 1]) == Some(res.error);
      ChunksErrorPrefix(c, chunks, i + 1);
      return Some(res.error), tot', drops', datList';
    }
    err := None;
    drops' := drops.Plus(res.value.drops);
    if res.value.kept != [] {
      FlattenSnoc(datList, res.value.kept);
      datList' := datList + [res.value.kept];
    }
  }

  /**
   * The chunk loop of `parse_dat`: the first chunk that fails raises;
   * otherwise the row count, the counters and the kept rows of all chunks.
   */
  method ParseChunks(c: ParseConfig, chunks: seq<Chunk>)
    returns (err: Option<Failure>, tot: nat, drops: Drops, datList: seq<seq<Row>>)
    ensures err == ChunksError(c, chunks)
    ensures err.None? ==> tot == |AllRows(chunks)| && drops == FateCounts(c, AllRows(chunks))
    ensures err.None? ==>
      Flatten(datList) == Survivors(c, AllRows(chunks)) && (datList == [] <==> Flatten(datList) == [])
  {
    tot, drops, datList := 0, Drops(0, 0, 0, 0, 0, 0, 0), [];
    var i := 0;
    while i < |chunks|
      invariant 0 <= i <= |chunks|
      invariant ChunksError(c, chunks[..i]).None?
      invariant tot == |AllRows(chunks[..i])| && drops == FateCounts(c, AllRows(chunks[..i]))
      invariant Flatten(datList) == Survivors(c, AllRows(chunks[..i])) && (datList == [] <==> Flatten(datList) == [])
    {
      err, tot, drops, datList := ParseNext(c, chunks, i, tot, drops, datList);
      if err.Some? {
        return;
      }
      i := i + 1;
    }
    assert chunks[..|chunks|] == chunks;
    err := None;
  }

  /** What `parse_dat` returns for the chunks: the first chunk error, else the survivors, if any. */
  function ParseResult(c: ParseConfig, chunks: seq<Chunk>): Result<Parsed, Failure>
  {
    if ChunksError(c, chunks).Some? then Err(ChunksError(c, chunks).value)
    else if Survivors(c, AllRows(chunks)) == [] then Err(NothingToConcatenate)
    else Ok(Parsed(Survivors(c, AllRows(chunks)), |AllRows(chunks)|, FateCounts(c, AllRows(chunks))))
  }

  /** The columns of a returned row read with columns `cols`: INFO is dropped, and FRQ unless `--keep-maf` (lines 281-286). */
  function OutFields(c: ParseConfig, cols: set<Field>): set<Field>
  {
    cols - {Info} - (if c.keepMaf then {} else {Frq})
  }

  /** Dropping columns and upper-casing alleles changes no column but INFO and FRQ. */
  lemma OutKeys(c: ParseConfig, r: Row)
    ensures Out(c, r).Keys == OutFields(c, r.Keys)
  {
    var d := DropCols(c, r);
    assert d.Keys == OutFields(c, r.Keys);
    var r1 := if A1 in d then d[A1 := UpperCell(d[A1])] else d;
    assert r1.Keys == d.Keys;
  }

  /** Rows read with one set of columns all survive with the same columns, so the result is rectangular. */
  lemma SurvivorKeys(c: ParseConfig, rows: seq<Row>, cols: set<Field>)
    requires forall i :: 0 <= i < |rows| ==> rows[i].Keys == cols
    ensures forall j :: 0 <= j < |Survivors(c, rows)| ==> Survivors(c, rows)[j].Keys == OutFields(c, cols)
  {
    forall j | 0 <= j < |Survivors(c, rows)|
      ensures Survivors(c, rows)[j].Keys == OutFields(c, cols)
    {
      var i := SelectOrigin(Outs(c, rows), Above(Ranks(c, rows), 5), j);
      OutsAt(c, rows, i);
      OutKeys(c, rows[i]);
    }
  }

  /** The concatenated chunks keep the columns every chunk was read with. */
  lemma {:induction false} AllRowsKeys(chunks: seq<Chunk>, cols: set<Field>)
    requires forall k, i :: 0 <= k < |chunks| && 0 <= i < |chunks[k].rows| ==> chunks[k].rows[i].Keys == cols
    ensures forall i :: 0 <= i < |AllRows(chunks)| ==> AllRows(chunks)[i].Keys == cols
  {
    if chunks != [] {
      AllRowsKeys(chunks[..|chunks| - 1], cols);
    }
  }

  /**
   * `parse_dat`: the chunks in order; the first chunk that fails raises; with
   * no chunk left to concatenate `pd.concat` raises (so the empty-result check
   * after it, at line 636, never fires).
   */
  method ParseDat(c: ParseConfig, chunks: seq<Chunk>) returns (r: Result<Parsed, Failure>)
    ensures r.Err? <==> ChunksError(c, chunks).Some? || Survivors(c, AllRows(chunks)) == []
    ensures r.Err? ==> r.error == if ChunksError(c, chunks).Some? then ChunksError(c, chunks).value else NothingToConcatenate
    ensures r.Ok? ==>
      && r.value.rows == Survivors(c, AllRows(chunks))
      && r.value.total == |AllRows(chunks)|
      && r.value.drops == FateCounts(c, AllRows(chunks))
    ensures r == ParseResult(c, chunks)
  {
    var err, tot, drops, datList := ParseChunks(c, chunks);
    if err.Some? {
      return Err(err.value);
    }
    if datList == [] {
      return Err(NothingToConcatenate);
    }
    r := Ok(Parsed(Flatten(datList), tot, drops));
  }
}
