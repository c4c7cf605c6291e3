/**
 * `process_n` of the newer converter
 * (src/ldsc/munge_sumstats/munge_sumstats.py, lines 321-364): the sample size
 * from case and control counts, the N or NSTUDY threshold, and the constant N
 * of the command line. A missing value is NaN: it fails every comparison and
 * is skipped by `max` and `mean`.
 */
module MungeN {
  import opened Wrappers
  import opened Schema
  import opened Seqs
  import opened MungeFilters

  /** The settings `process_n` reads; `None` is a flag left unset. */
  datatype NArgs = NArgs(nMin: Option<real>, nstudyMin: Option<real>, n: Option<real>, nCas: Option<real>, nCon: Option<real>)

  /** The numbers of one field, row by row (`dat.N`). */
  function Column(rows: seq<Row>, f: Field): (xs: seq<Option<real>>)
    ensures |xs| == |rows| && forall i :: 0 <= i < |rows| ==> xs[i] == NumAt(rows[i], f)
  {
    seq(|rows|, i requires 0 <= i < |rows| => NumAt(rows[i], f))
  }

  /** `max()`: the largest present value, `None` when no value is present. */
  function MaxPresent(xs: seq<Option<real>>): (m: Option<real>)
    ensures m.None? <==> forall i :: 0 <= i < |xs| ==> xs[i].None?
    ensures m.Some? ==> exists i :: 0 <= i < |xs| && xs[i] == m
    ensures m.Some? ==> forall i :: 0 <= i < |xs| && xs[i].Some? ==> xs[i].value <= m.value
  {
    if xs == [] then None
    else
      var rest := MaxPresent(xs[1..]);
      assert forall i :: 1 <= i < |xs| ==> xs[1..][i - 1] == xs[i];
      if xs[0].None? || (rest.Some? && rest.value > xs[0].value) then rest
      else Some(xs[0].value)
  }

  /** The number of present values (`count()`). */
  function CountPresent(xs: seq<Option<real>>): (k: nat)
    ensures k <= |xs|
  {
    if xs == [] then 0 else (if xs[0].Some? then 1 else 0) + CountPresent(xs[1..])
  }

  /** `mean()`: the average of the present values, `None` when none is present. */
  function MeanPresent(xs: seq<Option<real>>): (m: Option<real>)
    ensures m.None? <==> CountPresent(xs) == 0
  {
    if CountPresent(xs) == 0 then None else Some(SumPresent(xs) / (CountPresent(xs) as real))
  }

  lemma {:induction false} SumUniform(xs: seq<Option<real>>, v: real)
    requires forall i :: 0 <= i < |xs| && xs[i].Some? ==> xs[i].value == v
    ensures SumPresent(xs) == v * (CountPresent(xs) as real)
  {
    if xs != [] {
      SumUniform(xs[1..], v);
    }
  }

  /** The mean of present values that all equal `v` is `v`. */
  lemma MeanUniform(xs: seq<Option<real>>, v: real)
    requires forall i :: 0 <= i < |xs| && xs[i].Some? ==> xs[i].value == v
    requires CountPresent(xs) > 0
    ensures MeanPresent(xs) == Some(v)
  {
    SumUniform(xs, v);
    MeanFromSum(xs, v);
  }

  lemma MeanFromSum(xs: seq<Option<real>>, v: real)
    requires CountPresent(xs) > 0 && SumPresent(xs) == v * (CountPresent(xs) as real)
    ensures MeanPresent(xs) == Some(v)
  {
    DivideBack(SumPresent(xs), CountPresent(xs), v);
  }

  lemma DivideBack(x: real, k: nat, v: real)
    requires k > 0 && x == v * (k as real)
    ensures x / (k as real) == v
  {
  }

  lemma {:induction false} CountPresentAt(xs: seq<Option<real>>, i: nat)
    requires i < |xs| && xs[i].Some?
    ensures CountPresent(xs) > 0
  {
    if i > 0 {
      CountPresentAt(xs[1..], i - 1);
    }
  }

  /** `N = dat.N_CAS + dat.N_CON` on one row. */
  function TotalN(r: Row): (n: Option<real>)
    ensures n.Some? <==> NumAt(r, NCas).Some? && NumAt(r, NCon).Some?
  {
    if NumAt(r, NCas).Some? && NumAt(r, NCon).Some? then Some(NumAt(r, NCas).value + NumAt(r, NCon).value) else None
  }

  /** `P = dat.N_CAS / N` on one row: missing when N is missing or zero. */
  function CaseFraction(r: Row): (p: Option<real>)
    ensures p.Some? ==> TotalN(r).Some? && TotalN(r).value != 0.0
  {
    var n := TotalN(r);
    if n.Some? && n.value != 0.0 then Some(NumAt(r, NCas).value / n.value) else None
  }

  /** The column `N_CAS + N_CON`. */
  function TotalNs(rows: seq<Row>): (ns: seq<Option<real>>)
    ensures |ns| == |rows| && forall i :: 0 <= i < |rows| ==> ns[i] == TotalN(rows[i])
  {
    seq(|rows|, i requires 0 <= i < |rows| => TotalN(rows[i]))
  }

  /** Whether row `i` has the largest N = N_CAS + N_CON (`N == N.max()`). */
  predicate AtMaxN(rows: seq<Row>, i: int)
    requires 0 <= i < |rows|
  {
    TotalN(rows[i]).Some? && TotalN(rows[i]) == MaxPresent(TotalNs(rows))
  }

  /** `P[N == N.max()]`: the case fractions of the rows of largest N, missing elsewhere. */
  function FractionsAtMax(rows: seq<Row>): (ps: seq<Option<real>>)
    ensures |ps| == |rows|
    ensures forall i :: 0 <= i < |rows| ==> ps[i] == if AtMaxN(rows, i) then CaseFraction(rows[i]) else None
  {
    seq(|rows|, i requires 0 <= i < |rows| => if AtMaxN(rows, i) then CaseFraction(rows[i]) else None)
  }

  /** `N * P / mean` on one row, `mean` being the case fraction averaged over the rows of largest N. */
  function ScaledN(r: Row, mean: Option<real>): (s: Option<real>)
    ensures s.Some? <==> CaseFraction(r).Some? && mean.Some? && mean.value != 0.0
    ensures s.Some? ==> s.value * mean.value == NumAt(r, NCas).value
  {
    if CaseFraction(r).Some? && mean.Some? && mean.value != 0.0
    then Some(TotalN(r).value * CaseFraction(r).value / mean.value)
    else None
  }

  /** `N * P / P[N == N.max()].mean()` on every row. */
  function RescaledN(rows: seq<Row>): (ns: seq<Option<real>>)
    ensures |ns| == |rows|
  {
    var m := MeanPresent(FractionsAtMax(rows));
    seq(|rows|, i requires 0 <= i < |rows| => ScaledN(rows[i], m))
  }

  /**
   * The rescaled N of a row is its number of cases divided by the mean case
   * fraction of the rows of largest N.
   */
  lemma RescaledIsCases(rows: seq<Row>, i: nat)
    requires i < |rows| && RescaledN(rows)[i].Some?
    ensures var m := MeanPresent(FractionsAtMax(rows));
      m.Some? && m.value != 0.0 && RescaledN(rows)[i] == Some(NumAt(rows[i], NCas).value / m.value)
  {
    assert RescaledN(rows)[i] == ScaledN(rows[i], MeanPresent(FractionsAtMax(rows)));
    ScaledIsCases(rows[i], MeanPresent(FractionsAtMax(rows)));
  }

  lemma ScaledIsCases(r: Row, mean: Option<real>)
    requires ScaledN(r, mean).Some?
    ensures mean.Some? && mean.value != 0.0 && ScaledN(r, mean) == Some(NumAt(r, NCas).value / mean.value)
  {
    ScaleBack(TotalN(r).value, NumAt(r, NCas).value, CaseFraction(r).value, mean.value);
    assert TotalN(r).value * CaseFraction(r).value / mean.value == NumAt(r, NCas).value / mean.value;
  }

  lemma ScaleBack(n: real, x: real, f: real, m: real)
    requires n != 0.0 && m != 0.0 && f == x / n
    ensures n * f / m == x / m
  {
  }

  /**
   * When the rows of largest N all have the same case fraction, the
   * rescaled N of each of them is N_CAS + N_CON.
   */
  lemma RescaleAtMax(rows: seq<Row>, p: real, i: nat)
    requires p != 0.0 && i < |rows| && AtMaxN(rows, i)
    requires forall j :: 0 <= j < |rows| && AtMaxN(rows, j) ==> CaseFraction(rows[j]) == Some(p)
    ensures RescaledN(rows)[i] == TotalN(rows[i])
  {
    var ps := FractionsAtMax(rows);
    assert ps[i] == Some(p);
    CountPresentAt(ps, i);
    MeanUniform(ps, p);
    ScaledUnit(rows[i], p);
    assert RescaledN(rows)[i] == ScaledN(rows[i], MeanPresent(ps));
  }

  lemma ScaledUnit(r: Row, p: real)
    requires p != 0.0 && CaseFraction(r) == Some(p)
    ensures ScaledN(r, Some(p)) == TotalN(r)
  {
    CancelScale(TotalN(r).value, p);
  }

  lemma CancelScale(n: real, p: real)
    requires p != 0.0
    ensures n * p / p == n
  {
  }

  /** Present numbers as cells. */
  function NumCells(xs: seq<Option<real>>): (cs: seq<Cell>)
    ensures |cs| == |xs|
    ensures forall i :: 0 <= i < |xs| ==> (cs[i].Some? <==> xs[i].Some?)
    ensures forall i :: 0 <= i < |xs| && xs[i].Some? ==> cs[i] == Some(Num(xs[i].value))
  {
    seq(|xs|, i requires 0 <= i < |xs| => if xs[i].Some? then Some(Num(xs[i].value)) else None)
  }

  /** `dat[f] = cells`: field `f` of every row replaced. */
  function SetColumn(rows: seq<Row>, f: Field, cells: seq<Cell>): (out: seq<Row>)
    requires |cells| == |rows|
    ensures |out| == |rows|
    ensures forall i :: 0 <= i < |rows| ==> out[i] == rows[i][f := cells[i]]
    ensures forall i :: 0 <= i < |rows| ==> out[i].Keys == rows[i].Keys + {f}
    ensures forall i :: 0 <= i < |rows| ==> Get(out[i], f) == cells[i] && f in out[i]
    ensures forall i, g :: 0 <= i < |rows| && g != f ==> Get(out[i], g) == Get(rows[i], g) && (g in out[i] <==> g in rows[i])
  {
    seq(|rows|, i requires 0 <= i < |rows| => rows[i][f := cells[i]])
  }

  /** `dat.drop(fs, axis=1)`: the fields `fs` removed from every row. */
  function DropColumns(rows: seq<Row>, fs: set<Field>): (out: seq<Row>)
    ensures |out| == |rows|
    ensures forall i :: 0 <= i < |rows| ==> out[i] == rows[i] - fs
    ensures forall i :: 0 <= i < |rows| ==> out[i].Keys == rows[i].Keys - fs
    ensures forall i, g :: 0 <= i < |rows| && g !in fs ==> Get(out[i], g) == Get(rows[i], g)
  {
    seq(|rows|, i requires 0 <= i < |rows| => rows[i] - fs)
  }

  /** `xs >= t` as a mask: a missing value, or a missing threshold, never passes. */
  function AtLeast(xs: seq<Option<real>>, t: Option<real>): (m: seq<bool>)
    ensures |m| == |xs|
    ensures forall i :: 0 <= i < |xs| ==> (m[i] <==> xs[i].Some? && t.Some? && xs[i].value >= t.value)
  {
    seq(|xs|, i requires 0 <= i < |xs| => xs[i].Some? && t.Some? && xs[i].value >= t.value)
  }

  /**
   * With only NSTUDY and no truthy `--nstudy-min`, the rows the NSTUDY filter
   * keeps are exactly those whose NSTUDY is the column's maximum.
   */
  lemma NStudyMaxSurvivors(a: NArgs, rows: seq<Row>)
    requires !Truthy(a.nstudyMin)
    ensures forall i :: 0 <= i < |rows| ==>
      (AtLeast(Column(rows, NStudy), NStudyThreshold(a, rows))[i] <==>
        NumAt(rows[i], NStudy).Some? && NumAt(rows[i], NStudy) == MaxPresent(Column(rows, NStudy)))
  {
    var xs := Column(rows, NStudy);
    forall i | 0 <= i < |rows|
      ensures AtLeast(xs, MaxPresent(xs))[i] <==> xs[i].Some? && xs[i] == MaxPresent(xs)
    {
      if xs[i].Some? && MaxPresent(xs).Some? && xs[i].value >= MaxPresent(xs).value {
        assert xs[i].value <= MaxPresent(xs).value;
      }
    }
  }

  /**
   * `n_min` for the N column `ns` (lines 331 and 640): the flag when it is
   * truthy, else `ns.quantile(0.9) / 1.5`, with `quantile` pandas' 0.9
   * quantile of the column (NaN as `None`).
   */
  function NThreshold(a: NArgs, ns: seq<Option<real>>, quantile: seq<Option<real>> -> Option<real>): (t: Option<real>)
    ensures Truthy(a.nMin) ==> t == a.nMin
    ensures !Truthy(a.nMin) ==> (t.Some? <==> quantile(ns).Some?)
    ensures !Truthy(a.nMin) && t.Some? ==> t.value * 1.5 == quantile(ns).value
  {
    if Truthy(a.nMin) then a.nMin else if quantile(ns).Some? then Some(quantile(ns).value / 1.5) else None
  }

  /**
   * Without a truthy `--n-min`, a row whose N reaches the column's
   * non-negative 0.9 quantile is among the rows the filter of line 331 keeps.
   */
  lemma QuantileRowKept(rows: seq<Row>, a: NArgs, quantile: seq<Option<real>> -> Option<real>, q: real, i: int)
    requires !Truthy(a.nMin) && quantile(Column(rows, N)) == Some(q) && q >= 0.0
    requires 0 <= i < |rows| && NumAt(rows[i], N).Some? && NumAt(rows[i], N).value >= q
    ensures rows[i] in Select(rows, AtLeast(Column(rows, N), NThreshold(a, Column(rows, N), quantile)))
  {
    SelectIn(rows, AtLeast(Column(rows, N), NThreshold(a, Column(rows, N), quantile)), i);
  }

  /** `nstudy_min`: the flag when it is truthy, else `dat.NSTUDY.max()`. */
  function NStudyThreshold(a: NArgs, rows: seq<Row>): (t: Option<real>)
    ensures Truthy(a.nstudyMin) ==> t == a.nstudyMin
    ensures !Truthy(a.nstudyMin) ==> t == MaxPresent(Column(rows, NStudy))
  {
    if Truthy(a.nstudyMin) then a.nstudyMin else MaxPresent(Column(rows, NStudy))
  }

  /** Both case and control counts are columns. */
  predicate CaseControl(cols: set<Field>)
  {
    NCas in cols && NCon in cols
  }

  /** No N column, no counts to make one, and no constant on the command line. */
  predicate NoNSource(cols: set<Field>, a: NArgs)
  {
    N !in cols && !CaseControl(cols) && !Truthy(a.n) && !(Truthy(a.nCas) && Truthy(a.nCon))
  }

  /** The constant N of the command line: `--N`, else `--N-cas` + `--N-con`. */
  function ConstantN(a: NArgs): real
    requires Truthy(a.n) || (Truthy(a.nCas) && Truthy(a.nCon))
  {
    if Truthy(a.n) then a.n.value else a.nCas.value + a.nCon.value
  }

  /** Keeping some rows of a table keeps it rectangular. */
  lemma SelectRectangular(rows: seq<Row>, m: seq<bool>, cols: set<Field>)
    requires |rows| == |m| && forall i :: 0 <= i < |rows| ==> rows[i].Keys == cols
    ensures forall j :: 0 <= j < |Select(rows, m)| ==> Select(rows, m)[j].Keys == cols
  {
    forall j | 0 <= j < |Select(rows, m)| ensures Select(rows, m)[j].Keys == cols {
      var i := SelectOrigin(rows, m, j);
    }
  }

  /** Every row holds a value of `f` that reaches the threshold `t`. */
  predicate AllReach(rows: seq<Row>, f: Field, t: Option<real>)
  {
    forall j :: 0 <= j < |rows| ==> NumAt(rows[j], f).Some? && t.Some? && NumAt(rows[j], f).value >= t.value
  }

  /** Every row kept by `dat[dat.f >= t]` holds a value of `f` that reaches `t`. */
  lemma KeptReach(rows: seq<Row>, f: Field, t: Option<real>)
    ensures AllReach(Select(rows, AtLeast(Column(rows, f), t)), f, t)
  {
    var keep := AtLeast(Column(rows, f), t);
    forall j | 0 <= j < |Select(rows, keep)|
      ensures NumAt(Select(rows, keep)[j], f).Some? && t.Some? && NumAt(Select(rows, keep)[j], f).value >= t.value
    {
      var i := SelectOrigin(rows, keep, j);
    }
  }

  /** One row after `dat["N"] = c` and the drop of the count columns. */
  lemma CountsReplaced(r: Row, c: Cell)
    ensures var s := r[N := c] - {NCas, NCon};
      && s.Keys == r.Keys - {NCas, NCon} + {N}
      && Get(s, N) == c
      && forall g :: g !in {N, NCas, NCon} ==> Get(s, g) == Get(r, g)
  {
  }

  /**
   * Lines 323-328 on every row: N becomes the rescaled N_CAS + N_CON and the
   * count columns go; every other cell stays.
   */
  function CaseControlRows(rows: seq<Row>): (out: seq<Row>)
    ensures |out| == |rows| && Column(out, N) == RescaledN(rows)
    ensures forall i :: 0 <= i < |rows| ==> out[i].Keys == rows[i].Keys - {NCas, NCon} + {N}
    ensures forall i, g :: 0 <= i < |rows| && g !in {N, NCas, NCon} ==> Get(out[i], g) == Get(rows[i], g)
  {
    var cells := NumCells(RescaledN(rows));
    var out := seq(|rows|, i requires 0 <= i < |rows| => rows[i][N := cells[i]] - {NCas, NCon});
    assert forall i :: 0 <= i < |rows| ==> Column(out, N)[i] == RescaledN(rows)[i];
    out
  }

  /** `dat["N"] = v` as a column: `n` cells holding `v`. */
  function ConstantCells(n: nat, v: real): (cs: seq<Cell>)
    ensures |cs| == n && forall i :: 0 <= i < n ==> cs[i] == Some(Num(v))
  {
    seq(n, i => Some(Num(v)))
  }

  /**
   * Lines 323-328: with both count columns, N becomes the rescaled
   * N_CAS + N_CON and the count columns are dropped; nothing else changes.
   */
  method CaseControlStep(t: Table) returns (u: Table)
    requires t.Rectangular()
    ensures u.Rectangular() && |u.rows| == |t.rows|
    ensures !CaseControl(t.cols) ==> u == t
    ensures CaseControl(t.cols) ==> u.cols == t.cols - {NCas, NCon} + {N}
    ensures CaseControl(t.cols) ==> Column(u.rows, N) == RescaledN(t.rows)
    ensures CaseControl(t.cols) ==>
      forall i, g :: 0 <= i < |t.rows| && g !in {N, NCas, NCon} ==> Get(u.rows[i], g) == Get(t.rows[i], g)
    ensures CaseControl(t.cols) ==> u.rows == CaseControlRows(t.rows)
  {
    if NCas in t.cols && NCon in t.cols {
      u := Table(t.cols - {NCas, NCon} + {N}, CaseControlRows(t.rows));
    } else {
      u := t;
    }
  }

  /**
   * Lines 330-348: an N column is filtered at `n_min`; otherwise an NSTUDY
   * column is filtered at `nstudy_min` and dropped.
   */
  method ThresholdStep(t: Table, a: NArgs, quantile: seq<Option<real>> -> Option<real>) returns (u: Table)
    requires t.Rectangular()
    ensures u.Rectangular()
    ensures N in t.cols ==> u.cols == t.cols && u.rows == Select(t.rows, AtLeast(Column(t.rows, N), NThreshold(a, Column(t.rows, N), quantile)))
    ensures N in t.cols ==> AllReach(u.rows, N, NThreshold(a, Column(t.rows, N), quantile))
    ensures N !in t.cols && NStudy in t.cols ==>
      && u.cols == t.cols - {NStudy}
      && u.rows == DropColumns(Select(t.rows, AtLeast(Column(t.rows, NStudy), NStudyThreshold(a, t.rows))), {NStudy})
    ensures N !in t.cols && NStudy !in t.cols ==> u == t
  {
    if N in t.cols {
      var keep := AtLeast(Column(t.rows, N), NThreshold(a, Column(t.rows, N), quantile));
      SelectRectangular(t.rows, keep, t.cols);
      KeptReach(t.rows, N, NThreshold(a, Column(t.rows, N), quantile));
      u := Table(t.cols, Select(t.rows, keep));
    } else if NStudy in t.cols {
      var keep := AtLeast(Column(t.rows, NStudy), NStudyThreshold(a, t.rows));
      SelectRectangular(t.rows, keep, t.cols);
      u := Table(t.cols - {NStudy}, DropColumns(Select(t.rows, keep), {NStudy}));
    } else {
      u := t;
    }
  }

  /**
   * Lines 350-362: without an N column, N is the constant of the command
   * line, and with no constant either the conversion fails.
   */
  method ConstantStep(t: Table, a: NArgs) returns (r: Result<Table, Failure>)
    requires t.Rectangular()
    ensures N in t.cols ==> r == Ok(t)
    ensures r.Err? <==> N !in t.cols && !Truthy(a.n) && !(Truthy(a.nCas) && Truthy(a.nCon))
    ensures r.Err? ==> r.error == CannotDetermineN
    ensures r.Ok? ==> r.value.Rectangular() && N in r.value.cols && |r.value.rows| == |t.rows|
    ensures r.Ok? && N !in t.cols ==>
      && r.value.cols == t.cols + {N}
      && forall i :: 0 <= i < |t.rows| ==> r.value.rows[i] == t.rows[i][N := Some(Num(ConstantN(a)))]
    ensures r.Ok? && N !in t.cols ==> r.value.rows == SetColumn(t.rows, N, ConstantCells(|t.rows|, ConstantN(a)))
  {
    if N in t.cols {
      return Ok(t);
    }
    if !Truthy(a.n) && !(Truthy(a.nCas) && Truthy(a.nCon)) {
      return Err(CannotDetermineN);
    }
    r := Ok(Table(t.cols + {N}, SetColumn(t.rows, N, ConstantCells(|t.rows|, ConstantN(a)))));
  }

  /**
   * The N column the threshold of line 331 is computed on: the rescaled
   * total after the case/control branch, otherwise the table's own N column.
   */
  function FilteredN(t: Table): seq<Option<real>>
  {
    if CaseControl(t.cols) then RescaledN(t.rows) else Column(t.rows, N)
  }

  /**
   * `process_n` source by source: rescaled counts, or an N column, filtered
   * at `n_min`; otherwise the constant of the command line on every row,
   * after the NSTUDY filter and drop when there is an NSTUDY column; with no
   * source of N, the failure.
   */
  function ProcessNResult(t: Table, a: NArgs, quantile: seq<Option<real>> -> Option<real>): (r: Result<Table, Failure>)
    ensures r.Err? <==> NoNSource(t.cols, a)
  {
    if CaseControl(t.cols) then
      Ok(Table(t.cols - {NCas, NCon} + {N}, Select(CaseControlRows(t.rows), AtLeast(RescaledN(t.rows), NThreshold(a, RescaledN(t.rows), quantile)))))
    else if N in t.cols then
      Ok(Table(t.cols, Select(t.rows, AtLeast(Column(t.rows, N), NThreshold(a, Column(t.rows, N), quantile)))))
    else if !Truthy(a.n) && !(Truthy(a.nCas) && Truthy(a.nCon)) then
      Err(CannotDetermineN)
    else if NStudy in t.cols then
      var kept := DropColumns(Select(t.rows, AtLeast(Column(t.rows, NStudy), NStudyThreshold(a, t.rows))), {NStudy});
      Ok(Table(t.cols - {NStudy} + {N}, SetColumn(kept, N, ConstantCells(|kept|, ConstantN(a)))))
    else
      Ok(Table(t.cols + {N}, SetColumn(t.rows, N, ConstantCells(|t.rows|, ConstantN(a)))))
  }

  /**
   * `process_n` on a table whose rows hold exactly its columns. `quantile` is
   * pandas' 0.9 quantile, applied to the N column the threshold step sees
   * (`FilteredN`).
   */
  method ProcessN(t: Table, a: NArgs, quantile: seq<Option<real>> -> Option<real>) returns (r: Result<Table, Failure>)
    requires t.Rectangular()
    ensures r.Err? <==> NoNSource(t.cols, a)
    ensures r.Err? ==> r.error == CannotDetermineN
    ensures r.Ok? ==> N in r.value.cols && r.value.Rectangular() && |r.value.rows| <= |t.rows|
    ensures r.Ok? && CaseControl(t.cols) ==>
      && r.value.cols == t.cols - {NCas, NCon} + {N}
      && |r.value.rows| == Count(AtLeast(RescaledN(t.rows), NThreshold(a, RescaledN(t.rows), quantile)))
    ensures r.Ok? && (N in t.cols || CaseControl(t.cols)) ==> AllReach(r.value.rows, N, NThreshold(a, FilteredN(t), quantile))
    ensures r.Ok? && N !in t.cols && !CaseControl(t.cols) ==>
      forall i :: 0 <= i < |r.value.rows| ==> NumAt(r.value.rows[i], N) == Some(ConstantN(a))
    ensures r.Ok? && N in t.cols && !CaseControl(t.cols) ==>
      r.value == Table(t.cols, Select(t.rows, AtLeast(Column(t.rows, N), NThreshold(a, Column(t.rows, N), quantile))))
    ensures r.Ok? && N !in t.cols && !CaseControl(t.cols) && NStudy in t.cols ==>
      var kept := Select(t.rows, AtLeast(Column(t.rows, NStudy), NStudyThreshold(a, t.rows)));
      && r.value.cols == t.cols - {NStudy} + {N}
      && |r.value.rows| == |kept|
      && forall j :: 0 <= j < |kept| ==> r.value.rows[j] == (kept[j] - {NStudy})[N := Some(Num(ConstantN(a)))]
    ensures r == ProcessNResult(t, a, quantile)
  {
    var u := CaseControlStep(t);
    var v := ThresholdStep(u, a, quantile);
    if CaseControl(t.cols) {
      assert v.rows == Select(u.rows, AtLeast(RescaledN(t.rows), NThreshold(a, RescaledN(t.rows), quantile)));
    }
    r := ConstantStep(v, a);
  }
}
