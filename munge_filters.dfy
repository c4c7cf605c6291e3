/**
 * The row predicates of the newer converter
 * (src/ldsc/munge_sumstats/munge_sumstats.py, lines 172-225). A missing value
 * is pandas' NaN: every comparison with it is false.
 */
module MungeFilters {
  import opened Wrappers
  import opened Text

  /** `min(a, b)` as numpy computes it on two present values. */
  function Min(a: real, b: real): (m: real)
    ensures m <= a && m <= b && (m == a || m == b)
  {
    if a <= b then a else b
  }

  /** `filter_pvals`: the mask of P-values in (0, 1]. */
  function FilterPvals(ps: seq<Option<real>>): (ii: seq<bool>)
    ensures |ii| == |ps|
    ensures forall i :: 0 <= i < |ps| ==> (ii[i] <==> ps[i].Some? && 0.0 < ps[i].value <= 1.0)
  {
    seq(|ps|, i requires 0 <= i < |ps| => ps[i].Some? && ps[i].value > 0.0 && ps[i].value <= 1.0)
  }

  /** The sum of the present values of a row (`sum(axis=1)` skips NaN). */
  function SumPresent(xs: seq<Option<real>>): real
  {
    if xs == [] then 0.0
    else (if xs[0].Some? then xs[0].value else 0.0) + SumPresent(xs[1..])
  }

  /**
   * `filter_info` on one row: one INFO column passes when its value is at
   * least `infoMin`; several pass when their sum (missing values skipped) is
   * at least `infoMin` times the number of columns.
   */
  function InfoPasses(info: seq<Option<real>>, infoMin: real): bool
  {
    if |info| == 1 then info[0].Some? && info[0].value >= infoMin
    else SumPresent(info) >= infoMin * (|info| as real)
  }

  /** `jj` of `filter_info`: a present INFO value outside [0, 2] (only reported). */
  predicate InfoOutOfRange(info: seq<Option<real>>)
  {
    exists i :: 0 <= i < |info| && info[i].Some? && (info[i].value > 2.0 || info[i].value < 0.0)
  }

  /** With one INFO column the test is `info >= info_min`. */
  lemma InfoSingle(x: Option<real>, infoMin: real)
    ensures InfoPasses([x], infoMin) <==> x.Some? && x.value >= infoMin
  {
  }

  lemma {:induction false} SumPresentAll(xs: seq<Option<real>>, v: real)
    requires forall i :: 0 <= i < |xs| ==> xs[i] == Some(v)
    ensures SumPresent(xs) == v * (|xs| as real)
  {
    if xs != [] {
      SumPresentAll(xs[1..], v);
    }
  }

  /**
   * With several columns the test is on their mean: k columns that all hold
   * the same score `v` pass exactly when `v >= info_min`.
   */
  lemma InfoSeveralUniform(xs: seq<Option<real>>, v: real, infoMin: real)
    requires |xs| > 1
    requires forall i :: 0 <= i < |xs| ==> xs[i] == Some(v)
    ensures InfoPasses(xs, infoMin) <==> v >= infoMin
  {
    SumPresentAll(xs, v);
  }

  /** An INFO value above 2 is reported but still kept when it clears the threshold. */
  lemma InfoOutOfRangeKept(x: real, infoMin: real)
    requires x > 2.0 && x >= infoMin
    ensures InfoOutOfRange([Some(x)]) && InfoPasses([Some(x)], infoMin)
  {
    assert [Some(x)][0] == Some(x);
  }

  /**
   * `filter_frq` on one value: a frequency outside [0, 1] is dropped, and the
   * minor-allele frequency `min(f, 1 - f)`, folded only for the test, must
   * exceed `mafMin`.
   */
  function FrqPasses(f: Option<real>, mafMin: real): (b: bool)
    ensures b <==> f.Some? && 0.0 <= f.value <= 1.0 && f.value > mafMin && 1.0 - f.value > mafMin
  {
    f.Some? && !(f.value < 0.0 || f.value > 1.0) && Min(f.value, 1.0 - f.value) > mafMin
  }

  /** Folding is symmetric: a frequency and its complement get the same verdict. */
  lemma FrqSymmetric(f: real, mafMin: real)
    ensures FrqPasses(Some(f), mafMin) == FrqPasses(Some(1.0 - f), mafMin)
  {
  }

  /** `filter_alleles` on one row: the concatenation A1 + A2 is a strand-unambiguous SNP (missing if either is). */
  function AllelesPass(a1: Option<string>, a2: Option<string>, validSnps: set<string>): (b: bool)
    ensures b <==> a1.Some? && a2.Some? && a1.value + a2.value in validSnps
  {
    match (a1, a2)
    case (Some(x), Some(y)) => x + y in validSnps
    case _ => false
  }
}
