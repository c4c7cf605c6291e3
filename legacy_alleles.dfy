/**
 * The allele steps of the older converter (sumstats_to_chisq.py, lines
 * 266-312 and 653-718): the upper-casing and A/C/G/T filter, the removal of
 * strand-ambiguous SNPs, the choice of the directional statistic and the
 * renaming of A1/A2 to the increasing and decreasing allele, and the merge
 * with the `--merge-alleles` list. The tables `STRAND_AMBIGUOUS` and
 * `MATCH_ALLELES` of the `ldscore.sumstats` module are parameters.
 */
module LegacyAlleles {
  import opened Wrappers
  import opened Schema
  import opened Seqs
  import opened Text
  import opened MungeN
  import MungeMerge

  /** The single-letter allele codes line 658 accepts. */
  predicate IsBase(s: string)
  {
    s == "A" || s == "C" || s == "G" || s == "T"
  }

  /** Every row holds its alleles as text, which `str.upper` needs. */
  predicate AllelesText(rows: seq<Row>)
  {
    forall i :: 0 <= i < |rows| ==> TextAt(rows[i], A1).Some? && TextAt(rows[i], A2).Some?
  }

  /** Lines 655-656 on one row: both alleles upper-cased. */
  function UpperRow(r: Row): (s: Row)
    requires TextAt(r, A1).Some? && TextAt(r, A2).Some?
    ensures TextAt(s, A1) == Some(Upper(TextAt(r, A1).value)) && TextAt(s, A2) == Some(Upper(TextAt(r, A2).value))
    ensures s.Keys == r.Keys + {A1, A2}
    ensures forall f :: f != A1 && f != A2 ==> Get(s, f) == Get(r, f)
  {
    r[A1 := Some(Text(Upper(TextAt(r, A1).value)))][A2 := Some(Text(Upper(TextAt(r, A2).value)))]
  }

  function UpperRows(rows: seq<Row>): (out: seq<Row>)
    requires AllelesText(rows)
    ensures |out| == |rows| && forall i :: 0 <= i < |rows| ==> out[i] == UpperRow(rows[i])
  {
    seq(|rows|, i requires 0 <= i < |rows| => UpperRow(rows[i]))
  }

  /** Lines 658-659: both alleles are single bases. */
  function AcgtMask(rows: seq<Row>): (m: seq<bool>)
    ensures |m| == |rows|
    ensures forall i :: 0 <= i < |rows| ==>
      (m[i] <==> TextAt(rows[i], A1).Some? && IsBase(TextAt(rows[i], A1).value)
                 && TextAt(rows[i], A2).Some? && IsBase(TextAt(rows[i], A2).value))
  {
    seq(|rows|, i requires 0 <= i < |rows| =>
      TextAt(rows[i], A1).Some? && IsBase(TextAt(rows[i], A1).value)
      && TextAt(rows[i], A2).Some? && IsBase(TextAt(rows[i], A2).value))
  }

  /** `A1 + A2`, the key of `STRAND_AMBIGUOUS`; `None` when an allele is not text. */
  function PairKey(r: Row): Option<string>
  {
    if TextAt(r, A1).Some? && TextAt(r, A2).Some? then Some(TextAt(r, A1).value + TextAt(r, A2).value) else None
  }

  /** Every row's pair is a key of the table (otherwise line 671 raises `KeyError`). */
  predicate StrandKnown(rows: seq<Row>, strand: map<string, bool>)
  {
    forall i :: 0 <= i < |rows| ==> PairKey(rows[i]).Some? && PairKey(rows[i]).value in strand
  }

  /** Line 672: `~strand`, the rows whose pair is not strand-ambiguous. */
  function UnambiguousMask(rows: seq<Row>, strand: map<string, bool>): (m: seq<bool>)
    requires StrandKnown(rows, strand)
    ensures |m| == |rows| && forall i :: 0 <= i < |rows| ==> (m[i] <==> !strand[PairKey(rows[i]).value])
  {
    seq(|rows|, i requires 0 <= i < |rows| => !strand[PairKey(rows[i]).value])
  }

  /** The rows after the A/C/G/T filter. */
  function AcgtRows(rows: seq<Row>): seq<Row>
    requires AllelesText(rows)
  {
    var up := UpperRows(rows);
    Select(up, AcgtMask(up))
  }

  /** Lines 655-679 as a value: the first filter that leaves nothing, or fails, decides. */
  function AlleleFilterResult(t: Table, strand: map<string, bool>): Result<Table, Failure>
  {
    if !AllelesText(t.rows) then Err(AllelesNotText)
    else if |AcgtRows(t.rows)| == 0 then Err(NotCodedACGT)
    else if !StrandKnown(AcgtRows(t.rows), strand) then Err(StrandKeyMissing)
    else if |AlleleKept(t.rows, strand)| == 0 then Err(AllStrandAmbiguous)
    else Ok(Table(t.cols, AlleleKept(t.rows, strand)))
  }

  /**
   * Lines 655-679: upper-case both alleles, keep the rows coded A/C/G/T,
   * then drop the strand-ambiguous ones; either filter leaving no row raises.
   * An allele that is not text fails `str.upper`.
   */
  method AlleleFilterStep(t: Table, strand: map<string, bool>) returns (r: Result<Table, Failure>)
    requires t.Rectangular() && A1 in t.cols && A2 in t.cols
    ensures !AllelesText(t.rows) ==> r == Err(AllelesNotText)
    ensures AllelesText(t.rows) && |AcgtRows(t.rows)| == 0 ==> r == Err(NotCodedACGT)
    ensures AllelesText(t.rows) && |AcgtRows(t.rows)| > 0 ==>
      var acgt := AcgtRows(t.rows);
      && (!StrandKnown(acgt, strand) ==> r == Err(StrandKeyMissing))
      && (StrandKnown(acgt, strand) ==>
           && (|AlleleKept(t.rows, strand)| == 0 ==> r == Err(AllStrandAmbiguous))
           && (|AlleleKept(t.rows, strand)| > 0 ==> r == Ok(Table(t.cols, AlleleKept(t.rows, strand)))))
    ensures r.Ok? ==> r.value.Rectangular() && r.value.cols == t.cols && |r.value.rows| <= |t.rows|
    ensures r.Err? ==> r.error in {AllelesNotText, NotCodedACGT, StrandKeyMissing, AllStrandAmbiguous}
    ensures r.Ok? ==> forall j :: 0 <= j < |r.value.rows| ==> AllelesPass(r.value.rows[j], strand)
    ensures r == AlleleFilterResult(t, strand)
  {
    if !AllelesText(t.rows) {
      return Err(AllelesNotText);
    }
    var up := UpperRows(t.rows);
    var ii := AcgtMask(up);
    if Count(ii) == 0 {
      return Err(NotCodedACGT);
    }
    var acgt := Select(up, ii);
    if !StrandKnown(acgt, strand) {
      return Err(StrandKeyMissing);
    }
    var keep := UnambiguousMask(acgt, strand);
    var kept := Select(acgt, keep);
    if |kept| == 0 {
      return Err(AllStrandAmbiguous);
    }
    assert forall i :: 0 <= i < |up| ==> up[i].Keys == t.cols;
    SelectRectangular(up, ii, t.cols);
    SelectRectangular(acgt, keep, t.cols);
    forall j | 0 <= j < |kept| ensures AllelesPass(kept[j], strand) {
      AlleleKeptPass(t.rows, strand, j);
    }
    r := Ok(Table(t.cols, kept));
  }

  /** An upper-cased row the allele filters let through: single bases, a pair that is not strand-ambiguous. */
  predicate AllelesPass(u: Row, strand: map<string, bool>)
  {
    && TextAt(u, A1).Some? && IsBase(TextAt(u, A1).value)
    && TextAt(u, A2).Some? && IsBase(TextAt(u, A2).value)
    && PairKey(u).value in strand && !strand[PairKey(u).value]
  }

  /** The rows both allele filters keep. */
  function AlleleKept(rows: seq<Row>, strand: map<string, bool>): seq<Row>
    requires AllelesText(rows) && StrandKnown(AcgtRows(rows), strand)
  {
    var acgt := AcgtRows(rows);
    Select(acgt, UnambiguousMask(acgt, strand))
  }

  /** Every row the allele filters keep passes them. */
  lemma AlleleKeptPass(rows: seq<Row>, strand: map<string, bool>, j: nat)
    requires AllelesText(rows) && StrandKnown(AcgtRows(rows), strand) && j < |AlleleKept(rows, strand)|
    ensures AllelesPass(AlleleKept(rows, strand)[j], strand)
  {
    var up := UpperRows(rows);
    var acgt := Select(up, AcgtMask(up));
    var k := SelectOrigin(acgt, UnambiguousMask(acgt, strand), j);
    var m := SelectOrigin(up, AcgtMask(up), k);
  }

  /** Every row that passes the allele filters once upper-cased is kept. */
  lemma AlleleRowKept(rows: seq<Row>, strand: map<string, bool>, i: nat)
    requires AllelesText(rows) && StrandKnown(AcgtRows(rows), strand) && i < |rows|
    requires AllelesPass(UpperRow(rows[i]), strand)
    ensures UpperRow(rows[i]) in AlleleKept(rows, strand)
  {
    var up := UpperRows(rows);
    var ii := AcgtMask(up);
    var acgt := Select(up, ii);
    SelectIn(up, ii, i);
    var k :| 0 <= k < |acgt| && acgt[k] == up[i];
    SelectIn(acgt, UnambiguousMask(acgt, strand), k);
  }

  /**
   * N, CHISQ, P and INFO are as they were, and SNP is kept: the allele
   * steps only rename or drop the alleles and the directional statistic,
   * and the merge brings SNP from the list.
   */
  predicate KeepsTailFields(before: set<Field>, after: set<Field>)
  {
    && (N in after <==> N in before) && (Chisq in after <==> Chisq in before)
    && (P in after <==> P in before) && (Info in after <==> Info in before)
    && (Snp in before ==> Snp in after)
  }

  /** The directional statistic `get_flip_alleles` uses, in the order of lines 267-291. */
  function DirectionalField(cols: set<Field>, signedGiven: bool): (f: Option<Field>)
    ensures f.Some? ==> (f.value == SignedSumstat <==> signedGiven)
    ensures f.Some? && !signedGiven ==> f.value in cols && f.value in SignedKinds
    ensures f.None? <==> !signedGiven && OR !in cols && Z !in cols && Beta !in cols && LogOdds !in cols
  {
    if signedGiven then Some(SignedSumstat)
    else if OR in cols then Some(OR)
    else if Z in cols then Some(Z)
    else if Beta in cols then Some(Beta)
    else if LogOdds in cols then Some(LogOdds)
    else None
  }

  /** `flip_sign`: the statistic is below its null; a missing or non-numeric value never is. */
  function FlipMask(rows: seq<Row>, f: Field, point: real): (m: seq<bool>)
    ensures |m| == |rows|
    ensures forall i :: 0 <= i < |rows| ==> (m[i] <==> NumAt(rows[i], f).Some? && NumAt(rows[i], f).value < point)
  {
    seq(|rows|, i requires 0 <= i < |rows| => NumAt(rows[i], f).Some? && NumAt(rows[i], f).value < point)
  }

  /**
   * Lines 266-299. The statistic chosen is compared with its null and then
   * dropped. In the BETA branch the column is dropped before it is read, so
   * the read fails; without any statistic `--a1-inc` flips nothing, and
   * otherwise the step raises. The `--signed-sumstats` null value is unset
   * when the flag was the empty text (line 441 tests it for truth, line 267
   * against None), and reading it then raises.
   */
  method GetFlipAlleles(t: Table, signedGiven: bool, signedNull: Option<real>, a1Inc: bool)
    returns (r: Result<seq<bool>, Failure>, u: Table)
    ensures r.Ok? ==> |r.value| == |t.rows|
    ensures r.Err? ==> r.error.MissingAttribute? || r.error == NoSignedStatFound || r.error == NoNullValue
    ensures DirectionalField(t.cols, signedGiven) == Some(SignedSumstat) ==>
      if SignedSumstat !in t.cols then r == Err(MissingAttribute(SignedSumstat))
      else if signedNull.None? then r == Err(NoNullValue)
      else r == Ok(FlipMask(t.rows, SignedSumstat, signedNull.value)) && u == Table(t.cols - {SignedSumstat}, DropColumns(t.rows, {SignedSumstat}))
    ensures DirectionalField(t.cols, signedGiven) == Some(Beta) ==> r == Err(MissingAttribute(Beta))
    ensures forall f :: DirectionalField(t.cols, signedGiven) == Some(f) && f in {OR, Z, LogOdds} ==>
      r == Ok(FlipMask(t.rows, f, NullValue(f))) && u == Table(t.cols - {f}, DropColumns(t.rows, {f}))
    ensures DirectionalField(t.cols, signedGiven).None? ==>
      if a1Inc then r == Ok(seq(|t.rows|, i => false)) && u == t else r == Err(NoSignedStatFound)
    ensures t.Rectangular() && r.Ok? ==> u.Rectangular() && u.cols <= t.cols && |u.rows| == |t.rows|
    ensures r.Ok? ==> |u.rows| == |t.rows| && KeepsTailFields(t.cols, u.cols)
    ensures r.Ok? ==> (A1 in u.cols <==> A1 in t.cols) && (A2 in u.cols <==> A2 in t.cols)
    ensures r.Ok? ==> forall i :: 0 <= i < |t.rows| ==> Get(u.rows[i], A1) == Get(t.rows[i], A1) && Get(u.rows[i], A2) == Get(t.rows[i], A2)
  {
    u := t;
    var f := DirectionalField(t.cols, signedGiven);
    if f.None? {
      if a1Inc {
        return Ok(seq(|t.rows|, i => false)), t;
      }
      return Err(NoSignedStatFound), t;
    }
    var g := f.value;
    if g == Beta || g !in t.cols {
      return Err(MissingAttribute(g)), t;
    }
    if g == SignedSumstat && signedNull.None? {
      return Err(NoNullValue), t;
    }
    var point := if g == SignedSumstat then signedNull.value else NullValue(g);
    r := Ok(FlipMask(t.rows, g, point));
    u := Table(t.cols - {g}, DropColumns(t.rows, {g}));
  }

  /** Lines 301-312 on one row: A1/A2 become INC_ALLELE/DEC_ALLELE, swapped where `flip` holds. */
  function FlipRow(r: Row, flip: bool): (s: Row)
    ensures Get(s, IncAllele) == (if flip then Get(r, A2) else Get(r, A1))
    ensures Get(s, DecAllele) == (if flip then Get(r, A1) else Get(r, A2))
    ensures s.Keys == r.Keys - {A1, A2} + {IncAllele, DecAllele}
    ensures forall f :: f !in {A1, A2, IncAllele, DecAllele} ==> Get(s, f) == Get(r, f)
  {
    (r - {A1, A2})[IncAllele := if flip then Get(r, A2) else Get(r, A1)][DecAllele := if flip then Get(r, A1) else Get(r, A2)]
  }

  /** The two alleles of a row are kept, as a pair, whichever way it is flipped. */
  lemma FlipKeepsPair(r: Row, flip: bool)
    ensures multiset{Get(FlipRow(r, flip), IncAllele), Get(FlipRow(r, flip), DecAllele)} == multiset{Get(r, A1), Get(r, A2)}
  {
  }

  /** Lines 301-312: `flip_alleles` on every row. */
  function FlipAlleles(t: Table, flip: seq<bool>): (u: Table)
    requires |flip| == |t.rows|
    ensures u.cols == t.cols - {A1, A2} + {IncAllele, DecAllele} && |u.rows| == |t.rows|
    ensures forall i :: 0 <= i < |t.rows| ==> u.rows[i] == FlipRow(t.rows[i], flip[i])
    ensures t.Rectangular() ==> u.Rectangular()
  {
    Table(t.cols - {A1, A2} + {IncAllele, DecAllele}, seq(|t.rows|, i requires 0 <= i < |t.rows| => FlipRow(t.rows[i], flip[i])))
  }

  /**
   * A row whose statistic is below its null has A2 as its increasing allele:
   * the allele that raises the trait is the one the statistic was not about.
   */
  lemma IncreasingAllele(t: Table, f: Field, point: real, i: nat)
    requires i < |t.rows|
    ensures var r := FlipAlleles(t, FlipMask(t.rows, f, point)).rows[i];
      && (NumAt(t.rows[i], f).Some? && NumAt(t.rows[i], f).value < point ==> Get(r, IncAllele) == Get(t.rows[i], A2))
      && (!(NumAt(t.rows[i], f).Some? && NumAt(t.rows[i], f).value < point) ==> Get(r, IncAllele) == Get(t.rows[i], A1))
  {
  }

  /** `INC_ALLELE + DEC_ALLELE + A1 + A2`, the key of `MATCH_ALLELES`; `None` when one of them is missing. */
  function MatchKey(r: Row): (k: Option<string>)
    ensures k.Some? <==> TextAt(r, IncAllele).Some? && TextAt(r, DecAllele).Some? && TextAt(r, A1).Some? && TextAt(r, A2).Some?
    ensures k.Some? ==> |k.value| == |TextAt(r, IncAllele).value| + |TextAt(r, DecAllele).value| + |TextAt(r, A1).value| + |TextAt(r, A2).value|
  {
    var inc := TextAt(r, IncAllele);
    var dec := TextAt(r, DecAllele);
    var a1 := TextAt(r, A1);
    var a2 := TextAt(r, A2);
    if inc.Some? && dec.Some? && a1.Some? && a2.Some? then Some(inc.value + dec.value + a1.value + a2.value) else None
  }

  /** Line 691: the joined rows with a sample size (`dat.N.notnull()`). */
  function HasN(rows: seq<Row>): (ii: seq<bool>)
    ensures |ii| == |rows| && forall i :: 0 <= i < |rows| ==> (ii[i] <==> Get(rows[i], N).Some?)
  {
    seq(|rows|, i requires 0 <= i < |rows| => Get(rows[i], N).Some?)
  }

  /** Every row with N has a key of `MATCH_ALLELES` (otherwise line 695 raises). */
  predicate MatchKnown(rows: seq<Row>, matchAlleles: map<string, bool>)
  {
    forall i :: 0 <= i < |rows| && Get(rows[i], N).Some? ==> MatchKey(rows[i]).Some? && MatchKey(rows[i]).value in matchAlleles
  }

  /** Lines 703-704: `jj`, the rows with N whose alleles match the list. */
  function MatchedMask(rows: seq<Row>, matchAlleles: map<string, bool>): (jj: seq<bool>)
    requires MatchKnown(rows, matchAlleles)
    ensures |jj| == |rows|
    ensures forall i :: 0 <= i < |rows| ==> (jj[i] <==> Get(rows[i], N).Some? && matchAlleles[MatchKey(rows[i]).value])
  {
    seq(|rows|, i requires 0 <= i < |rows| => Get(rows[i], N).Some? && matchAlleles[MatchKey(rows[i]).value])
  }

  /** The fields lines 706-709 set to NaN in a row that does not match. */
  const Nulled: set<Field> := {N, Chisq, IncAllele, DecAllele}

  /** Lines 706-718 on one joined row: unmatched rows lose N, CHISQ and both alleles; A1 and A2 are dropped. */
  function SettleRow(r: Row, matched: bool): (s: Row)
    ensures s.Keys == r.Keys - {A1, A2}
    ensures forall f :: f in s && (matched || f !in Nulled) ==> s[f] == r[f]
    ensures !matched ==> forall f :: f in s && f in Nulled ==> s[f] == None
  {
    map f | f in r && f != A1 && f != A2 :: if !matched && f in Nulled then None else r[f]
  }

  /** Lines 685-718 as a value. */
  function MergeAllelesResult(t: Table, list: seq<Row>, matchAlleles: map<string, bool>): Result<Table, Failure>
  {
    var joined := MungeMerge.LeftJoin(list, t.rows, t.cols - {Snp});
    if !MatchKnown(joined, matchAlleles) then Err(AlleleMatchKeyMissing)
    else
      var jj := MatchedMask(joined, matchAlleles);
      if Count(jj) == 0 then Err(AllAllelesDiscordant)
      else Ok(Table(t.cols + {Snp} - {A1, A2}, seq(|joined|, i requires 0 <= i < |joined| => SettleRow(joined[i], jj[i]))))
  }

  /**
   * Lines 685-718: the left join of the list (SNP, A1, A2) with the
   * statistics, the lookup of every row with N in `MATCH_ALLELES`, the
   * nulling of the rows that do not match, the failure when none matches,
   * and the drop of the list's alleles.
   */
  method MergeAlleles(t: Table, list: seq<Row>, matchAlleles: map<string, bool>) returns (r: Result<Table, Failure>)
    ensures var joined := MungeMerge.LeftJoin(list, t.rows, t.cols - {Snp});
      && (r.Err? <==> !MatchKnown(joined, matchAlleles) || Count(MatchedMask(joined, matchAlleles)) == 0)
      && (!MatchKnown(joined, matchAlleles) ==> r == Err(AlleleMatchKeyMissing))
      && (r.Err? && MatchKnown(joined, matchAlleles) ==> r.error == AllAllelesDiscordant)
    ensures r.Ok? ==>
      var joined := MungeMerge.LeftJoin(list, t.rows, t.cols - {Snp});
      var jj := MatchedMask(joined, matchAlleles);
      && r.value.cols == t.cols + {Snp} - {A1, A2}
      && |r.value.rows| == |joined|
      && forall i :: 0 <= i < |joined| ==> r.value.rows[i] == SettleRow(joined[i], jj[i])
    ensures r == MergeAllelesResult(t, list, matchAlleles)
  {
    var joined := MungeMerge.LeftJoin(list, t.rows, t.cols - {Snp});
    if !MatchKnown(joined, matchAlleles) {
      return Err(AlleleMatchKeyMissing);
    }
    var jj := MatchedMask(joined, matchAlleles);
    if Count(jj) == 0 {
      return Err(AllAllelesDiscordant);
    }
    var rows := seq(|joined|, i requires 0 <= i < |joined| => SettleRow(joined[i], jj[i]));
    r := Ok(Table(t.cols + {Snp} - {A1, A2}, rows));
  }

  /**
   * The columns after the merge (the statistics' columns, SNP, less A1 and A2)
   * keep the fields the later steps read, and the increasing and decreasing
   * alleles.
   */
  lemma MergeColumnsKeep(before: set<Field>, cols: set<Field>)
    requires KeepsTailFields(before, cols)
    ensures var merged := cols + {Snp} - {A1, A2};
      && KeepsTailFields(before, merged) && A1 !in merged && A2 !in merged
      && (IncAllele in merged <==> IncAllele in cols) && (DecAllele in merged <==> DecAllele in cols)
  {
  }

  /**
   * After the merge, a row has N exactly when its alleles matched the list:
   * `jj.sum()` counts the rows that keep a sample size.
   */
  lemma MergedNIffMatched(rows: seq<Row>, matchAlleles: map<string, bool>, i: nat)
    requires MatchKnown(rows, matchAlleles) && i < |rows| && N in rows[i]
    ensures Get(SettleRow(rows[i], MatchedMask(rows, matchAlleles)[i]), N).Some? <==> MatchedMask(rows, matchAlleles)[i]
  {
  }

  /**
   * With distinct SNPs in the statistics, the merged table has the list's
   * rows in the list's order.
   */
  lemma MergeFollowsList(t: Table, list: seq<Row>)
    requires UniqueSnps(t.rows)
    ensures var joined := MungeMerge.LeftJoin(list, t.rows, t.cols - {Snp});
      |joined| == |list| && forall i :: 0 <= i < |list| ==> Get(joined[i], Snp) == Get(list[i], Snp)
  {
    MungeMerge.LeftJoinShape(list, t.rows, t.cols - {Snp});
  }
}
