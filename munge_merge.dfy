/**
 * `allele_merge` of the newer converter
 * (src/ldsc/munge_sumstats/munge_sumstats.py, lines 429-456): a left join of
 * the `--merge-alleles` list with the statistics on SNP, after which every row
 * whose alleles do not match the list keeps only its SNP. The list's rows
 * hold SNP and MA, the upper-cased A1 + A2 of the list (lines 608-615).
 */
module MungeMerge {
  import opened Wrappers
  import opened Schema
  import opened Seqs

  /** The rows of `dat` whose SNP cell equals `snp`, in their order (pandas joins missing keys too). */
  function WithSnp(dat: seq<Row>, snp: Cell): (ms: seq<Row>)
    ensures |ms| <= |dat|
    ensures forall j :: 0 <= j < |ms| ==> Get(ms[j], Snp) == snp && ms[j] in dat
  {
    if dat == [] then []
    else (if Get(dat[0], Snp) == snp then [dat[0]] else []) + WithSnp(dat[1..], snp)
  }

  /** A row of `cols` all missing. */
  function Missing(cols: set<Field>): (r: Row)
    ensures r.Keys == cols && forall f :: f in cols ==> r[f] == None
  {
    map f | f in cols :: None
  }

  /**
   * The rows `pd.merge(alleles, dat, how="left", on="SNP")` makes for one list
   * row: one per statistics row with its SNP, or one with every statistics
   * column missing.
   */
  function JoinOne(a: Row, dat: seq<Row>, cols: set<Field>): (out: seq<Row>)
    ensures |out| >= 1
    ensures forall k :: 0 <= k < |out| ==> Get(out[k], Snp) == Get(a, Snp)
  {
    var ms := WithSnp(dat, Get(a, Snp));
    if ms == [] then [Missing(cols) + a]
    else seq(|ms|, k requires 0 <= k < |ms| => ms[k] + a)
  }

  /** The left join, list row by list row and in the list's order. */
  function LeftJoin(alleles: seq<Row>, dat: seq<Row>, cols: set<Field>): (out: seq<Row>)
    ensures |out| >= |alleles|
  {
    if alleles == [] then [] else JoinOne(alleles[0], dat, cols) + LeftJoin(alleles[1..], dat, cols)
  }

  /** Without duplicate SNPs in `dat`, at most one row matches. */
  lemma {:induction false} WithSnpUnique(dat: seq<Row>, snp: Cell)
    requires UniqueSnps(dat)
    ensures |WithSnp(dat, snp)| <= 1
    ensures |WithSnp(dat, snp)| == 1 <==> exists i :: 0 <= i < |dat| && Get(dat[i], Snp) == snp
  {
    if dat != [] {
      WithSnpUnique(dat[1..], snp);
      if Get(dat[0], Snp) == snp {
        assert forall i :: 0 <= i < |dat[1..]| ==> Get(dat[1..][i], Snp) != snp;
      } else {
        if exists i :: 0 <= i < |dat| && Get(dat[i], Snp) == snp {
          var i :| 0 <= i < |dat| && Get(dat[i], Snp) == snp;
          assert Get(dat[1..][i - 1], Snp) == snp;
        }
      }
    }
  }

  /**
   * With unique SNPs in `dat` the join has the list's rows, in the list's
   * order: as many rows as the list, each with the SNP of its list row.
   */
  lemma {:induction false} LeftJoinShape(alleles: seq<Row>, dat: seq<Row>, cols: set<Field>)
    requires UniqueSnps(dat)
    ensures |LeftJoin(alleles, dat, cols)| == |alleles|
    ensures forall i :: 0 <= i < |alleles| ==> Get(LeftJoin(alleles, dat, cols)[i], Snp) == Get(alleles[i], Snp)
  {
    if alleles != [] {
      WithSnpUnique(dat, Get(alleles[0], Snp));
      LeftJoinShape(alleles[1..], dat, cols);
      var out := LeftJoin(alleles, dat, cols);
      assert |JoinOne(alleles[0], dat, cols)| == 1;
      forall i | 0 <= i < |alleles| ensures Get(out[i], Snp) == Get(alleles[i], Snp) {
        if i > 0 {
          assert out[i] == LeftJoin(alleles[1..], dat, cols)[i - 1];
        }
      }
    }
  }

  /**
   * With unique SNPs in `dat`, the joined row of a list row whose SNP the
   * statistics hold is that statistics row with the list's MA added.
   */
  lemma {:induction false} LeftJoinFound(alleles: seq<Row>, dat: seq<Row>, cols: set<Field>, i: nat, k: nat)
    requires UniqueSnps(dat) && i < |alleles| && k < |dat| && Get(dat[k], Snp) == Get(alleles[i], Snp)
    ensures |LeftJoin(alleles, dat, cols)| == |alleles|
    ensures LeftJoin(alleles, dat, cols)[i] == dat[k] + alleles[i]
  {
    LeftJoinShape(alleles, dat, cols);
    WithSnpUnique(dat, Get(alleles[i], Snp));
    if i == 0 {
      var m := WithSnp(dat, Get(alleles[0], Snp))[0];
      assert m in dat;
      var j :| 0 <= j < |dat| && dat[j] == m;
      assert j == k;
    } else {
      LeftJoinFound(alleles[1..], dat, cols, i - 1, k);
      LeftJoinShape(alleles[1..], dat, cols);
      assert |JoinOne(alleles[0], dat, cols)| == 1;
    }
  }

  /** `A1 + A2 + MA in MATCH_ALLELES` on one joined row (false when A1, A2 or MA is missing). */
  predicate Matches(r: Row, matchAlleles: set<string>)
  {
    TextAt(r, A1).Some? && TextAt(r, A2).Some? && TextAt(r, MA).Some?
    && TextAt(r, A1).value + TextAt(r, A2).value + TextAt(r, MA).value in matchAlleles
  }

  /** `jj`: the joined rows whose alleles match the list. */
  function MatchMask(rows: seq<Row>, matchAlleles: set<string>): (jj: seq<bool>)
    ensures |jj| == |rows| && forall i :: 0 <= i < |rows| ==> (jj[i] <==> Matches(rows[i], matchAlleles))
  {
    seq(|rows|, i requires 0 <= i < |rows| => Matches(rows[i], matchAlleles))
  }

  /** A row after `dat.loc[~jj, columns other than SNP] = nan` and the drop of MA. */
  function Settle(r: Row, matched: bool): (s: Row)
    ensures s.Keys == r.Keys - {MA}
    ensures Get(s, Snp) == Get(r, Snp)
    ensures matched ==> s == r - {MA}
    ensures !matched ==> forall f :: f != Snp ==> Get(s, f) == None
  {
    if matched then r - {MA}
    else map f | f in r && f != MA :: if f == Snp then r[f] else None
  }

  /**
   * What `allele_merge` returns: the failure when no joined row matches the
   * list, otherwise the joined rows, each settled by its match.
   */
  function Merged(dat: Table, alleles: seq<Row>, matchAlleles: set<string>): Result<Table, Failure>
  {
    var joined := LeftJoin(alleles, dat.rows, dat.cols - {Snp});
    if Count(MatchMask(joined, matchAlleles)) == 0 then Err(AllAllelesDiscordant)
    else Ok(Table(dat.cols + {Snp} - {MA},
      seq(|joined|, i requires 0 <= i < |joined| => Settle(joined[i], Matches(joined[i], matchAlleles)))))
  }

  /**
   * `allele_merge`: the join, the match test, the failure when no row
   * matches, then the nulling of the rows that do not match.
   */
  method AlleleMerge(dat: Table, alleles: seq<Row>, matchAlleles: set<string>) returns (r: Result<Table, Failure>)
    ensures var joined := LeftJoin(alleles, dat.rows, dat.cols - {Snp});
      r.Err? <==> Count(MatchMask(joined, matchAlleles)) == 0
    ensures r.Err? ==> r.error == AllAllelesDiscordant
    ensures r.Ok? ==> r.value.cols == dat.cols + {Snp} - {MA}
    ensures r.Ok? ==>
      var joined := LeftJoin(alleles, dat.rows, dat.cols - {Snp});
      && |r.value.rows| == |joined|
      && forall i :: 0 <= i < |joined| ==>
        r.value.rows[i] == Settle(joined[i], Matches(joined[i], matchAlleles))
    ensures r.Ok? && UniqueSnps(dat.rows) ==>
      && |r.value.rows| == |alleles|
      && forall i :: 0 <= i < |alleles| ==> Get(r.value.rows[i], Snp) == Get(alleles[i], Snp)
    ensures r == Merged(dat, alleles, matchAlleles)
  {
    var joined := LeftJoin(alleles, dat.rows, dat.cols - {Snp});
    var jj := MatchMask(joined, matchAlleles);
    // `ii` marks the rows with an A1; every row of `jj` is one of them.
    var ii := seq(|joined|, i requires 0 <= i < |joined| => Get(joined[i], A1).Some?);
    var withA1 := Count(ii);
    var nMismatch := Count(ii) - Count(jj);
    if !(nMismatch < withA1) {
      return Err(AllAllelesDiscordant);
    }
    if UniqueSnps(dat.rows) {
      LeftJoinShape(alleles, dat.rows, dat.cols - {Snp});
    }
    r := Merged(dat, alleles, matchAlleles);
  }

  /**
   * With unique SNPs in the statistics, a list row whose SNP they hold and
   * whose alleles match comes out as that statistics row, unchanged.
   */
  lemma MatchedRowKept(dat: Table, alleles: seq<Row>, i: nat, k: nat)
    requires UniqueSnps(dat.rows) && i < |alleles| && k < |dat.rows|
    requires Snp in dat.rows[k] && MA !in dat.rows[k] && alleles[i].Keys == {Snp, MA}
    requires Get(dat.rows[k], Snp) == Get(alleles[i], Snp)
    ensures var joined := LeftJoin(alleles, dat.rows, dat.cols - {Snp});
      |joined| == |alleles| && Settle(joined[i], true) == dat.rows[k]
  {
    LeftJoinFound(alleles, dat.rows, dat.cols - {Snp}, i, k);
    var d, a := dat.rows[k], alleles[i];
    assert (d + a) - {MA} == d by {
      assert ((d + a) - {MA}).Keys == d.Keys;
      forall f | f in d ensures ((d + a) - {MA})[f] == d[f] {
        if f == Snp {
          assert a[Snp] == Get(a, Snp) == Get(d, Snp);
        }
      }
    }
  }
}
