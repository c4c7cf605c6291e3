/**
 * `munge_sumstats` end to end (src/ldsc/munge_sumstats/munge_sumstats.py,
 * lines 460-666): the columns are resolved from the header, the chunks are
 * read with the translation's columns, and the last steps run with the
 * counts and the null value the resolution fixed. Every setting is read once,
 * from the command line, and passed on to the stage that reads it.
 */
module MungeConvert {
  import opened Wrappers
  import opened Schema
  import opened MungeN
  import opened MungeMain
  import MungeHeader
  import MungeResolve
  import MungeParse

  /** The command-line settings of `munge_sumstats`. */
  datatype MungeArgs = MungeArgs(
    resolve: MungeResolve.ResolveArgs,  // the flags the column resolution reads
    nMin: Option<real>,
    nstudyMin: Option<real>,
    infoMin: real,
    mafMin: real,
    keepMaf: bool,
    mergeAlleles: Option<seq<Row>>,     // the `--merge-alleles` list, already read
    matchAlleles: set<string>,          // `MATCH_ALLELES`
    validSnps: set<string>)             // `VALID_SNPS`

  /** The SNPs of the `--merge-alleles` list that the panel test of line 258 looks up. */
  function ListSnpNames(list: seq<Row>): (s: set<string>)
    ensures forall i :: 0 <= i < |list| && TextAt(list[i], Snp).Some? ==> TextAt(list[i], Snp).value in s
    ensures forall x :: x in s ==> exists i :: 0 <= i < |list| && TextAt(list[i], Snp) == Some(x)
  {
    set i | 0 <= i < |list| && TextAt(list[i], Snp).Some? :: TextAt(list[i], Snp).value
  }

  /** Lines 618-635: the settings `parse_dat` reads, its columns those of the resolved translation. */
  function ParseConfigFor(a: MungeArgs, res: MungeResolve.Resolution): (c: MungeParse.ParseConfig)
    ensures MungeParse.ConfiguredFrom(c, res.translation)
    ensures c.merge.Some? <==> a.mergeAlleles.Some?
  {
    MungeParse.ParseConfig(
      res.translation.Values, MungeParse.NaExempt(res.translation), a.infoMin, a.mafMin, a.keepMaf,
      a.resolve.noAlleles,
      if a.mergeAlleles.Some? then Some(ListSnpNames(a.mergeAlleles.value)) else None,
      a.validSnps)
  }

  /**
   * The settings of the last steps: `process_n` reads `args.N_cas` and
   * `args.N_con`, which the `--daner` setup overwrote (lines 491-492), and the
   * median check and sign flip read the null value the resolution fixed.
   */
  function TailArgsFor(a: MungeArgs, res: MungeResolve.Resolution): TailArgs
  {
    TailArgs(
      NArgs(a.nMin, a.nstudyMin, a.resolve.nConst, res.nCas, res.nCon),
      a.resolve.a1Inc, a.keepMaf, res.nullValue, a.mergeAlleles, a.matchAlleles)
  }

  /**
   * Without `--a1-inc` a successful resolution fixes the null value the median
   * check and sign flip read, except for `--signed-sumstats ""`: line 415 tests
   * the flag for truth and line 525 against None, so neither sets a null value,
   * and the median check then fails (`NoNullValue`).
   */
  lemma NullValueFixed(a: MungeResolve.ResolveArgs, header: seq<string>, parseReal: string -> Option<real>)
    requires MungeResolve.CnameSetupFor(a, header, parseReal).Ok?
    requires !a.a1Inc
    ensures
      var setup := MungeResolve.CnameSetupFor(a, header, parseReal).value;
      var t0 := MungeResolve.TranslationFrom(header, setup.cnameMap);
      MungeResolve.FailedCheck(a, header, t0, setup).None? ==>
        (MungeResolve.ResolutionOf(a, t0, setup).nullValue.None? <==> a.flags.signedSumstats == Some(""))
  {
    var flags := MungeHeader.ParseFlagCnames(a.flags, parseReal);
    assert flags.Ok?;
    if MungeHeader.SignedGiven(a.flags) {
      assert MungeHeader.SignedFlagWellFormed(a.flags.signedSumstats.value, parseReal);
    }
  }

  /** Lines 635-666 once the columns are resolved: `parse_dat`, then the last steps on its rows. */
  function AfterResolution(
    a: MungeArgs, res: MungeResolve.Resolution, chunks: seq<MungeParse.Chunk>,
    quantile: seq<Option<real>> -> Option<real>, median: seq<Option<real>> -> Option<real>, zOf: real -> real)
    : Result<Output, Failure>
  {
    var c := ParseConfigFor(a, res);
    var parsed := MungeParse.ParseResult(c, chunks);
    if parsed.Err? then Err(parsed.error)
    else TailResult(Table(MungeParse.OutFields(c, c.cols), parsed.value.rows), TailArgsFor(a, res), quantile, median, zOf)
  }

  /**
   * The chunks are what `read_csv` yields for the header when the columns
   * resolve: every row has exactly the translation's fields, and the signed
   * columns are read as numbers (lines 621-634).
   */
  ghost predicate ChunksRead(a: MungeResolve.ResolveArgs, header: seq<string>, parseReal: string -> Option<real>,
                             chunks: seq<MungeParse.Chunk>)
  {
    MungeResolve.CnameSetupFor(a, header, parseReal).Ok? ==>
      var setup := MungeResolve.CnameSetupFor(a, header, parseReal).value;
      var t0 := MungeResolve.TranslationFrom(header, setup.cnameMap);
      MungeResolve.FailedCheck(a, header, t0, setup).None? ==>
        var res := MungeResolve.ResolutionOf(a, t0, setup);
        forall k :: 0 <= k < |chunks| ==>
          && SignedSumstat !in chunks[k].textCols
          && forall i :: 0 <= i < |chunks[k].rows| ==> chunks[k].rows[i].Keys == res.translation.Values
  }

  /**
   * `munge_sumstats`: resolve the columns (`res`), then parse the chunks and
   * run the last steps with the settings of the resolution. `parseReal` is
   * Python's `float` on the `--signed-sumstats` and `--daner` texts; `quantile`,
   * `median` and `zOf` are as for `MungeTail`.
   */
  method MungeSumstats(
    a: MungeArgs, header: seq<string>, parseReal: string -> Option<real>, chunks: seq<MungeParse.Chunk>,
    quantile: seq<Option<real>> -> Option<real>, median: seq<Option<real>> -> Option<real>, zOf: real -> real)
    returns (r: Result<Output, Failure>, res: Result<MungeResolve.Resolution, Failure>)
    requires ChunksRead(a.resolve, header, parseReal, chunks)
    ensures MungeResolve.CnameSetupFor(a.resolve, header, parseReal).Err? ==>
      res == Err(MungeResolve.CnameSetupFor(a.resolve, header, parseReal).error)
    ensures MungeResolve.CnameSetupFor(a.resolve, header, parseReal).Ok? ==>
      var setup := MungeResolve.CnameSetupFor(a.resolve, header, parseReal).value;
      var t0 := MungeResolve.TranslationFrom(header, setup.cnameMap);
      && (res.Ok? <==> MungeResolve.FailedCheck(a.resolve, header, t0, setup).None?)
      && (res.Err? ==> MungeResolve.CheckOf(res.error) == MungeResolve.FailedCheck(a.resolve, header, t0, setup))
      && (res.Ok? ==> res.value == MungeResolve.ResolutionOf(a.resolve, t0, setup))
    ensures res.Err? ==> r == Err(res.error)
    ensures res.Ok? ==> r == AfterResolution(a, res.value, chunks, quantile, median, zOf)
    ensures r.Ok? ==> res.Ok? && N in r.value.dat.cols && Z in r.value.dat.cols && P !in r.value.dat.cols
  {
    res := MungeResolve.ResolveColumns(a.resolve, header, parseReal);
    if res.Err? {
      return Err(res.error), res;
    }
    var c := ParseConfigFor(a, res.value);
    var parsed := MungeParse.ParseDat(c, chunks);
    if parsed.Err? {
      return Err(parsed.error), res;
    }
    MungeParse.AllRowsKeys(chunks, c.cols);
    MungeParse.SurvivorKeys(c, MungeParse.AllRows(chunks), c.cols);
    r := MungeTail(Table(MungeParse.OutFields(c, c.cols), parsed.value.rows), TailArgsFor(a, res.value), quantile, median, zOf);
  }
}
