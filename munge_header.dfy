/**
 * Header canonicalisation and the three-layer column-name map of the newer
 * converter (src/ldsc/munge_sumstats/munge_sumstats.py): `clean_header`,
 * `default_cnames`, `get_cname_map` and `parse_flag_cnames`.
 */
module MungeHeader {
  import opened Wrappers
  import opened Schema
  import opened Text

  /** `clean_header`: upper-case, `-` and `.` become `_`, newlines are removed. */
  function CleanHeader(h: string): (r: string)
    ensures '-' !in r && '.' !in r && '\n' !in r
    ensures forall i :: 0 <= i < |r| ==> !IsLower(r[i])
  {
    var u := Replace(Replace(Upper(h), '-', '_'), '.', '_');
    var r := Remove(u, '\n');
    assert forall i :: 0 <= i < |u| ==> !IsLower(u[i]) && u[i] != '-' && u[i] != '.';
    forall d | IsLower(d) || d == '-' || d == '.' ensures d !in r {
      RemoveKeeps(u, '\n', d);
    }
    r
  }

  /** A label that is already clean is left alone. */
  lemma {:induction false} CleanHeaderFixes(c: string)
    requires '-' !in c && '.' !in c && '\n' !in c
    requires forall i :: 0 <= i < |c| ==> !IsLower(c[i])
    ensures CleanHeader(c) == c
  {
    assert Upper(c) == c;
    assert Replace(c, '-', '_') == c;
    assert Replace(c, '.', '_') == c;
  }

  /** Cleaning twice is cleaning once. */
  lemma CleanHeaderIdempotent(h: string)
    ensures CleanHeader(CleanHeader(h)) == CleanHeader(h)
  {
    CleanHeaderFixes(CleanHeader(h));
  }

  /** The cleaning before the newline removal: upper-case, then `-` and `.` become `_`. */
  function Canonical(h: string): (u: string)
    ensures |u| == |h|
    ensures CleanHeader(h) == Remove(u, '\n')
  {
    Replace(Replace(Upper(h), '-', '_'), '.', '_')
  }

  /** `.` and `-` are interchangeable in a header: writing one for the other cleans to the same label. */
  lemma CleanHeaderDots(h: string)
    ensures CleanHeader(Replace(h, '.', '-')) == CleanHeader(h)
  {
    assert Canonical(Replace(h, '.', '-')) == Canonical(h) by {
      forall i | 0 <= i < |h| ensures Canonical(Replace(h, '.', '-'))[i] == Canonical(h)[i] {
        assert Upper(Replace(h, '.', '-'))[i] == UpperChar(Replace(h, '.', '-')[i]);
      }
    }
  }

  /** Case is ignored: a header and its upper-cased form clean to the same label. */
  lemma CleanHeaderCase(h: string)
    ensures CleanHeader(Upper(h)) == CleanHeader(h)
  {
    UpperIdempotent(h);
    assert Canonical(Upper(h)) == Canonical(h);
  }

  /** The `--daner-n` case column `Nca` cleans to `NCA`. */
  lemma CleanHeaderNca()
    ensures CleanHeader("Nca") == "NCA"
  {
    var u := Upper("Nca");
    assert u == "NCA" by {
      assert u[0] == 'N' && u[1] == 'C' && u[2] == 'A';
    }
    assert Replace("NCA", '-', '_') == "NCA";
    assert Replace("NCA", '.', '_') == "NCA";
  }

  /** The `--daner-n` control column `Nco` cleans to `NCO`. */
  lemma CleanHeaderNco()
    ensures CleanHeader("Nco") == "NCO"
  {
    var u := Upper("Nco");
    assert u == "NCO" by {
      assert u[0] == 'N' && u[1] == 'C' && u[2] == 'O';
    }
    assert Replace("NCO", '-', '_') == "NCO";
    assert Replace("NCO", '.', '_') == "NCO";
  }

  /** `default_cnames`: the built-in dictionary from cleaned header to field. */
  const DefaultCnames: map<string, Field> := map[
    "SNP" := Snp, "MARKERNAME" := Snp, "SNPID" := Snp, "RS" := Snp, "RSID" := Snp,
    "RS_NUMBER" := Snp, "RS_NUMBERS" := Snp,
    "NSTUDY" := NStudy, "N_STUDY" := NStudy, "NSTUDIES" := NStudy, "N_STUDIES" := NStudy,
    "P" := P, "PVALUE" := P, "P_VALUE" := P, "PVAL" := P, "P_VAL" := P, "GC_PVALUE" := P,
    "A1" := A1, "ALLELE1" := A1, "ALLELE_1" := A1, "EFFECT_ALLELE" := A1,
    "REFERENCE_ALLELE" := A1, "INC_ALLELE" := A1, "EA" := A1,
    "A2" := A2, "ALLELE2" := A2, "ALLELE_2" := A2, "OTHER_ALLELE" := A2,
    "NON_EFFECT_ALLELE" := A2, "DEC_ALLELE" := A2, "NEA" := A2,
    "N" := N, "NCASE" := NCas, "CASES_N" := NCas, "N_CASE" := NCas, "N_CASES" := NCas,
    "N_CONTROLS" := NCon, "N_CAS" := NCas, "N_CON" := NCon, "NCONTROL" := NCon,
    "CONTROLS_N" := NCon, "N_CONTROL" := NCon, "WEIGHT" := N,
    "ZSCORE" := Z, "Z-SCORE" := Z, "GC_ZSCORE" := Z, "Z" := Z, "OR" := OR, "B" := Beta,
    "BETA" := Beta, "LOG_ODDS" := LogOdds, "EFFECTS" := Beta, "EFFECT" := Beta,
    "SIGNED_SUMSTAT" := SignedSumstat,
    "INFO" := Info,
    "EAF" := Frq, "FRQ" := Frq, "MAF" := Frq, "FRQ_U" := Frq, "F_U" := Frq
  ]

  /**
   * The `Z-SCORE` key holds a `-`, which cleaning turns into `_`: no cleaned
   * header ever equals it.
   */
  lemma DefaultZScoreKeyUnreachable(h: string)
    ensures "Z-SCORE" in DefaultCnames && CleanHeader(h) != "Z-SCORE"
  {
    assert "Z-SCORE"[1] == '-';
  }

  /** `[clean_header(x) for x in xs]`. */
  function CleanAll(xs: seq<string>): (r: seq<string>)
    ensures |r| == |xs| && forall i :: 0 <= i < |xs| ==> r[i] == CleanHeader(xs[i])
  {
    seq(|xs|, i requires 0 <= i < |xs| => CleanHeader(xs[i]))
  }

  /**
   * `get_cname_map`: ignore beats flags, flags beat defaults. Keys are compared
   * with the cleaned ignore list as they stand.
   */
  function GetCnameMap(flag: map<string, Field>, default: map<string, Field>, ignore: seq<string>)
    : (r: map<string, Field>)
    ensures forall k :: k in r ==> k !in CleanAll(ignore)
    ensures forall k :: k in flag && k !in CleanAll(ignore) ==> k in r && r[k] == flag[k]
    ensures forall k :: k in default && k !in flag && k !in CleanAll(ignore) ==> k in r && r[k] == default[k]
    ensures forall k :: k in r ==> k in flag || k in default
  {
    var cleanIgnore := CleanAll(ignore);
    var fromFlags := map x | x in flag && x !in cleanIgnore :: flag[x];
    // `x not in clean_ignore + list(flag.keys())`
    var fromDefaults := map x | x in default && x !in cleanIgnore && x !in flag :: default[x];
    fromFlags + fromDefaults
  }

  /** The column-naming flags of the command line (`None` when not given). */
  datatype FlagArgs = FlagArgs(
    nstudy: Option<string>, snp: Option<string>, nCol: Option<string>,
    nCasCol: Option<string>, nConCol: Option<string>, a1: Option<string>,
    a2: Option<string>, p: Option<string>, frq: Option<string>, info: Option<string>,
    infoList: Option<string>, signedSumstats: Option<string>)

  /** The flags of `cname_options`, in their order, as (given name, field) pairs. */
  function CnameOptions(a: FlagArgs): seq<(Option<string>, Field)>
  {
    [(a.nstudy, NStudy), (a.snp, Snp), (a.nCol, N), (a.nCasCol, NCas), (a.nConCol, NCon),
     (a.a1, A1), (a.a2, A2), (a.p, P), (a.frq, Frq), (a.info, Info)]
  }

  /**
   * The comprehension over `cname_options`: every given flag's cleaned name
   * mapped to its field, a later flag overwriting an earlier one.
   */
  function OptionMap(opts: seq<(Option<string>, Field)>): (m: map<string, Field>)
    ensures forall k :: k in m <==> exists i :: 0 <= i < |opts| && opts[i].0.Some? && CleanHeader(opts[i].0.value) == k
    ensures forall i :: 0 <= i < |opts| && opts[i].0.Some? &&
              (forall j :: i < j < |opts| && opts[j].0.Some? ==> CleanHeader(opts[j].0.value) != CleanHeader(opts[i].0.value))
              ==> m[CleanHeader(opts[i].0.value)] == opts[i].1
  {
    if opts == [] then map[] else
      var front := opts[..|opts| - 1];
      var last := opts[|opts| - 1];
      assert forall i :: 0 <= i < |opts| - 1 ==> front[i] == opts[i];
      var m := OptionMap(front);
      if last.0.Some? then m[CleanHeader(last.0.value) := last.1] else m
  }

  /** The cleaned names of `--info-list` (empty when the flag is unset or empty). */
  function InfoNames(a: FlagArgs): seq<string>
  {
    if a.infoList.Some? && a.infoList.value != "" then CleanAll(Split(a.infoList.value, ',')) else []
  }

  /** Whether `--signed-sumstats` was given a non-empty argument. */
  predicate SignedGiven(a: FlagArgs)
  {
    a.signedSumstats.Some? && a.signedSumstats.value != ""
  }

  /** `cname, null_value = s.split(",")` succeeds and the null value parses as a number. */
  predicate SignedFlagWellFormed(s: string, parseReal: string -> Option<real>)
  {
    var parts := Split(s, ',');
    |parts| == 2 && parseReal(parts[1]).Some?
  }

  /** The flag-supplied names and the null value of the explicit signed statistic. */
  datatype FlagCnames = FlagCnames(cnames: map<string, Field>, nullValue: Option<real>)

  /** The cleaned name given to `--signed-sumstats` (meaningful when the flag is well formed). */
  function SignedName(a: FlagArgs): string
    requires SignedGiven(a)
  {
    CleanHeader(Split(a.signedSumstats.value, ',')[0])
  }

  /**
   * The three layers of `parse_flag_cnames`: the column flags, then
   * `flag.update` with the `--info-list` names, then the signed column.
   */
  function FlagLayers(flag: map<string, Field>, info: seq<string>, signed: Option<string>): (m: map<string, Field>)
    ensures forall k :: k in m <==> k in flag || k in info || signed == Some(k)
    ensures signed.Some? ==> m[signed.value] == SignedSumstat
    ensures forall k :: k in info && signed != Some(k) ==> m[k] == Info
    ensures forall k :: k in flag && k !in info && signed != Some(k) ==> m[k] == flag[k]
  {
    var layered := flag + map k | k in info :: Info;
    if signed.Some? then layered[signed.value := SignedSumstat] else layered
  }

  /**
   * `parse_flag_cnames`: cleaned flag names mapped to fields. A later flag
   * overwrites an earlier one with the same cleaned name, `--info-list`
   * overwrites the column flags and `--signed-sumstats` overwrites everything.
   * Parsing the null value is the caller-supplied `parseReal`.
   */
  function ParseFlagCnames(a: FlagArgs, parseReal: string -> Option<real>): (r: Result<FlagCnames, Failure>)
    ensures r.Err? <==> SignedGiven(a) && !SignedFlagWellFormed(a.signedSumstats.value, parseReal)
    ensures r.Err? ==> r.error == MalformedSignedFlag
    ensures r.Ok? && SignedGiven(a) ==> r.value.nullValue == parseReal(Split(a.signedSumstats.value, ',')[1])
    ensures r.Ok? ==>
      r.value.cnames == FlagLayers(OptionMap(CnameOptions(a)), InfoNames(a), if SignedGiven(a) then Some(SignedName(a)) else None)
    ensures r.Ok? && !SignedGiven(a) ==> r.value.nullValue.None?
  {
    var flag := OptionMap(CnameOptions(a));
    if !SignedGiven(a) then
      Ok(FlagCnames(FlagLayers(flag, InfoNames(a), None), None))
    else
      var parts := Split(a.signedSumstats.value, ',');
      if |parts| != 2 || parseReal(parts[1]).None? then Err(MalformedSignedFlag)
      else
        Ok(FlagCnames(FlagLayers(flag, InfoNames(a), Some(CleanHeader(parts[0]))), parseReal(parts[1])))
  }
}
