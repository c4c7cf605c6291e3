/**
 * Header handling of the older converter (sumstats_to_chisq.py, lines 33-62
 * and 95-173): `clean_header`, the `CNAMES` dictionary, `check_dup_cname` and
 * `convert_colname`.
 */
module LegacyHeader {
  import opened Wrappers
  import opened Schema
  import opened Text

  /**
   * `clean_header` of the older converter: upper-case, `-` and `.` become `_`.
   * Unlike the newer converter it leaves newlines in place.
   */
  function CleanHeader(h: string): (r: string)
    ensures |r| == |h|
    ensures '-' !in r && '.' !in r
    ensures forall i :: 0 <= i < |r| ==> !IsLower(r[i])
  {
    var r := Replace(Replace(Upper(h), '-', '_'), '.', '_');
    assert forall i :: 0 <= i < |r| ==> r[i] != '-' && r[i] != '.';
    r
  }

  /** A header without lower-case letters, `-` or `.` is already clean. */
  lemma CleanHeaderFixes(c: string)
    requires '-' !in c && '.' !in c
    requires forall i :: 0 <= i < |c| ==> !IsLower(c[i])
    ensures CleanHeader(c) == c
  {
    assert Upper(c) == c;
    assert Replace(c, '-', '_') == c;
    assert Replace(c, '.', '_') == c;
  }

  /** Cleaning twice is cleaning once. */
  lemma CleanHeaderIdempotent(h: string)
    ensures CleanHeader(CleanHeader(h)) == CleanHeader(h)
  {
    CleanHeaderFixes(CleanHeader(h));
  }

  /** Newlines survive cleaning, at the positions where they were. */
  lemma CleanHeaderKeepsNewlines(h: string)
    ensures forall i :: 0 <= i < |h| ==> (h[i] == '\n' <==> CleanHeader(h)[i] == '\n')
  {
    var u := Upper(h);
    forall i | 0 <= i < |h| ensures h[i] == '\n' <==> CleanHeader(h)[i] == '\n' {
      assert u[i] == UpperChar(h[i]);
    }
  }

  /** The internal names that `CNAMES` maps to. */
  const InternalFields: set<Field> :=
    {Snp, NStudy, P, A1, A2, N, NCas, NCon, Z, OR, Beta, LogOdds, SignedSumstat, Info, Frq}

  /**
   * `CNAMES`, from cleaned header to internal name, written as its aliases plus
   * the entries that map every internal name to itself. `N_CASE` is listed
   * twice in the source with the same value; `Z-SCORE` can never match a
   * cleaned header (see `ZScoreKeyUnreachable`).
   */
  const Cnames: map<string, Field> := CnameAliases + SelfNames

  const CnameAliases: map<string, Field> := map[
    "MARKERNAME" := Snp, "SNPID" := Snp, "RS" := Snp, "RSID" := Snp,
    "RS_NUMBER" := Snp, "RS_NUMBERS" := Snp,
    "N_STUDY" := NStudy, "NSTUDIES" := NStudy, "N_STUDIES" := NStudy,
    "PVALUE" := P, "P_VALUE" := P, "PVAL" := P, "P_VAL" := P, "GC_PVALUE" := P,
    "ALLELE1" := A1, "ALLELE_1" := A1, "EFFECT_ALLELE" := A1,
    "REFERENCE_ALLELE" := A1, "INC_ALLELE" := A1, "EA" := A1,
    "ALLELE2" := A2, "ALLELE_2" := A2, "OTHER_ALLELE" := A2,
    "NON_EFFECT_ALLELE" := A2, "DEC_ALLELE" := A2, "NEA" := A2,
    "NCASE" := NCas, "N_CASE" := NCas, "N_CASES" := NCas, "N_CONTROLS" := NCon,
    "NCONTROL" := NCon, "N_CONTROL" := NCon, "WEIGHT" := N,
    "ZSCORE" := Z, "Z-SCORE" := Z, "GC_ZSCORE" := Z, "EFFECTS" := Beta,
    "EAF" := Frq, "MAF" := Frq, "FRQ_U" := Frq, "F_U" := Frq
  ]

  const SelfNames: map<string, Field> := map[
    "SNP" := Snp, "NSTUDY" := NStudy, "P" := P, "A1" := A1, "A2" := A2, "N" := N,
    "N_CAS" := NCas, "N_CON" := NCon, "Z" := Z, "OR" := OR, "BETA" := Beta,
    "LOG_ODDS" := LogOdds, "SIGNED_SUMSTAT" := SignedSumstat, "INFO" := Info, "FRQ" := Frq
  ]

  /** Every internal name is a key of the dictionary, mapped to itself. */
  predicate FixesLabels(cnames: map<string, Field>)
  {
    forall f :: f in InternalFields ==> Label(f) in cnames && cnames[Label(f)] == f
  }

  lemma CnamesFixesLabels()
    ensures FixesLabels(Cnames)
  {
    forall f | f in InternalFields ensures Label(f) in Cnames && Cnames[Label(f)] == f {
      SelfName(f);
    }
  }

  lemma SelfName(f: Field)
    requires f in InternalFields
    ensures Label(f) in SelfNames && SelfNames[Label(f)] == f
  {
    match f
    case Snp => case NStudy => case P => case A1 => case A2 => case N => case NCas => case NCon =>
    case Z => case OR => case Beta => case LogOdds => case SignedSumstat => case Info => case Frq =>
  }

  /** The `Z-SCORE` key holds a `-`, which no cleaned header does. */
  lemma ZScoreKeyUnreachable(h: string)
    ensures "Z-SCORE" in Cnames && CleanHeader(h) != "Z-SCORE"
  {
    assert "Z-SCORE"[1] == '-';
  }

  /** The `--daner` entry `CNAMES[FRQ_U_...] = FRQ` keeps every internal name fixed. */
  lemma DanerEntryFixesLabels(cnames: map<string, Field>, frq: string)
    requires FixesLabels(cnames) && StartsWith(frq, "FRQ_U_")
    ensures FixesLabels(cnames[frq := Frq])
  {
    forall f | f in InternalFields ensures Label(f) != frq {
      assert Label(f) == "SIGNED_SUMSTAT" || |Label(f)| < 6 || Label(f)[0] != 'F';
      assert "SIGNED_SUMSTAT"[0] == 'S';
    }
  }

  /**
   * `check_dup_cname`: a cleaned name already set by a flag, or a protected
   * name taken to mean another field, raises; otherwise the internal name.
   */
  function CheckDupCname(cname: string, protected: map<string, Field>, flagCnames: map<string, Field>, internal: Field)
    : (r: Result<Field, Failure>)
    ensures r.Err? <==> cname in flagCnames || (cname in protected && protected[cname] != internal)
    ensures r.Err? && cname in flagCnames ==> r.error == FlagOverloaded
    ensures r.Err? && cname !in flagCnames ==> r.error == ProtectedNameConflict
    ensures r.Ok? ==> r.value == internal
  {
    if cname in flagCnames then Err(FlagOverloaded)
    else if cname in protected && protected[cname] != internal then Err(ProtectedNameConflict)
    else Ok(internal)
  }

  /**
   * `convert_colname`: clean the name, translate it through the flag map
   * `pre` when it is a key there, then look it up in the dictionary
   * (a missing key is the `KeyError` of the source).
   */
  function ConvertColname(cname: string, pre: map<string, Field>, cnames: map<string, Field>)
    : (r: Result<Field, Failure>)
    ensures var c := CleanHeader(cname);
      var key := if c in pre then Label(pre[c]) else c;
      && (r.Ok? <==> key in cnames)
      && (r.Ok? ==> r.value == cnames[key])
      && (r.Err? ==> r.error == UnknownColumnName(key))
  {
    var c := CleanHeader(cname);
    var key := if c in pre then Label(pre[c]) else c;
    if key in cnames then Ok(cnames[key]) else Err(UnknownColumnName(key))
  }

  /**
   * The flag map wins over the dictionary: a name set by a flag converts to
   * the flag's field, whatever the dictionary says about the name itself.
   */
  lemma ConvertPrefersFlag(cname: string, pre: map<string, Field>, cnames: map<string, Field>)
    requires FixesLabels(cnames)
    requires CleanHeader(cname) in pre && pre[CleanHeader(cname)] in InternalFields
    ensures ConvertColname(cname, pre, cnames) == Ok(pre[CleanHeader(cname)])
  {
  }

  /** A name no flag sets converts through the dictionary, and fails exactly when the dictionary lacks it. */
  lemma ConvertByDictionary(cname: string, pre: map<string, Field>, cnames: map<string, Field>)
    requires CleanHeader(cname) !in pre
    ensures CleanHeader(cname) in cnames ==> ConvertColname(cname, pre, cnames) == Ok(cnames[CleanHeader(cname)])
    ensures CleanHeader(cname) !in cnames ==> ConvertColname(cname, pre, cnames) == Err(UnknownColumnName(CleanHeader(cname)))
  {
  }
}
