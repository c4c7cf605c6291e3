/**
 * Column resolution and validation of the newer converter
 * (src/ldsc/munge_sumstats/munge_sumstats.py, `munge_sumstats`, lines 464-584):
 * from the raw header and the command-line flags to the translation
 * "raw header -> field" that the reader uses.
 */
module MungeResolve {
  import opened Wrappers
  import opened Schema
  import opened Text
  import opened MungeHeader

  /** The command-line arguments that column resolution reads. */
  datatype ResolveArgs = ResolveArgs(
    flags: FlagArgs,
    ignore: Option<string>,
    a1Inc: bool,
    daner: bool,
    danerN: bool,
    nConst: Option<real>,
    nCas: Option<real>,
    nCon: Option<real>,
    noAlleles: bool)

  /** The first header that starts with `p` (`[x for x in file_cnames if ...][0]`). */
  function FirstWithPrefix(header: seq<string>, p: string): (r: Option<string>)
    ensures r.None? <==> forall i :: 0 <= i < |header| ==> !StartsWith(header[i], p)
    ensures r.Some? ==> exists i :: 0 <= i < |header| && header[i] == r.value && StartsWith(r.value, p)
                          && forall j :: 0 <= j < i ==> !StartsWith(header[j], p)
  {
    if header == [] then None
    else if StartsWith(header[0], p) then Some(header[0])
    else
      var r := FirstWithPrefix(header[1..], p);
      assert forall i :: 1 <= i < |header| ==> header[1..][i - 1] == header[i];
      if r.Some? then
        var i :| 0 <= i < |header[1..]| && header[1..][i] == r.value && StartsWith(r.value, p)
                  && forall j :: 0 <= j < i ==> !StartsWith(header[1..][j], p);
        assert header[i + 1] == r.value;
        r
      else r
  }

  /** The cleaned `--ignore` names (none when the flag is unset or empty). */
  function IgnoreNames(a: ResolveArgs): seq<string>
  {
    if a.ignore.Some? && a.ignore.value != "" then CleanAll(Split(a.ignore.value, ',')) else []
  }

  /**
   * The default dictionary, without the signed-statistic entries when
   * `--signed-sumstats` is given (even empty) or `--a1-inc` is set.
   */
  function ModDefault(a: ResolveArgs): (d: map<string, Field>)
    ensures forall k :: k in d ==> k in DefaultCnames && d[k] == DefaultCnames[k]
    ensures a.flags.signedSumstats.Some? || a.a1Inc ==> forall k :: k in d ==> d[k] !in SignedKinds
    ensures forall k :: k in DefaultCnames && (DefaultCnames[k] !in SignedKinds || (a.flags.signedSumstats.None? && !a.a1Inc)) ==> k in d
  {
    if a.flags.signedSumstats.Some? || a.a1Inc then
      map x | x in DefaultCnames && DefaultCnames[x] !in SignedKinds :: DefaultCnames[x]
    else DefaultCnames
  }

  /**
   * The daner loop over `N`, `N_CAS`, `N_CON`, `FRQ`: it deletes the entries
   * whose field is labelled with the literal "c", which no field is.
   */
  function DeleteLabelledC(m: map<string, Field>): map<string, Field>
  {
    map x | x in m && Label(m[x]) != "c" :: m[x]
  }

  /** So the daner loop leaves the map as it was. */
  lemma DanerLoopDeletesNothing(m: map<string, Field>)
    ensures DeleteLabelledC(m) == m
  {
    forall x | x in m ensures Label(m[x]) != "c" {
      match m[x]
      case Snp => case P => case A1 => case A2 => case N => case NCas => case NCon =>
      case Z => case OR => case Beta => case LogOdds => case SignedSumstat => case Info =>
      case Frq => case NStudy => case MA => case Chisq => case IncAllele => case DecAllele =>
    }
  }

  /** The name map after the flags, ignore list, defaults and the daner formats, with the case/control counts. */
  datatype CnameSetup = CnameSetup(cnameMap: map<string, Field>, nullValue: Option<real>, nCas: Option<real>, nCon: Option<real>)

  /**
   * Lines 481-498 (`--daner`): the case and control counts come from the
   * suffixes of the first `FRQ_A_` and `FRQ_U_` headers (`parseReal` stands
   * for `float`), and the raw `FRQ_U_` header (not cleaned) is mapped to FRQ.
   */
  function DanerSetup(s: CnameSetup, header: seq<string>, parseReal: string -> Option<real>): (r: Result<CnameSetup, Failure>)
    ensures r.Err? <==> FirstWithPrefix(header, "FRQ_U_").None? || FirstWithPrefix(header, "FRQ_A_").None?
                        || parseReal(FirstWithPrefix(header, "FRQ_A_").value[6..]).None?
                        || parseReal(FirstWithPrefix(header, "FRQ_U_").value[6..]).None?
    ensures r.Ok? ==>
      var frqU := FirstWithPrefix(header, "FRQ_U_").value;
      var frqA := FirstWithPrefix(header, "FRQ_A_").value;
      && r.value.nCas == parseReal(frqA[6..]) && r.value.nCon == parseReal(frqU[6..])
      && r.value.cnameMap == s.cnameMap[frqU := Frq]
      && r.value.nullValue == s.nullValue
  {
    var frqU := FirstWithPrefix(header, "FRQ_U_");
    var frqA := FirstWithPrefix(header, "FRQ_A_");
    if frqU.None? then Err(MissingDanerColumn("FRQ_U_"))
    else if frqA.None? then Err(MissingDanerColumn("FRQ_A_"))
    else
      var nCas := parseReal(frqA.value[6..]);
      var nCon := parseReal(frqU.value[6..]);
      if nCas.None? then Err(UnparsableNumber(frqA.value[6..]))
      else if nCon.None? then Err(UnparsableNumber(frqU.value[6..]))
      else
        DanerLoopDeletesNothing(s.cnameMap);
        Ok(CnameSetup(DeleteLabelledC(s.cnameMap)[frqU.value := Frq], s.nullValue, nCas, nCon))
  }

  /**
   * Lines 500-514 (`--daner-n`): the raw `FRQ_U_` header is mapped to FRQ and
   * the columns named exactly `Nca` and `Nco` to N_CAS and N_CON.
   */
  function DanerNSetup(s: CnameSetup, header: seq<string>): (r: Result<CnameSetup, Failure>)
    ensures r.Err? <==> FirstWithPrefix(header, "FRQ_U_").None? || "Nca" !in header || "Nco" !in header
    ensures r.Ok? ==>
      r.value == s.(cnameMap := s.cnameMap[FirstWithPrefix(header, "FRQ_U_").value := Frq]["NCA" := NCas]["NCO" := NCon])
  {
    var frqU := FirstWithPrefix(header, "FRQ_U_");
    if frqU.None? then Err(MissingDanerColumn("FRQ_U_"))
    else if "Nca" !in header then Err(MissingDanerColumn("Nca"))
    else if "Nco" !in header then Err(MissingDanerColumn("Nco"))
    else
      CleanHeaderNca();
      CleanHeaderNco();
      Ok(s.(cnameMap := s.cnameMap[frqU.value := Frq][CleanHeader("Nca") := NCas][CleanHeader("Nco") := NCon]))
  }

  /**
   * Lines 463-514: flags, ignore list and defaults merged, then the two
   * daner formats in turn.
   */
  function CnameSetupFor(a: ResolveArgs, header: seq<string>, parseReal: string -> Option<real>): (r: Result<CnameSetup, Failure>)
    ensures ParseFlagCnames(a.flags, parseReal).Err? ==> r == Err(MalformedSignedFlag)
    ensures r.Ok? ==> ParseFlagCnames(a.flags, parseReal).Ok?
    ensures r.Ok? && !a.daner ==> r.value.nCas == a.nCas && r.value.nCon == a.nCon
    ensures r.Ok? ==> r.value.nullValue == ParseFlagCnames(a.flags, parseReal).value.nullValue
    ensures !a.daner && !a.danerN ==> (r.Err? <==> ParseFlagCnames(a.flags, parseReal).Err?)
    ensures r.Ok? && !a.daner && !a.danerN ==>
      r.value.cnameMap == GetCnameMap(ParseFlagCnames(a.flags, parseReal).value.cnames, ModDefault(a), IgnoreNames(a))
  {
    var flags :- ParseFlagCnames(a.flags, parseReal);
    var base := CnameSetup(GetCnameMap(flags.cnames, ModDefault(a), IgnoreNames(a)), flags.nullValue, a.nCas, a.nCon);
    var setup :- if a.daner then DanerSetup(base, header, parseReal) else Ok(base);
    if a.danerN then DanerNSetup(setup, header) else Ok(setup)
  }

  /** `cname_translation`: every header whose cleaned form the map knows, with that field. */
  function TranslationFrom(header: seq<string>, cnameMap: map<string, Field>): (t: map<string, Field>)
    ensures forall x :: x in t <==> x in header && CleanHeader(x) in cnameMap
    ensures forall x :: x in t ==> t[x] == cnameMap[CleanHeader(x)]
  {
    map x | x in header && CleanHeader(x) in cnameMap :: cnameMap[CleanHeader(x)]
  }

  /**
   * Two spellings of one known name in a header (`rs-id` and `RS.ID`, say)
   * both translate, to one field, so the translation is not injective and
   * the duplicate-field check of lines 560-565 has something to find.
   */
  lemma SpellingsCollide(header: seq<string>, cnameMap: map<string, Field>, x: string, y: string)
    requires x in header && y in header && x != y
    requires CleanHeader(x) == CleanHeader(y) && CleanHeader(x) in cnameMap
    ensures x in TranslationFrom(header, cnameMap) && y in TranslationFrom(header, cnameMap)
    ensures !Injective(TranslationFrom(header, cnameMap))
  {
    var t := TranslationFrom(header, cnameMap);
    assert t[x] == t[y];
  }

  /** The headers resolved to one of LOG_ODDS, BETA, OR, Z. */
  function SignedKeys(t: map<string, Field>): set<string>
  {
    set x | x in t && t[x] in SignedKinds
  }

  /** The single-signed-column check runs only without `--signed-sumstats` and `--a1-inc`. */
  predicate SignCheck(a: ResolveArgs)
  {
    a.flags.signedSumstats.None? && !a.a1Inc
  }

  /** The fields that must be resolved: SNP, P and, unless `--a1-inc`, SIGNED_SUMSTAT. */
  function RequiredFields(a: ResolveArgs): seq<Field>
  {
    if a.a1Inc then [Snp, P] else [Snp, P, SignedSumstat]
  }

  /** The fields a translation maps to. */
  function Fields(t: map<string, Field>): set<Field>
  {
    set x | x in t :: t[x]
  }

  /** No two headers map to one field. */
  predicate Injective(t: map<string, Field>)
  {
    forall x, y :: x in t && y in t && x != y ==> t[x] != t[y]
  }

  /** The sample size can be determined (lines 567-573, with the daner counts already set). */
  predicate NDeterminable(a: ResolveArgs, nCas: Option<real>, nCon: Option<real>, fields: set<Field>)
  {
    Truthy(a.nConst) || (Truthy(nCas) && Truthy(nCon)) || N in fields || (NCas in fields && NCon in fields)
  }

  /**
   * The translation once the signed check of lines 524-539 has run: with a
   * single directional header, that header now reads as SIGNED_SUMSTAT.
   */
  function Renamed(a: ResolveArgs, t0: map<string, Field>): (t: map<string, Field>)
    ensures t.Keys == t0.Keys
    ensures forall x :: x in t0 && (!SignCheck(a) || t0[x] !in SignedKinds) ==> t[x] == t0[x]
    ensures SignCheck(a) ==> forall x :: x in SignedKeys(t0) ==> t[x] == SignedSumstat
  {
    if !SignCheck(a) then t0
    else map x | x in t0 :: if t0[x] in SignedKinds then SignedSumstat else t0[x]
  }

  /** The checks of lines 524-584, in the order the source runs them. */
  datatype Check = SignedColumn | Required | RawDuplicates | FieldDuplicates | SampleSize | Alleles

  /** The check a failure of column resolution comes from. */
  function CheckOf(e: Failure): (c: Option<Check>)
    ensures c == Some(SignedColumn) <==> e == TooManySignedColumns || e == NoSignedColumn
    ensures c == Some(Required) <==> e.MissingRequiredColumn?
    ensures c == Some(RawDuplicates) <==> e.DuplicateRawHeader?
    ensures c == Some(FieldDuplicates) <==> e.DuplicateField?
    ensures c == Some(SampleSize) <==> e == CannotDetermineN
    ensures c == Some(Alleles) <==> e == MissingAlleleColumns
  {
    match e
    case TooManySignedColumns => Some(SignedColumn)
    case NoSignedColumn => Some(SignedColumn)
    case MissingRequiredColumn(_) => Some(Required)
    case DuplicateRawHeader(_) => Some(RawDuplicates)
    case DuplicateField(_) => Some(FieldDuplicates)
    case CannotDetermineN => Some(SampleSize)
    case MissingAlleleColumns => Some(Alleles)
    case _ => None
  }

  /**
   * The first check of lines 524-584 that the header's translation `t0`
   * fails, or `None` when it passes them all.
   */
  function FailedCheck(a: ResolveArgs, header: seq<string>, t0: map<string, Field>, setup: CnameSetup): Option<Check>
  {
    if SignCheck(a) && |SignedKeys(t0)| != 1 then Some(SignedColumn)
    else
      var t := Renamed(a, t0);
      if !(forall f :: f in RequiredFields(a) ==> f in Fields(t)) then Some(Required)
      else if !(forall x :: x in t ==> multiset(header)[x] == 1) then Some(RawDuplicates)
      else if !Injective(t) then Some(FieldDuplicates)
      else if !NDeterminable(a, setup.nCas, setup.nCon, Fields(t)) then Some(SampleSize)
      else if !a.noAlleles && !(A1 in Fields(t) && A2 in Fields(t)) then Some(Alleles)
      else None
  }

  /** What the reader and the later steps need from column resolution. */
  datatype Resolution = Resolution(
    translation: map<string, Field>,
    nullValue: Option<real>,
    nCas: Option<real>,
    nCon: Option<real>)

  /**
   * Lines 524-539: without `--signed-sumstats` and `--a1-inc` exactly one
   * header must resolve to LOG_ODDS, BETA, OR or Z; it is renamed to
   * SIGNED_SUMSTAT and its field decides the null value.
   */
  method SignColumn(a: ResolveArgs, t0: map<string, Field>, flagNull: Option<real>)
    returns (r: Result<(map<string, Field>, Option<real>), Failure>)
    ensures r == Err(TooManySignedColumns) <==> SignCheck(a) && |SignedKeys(t0)| > 1
    ensures r == Err(NoSignedColumn) <==> SignCheck(a) && |SignedKeys(t0)| == 0
    ensures r.Err? ==> r.error == TooManySignedColumns || r.error == NoSignedColumn
    ensures !SignCheck(a) ==> r == Ok((t0, flagNull))
    ensures SignCheck(a) && r.Ok? ==>
      |SignedKeys(t0)| == 1 && exists s :: s in SignedKeys(t0) && r.value == (t0[s := SignedSumstat], Some(NullValue(t0[s])))
    ensures r.Ok? ==> r.value.0 == Renamed(a, t0)
  {
    if !SignCheck(a) {
      return Ok((t0, flagNull));
    }
    var signs := SignedKeys(t0);
    if |signs| > 1 {
      return Err(TooManySignedColumns);
    }
    if |signs| == 0 {
      return Err(NoSignedColumn);
    }
    var s :| s in signs;
    assert |signs - {s}| == 0;
    assert forall x :: x in t0 && t0[x] in SignedKinds ==> x == s by {
      forall x | x in t0 && t0[x] in SignedKinds ensures x == s {
        assert x in signs - {s} || x == s;
      }
    }
    r := Ok((t0[s := SignedSumstat], Some(NullValue(t0[s]))));
  }

  /** Lines 546-549: the first required field that no header resolves to. */
  method CheckRequired(req: seq<Field>, t: map<string, Field>) returns (r: Option<Failure>)
    ensures r.None? <==> forall f :: f in req ==> f in Fields(t)
    ensures r.Some? ==> exists k :: 0 <= k < |req| && r.value == MissingRequiredColumn(req[k]) && req[k] !in Fields(t)
                          && forall j :: 0 <= j < k ==> req[j] in Fields(t)
  {
    var k := 0;
    while k < |req|
      invariant 0 <= k <= |req|
      invariant forall j :: 0 <= j < k ==> req[j] in Fields(t)
    {
      if req[k] !in Fields(t) {
        return Some(MissingRequiredColumn(req[k]));
      }
      k := k + 1;
    }
    return None;
  }

  /** Lines 552-557: a translated header that occurs more than once in the file. */
  method CheckRawDuplicates(header: seq<string>, t: map<string, Field>) returns (r: Option<Failure>)
    ensures r.None? <==> forall x :: x in t && x in header ==> multiset(header)[x] == 1
    ensures r.Some? ==> r.value.DuplicateRawHeader? && r.value.header in t && multiset(header)[r.value.header] > 1
  {
    var i := 0;
    while i < |header|
      invariant 0 <= i <= |header|
      invariant forall j :: 0 <= j < i && header[j] in t ==> multiset(header)[header[j]] == 1
    {
      if header[i] in t && multiset(header)[header[i]] > 1 {
        return Some(DuplicateRawHeader(header[i]));
      }
      i := i + 1;
    }
    forall x | x in t && x in header ensures multiset(header)[x] == 1 {
      var j :| 0 <= j < |header| && header[j] == x;
    }
    return None;
  }

  /** Lines 560-565: a field that two headers resolve to. */
  method CheckFieldDuplicates(header: seq<string>, t: map<string, Field>) returns (r: Option<Failure>)
    requires forall x :: x in t ==> x in header
    ensures r.None? <==> Injective(t)
    ensures r.Some? ==>
      r.value.DuplicateField? && exists x, y :: x in t && y in t && x != y && t[x] == r.value.field && t[y] == r.value.field
  {
    var i := 0;
    while i < |header|
      invariant 0 <= i <= |header|
      invariant forall j, y :: 0 <= j < i && header[j] in t && y in t && y != header[j] ==> t[y] != t[header[j]]
    {
      if header[i] in t && exists y :: y in t && y != header[i] && t[y] == t[header[i]] {
        return Some(DuplicateField(t[header[i]]));
      }
      i := i + 1;
    }
    forall x, y | x in t && y in t && x != y ensures t[x] != t[y] {
      var j :| 0 <= j < |header| && header[j] == x;
    }
    return None;
  }

  /** Lines 574-580: NSTUDY is dropped when N, or both N_CAS and N_CON, are resolved. */
  function DropNStudy(t: map<string, Field>): (r: map<string, Field>)
    ensures N in Fields(t) || (NCas in Fields(t) && NCon in Fields(t)) ==>
      forall x :: x in r <==> x in t && t[x] != NStudy
    ensures !(N in Fields(t) || (NCas in Fields(t) && NCon in Fields(t))) ==> r == t
    ensures forall x :: x in r ==> x in t && r[x] == t[x]
    ensures forall x :: x in t && x !in r ==> t[x] == NStudy
    ensures Fields(r) == if N in Fields(t) || (NCas in Fields(t) && NCon in Fields(t)) then Fields(t) - {NStudy} else Fields(t)
  {
    if (N in Fields(t) || (NCas in Fields(t) && NCon in Fields(t))) && NStudy in Fields(t) then
      map x | x in t && t[x] != NStudy :: t[x]
    else t
  }

  /**
   * Lines 542-565 on the translation after the signed column is renamed:
   * required fields, duplicated raw headers and fields claimed twice, in that
   * order.
   */
  method CheckMapping(a: ResolveArgs, header: seq<string>, t: map<string, Field>) returns (r: Option<Failure>)
    requires forall x :: x in t ==> x in header
    ensures r.Some? && r.value.MissingRequiredColumn? ==> r.value.field in RequiredFields(a) && r.value.field !in Fields(t)
    ensures r.Some? && r.value.DuplicateRawHeader? ==> r.value.header in t && multiset(header)[r.value.header] > 1
    ensures r.Some? && r.value.DuplicateField? ==> !Injective(t)
    ensures r.Some? ==> r.value.MissingRequiredColumn? || r.value.DuplicateRawHeader? || r.value.DuplicateField?
    ensures r.None? <==>
      && (forall f :: f in RequiredFields(a) ==> f in Fields(t))
      && (forall x :: x in t ==> multiset(header)[x] == 1)
      && Injective(t)
    ensures (r.Some? && r.value.MissingRequiredColumn?) <==> !(forall f :: f in RequiredFields(a) ==> f in Fields(t))
    ensures (r.Some? && r.value.DuplicateRawHeader?) <==>
      (forall f :: f in RequiredFields(a) ==> f in Fields(t)) && !(forall x :: x in t ==> multiset(header)[x] == 1)
  {
    r := CheckRequired(RequiredFields(a), t);
    if r.Some? {
      return;
    }
    r := CheckRawDuplicates(header, t);
    if r.Some? {
      return;
    }
    r := CheckFieldDuplicates(header, t);
  }

  /**
   * Lines 567-584: N must be determinable, NSTUDY is dropped when N is
   * available, and the allele columns must be there unless `--no-alleles`.
   */
  method CheckColumns(a: ResolveArgs, t: map<string, Field>, nCas: Option<real>, nCon: Option<real>)
    returns (r: Result<map<string, Field>, Failure>)
    ensures r == Err(CannotDetermineN) <==> !NDeterminable(a, nCas, nCon, Fields(t))
    ensures r == Err(MissingAlleleColumns) ==> !a.noAlleles && !(A1 in Fields(t) && A2 in Fields(t))
    ensures r.Err? ==> r.error == CannotDetermineN || r.error == MissingAlleleColumns
    ensures r.Ok? <==> NDeterminable(a, nCas, nCon, Fields(t)) && (!a.noAlleles ==> A1 in Fields(t) && A2 in Fields(t))
    ensures r.Ok? ==>
      && r.value == DropNStudy(t)
      && (forall f :: f in Fields(t) && f != NStudy ==> f in Fields(r.value))
      && NDeterminable(a, nCas, nCon, Fields(r.value))
      && (!a.noAlleles ==> A1 in Fields(r.value) && A2 in Fields(r.value))
  {
    if !NDeterminable(a, nCas, nCon, Fields(t)) {
      return Err(CannotDetermineN);
    }
    var t1 := DropNStudy(t);
    assert Fields(t1) == Fields(t) || Fields(t1) == Fields(t) - {NStudy};
    if !a.noAlleles && !(A1 in Fields(t1) && A2 in Fields(t1)) {
      return Err(MissingAlleleColumns);
    }
    r := Ok(t1);
  }

  /**
   * What a successful resolution promises about the headers of the
   * translation `t` built from the header's translation `t0`: every kept
   * header is unique in the file, only NSTUDY headers are dropped, and each
   * keeps its field except the signed column renamed to SIGNED_SUMSTAT.
   */
  predicate ResolvedHeaders(a: ResolveArgs, header: seq<string>, t0: map<string, Field>, t: map<string, Field>)
  {
    && (forall x :: x in t ==> x in t0 && multiset(header)[x] == 1)
    && (forall x :: x in t0 && x !in t ==> t0[x] == NStudy)
    && (forall x :: x in t ==> t[x] == t0[x] || (SignCheck(a) && t0[x] in SignedKinds && t[x] == SignedSumstat))
  }

  /**
   * What a successful resolution promises about the fields: no field is
   * claimed twice, the required fields and (unless `--no-alleles`) the allele
   * columns are there, N can be determined, and NSTUDY is gone when N is
   * available.
   */
  predicate ResolvedFields(a: ResolveArgs, setup: CnameSetup, t: map<string, Field>)
  {
    && Injective(t)
    && (forall f :: f in RequiredFields(a) ==> f in Fields(t))
    && NDeterminable(a, setup.nCas, setup.nCon, Fields(t))
    && (N in Fields(t) || (NCas in Fields(t) && NCon in Fields(t)) ==> NStudy !in Fields(t))
    && (!a.noAlleles ==> A1 in Fields(t) && A2 in Fields(t))
  }

  /** The null value of the signed statistic and the case/control counts passed on. */
  predicate ResolvedNull(a: ResolveArgs, t0: map<string, Field>, setup: CnameSetup, res: Resolution)
  {
    && res.nCas == setup.nCas && res.nCon == setup.nCon
    && (SignCheck(a) ==>
          |SignedKeys(t0)| == 1 && exists x :: x in SignedKeys(t0) && res.nullValue == Some(NullValue(t0[x])))
    && (!SignCheck(a) ==> res.nullValue == setup.nullValue)
  }

  /** The null value of the kind of the one signed column (line 536). */
  ghost function SignedNull(t0: map<string, Field>): (v: real)
    requires |SignedKeys(t0)| == 1
    ensures forall y :: y in SignedKeys(t0) ==> v == NullValue(t0[y])
  {
    var x :| x in SignedKeys(t0);
    assert forall y :: y in SignedKeys(t0) ==> y == x by {
      forall y | y in SignedKeys(t0) ensures y == x { OnlyMember(SignedKeys(t0), x, y); }
    }
    NullValue(t0[x])
  }

  /** A set of one element has no other member. */
  lemma OnlyMember<T>(s: set<T>, x: T, y: T)
    requires |s| == 1 && x in s && y in s
    ensures x == y
  {
    assert |s - {x}| == 0;
    assert y in s - {x} || y == x;
  }

  /**
   * The resolution lines 516-584 return when no check fails: the translation
   * renamed and stripped of NSTUDY, the sign kind's null value or the flag's,
   * and the case and control counts of the setup.
   */
  ghost function ResolutionOf(a: ResolveArgs, t0: map<string, Field>, setup: CnameSetup): Resolution
  {
    Resolution(
      DropNStudy(Renamed(a, t0)),
      if SignCheck(a) && |SignedKeys(t0)| == 1 then Some(SignedNull(t0)) else setup.nullValue,
      setup.nCas, setup.nCon)
  }

  /** Everything a successful resolution promises. */
  predicate Resolved(a: ResolveArgs, header: seq<string>, t0: map<string, Field>, setup: CnameSetup, res: Resolution)
  {
    ResolvedHeaders(a, header, t0, res.translation) && ResolvedFields(a, setup, res.translation) && ResolvedNull(a, t0, setup, res)
  }

  /** The signed-column rename and the NSTUDY drop give `ResolvedHeaders`. */
  lemma ResolvedHeadersByChecks(a: ResolveArgs, header: seq<string>, t0: map<string, Field>, t: map<string, Field>, t1: map<string, Field>)
    requires !SignCheck(a) ==> t == t0
    requires SignCheck(a) ==> exists sk :: sk in SignedKeys(t0) && t == t0[sk := SignedSumstat]
    requires forall x :: x in t ==> multiset(header)[x] == 1
    requires t1 == DropNStudy(t)
    ensures ResolvedHeaders(a, header, t0, t1)
  {
    if SignCheck(a) {
      var sk :| sk in SignedKeys(t0) && t == t0[sk := SignedSumstat];
      assert t0[sk] in SignedKinds;
    }
  }

  /** The mapping checks and the NSTUDY drop give `ResolvedFields`. */
  lemma ResolvedFieldsByChecks(a: ResolveArgs, setup: CnameSetup, t: map<string, Field>, t1: map<string, Field>)
    requires forall f :: f in RequiredFields(a) ==> f in Fields(t)
    requires Injective(t)
    requires t1 == DropNStudy(t)
    requires NDeterminable(a, setup.nCas, setup.nCon, Fields(t1))
    requires !a.noAlleles ==> A1 in Fields(t1) && A2 in Fields(t1)
    ensures ResolvedFields(a, setup, t1)
  {
    assert forall f :: f in RequiredFields(a) ==> f != NStudy;
    assert Fields(t1) == Fields(t) || Fields(t1) == Fields(t) - {NStudy};
  }

  /**
   * Lines 546-584 on the translation `t` once its signed column, if checked,
   * is renamed: `CheckMapping`, then `CheckColumns`. A failure is the check
   * of the whole resolution that fails first, and a success the translation
   * without NSTUDY where N is available.
   */
  method CheckTranslation(a: ResolveArgs, header: seq<string>, t0: map<string, Field>, setup: CnameSetup, t: map<string, Field>)
    returns (r: Result<map<string, Field>, Failure>)
    requires forall x :: x in t0 ==> x in header
    requires t == Renamed(a, t0) && !(SignCheck(a) && |SignedKeys(t0)| != 1)
    ensures r.Err? ==> r.error != TooManySignedColumns && r.error != NoSignedColumn
    ensures r.Err? && r.error.MissingRequiredColumn? ==> r.error.field in RequiredFields(a)
    ensures r.Err? && r.error.DuplicateRawHeader? ==> r.error.header in t0 && multiset(header)[r.error.header] > 1
    ensures r.Err? && r.error == CannotDetermineN ==> !Truthy(a.nConst) && !(Truthy(setup.nCas) && Truthy(setup.nCon))
    ensures r.Err? && r.error == MissingAlleleColumns ==> !a.noAlleles
    ensures r.Ok? <==> FailedCheck(a, header, t0, setup).None?
    ensures r.Err? ==> CheckOf(r.error) == FailedCheck(a, header, t0, setup)
    ensures r.Ok? ==>
      && r.value == DropNStudy(t)
      && (forall x :: x in t ==> multiset(header)[x] == 1)
      && ResolvedFields(a, setup, r.value)
  {
    var problem := CheckMapping(a, header, t);
    if problem.Some? {
      return Err(problem.value);
    }
    r := CheckColumns(a, t, setup.nCas, setup.nCon);
    if r.Ok? {
      ResolvedFieldsByChecks(a, setup, t, r.value);
    }
  }

  /**
   * Lines 516-584: the translation from the header (`t0`, keyed by raw
   * header) is checked for its single signed column, which is renamed to
   * SIGNED_SUMSTAT, and then by `CheckTranslation`.
   */
  method ValidateTranslation(a: ResolveArgs, header: seq<string>, t0: map<string, Field>, setup: CnameSetup)
    returns (r: Result<Resolution, Failure>)
    requires forall x :: x in t0 ==> x in header
    ensures r == Err(TooManySignedColumns) <==> SignCheck(a) && |SignedKeys(t0)| > 1
    ensures r == Err(NoSignedColumn) <==> SignCheck(a) && |SignedKeys(t0)| == 0
    ensures r.Err? && r.error.MissingRequiredColumn? ==> r.error.field in RequiredFields(a)
    ensures r.Err? && r.error.DuplicateRawHeader? ==> r.error.header in t0 && multiset(header)[r.error.header] > 1
    ensures r.Err? && r.error == CannotDetermineN ==> !Truthy(a.nConst) && !(Truthy(setup.nCas) && Truthy(setup.nCon))
    ensures r.Err? && r.error == MissingAlleleColumns ==> !a.noAlleles
    ensures r.Ok? ==> Resolved(a, header, t0, setup, r.value)
    ensures r.Ok? <==> FailedCheck(a, header, t0, setup).None?
    ensures r.Err? ==> CheckOf(r.error) == FailedCheck(a, header, t0, setup)
    ensures r.Ok? ==> r.value == ResolutionOf(a, t0, setup)
  {
    var signed := SignColumn(a, t0, setup.nullValue);
    if signed.Err? {
      return Err(signed.error);
    }
    var t := signed.value.0;
    var checked := CheckTranslation(a, header, t0, setup, t);
    if checked.Err? {
      return Err(checked.error);
    }
    ResolvedHeadersByChecks(a, header, t0, t, checked.value);
    r := Ok(Resolution(checked.value, signed.value.1, setup.nCas, setup.nCon));
  }

  /** Lines 463-584: the whole resolution, from the flags and the raw header to the translation. */
  method ResolveColumns(a: ResolveArgs, header: seq<string>, parseReal: string -> Option<real>)
    returns (r: Result<Resolution, Failure>)
    ensures CnameSetupFor(a, header, parseReal).Err? ==> r == Err(CnameSetupFor(a, header, parseReal).error)
    ensures r.Ok? ==>
      var t := r.value.translation;
      && (forall x :: x in t ==> x in header && multiset(header)[x] == 1)
      && (forall x :: x in t ==> CleanHeader(x) in CnameSetupFor(a, header, parseReal).value.cnameMap)
      && Injective(t)
      && (forall f :: f in RequiredFields(a) ==> f in Fields(t))
      && (N in Fields(t) || (NCas in Fields(t) && NCon in Fields(t)) ==> NStudy !in Fields(t))
      && (!a.noAlleles ==> A1 in Fields(t) && A2 in Fields(t))
    ensures CnameSetupFor(a, header, parseReal).Ok? ==>
      var setup := CnameSetupFor(a, header, parseReal).value;
      var t0 := TranslationFrom(header, setup.cnameMap);
      && (r.Ok? <==> FailedCheck(a, header, t0, setup).None?)
      && (r.Err? ==> CheckOf(r.error) == FailedCheck(a, header, t0, setup))
      && (r.Ok? ==> Resolved(a, header, t0, setup, r.value))
      && (r.Ok? ==> r.value == ResolutionOf(a, t0, setup))
  {
    var setup := CnameSetupFor(a, header, parseReal);
    if setup.Err? {
      return Err(setup.error);
    }
    var t0 := TranslationFrom(header, setup.value.cnameMap);
    r := ValidateTranslation(a, header, t0, setup.value);
  }
}
