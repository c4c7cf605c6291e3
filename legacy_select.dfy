/**
 * Column selection of the older converter (sumstats_to_chisq.py, lines
 * 410-529): the flag map built from the column flags, `--info-list` and
 * `--signed-sumstats`; the columns to read (`usecols`); the pruning of extra
 * signed-statistic columns; and the ordered checks for required columns.
 */
module LegacySelect {
  import opened Wrappers
  import opened Schema
  import opened Seqs
  import opened Text
  import opened LegacyHeader
  import MungeHeader
  import MungeResolve

  /** One flag-given column: its cleaned name and the internal name it stands for. */
  datatype FlagEntry = FlagEntry(name: string, internal: Field)

  /** The column flags that are set (non-empty), in the order of `CNAME_OPTIONS`. */
  function OptionEntries(opts: seq<(Option<string>, Field)>): (es: seq<FlagEntry>)
    ensures |es| <= |opts|
    ensures forall e :: e in es ==> e.internal in (set o | o in opts :: o.1)
  {
    if opts == [] then []
    else
      var rest := OptionEntries(opts[1..]);
      assert forall o :: o in opts[1..] ==> o in opts;
      if opts[0].0.Some? && opts[0].0.value != "" then [FlagEntry(CleanHeader(opts[0].0.value), opts[0].1)] + rest
      else rest
  }

  /** The cleaned names of a non-empty `--info-list`, each standing for INFO. */
  function InfoEntries(infoList: Option<string>): (es: seq<FlagEntry>)
    ensures forall i :: 0 <= i < |es| ==> es[i].internal == Info
  {
    if infoList.Some? && infoList.value != "" then
      var names := Split(infoList.value, ',');
      seq(|names|, i requires 0 <= i < |names| => FlagEntry(CleanHeader(names[i]), Info))
    else []
  }

  /** The entries of both loops (lines 426-439), in the order they are checked. */
  function Entries(a: MungeHeader.FlagArgs): (es: seq<FlagEntry>)
    ensures forall i :: 0 <= i < |es| ==> es[i].internal in InternalFields
  {
    var opts := MungeHeader.CnameOptions(a);
    assert forall o :: o in opts ==> o.1 in InternalFields;
    OptionEntries(opts) + InfoEntries(a.infoList)
  }

  /** The flag entries, one after the other, each through `check_dup_cname` against `CNAMES`. */
  function AddFlags(protected: map<string, Field>, m: map<string, Field>, es: seq<FlagEntry>): Result<map<string, Field>, Failure>
    decreases |es|
  {
    if es == [] then Ok(m)
    else
      match CheckDupCname(es[0].name, protected, m, es[0].internal)
      case Err(e) => Err(e)
      case Ok(f) => AddFlags(protected, m[es[0].name := f], es[1..])
  }

  /**
   * The entries are accepted: no name is set twice (or was set before), and
   * no name the dictionary knows is given another meaning.
   */
  predicate FlagsAcceptable(protected: map<string, Field>, m: map<string, Field>, es: seq<FlagEntry>)
  {
    && (forall i :: 0 <= i < |es| ==> es[i].name !in m)
    && (forall i, j :: 0 <= i < j < |es| ==> es[i].name != es[j].name)
    && (forall i :: 0 <= i < |es| && es[i].name in protected ==> protected[es[i].name] == es[i].internal)
  }

  /** Acceptance of a list of entries, one entry at a time. */
  lemma FlagsAcceptableStep(protected: map<string, Field>, m: map<string, Field>, es: seq<FlagEntry>)
    requires es != []
    ensures FlagsAcceptable(protected, m, es) <==>
      && es[0].name !in m
      && (es[0].name in protected ==> protected[es[0].name] == es[0].internal)
      && FlagsAcceptable(protected, m[es[0].name := es[0].internal], es[1..])
  {
    assert forall i :: 1 <= i < |es| ==> es[1..][i - 1] == es[i];
    if FlagsAcceptable(protected, m[es[0].name := es[0].internal], es[1..]) && es[0].name !in m {
      assert forall i, j :: 0 <= i < j < |es| ==> es[i].name != es[j].name by {
        forall i, j | 0 <= i < j < |es| ensures es[i].name != es[j].name {
          if i > 0 {
            assert es[1..][i - 1] == es[i] && es[1..][j - 1] == es[j];
          } else {
            assert es[1..][j - 1].name !in m[es[0].name := es[0].internal];
          }
        }
      }
    }
  }

  /**
   * The fold succeeds exactly when the entries are acceptable; a conflict is
   * an overloaded flag or a protected name.
   */
  lemma {:induction false} AddFlagsAccepts(protected: map<string, Field>, m: map<string, Field>, es: seq<FlagEntry>)
    decreases |es|
    ensures AddFlags(protected, m, es).Ok? <==> FlagsAcceptable(protected, m, es)
    ensures AddFlags(protected, m, es).Err? ==> AddFlags(protected, m, es).error in {FlagOverloaded, ProtectedNameConflict}
  {
    if es != [] {
      FlagsAcceptableStep(protected, m, es);
      AddFlagsAccepts(protected, m[es[0].name := es[0].internal], es[1..]);
    }
  }

  /**
   * A successful fold adds every entry's name with its internal name and
   * keeps the entries it started from.
   */
  lemma {:induction false} AddFlagsContents(protected: map<string, Field>, m: map<string, Field>, es: seq<FlagEntry>)
    decreases |es|
    requires AddFlags(protected, m, es).Ok?
    ensures var r := AddFlags(protected, m, es).value;
      && (forall k :: k in r <==> k in m || exists i :: 0 <= i < |es| && es[i].name == k)
      && (forall i :: 0 <= i < |es| ==> r[es[i].name] == es[i].internal)
      && (forall k :: k in m ==> r[k] == m[k])
  {
    if es != [] {
      var e := es[0];
      var m' := m[e.name := e.internal];
      assert AddFlags(protected, m, es) == AddFlags(protected, m', es[1..]);
      AddFlagsContents(protected, m', es[1..]);
      AddFlagsAccepts(protected, m', es[1..]);
      var r := AddFlags(protected, m, es).value;
      forall k ensures k in r <==> k in m || exists i :: 0 <= i < |es| && es[i].name == k {
        if k in r && k !in m && k != e.name {
          var i :| 0 <= i < |es[1..]| && es[1..][i].name == k;
          assert es[i + 1].name == k;
        }
        if exists i :: 0 <= i < |es| && es[i].name == k {
          var i :| 0 <= i < |es| && es[i].name == k;
          if i > 0 {
            assert es[1..][i - 1].name == k;
          }
        }
      }
      forall i | 0 <= i < |es| ensures r[es[i].name] == es[i].internal {
        if i > 0 {
          assert es[1..][i - 1] == es[i];
        }
      }
    }
  }

  /** Lines 426-439: the loops over `CNAME_OPTIONS` and `--info-list`, stopping at the first conflict. */
  method BuildFlagMap(protected: map<string, Field>, es: seq<FlagEntry>) returns (r: Result<map<string, Field>, Failure>)
    ensures r == AddFlags(protected, map[], es)
  {
    var m: map<string, Field> := map[];
    var i := 0;
    while i < |es|
      invariant 0 <= i <= |es|
      invariant AddFlags(protected, map[], es) == AddFlags(protected, m, es[i..])
    {
      assert es[i..][0] == es[i] && es[i..][1..] == es[i + 1..];
      var c := CheckDupCname(es[i].name, protected, m, es[i].internal);
      if c.Err? {
        return Err(c.error);
      }
      m := m[es[i].name := c.value];
      i := i + 1;
    }
    r := Ok(m);
  }

  /**
   * Lines 441-457: `--signed-sumstats NAME,NULL` adds the cleaned NAME as
   * SIGNED_SUMSTAT, unless a flag already set it or the dictionary reads it as
   * a non-directional column; NULL is parsed with `parseReal` (`float`).
   */
  function SignedEntry(protected: map<string, Field>, m: map<string, Field>, s: string, parseReal: string -> Option<real>)
    : (r: Result<(map<string, Field>, real), Failure>)
    ensures var parts := Split(s, ',');
      r.Ok? <==>
        && |parts| == 2
        && CleanHeader(parts[0]) !in m
        && (CleanHeader(parts[0]) in protected ==> protected[CleanHeader(parts[0])] in SignedKinds + {SignedSumstat})
        && parseReal(parts[1]).Some?
    ensures |Split(s, ',')| != 2 ==> r == Err(MalformedSignedFlag)
    ensures r.Ok? ==>
      var name := CleanHeader(Split(s, ',')[0]);
      && r.value.0.Keys == m.Keys + {name}
      && r.value.0[name] == SignedSumstat
      && (forall k :: k in m ==> r.value.0[k] == m[k])
      && Some(r.value.1) == parseReal(Split(s, ',')[1])
  {
    var parts := Split(s, ',');
    if |parts| != 2 then Err(MalformedSignedFlag)
    else
      var name := CleanHeader(parts[0]);
      if name in m then Err(FlagOverloaded)
      else if name in protected && protected[name] !in SignedKinds + {SignedSumstat} then Err(ProtectedNameConflict)
      else if parseReal(parts[1]).None? then Err(UnparsableNumber(parts[1]))
      else Ok((m[name := SignedSumstat], parseReal(parts[1]).value))
  }

  /** The fold only ever maps to the internal names of its entries. */
  lemma FlagValuesFrom(protected: map<string, Field>, es: seq<FlagEntry>, fs: set<Field>)
    requires forall i :: 0 <= i < |es| ==> es[i].internal in fs
    requires AddFlags(protected, map[], es).Ok?
    ensures AddFlags(protected, map[], es).value.Values <= fs
  {
    var r := AddFlags(protected, map[], es).value;
    AddFlagsContents(protected, map[], es);
    forall v | v in r.Values ensures v in fs {
      var k :| k in r && r[k] == v;
      var i :| 0 <= i < |es| && es[i].name == k;
    }
  }

  /** The flag map and the null value of `--signed-sumstats`. */
  datatype FlagSetup = FlagSetup(flag: map<string, Field>, signedNull: Option<real>)

  /** Lines 413-457 as a value: the fold over the flags, then `--signed-sumstats` when given. */
  function FlagSetupFor(a: MungeHeader.FlagArgs, parseReal: string -> Option<real>): (r: Result<FlagSetup, Failure>)
    ensures r.Ok? ==> r.value.flag.Values <= InternalFields
    ensures r.Ok? ==> (r.value.signedNull.Some? <==> MungeHeader.SignedGiven(a))
    ensures r.Err? ==> r.error in {FlagOverloaded, ProtectedNameConflict, MalformedSignedFlag} || r.error.UnparsableNumber?
  {
    AddFlagsAccepts(Cnames, map[], Entries(a));
    match AddFlags(Cnames, map[], Entries(a))
    case Err(e) => Err(e)
    case Ok(m) =>
      FlagValuesFrom(Cnames, Entries(a), InternalFields);
      if !MungeHeader.SignedGiven(a) then Ok(FlagSetup(m, None))
      else
        match SignedEntry(Cnames, m, a.signedSumstats.value, parseReal)
        case Err(e) => Err(e)
        case Ok(p) => Ok(FlagSetup(p.0, Some(p.1)))
  }

  /** Lines 413-457: the whole flag map. */
  method FlagMap(a: MungeHeader.FlagArgs, parseReal: string -> Option<real>) returns (r: Result<FlagSetup, Failure>)
    ensures AddFlags(Cnames, map[], Entries(a)).Err? ==> r == Err(AddFlags(Cnames, map[], Entries(a)).error)
    ensures AddFlags(Cnames, map[], Entries(a)).Ok? && !MungeHeader.SignedGiven(a) ==>
      r == Ok(FlagSetup(AddFlags(Cnames, map[], Entries(a)).value, None))
    ensures AddFlags(Cnames, map[], Entries(a)).Ok? && MungeHeader.SignedGiven(a) ==>
      var s := SignedEntry(Cnames, AddFlags(Cnames, map[], Entries(a)).value, a.signedSumstats.value, parseReal);
      && (r.Ok? <==> s.Ok?)
      && (r.Err? ==> r.error == s.error)
      && (r.Ok? ==> r.value == FlagSetup(s.value.0, Some(s.value.1)))
    ensures r.Ok? ==> r.value.flag.Values <= InternalFields
    ensures r.Ok? ==> (r.value.signedNull.Some? <==> MungeHeader.SignedGiven(a))
    ensures r == FlagSetupFor(a, parseReal)
  {
    var es := Entries(a);
    var built := BuildFlagMap(Cnames, es);
    if built.Err? {
      return Err(built.error);
    }
    FlagValuesFrom(Cnames, es, InternalFields);
    if !MungeHeader.SignedGiven(a) {
      return Ok(FlagSetup(built.value, None));
    }
    var s := SignedEntry(Cnames, built.value, a.signedSumstats.value, parseReal);
    if s.Err? {
      return Err(s.error);
    }
    r := Ok(FlagSetup(s.value.0, Some(s.value.1)));
  }

  /** Two flags that name the same column make the flag map fail. */
  lemma RepeatedFlagFails(a: MungeHeader.FlagArgs, i: nat, j: nat)
    requires i < j < |Entries(a)| && Entries(a)[i].name == Entries(a)[j].name
    ensures AddFlags(Cnames, map[], Entries(a)) == Err(FlagOverloaded) || AddFlags(Cnames, map[], Entries(a)) == Err(ProtectedNameConflict)
  {
    AddFlagsAccepts(Cnames, map[], Entries(a));
  }

  /** A flag that gives a dictionary name another meaning makes the flag map fail. */
  lemma ProtectedFlagFails(a: MungeHeader.FlagArgs, i: nat)
    requires i < |Entries(a)| && Entries(a)[i].name in Cnames && Cnames[Entries(a)[i].name] != Entries(a)[i].internal
    ensures AddFlags(Cnames, map[], Entries(a)).Err?
  {
    AddFlagsAccepts(Cnames, map[], Entries(a));
  }

  /** `name in [clean_header(x) for x in xs]`. */
  predicate CleansTo(xs: seq<string>, name: string)
  {
    exists x :: x in xs && CleanHeader(x) == name
  }

  /** Line 469: the header columns a flag names. */
  function FlagMask(header: seq<string>, flag: map<string, Field>): (m: seq<bool>)
    ensures |m| == |header| && forall i :: 0 <= i < |header| ==> (m[i] <==> CleanHeader(header[i]) in flag)
  {
    seq(|header|, i requires 0 <= i < |header| => CleanHeader(header[i]) in flag)
  }

  /** Lines 478-480: the header columns the dictionary knows, not yet used, whose field no flag claims. */
  function DefaultMask(header: seq<string>, flag: map<string, Field>, cnames: map<string, Field>, used: seq<string>)
    : (m: seq<bool>)
    ensures |m| == |header|
    ensures forall i :: 0 <= i < |header| ==>
      (m[i] <==> CleanHeader(header[i]) in cnames && header[i] !in used && cnames[CleanHeader(header[i])] !in flag.Values)
  {
    seq(|header|, i requires 0 <= i < |header| =>
      CleanHeader(header[i]) in cnames && header[i] !in used && cnames[CleanHeader(header[i])] !in flag.Values)
  }

  /** Lines 469 and 478-480: `usecols`, the flagged columns and then the dictionary's. */
  function Usecols(header: seq<string>, flag: map<string, Field>, cnames: map<string, Field>): seq<string>
  {
    var used := Select(header, FlagMask(header, flag));
    used + Select(header, DefaultMask(header, flag, cnames, used))
  }

  /**
   * Every column read is a header column; one whose cleaned name a flag sets
   * comes from the flags, any other from the dictionary under a field that no
   * flag claims.
   */
  lemma UsecolsOrigin(header: seq<string>, flag: map<string, Field>, cnames: map<string, Field>)
    ensures forall x :: x in Usecols(header, flag, cnames) ==>
      && x in header
      && (CleanHeader(x) !in flag ==> CleanHeader(x) in cnames && cnames[CleanHeader(x)] !in flag.Values)
  {
    var used := Select(header, FlagMask(header, flag));
    var dm := DefaultMask(header, flag, cnames, used);
    forall x | x in Usecols(header, flag, cnames)
      ensures x in header
      ensures CleanHeader(x) !in flag ==> CleanHeader(x) in cnames && cnames[CleanHeader(x)] !in flag.Values
    {
      if x in used {
        var j :| 0 <= j < |used| && used[j] == x;
        var i := SelectOrigin(header, FlagMask(header, flag), j);
      } else {
        var j :| 0 <= j < |Select(header, dm)| && Select(header, dm)[j] == x;
        var i := SelectOrigin(header, dm, j);
      }
    }
  }

  /** A flag key is found (lines 472-475) exactly when some header column cleans to it. */
  lemma FlagFoundIff(header: seq<string>, flag: map<string, Field>, k: string)
    requires k in flag
    ensures CleansTo(Select(header, FlagMask(header, flag)), k) <==> CleansTo(header, k)
  {
    var fm := FlagMask(header, flag);
    var used := Select(header, fm);
    if CleansTo(used, k) {
      var x :| x in used && CleanHeader(x) == k;
      var j :| 0 <= j < |used| && used[j] == x;
      var i := SelectOrigin(header, fm, j);
    }
    if CleansTo(header, k) {
      var x :| x in header && CleanHeader(x) == k;
      var i :| 0 <= i < |header| && header[i] == x;
      SelectIn(header, fm, i);
    }
  }

  /**
   * Lines 472-475: the flag keys are checked one by one against the cleaned
   * columns read, in the dictionary's (unspecified) key order; the first one
   * missing raises.
   */
  method CheckFlagsFound(used: seq<string>, flag: map<string, Field>) returns (r: Option<Failure>)
    ensures r.None? <==> forall k :: k in flag ==> CleansTo(used, k)
    ensures r.Some? ==> r.value.FlaggedColumnAbsent? && r.value.name in flag && !CleansTo(used, r.value.name)
  {
    var todo := flag.Keys;
    while todo != {}
      invariant todo <= flag.Keys
      invariant forall k :: k in flag && k !in todo ==> CleansTo(used, k)
      decreases |todo|
    {
      var k :| k in todo;
      if !CleansTo(used, k) {
        return Some(FlaggedColumnAbsent(k));
      }
      todo := todo - {k};
    }
    r := None;
  }

  /** A list comprehension whose element expression may raise: the first failure propagates. */
  function TryMap<A, B, E>(xs: seq<A>, f: A -> Result<B, E>): (r: Result<seq<B>, E>)
    ensures r.Ok? <==> forall i :: 0 <= i < |xs| ==> f(xs[i]).Ok?
    ensures r.Ok? ==> |r.value| == |xs| && forall i :: 0 <= i < |xs| ==> f(xs[i]) == Ok(r.value[i])
  {
    if xs == [] then Ok([])
    else
      var head := f(xs[0]);
      var rest := TryMap(xs[1..], f);
      assert forall i :: 1 <= i < |xs| ==> xs[1..][i - 1] == xs[i];
      if head.Err? then Err(head.error)
      else if rest.Err? then Err(rest.error)
      else Ok([head.value] + rest.value)
  }

  /** `[convert_colname(x, pre=flag_to_cname) for x in xs]`. */
  function ConvertAll(xs: seq<string>, flag: map<string, Field>, cnames: map<string, Field>)
    : (r: Result<seq<Field>, Failure>)
    ensures r.Ok? <==> forall i :: 0 <= i < |xs| ==> ConvertColname(xs[i], flag, cnames).Ok?
    ensures r.Ok? ==> |r.value| == |xs| && forall i :: 0 <= i < |xs| ==> ConvertColname(xs[i], flag, cnames) == Ok(r.value[i])
  {
    TryMap(xs, x => ConvertColname(x, flag, cnames))
  }

  /** `[x for x in xs if x not in drop]`. */
  function Without(xs: seq<string>, drop: seq<string>): (ys: seq<string>)
    ensures forall y :: y in ys ==> y in xs && y !in drop
    ensures forall x :: x in xs && x !in drop ==> x in ys
  {
    var m := seq(|xs|, i requires 0 <= i < |xs| => xs[i] !in drop);
    var ys := Select(xs, m);
    forall y | y in ys ensures y in xs && y !in drop {
      var j :| 0 <= j < |ys| && ys[j] == y;
      var i := SelectOrigin(xs, m, j);
    }
    forall x | x in xs && x !in drop ensures x in ys {
      var i :| 0 <= i < |xs| && xs[i] == x;
      SelectIn(xs, m, i);
    }
    ys
  }

  /** `[x for x in names if x not in flag_to_cname.keys()]`. */
  function NotFlagged(names: seq<string>, flag: map<string, Field>): (ds: seq<string>)
    ensures forall d :: d in ds ==> d in names && d !in flag
  {
    if names == [] then []
    else (if names[0] !in flag then [names[0]] else []) + NotFlagged(names[1..], flag)
  }

  /** Python's `s[lo:hi]` for `0 <= lo <= hi`, clamped to the sequence. */
  function PySlice(s: seq<string>, lo: nat, hi: nat): (r: seq<string>)
    requires lo <= hi
    ensures forall x :: x in r ==> x in s
  {
    var l := if lo < |s| then lo else |s|;
    var h := if hi < |s| then hi else |s|;
    s[l..h]
  }

  /** `sum([Z, OR, LOR, BETA])`: how many directional columns are read. */
  function SignedCount(fields: seq<Field>): (c: nat)
    ensures c <= 4
  {
    (if Z in fields then 1 else 0) + (if OR in fields then 1 else 0)
    + (if LogOdds in fields then 1 else 0) + (if Beta in fields then 1 else 0)
  }

  /**
   * Lines 483-503: without `--signed-sumstats`, several directional columns
   * make the lower-priority ones go, by their RAW names `Z`, `LOR` and `BETA`
   * less those a flag names, cut positionally; with it, the raw names
   * `ORZ` (the adjacent literals 'OR' 'Z'), `LOR` and `BETA` go.
   */
  function PruneSigned(usecols: seq<string>, fields: seq<Field>, flag: map<string, Field>, signed: Option<string>)
    : (ys: seq<string>)
    ensures forall y :: y in ys ==> y in usecols
  {
    if signed.None? then
      if SignedCount(fields) > 1 then
        var drop := NotFlagged(["Z", "LOR", "BETA"], flag);
        if OR in fields then Without(usecols, drop)
        else if Z in fields then Without(usecols, PySlice(drop, 1, 3))
        else if Beta in fields then Without(usecols, PySlice(drop, 2, 3))
        else usecols
      else usecols
    else Without(usecols, NotFlagged(["ORZ", "LOR", "BETA"], flag))
  }

  /** The names the pruning can drop are raw, already clean, and named by no flag. */
  lemma PruneDropsOnly(usecols: seq<string>, fields: seq<Field>, flag: map<string, Field>, signed: Option<string>)
    ensures forall x :: x in usecols && x !in PruneSigned(usecols, fields, flag, signed) ==>
      x in ["Z", "LOR", "BETA", "ORZ"] && x !in flag
  {
  }

  /** A column a flag names is never pruned. */
  lemma PruneKeepsFlagged(usecols: seq<string>, fields: seq<Field>, flag: map<string, Field>, signed: Option<string>, x: string)
    requires x in usecols && CleanHeader(x) in flag
    ensures x in PruneSigned(usecols, fields, flag, signed)
  {
    PruneDropsOnly(usecols, fields, flag, signed);
    RawNamesClean();
  }

  /** The four raw names of the pruning lists are their own cleaned form. */
  lemma RawNamesClean()
    ensures forall x :: x in ["Z", "LOR", "BETA", "ORZ"] ==> CleanHeader(x) == x
  {
    CleanHeaderFixes("Z");
    CleanHeaderFixes("LOR");
    CleanHeaderFixes("BETA");
    CleanHeaderFixes("ORZ");
  }

  /** A column headed `LOG_ODDS` is never pruned: the list names `LOR`, which no dictionary entry uses. */
  lemma PruneKeepsLogOdds(usecols: seq<string>, fields: seq<Field>, flag: map<string, Field>, signed: Option<string>)
    requires "LOG_ODDS" in usecols
    ensures "LOG_ODDS" in PruneSigned(usecols, fields, flag, signed)
  {
    PruneDropsOnly(usecols, fields, flag, signed);
  }

  /** With `--signed-sumstats` given, columns headed `OR` or `Z` are kept. */
  lemma PruneSignedKeepsOrZ(usecols: seq<string>, fields: seq<Field>, flag: map<string, Field>, s: string)
    ensures "OR" in usecols ==> "OR" in PruneSigned(usecols, fields, flag, Some(s))
    ensures "Z" in usecols ==> "Z" in PruneSigned(usecols, fields, flag, Some(s))
  {
    PruneDropsOnly(usecols, fields, flag, Some(s));
  }

  /**
   * Without `--signed-sumstats` and with an OR column among several
   * directional ones, a column headed `Z` that no flag names goes.
   */
  lemma PruneOrDropsZ(usecols: seq<string>, fields: seq<Field>, flag: map<string, Field>)
    requires OR in fields && SignedCount(fields) > 1 && "Z" !in flag
    ensures "Z" !in PruneSigned(usecols, fields, flag, None)
  {
    assert "Z" in NotFlagged(["Z", "LOR", "BETA"], flag);
  }

  /** The arguments of the checks at lines 511-523. */
  datatype CheckArgs = CheckArgs(
    n: Option<real>, nCas: Option<real>, nCon: Option<real>,
    daner: bool, a1Inc: bool)

  /** Lines 511-523: the first required column that is missing, in the order checked. */
  function MissingColumn(fields: seq<Field>, c: CheckArgs, signed: Option<string>): (r: Option<Failure>)
    ensures r.None? ==> Snp in fields && P in fields && A1 in fields && A2 in fields
    ensures r.None? ==>
      N in fields || c.n.Some? || (c.nCas.Some? && c.nCon.Some?) || (NCas in fields && NCon in fields) || c.daner
    ensures r.None? ==>
      Z in fields || Beta in fields || OR in fields || LogOdds in fields || signed.Some? || c.a1Inc
    ensures r.Some? ==> r.value in {NoNColumn, NoPColumn, NoSignedStatistic, NoSnpColumn, NoAlleleColumns}
  {
    if N !in fields && c.n.None? && (c.nCas.None? || c.nCon.None?) && (NCas !in fields || NCon !in fields) && !c.daner then
      Some(NoNColumn)
    else if P !in fields then Some(NoPColumn)
    else if Z !in fields && Beta !in fields && OR !in fields && LogOdds !in fields && signed.None? && !c.a1Inc then
      Some(NoSignedStatistic)
    else if Snp !in fields then Some(NoSnpColumn)
    else if A1 !in fields || A2 !in fields then Some(NoAlleleColumns)
    else None
  }

  /** The allele columns are demanded even when `--no-alleles` is given (line 522). */
  lemma AllelesAlwaysRequired(fields: seq<Field>, c: CheckArgs, signed: Option<string>)
    requires MissingColumn(fields, c, signed).None?
    ensures A1 in fields && A2 in fields
  {
  }

  /** The arguments of the column selection. */
  datatype SelectArgs = SelectArgs(flags: MungeHeader.FlagArgs, merge: bool, mergeAlleles: bool, checks: CheckArgs)

  /** What the column selection decides. */
  datatype Selection = Selection(
    flag: map<string, Field>, signedNull: Option<real>, cnames: map<string, Field>,
    usecols: seq<string>, fields: seq<Field>)

  /** Lines 463-465: under `--daner` the first `FRQ_U_` column is added to the dictionary as FRQ. */
  function DanerCnames(header: seq<string>, daner: bool): (r: Result<map<string, Field>, Failure>)
    ensures !daner ==> r == Ok(Cnames)
    ensures daner && MungeResolve.FirstWithPrefix(header, "FRQ_U_").None? ==> r == Err(MissingDanerColumn("FRQ_U_"))
    ensures r.Ok? ==> FixesLabels(r.value)
    ensures r.Err? ==> r.error.MissingDanerColumn?
  {
    CnamesFixesLabels();
    if !daner then Ok(Cnames)
    else
      var frq := MungeResolve.FirstWithPrefix(header, "FRQ_U_");
      if frq.None? then Err(MissingDanerColumn("FRQ_U_"))
      else
        DanerEntryFixesLabels(Cnames, frq.value);
        Ok(Cnames[frq.value := Frq])
  }

  /**
   * How a column read is interpreted: through its flag when a flag names it,
   * otherwise through the dictionary, under a field no flag claims.
   */
  predicate ReadAs(x: string, flag: map<string, Field>, cnames: map<string, Field>, f: Field)
  {
    if CleanHeader(x) in flag then f == flag[CleanHeader(x)]
    else CleanHeader(x) in cnames && f == cnames[CleanHeader(x)] && f !in flag.Values
  }

  /** Columns taken from the flags or the dictionary always convert, and as `ReadAs` says. */
  lemma ConvertSelected(xs: seq<string>, flag: map<string, Field>, cnames: map<string, Field>)
    requires FixesLabels(cnames) && flag.Values <= InternalFields
    requires forall x :: x in xs && CleanHeader(x) !in flag ==>
      CleanHeader(x) in cnames && cnames[CleanHeader(x)] !in flag.Values
    ensures ConvertAll(xs, flag, cnames).Ok?
    ensures forall i :: 0 <= i < |xs| ==> ReadAs(xs[i], flag, cnames, ConvertAll(xs, flag, cnames).value[i])
  {
    forall i | 0 <= i < |xs|
      ensures ConvertColname(xs[i], flag, cnames).Ok?
      ensures ReadAs(xs[i], flag, cnames, ConvertColname(xs[i], flag, cnames).value)
    {
      var c := CleanHeader(xs[i]);
      if c in flag {
        ConvertPrefersFlag(xs[i], flag, cnames);
      } else {
        ConvertByDictionary(xs[i], flag, cnames);
      }
    }
  }

  /**
   * Lines 469-503: the columns read, flagged ones first and then the
   * dictionary's, less the directional columns the pruning drops.
   */
  function ReadColumns(header: seq<string>, flag: map<string, Field>, cnames: map<string, Field>, signed: Option<string>)
    : (cols: seq<string>)
    requires FixesLabels(cnames) && flag.Values <= InternalFields
    ensures forall x :: x in cols ==>
      && x in header
      && (CleanHeader(x) !in flag ==> CleanHeader(x) in cnames && cnames[CleanHeader(x)] !in flag.Values)
  {
    var usecols := Usecols(header, flag, cnames);
    UsecolsOrigin(header, flag, cnames);
    ConvertSelected(usecols, flag, cnames);
    PruneSigned(usecols, ConvertAll(usecols, flag, cnames).value, flag, signed)
  }

  /** Line 505: the internal names of the columns read, as `ReadAs` gives them. */
  function ReadFields(header: seq<string>, flag: map<string, Field>, cnames: map<string, Field>, signed: Option<string>)
    : (fields: seq<Field>)
    requires FixesLabels(cnames) && flag.Values <= InternalFields
    ensures var cols := ReadColumns(header, flag, cnames, signed);
      |fields| == |cols| && forall i :: 0 <= i < |cols| ==> ReadAs(cols[i], flag, cnames, fields[i])
  {
    var cols := ReadColumns(header, flag, cnames, signed);
    ConvertSelected(cols, flag, cnames);
    ConvertAll(cols, flag, cnames).value
  }

  /** An unflagged header column that the dictionary reads under a field no flag claims is among the columns `usecols` collects. */
  lemma UsecolsHolds(header: seq<string>, flag: map<string, Field>, cnames: map<string, Field>, x: string)
    requires x in header && CleanHeader(x) !in flag
    requires CleanHeader(x) in cnames && cnames[CleanHeader(x)] !in flag.Values
    ensures x in Usecols(header, flag, cnames)
  {
    var used := Select(header, FlagMask(header, flag));
    if x in used {
      var j :| 0 <= j < |used| && used[j] == x;
      var k := SelectOrigin(header, FlagMask(header, flag), j);
    }
    var i :| 0 <= i < |header| && header[i] == x;
    SelectIn(header, DefaultMask(header, flag, cnames, used), i);
  }

  /** Two distinct positions holding one value count it twice. */
  lemma TwiceIn<T>(s: seq<T>, i: nat, j: nat)
    requires i < j < |s| && s[i] == s[j]
    ensures multiset(s)[s[i]] >= 2
  {
    assert s == s[..i] + [s[i]] + s[i + 1..j] + [s[j]] + s[j + 1..];
  }

  /**
   * An unflagged header column that the dictionary reads under a field no
   * flag claims, and not named like a signed column the pruning drops, is
   * among the columns read.
   */
  lemma UnflaggedRead(header: seq<string>, flag: map<string, Field>, cnames: map<string, Field>, signed: Option<string>,
                      x: string)
    requires FixesLabels(cnames) && flag.Values <= InternalFields
    requires x in header && x !in ["Z", "LOR", "BETA", "ORZ"] && CleanHeader(x) !in flag
    requires CleanHeader(x) in cnames && cnames[CleanHeader(x)] !in flag.Values
    ensures x in ReadColumns(header, flag, cnames, signed)
  {
    var usecols := Usecols(header, flag, cnames);
    UsecolsOrigin(header, flag, cnames);
    ConvertSelected(usecols, flag, cnames);
    UsecolsHolds(header, flag, cnames, x);
    PruneDropsOnly(usecols, ConvertAll(usecols, flag, cnames).value, flag, signed);
  }

  /**
   * Two unflagged header columns that the dictionary reads as one field no
   * flag claims, neither named like a signed column the pruning drops, are
   * both read, so that field is read twice: `P` and `GC_PVALUE` both read as
   * P (lines 112 and 117), and `dat.P` is then a frame of two columns.
   */
  lemma ReadTwice(header: seq<string>, flag: map<string, Field>, cnames: map<string, Field>, signed: Option<string>,
                  x: string, y: string)
    requires FixesLabels(cnames) && flag.Values <= InternalFields
    requires x in header && y in header && x != y
    requires x !in ["Z", "LOR", "BETA", "ORZ"] && y !in ["Z", "LOR", "BETA", "ORZ"]
    requires CleanHeader(x) !in flag && CleanHeader(y) !in flag
    requires CleanHeader(x) in cnames && CleanHeader(y) in cnames
    requires cnames[CleanHeader(x)] == cnames[CleanHeader(y)] && cnames[CleanHeader(x)] !in flag.Values
    ensures multiset(ReadFields(header, flag, cnames, signed))[cnames[CleanHeader(x)]] >= 2
  {
    UnflaggedRead(header, flag, cnames, signed, x);
    UnflaggedRead(header, flag, cnames, signed, y);
    ReadTwiceAmong(ReadColumns(header, flag, cnames, signed), ReadFields(header, flag, cnames, signed), flag, cnames, x, y);
  }

  /** Two distinct unflagged columns among those read that the dictionary reads as one field give that field twice. */
  lemma ReadTwiceAmong(cols: seq<string>, fields: seq<Field>, flag: map<string, Field>, cnames: map<string, Field>,
                       x: string, y: string)
    requires |fields| == |cols| && forall i :: 0 <= i < |cols| ==> ReadAs(cols[i], flag, cnames, fields[i])
    requires x in cols && y in cols && x != y
    requires CleanHeader(x) !in flag && CleanHeader(y) !in flag
    requires CleanHeader(x) in cnames && CleanHeader(y) in cnames && cnames[CleanHeader(x)] == cnames[CleanHeader(y)]
    ensures multiset(fields)[cnames[CleanHeader(x)]] >= 2
  {
    var i :| 0 <= i < |cols| && cols[i] == x;
    var j :| 0 <= j < |cols| && cols[j] == y;
    assert ReadAs(cols[i], flag, cnames, fields[i]) && ReadAs(cols[j], flag, cnames, fields[j]);
    if i < j {
      TwiceIn(fields, i, j);
    } else {
      TwiceIn(fields, j, i);
    }
  }

  /** Every flagged column present in the header survives into the columns read. */
  lemma FlaggedColumnsRead(header: seq<string>, flag: map<string, Field>, cnames: map<string, Field>, signed: Option<string>)
    requires FixesLabels(cnames) && flag.Values <= InternalFields
    requires forall k :: k in flag ==> CleansTo(header, k)
    ensures forall k :: k in flag ==> CleansTo(ReadColumns(header, flag, cnames, signed), k)
  {
    var fm := FlagMask(header, flag);
    var used := Select(header, fm);
    var usecols := Usecols(header, flag, cnames);
    UsecolsOrigin(header, flag, cnames);
    ConvertSelected(usecols, flag, cnames);
    var fields := ConvertAll(usecols, flag, cnames).value;
    forall k | k in flag ensures CleansTo(ReadColumns(header, flag, cnames, signed), k) {
      FlagFoundIff(header, flag, k);
      var x :| x in used && CleanHeader(x) == k;
      assert x in usecols;
      PruneKeepsFlagged(usecols, fields, flag, signed, x);
    }
  }

  /** Every flag names a column of the header, up to cleaning. */
  predicate FlagsFound(header: seq<string>, flag: map<string, Field>)
  {
    forall k :: k in flag ==> CleansTo(header, k)
  }

  /** Checking the flagged columns read is checking the header. */
  lemma FlagsFoundIff(header: seq<string>, flag: map<string, Field>)
    ensures FlagsFound(header, flag) <==> forall k :: k in flag ==> CleansTo(Select(header, FlagMask(header, flag)), k)
  {
    forall k | k in flag ensures CleansTo(header, k) <==> CleansTo(Select(header, FlagMask(header, flag)), k) {
      FlagFoundIff(header, flag, k);
    }
  }

  /** Lines 469-475 on the header: the flagged columns are gathered and each flag key looked for among them. */
  method CheckHeaderFlags(header: seq<string>, flag: map<string, Field>) returns (r: Option<Failure>)
    ensures r.None? <==> FlagsFound(header, flag)
    ensures r.Some? ==> r.value.FlaggedColumnAbsent? && r.value.name in flag && !CleansTo(header, r.value.name)
  {
    var used := Select(header, FlagMask(header, flag));
    r := CheckFlagsFound(used, flag);
    FlagsFoundIff(header, flag);
    if r.Some? {
      FlagFoundIff(header, flag, r.value.name);
    }
  }

  /**
   * What lines 505-523 give once every flag names a column: the columns read
   * and their fields, or the first required column that is missing.
   */
  function SelectionOf(a: SelectArgs, header: seq<string>, setup: FlagSetup, cn: map<string, Field>): (r: Result<Selection, Failure>)
    requires setup.flag.Values <= InternalFields && FixesLabels(cn)
    ensures r.Ok? <==> MissingColumn(ReadFields(header, setup.flag, cn, a.flags.signedSumstats), a.checks, a.flags.signedSumstats).None?
    ensures r.Err? ==> r.error in {NoNColumn, NoPColumn, NoSignedStatistic, NoSnpColumn, NoAlleleColumns}
    ensures r.Err? ==> !r.error.FlaggedColumnAbsent?
    ensures r.Ok? ==>
      && r.value.flag == setup.flag && r.value.signedNull == setup.signedNull && r.value.cnames == cn
      && r.value.usecols == ReadColumns(header, setup.flag, cn, a.flags.signedSumstats)
      && r.value.fields == ReadFields(header, setup.flag, cn, a.flags.signedSumstats)
  {
    var fields := ReadFields(header, setup.flag, cn, a.flags.signedSumstats);
    match MissingColumn(fields, a.checks, a.flags.signedSumstats)
    case Some(e) => Err(e)
    case None => Ok(Selection(setup.flag, setup.signedNull, cn, ReadColumns(header, setup.flag, cn, a.flags.signedSumstats), fields))
  }

  /** Once every flag names a header column, a selection reads every flagged column. */
  lemma SelectionReadsFlagged(a: SelectArgs, header: seq<string>, setup: FlagSetup, cn: map<string, Field>)
    requires setup.flag.Values <= InternalFields && FixesLabels(cn)
    requires FlagsFound(header, setup.flag)
    ensures var r := SelectionOf(a, header, setup, cn);
      && (r.Err? ==> !r.error.FlaggedColumnAbsent?)
      && (r.Ok? ==> forall k :: k in r.value.flag ==> CleansTo(r.value.usecols, k))
  {
    FlaggedColumnsRead(header, setup.flag, cn, a.flags.signedSumstats);
  }

  /**
   * Lines 469-523 once the flag map and the dictionary are known: every flag
   * must name a column of the header, then the columns are read and checked.
   */
  method ReadSelected(a: SelectArgs, header: seq<string>, setup: FlagSetup, cn: map<string, Field>)
    returns (r: Result<Selection, Failure>)
    requires setup.flag.Values <= InternalFields && FixesLabels(cn)
    ensures (r.Err? && r.error.FlaggedColumnAbsent?) <==> !FlagsFound(header, setup.flag)
    ensures FlagsFound(header, setup.flag) ==> r == SelectionOf(a, header, setup, cn)
    ensures r.Ok? ==> forall k :: k in r.value.flag ==> CleansTo(r.value.usecols, k)
    ensures r.Err? ==> r.error.FlaggedColumnAbsent? || r.error in {NoNColumn, NoPColumn, NoSignedStatistic, NoSnpColumn, NoAlleleColumns}
  {
    var absent := CheckHeaderFlags(header, setup.flag);
    if absent.Some? {
      return Err(absent.value);
    }
    SelectionReadsFlagged(a, header, setup, cn);
    r := SelectionOf(a, header, setup, cn);
  }

  /**
   * Lines 410-523: the merge-flag clash, the flag map, the `--daner`
   * frequency column, then the columns read and the required-column checks.
   */
  method SelectColumns(a: SelectArgs, header: seq<string>, parseReal: string -> Option<real>)
    returns (r: Result<Selection, Failure>)
    ensures r == Err(IncompatibleMergeFlags) <==> a.merge && a.mergeAlleles
    ensures !(a.merge && a.mergeAlleles) && FlagSetupFor(a.flags, parseReal).Err? ==>
      r == Err(FlagSetupFor(a.flags, parseReal).error)
    ensures !(a.merge && a.mergeAlleles) && FlagSetupFor(a.flags, parseReal).Ok? && DanerCnames(header, a.checks.daner).Err? ==>
      r == Err(DanerCnames(header, a.checks.daner).error)
    ensures !(a.merge && a.mergeAlleles) && FlagSetupFor(a.flags, parseReal).Ok? && DanerCnames(header, a.checks.daner).Ok? ==>
      var setup := FlagSetupFor(a.flags, parseReal).value;
      var cn := DanerCnames(header, a.checks.daner).value;
      && (r.Err? && r.error.FlaggedColumnAbsent? <==> !FlagsFound(header, setup.flag))
      && (FlagsFound(header, setup.flag) ==> r == SelectionOf(a, header, setup, cn))
    ensures r.Ok? ==> DanerCnames(header, a.checks.daner) == Ok(r.value.cnames)
    ensures r.Ok? ==> r.value.flag.Values <= InternalFields && FixesLabels(r.value.cnames)
    ensures r.Ok? ==> (r.value.signedNull.Some? <==> MungeHeader.SignedGiven(a.flags))
    ensures r.Ok? ==> var s := r.value;
      && s.usecols == ReadColumns(header, s.flag, s.cnames, a.flags.signedSumstats)
      && s.fields == ReadFields(header, s.flag, s.cnames, a.flags.signedSumstats)
      && (forall k :: k in s.flag ==> CleansTo(s.usecols, k))
      && MissingColumn(s.fields, a.checks, a.flags.signedSumstats).None?
  {
    if a.merge && a.mergeAlleles {
      return Err(IncompatibleMergeFlags);
    }
    var setup := FlagMap(a.flags, parseReal);
    if setup.Err? {
      return Err(setup.error);
    }
    var cn := DanerCnames(header, a.checks.daner);
    if cn.Err? {
      return Err(cn.error);
    }
    r := ReadSelected(a, header, setup.value, cn.value);
  }

  /**
   * The selection lines 410-523 return when none of their checks fails, given
   * the outcome of the flag map (`fs`) and of the `--daner` dictionary (`dc`).
   */
  function SelectedFrom(a: SelectArgs, header: seq<string>, fs: Result<FlagSetup, Failure>,
                        dc: Result<map<string, Field>, Failure>): Option<Selection>
    requires fs.Ok? ==> fs.value.flag.Values <= InternalFields
    requires dc.Ok? ==> FixesLabels(dc.value)
  {
    if (a.merge && a.mergeAlleles) || fs.Err? || dc.Err? || !FlagsFound(header, fs.value.flag) then None
    else
      var sel := SelectionOf(a, header, fs.value, dc.value);
      if sel.Err? then None else Some(sel.value)
  }

  /** The selection lines 410-523 return when none of their checks fails. */
  function SelectedBy(a: SelectArgs, header: seq<string>, parseReal: string -> Option<real>): Option<Selection>
  {
    SelectedFrom(a, header, FlagSetupFor(a.flags, parseReal), DanerCnames(header, a.checks.daner))
  }

  /** A selection holds a null value exactly when the flag map holds one. */
  lemma SelectedNull(a: SelectArgs, header: seq<string>, fs: Result<FlagSetup, Failure>,
                     dc: Result<map<string, Field>, Failure>)
    requires fs.Ok? ==> fs.value.flag.Values <= InternalFields
    requires dc.Ok? ==> FixesLabels(dc.value)
    requires SelectedFrom(a, header, fs, dc).Some?
    ensures fs.Ok? && SelectedFrom(a, header, fs, dc).value.signedNull == fs.value.signedNull
  {
  }
}
