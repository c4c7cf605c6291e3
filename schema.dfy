/**
 * The internal schema shared by both converters: the closed set of semantic
 * column names, the cells a table holds, and the conditions the converters raise.
 */
module Schema {
  import opened Wrappers

  /** The semantic columns (field names) of the internal schema. `MA` is the
      merge-allele column of the `--merge-alleles` list; `Chisq`, `IncAllele` and
      `DecAllele` are the extra output columns of the older converter. */
  datatype Field =
    | Snp | P | A1 | A2 | N | NCas | NCon | Z | OR | Beta | LogOdds
    | SignedSumstat | Info | Frq | NStudy | MA | Chisq | IncAllele | DecAllele

  /** The column label under which each field appears in the source. */
  function Label(f: Field): string
  {
    match f
    case Snp => "SNP"
    case P => "P"
    case A1 => "A1"
    case A2 => "A2"
    case N => "N"
    case NCas => "N_CAS"
    case NCon => "N_CON"
    case Z => "Z"
    case OR => "OR"
    case Beta => "BETA"
    case LogOdds => "LOG_ODDS"
    case SignedSumstat => "SIGNED_SUMSTAT"
    case Info => "INFO"
    case Frq => "FRQ"
    case NStudy => "NSTUDY"
    case MA => "MA"
    case Chisq => "CHISQ"
    case IncAllele => "INC_ALLELE"
    case DecAllele => "DEC_ALLELE"
  }

  /** Fields whose column must be numeric (`numeric_cols` of the newer converter). */
  const NumericFields: set<Field> :=
    {P, N, NCas, NCon, Z, OR, Beta, LogOdds, Info, Frq, SignedSumstat, NStudy}

  /** The directional statistics that have a built-in null value (`null_values`). */
  const SignedKinds: set<Field> := {LogOdds, Beta, OR, Z}

  /** The value of a directional statistic that means "no effect". */
  function NullValue(f: Field): (v: real)
    requires f in SignedKinds
    ensures v == 1.0 <==> f == OR
    ensures f != OR ==> v == 0.0
  {
    if f == OR then 1.0 else 0.0
  }

  /** A parsed cell: a column read as numbers holds `Num`, one read as strings holds `Text`. */
  datatype Value = Num(x: real) | Text(s: string)

  /** A cell of a table; `None` is a missing value (NaN, "NA" or "."). */
  type Cell = Option<Value>

  /** One row after its columns were renamed to fields. */
  type Row = map<Field, Cell>

  /** The cell of field `f`; a column the row does not have reads as missing. */
  function Get(r: Row, f: Field): Cell
  {
    if f in r then r[f] else None
  }

  /** The number in field `f`, or `None` when it is missing or not a number. */
  function NumAt(r: Row, f: Field): Option<real>
  {
    match Get(r, f)
    case Some(Num(x)) => Some(x)
    case _ => None
  }

  /** The text in field `f`, or `None` when it is missing or a number. */
  function TextAt(r: Row, f: Field): Option<string>
  {
    match Get(r, f)
    case Some(Text(s)) => Some(s)
    case _ => None
  }

  /** A data frame: its column set and its rows, in order. */
  datatype Table = Table(cols: set<Field>, rows: seq<Row>)
  {
    /** Every row has exactly the frame's columns. */
    predicate Rectangular()
    {
      forall i :: 0 <= i < |rows| ==> rows[i].Keys == cols
    }
  }

  /** Python truthiness of an optional number: `None` and `0` both count as unset. */
  predicate Truthy(o: Option<real>)
  {
    o.Some? && o.value != 0.0
  }

  /** Whether no two rows share a SNP cell. */
  predicate UniqueSnps(rows: seq<Row>)
  {
    forall i, j :: 0 <= i < j < |rows| ==> Get(rows[i], Snp) != Get(rows[j], Snp)
  }

  /** The conditions under which the converters raise. */
  datatype Failure =
    // header and flag resolution, newer converter
    | MalformedSignedFlag
    | UnparsableNumber(text: string)
    | MissingDanerColumn(prefix: string)
    | TooManySignedColumns
    | NoSignedColumn
    | MissingRequiredColumn(field: Field)
    | DuplicateRawHeader(header: string)
    | DuplicateField(field: Field)
    | CannotDetermineN
    | MissingAlleleColumns
    // the signed statistic has no null value to compare with (both converters)
    | NoNullValue
    // row pipeline, newer converter
    | NonNumericColumn
    | AllelesNotText
    | NothingToConcatenate
    | NoSnpsRemain
    | MedianOffNull
    | AllAllelesDiscordant
    // older converter
    | IncompatibleMergeFlags
    | FlagOverloaded
    | ProtectedNameConflict
    | FlaggedColumnAbsent(name: string)
    | UnknownColumnName(name: string)
    | NoSnpColumn
    | NoPColumn
    | NoSignedStatistic
    | NoNColumn
    | NoAlleleColumns
    | PNotNumeric
    | PColumnRepeated
    | NoNSpecified
    | MinNAttributeMissing
    | NotCodedACGT
    | AllStrandAmbiguous
    | StrandKeyMissing
    | MissingAttribute(field: Field)
    | AlleleMatchKeyMissing
    | NoSignedStatFound
}
