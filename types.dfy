/** The cell types of the table parser and `TYPE_MAPPING`, which turns the guessed
    type of each column into the field type the datastore's schema uses. */
module Types {
  import opened Wrappers

  /** The parser's cell types: the six keys of `TYPE_MAPPING`, and `BoolType`, a
      parser type the mapping has no entry for. */
  datatype CellType =
    | StringType
    | IntegerType
    | FloatType
    | DecimalType
    | DateType
    | DateUtilType
    | BoolType

  /** The datastore's column types. */
  datatype FieldType = TextField | NumericField | FloatField | TimestampField

  /** The only field-type names the datastore accepts. */
  const Vocabulary: set<string> := {"text", "numeric", "float", "timestamp"}

  /** The candidate types handed to the type guesser, in the order given there. */
  const Candidates: seq<CellType> := [StringType, IntegerType, FloatType, DecimalType, DateUtilType]

  /** The name a field type has in a `datastore_create` request. */
  function Name(f: FieldType): (s: string)
    ensures s in Vocabulary
  {
    match f
    case TextField => "text"
    case NumericField => "numeric"
    case FloatField => "float"
    case TimestampField => "timestamp"
  }

  /** `TYPE_MAPPING[t]`; `None` is the `KeyError` a missing key raises. */
  function TypeMapping(t: CellType): (r: Option<FieldType>)
    ensures t in Candidates ==> r.Some?
  {
    match t
    case StringType => Some(TextField)
    case IntegerType => Some(NumericField)
    case FloatType => Some(FloatField)
    case DecimalType => Some(NumericField)
    case DateType => Some(TimestampField)
    case DateUtilType => Some(TimestampField)
    case BoolType => None
  }

  /** Both integral and decimal columns are stored as `numeric`; both date types as
      `timestamp`; only `StringType` becomes `text`. */
  lemma MappingGroups()
    ensures TypeMapping(IntegerType) == TypeMapping(DecimalType) == Some(NumericField)
    ensures TypeMapping(DateType) == TypeMapping(DateUtilType) == Some(TimestampField)
    ensures forall t :: TypeMapping(t) == Some(TextField) <==> t == StringType
  {
  }

  /** `[TYPE_MAPPING[type(gt)] for gt in guessed_types]`: the field types of all columns,
      or the first guessed type that has no entry (the key of the `KeyError`). */
  function TypeNames(ts: seq<CellType>): (r: Result<seq<FieldType>, CellType>)
    ensures r.Success? <==> forall i :: 0 <= i < |ts| ==> TypeMapping(ts[i]).Some?
    ensures r.Success? ==> |r.value| == |ts|
    ensures r.Success? ==> forall i :: 0 <= i < |ts| ==> TypeMapping(ts[i]) == Some(r.value[i])
    ensures r.Failure? ==> TypeMapping(r.error).None?
    ensures r.Failure? ==>
      exists k :: 0 <= k < |ts| && ts[k] == r.error && (forall i :: 0 <= i < k ==> TypeMapping(ts[i]).Some?)
  {
    if ts == [] then Success([])
    else match TypeMapping(ts[0])
      case None => Failure(ts[0])
      case Some(f) =>
        match TypeNames(ts[1..])
        case Failure(t) => Failure(t)
        case Success(fs) => Success([f] + fs)
  }

  /** Whatever the guesser returns for a column is one of the candidates, so the
      lookup of every column succeeds and yields a name of the vocabulary. */
  lemma GuessedTypesAreMapped(ts: seq<CellType>)
    requires forall i :: 0 <= i < |ts| ==> ts[i] in Candidates
    ensures TypeNames(ts).Success?
    ensures forall i :: 0 <= i < |ts| ==> Name(TypeNames(ts).value[i]) in Vocabulary
  {
  }
}
