/** The typed facts-write request: its parts, its paths and its validation errors. */
module WriteTypes {
  import opened Text

  const MAX_JS_SAFE_INTEGER: int := 0x1F_FFFF_FFFF_FFFF

  datatype Object = UnsetObject | Entity(name: string) | Number(number: uint64)

  // An instant is the exact count of nanoseconds since the Unix epoch, unbounded:
  // Go's time.Time reaches further than an int64 of nanoseconds does.
  datatype Deadline = NoDeadline | After(duration: int64) | At(instant: int)

  const APPEND := ""
  const ENSURE := "ensure"
  const REPLACE := "replace"

  datatype Record = Record(subject: string, pred: string, obj: Object, tense: string, rawText: string,
                           mode: string, expiration: Deadline)

  datatype Retraction =
    | UnsetRetraction
    | RetractFact(factID: string)
    | RetractExact(subject: string, pred: string, obj: Object)
    | RetractSlot(subject: string, pred: string)

  datatype Correction = Correction(factID: string, replacement: Record)

  datatype Expiration = Expiration(factID: string, deadline: Deadline)

  datatype Persistence = Persistence(factID: string)

  datatype TransactionTime = NoTime | AtTime(instant: int) | Nanoseconds(nanoseconds: int64)

  const CREATE_UNKNOWN := "create"
  const REJECT_UNKNOWN := "reject"

  datatype Request = Request(
    records: seq<Record>, retractions: seq<Retraction>, corrections: seq<Correction>,
    expirations: seq<Expiration>, persistence: seq<Persistence>, vocabulary: string, transactionTime: TransactionTime)

  datatype Code =
    | EmptyRequest | VocabularyRequired | VocabularyUnnecessary | UnsupportedValue | MissingField | InvalidUTF8
    | IncompatibleFields | InvalidObject | NumberOutOfRange | InvalidDuration | InvalidTime | InvalidFactID
    | DuplicateTarget | DestinationConflict

  // Where validation failed and why; owner is the earlier target a conflict message names, "" if none.
  datatype Invalid = Invalid(code: Code, path: string, owner: string)

  function PathIndex(name: string, index: nat): (path: string)
    ensures path != ""
  {
    name + "[" + FormatUint(index) + "]"
  }
}
