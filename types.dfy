/**
  The data model shared by every component: record identities, query
  expressions and terms, the options a caller may attach to a query, the
  identifier (fingerprint) of a query, mutation operations, and the values
  and statuses handed to listeners.
 */
module Types {
  import opened Wrappers

  /** A record in the store is identified by its type and its id. */
  datatype RecordIdentity = RecordIdentity(recordType: string, id: string)

  /** The four query expressions a builder can produce. */
  datatype Expression =
    | FindRecord(record: RecordIdentity)
    | FindRecords(recordType: string)
    | FindRelatedRecord(record: RecordIdentity, relationship: string)
    | FindRelatedRecords(record: RecordIdentity, relationship: string)

  /** A named component of a composite query. */
  datatype Term = Term(key: string, expression: Expression)

  /** What a query is reduced to: a term list (composite query) or one bare expression. */
  datatype TermsOrExpression = Terms(terms: seq<Term>) | Single(expression: Expression)

  /** An options bag, passed through to the store untouched. */
  type Settings = map<string, string>

  /** One entry of the options array of a composite query. */
  datatype KeyedOptions = KeyedOptions(queryKey: string, options: Settings)

  /** Options as the caller gives them: one object, or an array of keyed objects. */
  datatype Options = ObjectOptions(settings: Settings) | ArrayOptions(entries: seq<KeyedOptions>)

  /**
    The identifier of a query, i.e. the value whose JSON text is the
    dedup and subscription key: the bare terms-or-expression, or the
    wrapper `{ termsOrExpression, options }` when options were given.
   */
  datatype Identifier =
    | Plain(termsOrExpression: TermsOrExpression)
    | WithOptions(termsOrExpression: TermsOrExpression, options: Options)

  /** One operation of a store transform, reduced to the identities it touches. */
  datatype Operation = Operation(
    record: RecordIdentity,
    relatedRecord: Option<RecordIdentity>,
    relatedRecords: Option<seq<RecordIdentity>>)

  /** A record as the store returns it. */
  datatype Record = Record(identity: RecordIdentity, attributes: map<string, string>)

  /** What one store query yields: one record or a list of records. */
  datatype Value = OneRecord(record: Record) | RecordList(records: seq<Record>)

  /** The data handed to listeners: null, one value, or a key -> value object. */
  datatype RecordData = NoData | Found(value: Value) | Keyed(values: map<string, Value>)

  /** The `{ isError, isLoading }` status of a cache read or a fetch. */
  datatype Status = Status(isError: bool, isLoading: bool)

  /** The `[data, status]` pair handed to listeners. */
  datatype Data = Data(data: RecordData, status: Status)

  /** A listener, known by the label it was registered with. */
  type Listener = nat

  /** The store's synchronous in-memory index: a hit yields a value, a miss throws. */
  type Cache = map<Expression, Value>

  /** A request to the store's remote-capable query: the expression and the options passed along. */
  datatype Request = Request(expression: Expression, settings: Option<Settings>)

  /** How the store answers remote requests once the fetch settles: a missing request rejects. */
  type Remote = map<Request, Value>
}
