/** The values the constraint test-format parser builds. `Span.Init`,
    `MakeCompositeKey` and `Columns.Init` are taken to store their arguments
    as they are, so spans, keys and column lists are plain records here. */
module ConstraintModel {

  /** Whether a span end includes its key (`[`, `]`) or excludes it (`(`, `)`). */
  datatype SpanBoundary = IncludeBoundary | ExcludeBoundary

  /** The key values the test format supports: NULL and integers. */
  datatype Datum = DNull | DInt(value: int)

  /** A composite key: the values of a prefix of the constraint's columns. */
  datatype Key = Key(vals: seq<Datum>)

  /** One range of keys, with a boundary of its own at each end. */
  datatype Span = Span(start: Key, startBoundary: SpanBoundary, end: Key, endBoundary: SpanBoundary)

  /** A column id of the key ordering. */
  type OrderingColumn = int

  /** Ordering columns and the spans over them, in the order parsed. */
  datatype Constraint = Constraint(columns: seq<OrderingColumn>, spans: seq<Span>)
}
