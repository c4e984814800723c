/**
 * The values a log event carries, as the JSON formatter sees them.
 *
 * The formatter dispatches on the exact runtime type of each value. The
 * variants below are the outcomes of that dispatch: one per registered type
 * (or group of types that share a writer), `Null` for a null reference, and
 * `Other` for every type the registry does not know, which the formatter
 * renders through its `ToString()` text.
 */
module Events {

  datatype Option<+T> = None | Some(value: T)

  datatype Value =
    /** a null reference */
    | Null
    /** byte, sbyte, short, ushort, int, uint, long, ulong, float, double or
        decimal, carrying the text its `ToString()` produces */
    | Num(text: string)
    /** a `string` */
    | Str(s: string)
    /** a `DateTime`, carrying its round-trip ("o") text */
    | Date(text: string)
    /** a `DateTimeOffset`, carrying its round-trip ("o") text */
    | Offset(text: string)
    /** a `LogEventPropertyLiteralValue`, wrapping the object it holds */
    | Literal(inner: Value)
    /** a `LogEventPropertySequenceValue` */
    | Seq(elems: seq<Value>)
    /** a `LogEventPropertyStructureValue`: an optional type tag and its properties */
    | Struct(tag: Option<string>, props: seq<Property>)
    /** any runtime type missing from the registry (an enum such as the
        level, a message template, an exception, a subclass of a registered
        type), carrying the text its `ToString()` produces */
    | Other(text: string)

  /** A `LogEventProperty`: a name and the value it is bound to. */
  datatype Property = Property(name: string, value: Value)

  /**
   * A log event, read-only for the formatter. The timestamp is a
   * `DateTimeOffset` and is carried as its round-trip text; the level, the
   * message template and the exception are carried as their `ToString()`
   * texts, since none of their types is registered. `properties` lists the
   * values of the event's property dictionary in iteration order.
   */
  datatype LogEvent = LogEvent(
    timestamp: string,
    level: string,
    messageTemplate: string,
    exception: Option<string>,
    properties: seq<Property>)

  /** The error `Format` raises for a null argument, naming the parameter. */
  datatype ArgumentNullException = ArgumentNullException(paramName: string)
}
