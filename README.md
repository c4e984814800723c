# SimpleJsonFormatter

A model of Serilog's `SimpleJsonFormatter`, a small streaming JSON encoder
for log events, with proofs about the text it writes.

The formatter writes an event to a `TextWriter` one piece at a time. It
writes an optional enclosing brace. Then come the fixed fields `TimeStamp`,
`Level` and `MessageTemplate`. `Exception` follows only when the event has
one. A `Properties` object follows only when the event has properties. Each
field goes through `WriteJsonProperty`, driven by a delimiter cursor: a
string that starts as `""` and becomes `","` after every field. Values go
through `WriteLiteral`. It writes `null` for a null reference. Otherwise it
looks up the writer registered for the value's exact runtime type. When no
writer is registered, it writes the value's `ToString()` text as a string.

The project has three modules:

- `Events` (`events.dfy`) holds the values the formatter sees:
  - `Value` has one variant per registered type, or per group of types
    sharing a writer, plus `Null`, plus `Other` for every unregistered type;
  - `Property` is a name bound to a value;
  - `LogEvent` is one event;
  - `ArgumentNullException` is the error for a null argument.
- `Rendering` (`rendering.dfy`) holds pure functions describing the text
  each writer appends:
  - `Render`, `Cursor`, `Elements`, `RenderStructure` and `RenderEvent`
    follow the writers call by call, so the delimiter cursor appears as
    `Cursor`.
  - `Join`, `Entries` and `EventEntries` describe the same text
    independently, as entries joined by commas.
  - The lemmas relate the two descriptions and state the output rules.
- `Formatting` (`formatter.dfy`) holds the imperative part:
  - a `TextWriter` class whose `text` field every `Write` appends to;
  - the `SimpleJsonFormatter` class with one method per C# method.
  
  Each method is proved to append exactly the text of the matching
  `Rendering` function. The `ref` delimiter is passed into
  `WriteJsonProperty` and its new value is returned from it.

The quirks of the source are kept, not fixed:

- Every sequence element is followed by a comma, the last one included.
  So a non-empty array ends with `,]`.
- Strings escape only the double quote.
- Property names are written without any escaping.
- The Properties object is opened with the constant `,"Properties":{`,
  which includes its leading comma.

## Model

| member | source | states |
|---|---|---|
| Formatting.SimpleJsonFormatter.constructor | src/Serilog/Formatting/Json/SimpleJsonFormatter.cs:14-16 | the formatter keeps the `omitEnclosingObject` flag it is given, `false` when none is given |
| Formatting.SimpleJsonFormatter.Format | src/Serilog/Formatting/Json/SimpleJsonFormatter.cs:40-69 | a null event or a null writer is reported as an `ArgumentNullException` for that parameter, the event checked first, and nothing is written; otherwise the text grows by exactly `RenderEvent` of the event |
| Formatting.SimpleJsonFormatter.WriteStructure | src/Serilog/Formatting/Json/SimpleJsonFormatter.cs:71-83 | the text grows by exactly the structure's rendering: braces around the optional `$typeTag` field and the properties, all written through one cursor |
| Formatting.SimpleJsonFormatter.WriteProperties | src/Serilog/Formatting/Json/SimpleJsonFormatter.cs:59-63 | the properties are written in order as cursor fields starting from the given delimiter; the cursor left afterwards is `","`, or unchanged when there are no properties (the same loop is at lines 79-80) |
| Formatting.SimpleJsonFormatter.WriteSequence | src/Serilog/Formatting/Json/SimpleJsonFormatter.cs:85-94 | the text grows by `[`, then each element's literal followed by a comma, in order, then `]` |
| Formatting.SimpleJsonFormatter.WriteJsonProperty | src/Serilog/Formatting/Json/SimpleJsonFormatter.cs:96-104 | the text grows by the pending delimiter, the quoted name as given, a colon and the value's literal; the cursor is then `","` |
| Formatting.SimpleJsonFormatter.WriteLiteral | src/Serilog/Formatting/Json/SimpleJsonFormatter.cs:106-122 | the text grows by exactly `Render(value)`; the registry lookup of lines 18-37 is one case per registered type, with the `ToString()` string fallback |
| Formatting.SimpleJsonFormatter.WriteToString | src/Serilog/Formatting/Json/SimpleJsonFormatter.cs:124-127 | a number is written as its text, unquoted |
| Formatting.SimpleJsonFormatter.WriteOffset | src/Serilog/Formatting/Json/SimpleJsonFormatter.cs:129-134 | a `DateTimeOffset` is written as its round-trip text in quotes |
| Formatting.SimpleJsonFormatter.WriteDateTime | src/Serilog/Formatting/Json/SimpleJsonFormatter.cs:136-141 | a `DateTime` is written as its round-trip text in quotes |
| Formatting.SimpleJsonFormatter.WriteString | src/Serilog/Formatting/Json/SimpleJsonFormatter.cs:143-149 | a string is written in quotes with every double quote escaped |
| Rendering.Escaping | src/Serilog/Formatting/Json/SimpleJsonFormatter.cs:145 | escaping adds exactly one character per double quote, leaves a text without quotes unchanged, and never begins with a quote |
| Rendering.UnescapeEscape | src/Serilog/Formatting/Json/SimpleJsonFormatter.cs:145 | reading an escaped text back gives the original text, so no character other than `"` is changed |
| Rendering.StringLiteral | src/Serilog/Formatting/Json/SimpleJsonFormatter.cs:143-149 | a string literal reads back as the string, is `\|s\| + 2 + (number of quotes in s)` long, starts and ends with a quote, and is the bare string in quotes when it holds no quote |
| Rendering.Dispatch | src/Serilog/Formatting/Json/SimpleJsonFormatter.cs:108-127 | null is `null`; a number is its text unquoted; an unregistered type (level, message template, exception, a subclass) is written as a string holding its text and reads back as that text |
| Rendering.LiteralWrapper | src/Serilog/Formatting/Json/SimpleJsonFormatter.cs:34 | a literal-value wrapper is written as the object it holds at any depth: `Strip`, which removes every wrapper, including those inside sequence elements and structure property values, gives a value with no wrapper left that is written exactly as the original |
| Rendering.DateLiteral | src/Serilog/Formatting/Json/SimpleJsonFormatter.cs:129-141 | `DateTime` and `DateTimeOffset` texts are written the same way; a text without quotes is written as its string literal and reads back as itself |
| Rendering.CursorSplit | src/Serilog/Formatting/Json/SimpleJsonFormatter.cs:96-104 | two runs of fields written from one cursor: the second run starts from the cursor the first leaves |
| Rendering.CursorJoin | src/Serilog/Formatting/Json/SimpleJsonFormatter.cs:96-104 | fields written from cursor `d` are `d` followed by their entries joined by single commas; no fields write nothing |
| Rendering.CursorSeparators | src/Serilog/Formatting/Json/SimpleJsonFormatter.cs:96-104 | from the initial cursor `""`, k fields whose names and values hold no comma are written with exactly k - 1 commas |
| Rendering.JoinSeparators | src/Serilog/Formatting/Json/SimpleJsonFormatter.cs:103 | k items without the separator character are joined with exactly k - 1 separators |
| Rendering.StructureText | src/Serilog/Formatting/Json/SimpleJsonFormatter.cs:71-83 | a structure is its tag field written from `""`, if there is a tag, then its properties written from the cursor the tag left |
| Rendering.Structure | src/Serilog/Formatting/Json/SimpleJsonFormatter.cs:71-83 | without a tag, a structure is its entries, comma-joined in input order, in braces; with a tag, `"$typeTag":` and the quoted tag come first, and the entries follow after one comma if there are any |
| Rendering.ElementsJoin | src/Serilog/Formatting/Json/SimpleJsonFormatter.cs:88-92 | the body of a non-empty sequence is its elements' literals comma-joined, then one more comma |
| Rendering.Sequence | src/Serilog/Formatting/Json/SimpleJsonFormatter.cs:85-94 | an empty sequence is `[]`; a non-empty one is `[`, the literals comma-joined, then `,]`, and so it ends with `,]` |
| Rendering.SequenceSeparators | src/Serilog/Formatting/Json/SimpleJsonFormatter.cs:85-94 | n elements whose literals hold no comma are written with exactly n commas |
| Rendering.PropertiesAsStructure | src/Serilog/Formatting/Json/SimpleJsonFormatter.cs:56-65 | the Properties section is one more field after a comma, whose value is the properties written as an untagged structure from a fresh cursor; with no properties it is absent |
| Rendering.Event | src/Serilog/Formatting/Json/SimpleJsonFormatter.cs:45-68 | an event is its entries in the fixed order TimeStamp, Level, MessageTemplate, Exception if present, Properties if any, joined by single commas, in braces unless they are omitted |
| Rendering.EnclosingObject | src/Serilog/Formatting/Json/SimpleJsonFormatter.cs:45-46 | with the enclosing object the text is exactly the text without it, in braces (lines 67-68 close it) |
| Rendering.FirstField | src/Serilog/Formatting/Json/SimpleJsonFormatter.cs:48-49 | without the enclosing object the text begins with `"TimeStamp":` |

## Left out

- Errors the `TextWriter` raises mid-write, and its buffering, are not modelled. The writer is an append-only character sequence.
- Each number's culture-dependent `ToString()` text is carried in the value as an opaque string, as is the round-trip (`"o"`) text of a `DateTime` or `DateTimeOffset`. Number formatting and calendar formatting are not modelled.
- The `ToString()` texts of the level (an enum), the message template and the exception are carried as opaque strings as well.
- A `ToString()` that returns null is not modelled. Every `Other` value carries a non-null text. In the source, a null text reaching the fallback at line 121 makes `Replace` at line 145 throw a `NullReferenceException`. The fields written before it then stay in the writer as partial output. The model has neither that exception nor that partial output.
- The `ITextFormatter` interface is not modelled. Neither is the construction of `LogEvent` and property-value objects.
- Exact runtime-type lookup by reflection (`value.GetType()`) is not modelled. Its outcome is the variant of `Value`: a subclass of a registered type, which the lookup misses, is an `Other` value.
- The registry dictionary built by the constructor (lines 18-37) is not kept as a field. `WriteLiteral`'s `match` plays its part, because the dictionary is never changed after construction.
- The event's property dictionary is a sequence of properties in its iteration order. The model does not require names to be unique, since the formatter never relies on it.
- Formatting.SimpleJsonFormatter.WriteProperties is a single method for the two `foreach` loops over properties (lines 60-63 and 79-80). Both loops write each property through `WriteJsonProperty` from the cursor they are given.
- Formatting.SimpleJsonFormatter.WriteJsonProperty returns the new cursor instead of assigning a `ref` parameter. Both callers store the result in the cursor variable.
- The round-trip text of a `DateTimeOffset` is opaque, so the model makes no claim about what a UTC timestamp looks like, such as `Z` against `+00:00`. It only claims that the text is written in quotes without escaping.
