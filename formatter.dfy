/**
 * The formatter itself: a writer that accumulates text, and the
 * `SimpleJsonFormatter` whose methods write an event to it call by call.
 * Every method is proved to append exactly the text the matching function
 * of `Rendering` describes, so the properties proved there hold of what
 * the formatter writes.
 */
module Formatting {
  import opened Events
  import opened Rendering

  /** A text writer: the characters written to it so far. */
  class TextWriter {
    var text: seq<char>

    constructor()
      ensures text == []
    {
      text := [];
    }

    /** Appends `s`. */
    method Write(s: string)
      modifies this
      ensures text == old(text) + s
    {
      text := text + s;
    }
  }

  /**
   * The formatter. The source keeps a dictionary from runtime types to
   * writers, filled once by the constructor and never changed; here that
   * registry is the `match` in `WriteLiteral`, one case per registered type
   * (or group of types sharing a writer).
   */
  class SimpleJsonFormatter {
    const omitEnclosingObject: bool

    constructor(omitEnclosingObject: bool := false)
      ensures this.omitEnclosingObject == omitEnclosingObject
    {
      this.omitEnclosingObject := omitEnclosingObject;
    }

    /**
     * Writes one event. A missing event or writer is reported as the
     * `ArgumentNullException` naming that parameter, the event checked
     * first, and nothing is written.
     */
    method Format(logEvent: Option<LogEvent>, output: TextWriter?) returns (error: Option<ArgumentNullException>)
      modifies output
      ensures logEvent.None? ==> error == Some(ArgumentNullException("logEvent"))
      ensures logEvent.Some? && output == null ==> error == Some(ArgumentNullException("output"))
      ensures logEvent.None? && output != null ==> output.text == old(output.text)
      ensures logEvent.Some? && output != null ==>
        error == None && output.text == old(output.text) + RenderEvent(logEvent.value, omitEnclosingObject)
    {
      if logEvent.None? {
        return Some(ArgumentNullException("logEvent"));
      }
      if output == null {
        return Some(ArgumentNullException("output"));
      }
      var e := logEvent.value;
      ghost var header := HeaderFields(e, omitEnclosingObject);
      ghost var open := if omitEnclosingObject then "" else "{";
      ghost var close := if omitEnclosingObject then "" else "}";

      if !omitEnclosingObject {
        output.Write("{");
      } else {
        AppendEmpty(old(output.text));
      }
      ghost var start := output.text;
      CursorStart(start, "", header);

      var delim := "";
      ghost var d := delim;
      ghost var before := output.text;
      delim := WriteJsonProperty("TimeStamp", Offset(e.timestamp), delim, output);
      CursorAppend(output.text, before, start, "", header, 0, d, "TimeStamp", Render(Offset(e.timestamp)));
      d := delim;
      before := output.text;
      delim := WriteJsonProperty("Level", Other(e.level), delim, output);
      CursorAppend(output.text, before, start, "", header, 1, d, "Level", Render(Other(e.level)));
      d := delim;
      before := output.text;
      delim := WriteJsonProperty("MessageTemplate", Other(e.messageTemplate), delim, output);
      CursorAppend(output.text, before, start, "", header, 2, d, "MessageTemplate", Render(Other(e.messageTemplate)));
      if e.exception.Some? {
        d := delim;
        before := output.text;
        delim := WriteJsonProperty("Exception", Other(e.exception.value), delim, output);
        CursorAppend(output.text, before, start, "", header, 3, d, "Exception", Render(Other(e.exception.value)));
        TakeAll(header, 4);
      } else {
        TakeAll(header, 3);
      }
      ghost var middle := output.text;

      if |e.properties| != 0 {
        output.Write(",\"Properties\":{");
        var pdelim := "";
        pdelim := WriteProperties(e.properties, pdelim, output);
        output.Write("}");
        Enclosed(middle, ",\"Properties\":{", Cursor("", Named(e.properties)), "}");
      } else {
        AppendEmpty(middle);
      }
      ghost var section := output.text;

      if !omitEnclosingObject {
        output.Write("}");
      } else {
        AppendEmpty(section);
      }
      Pieces(old(output.text), start, middle, section, output.text,
             open, Cursor("", header), PropertiesSection(e.properties), close, RenderEvent(e, omitEnclosingObject));
      error := None;
    }

    /** Writes a structure: braces around its tag field, if any, and its
        properties, all written through one delimiter cursor. */
    method WriteStructure(typeTag: Option<string>, properties: seq<Property>, output: TextWriter)
      modifies output
      decreases 1, properties, 2
      ensures output.text == old(output.text) + RenderStructure(typeTag, properties)
    {
      output.Write("{");
      ghost var start := output.text;
      var delim := "";
      if typeTag.Some? {
        delim := WriteJsonProperty("$typeTag", Str(typeTag.value), delim, output);
      } else {
        AppendEmpty(start);
      }
      ghost var tagged := output.text;
      delim := WriteProperties(properties, delim, output);
      output.Write("}");
      StructureText(typeTag, properties);
      if typeTag.Some? {
        Pieces(old(output.text), start, tagged, tagged + Cursor(",", Named(properties)), output.text,
               "{", Field("", "$typeTag", Render(Str(typeTag.value))), Cursor(",", Named(properties)), "}",
               RenderStructure(typeTag, properties));
      } else {
        AppendEmpty("{");
        Pieces(old(output.text), start, tagged, tagged + Cursor("", Named(properties)), output.text,
               "{", "", Cursor("", Named(properties)), "}", RenderStructure(typeTag, properties));
      }
    }

    /** The `foreach` loops of `Format` and `WriteStructure`: each property
        written as one field through the delimiter cursor, which starts at
        `precedingDelimiter` and is returned as the loop leaves it. */
    method WriteProperties(properties: seq<Property>, precedingDelimiter: string, output: TextWriter)
      returns (nextDelimiter: string)
      modifies output
      decreases 1, properties, 1
      ensures output.text == old(output.text) + Cursor(precedingDelimiter, Named(properties))
      ensures nextDelimiter == if properties == [] then precedingDelimiter else ","
    {
      ghost var fields := Named(properties);
      ghost var start := output.text;
      CursorStart(start, precedingDelimiter, fields);
      nextDelimiter := precedingDelimiter;
      var i := 0;
      while i < |properties|
        invariant 0 <= i <= |properties|
        invariant output.text == start + Cursor(precedingDelimiter, fields[..i])
        invariant nextDelimiter == if i == 0 then precedingDelimiter else ","
      {
        var property := properties[i];
        ghost var d := nextDelimiter;
        ghost var before := output.text;
        nextDelimiter := WriteJsonProperty(property.name, property.value, nextDelimiter, output);
        CursorAppend(output.text, before, start, precedingDelimiter, fields, i, d, property.name, Render(property.value));
        i := i + 1;
      }
      TakeAll(fields, i);
    }

    /** Writes a sequence: brackets around the elements, each followed by a comma. */
    method WriteSequence(elements: seq<Value>, output: TextWriter)
      modifies output
      decreases 1, elements, 1
      ensures output.text == old(output.text) + RenderSequence(elements)
    {
      output.Write("[");
      ghost var start := output.text;
      assert elements[..0] == [];
      assert start == start + Elements(elements[..0]);
      var i := 0;
      while i < |elements|
        invariant 0 <= i <= |elements|
        invariant output.text == start + Elements(elements[..i])
      {
        WriteLiteral(elements[i], output);
        output.Write(",");
        ElementsAppend(output.text, start, elements, i);
        i := i + 1;
      }
      TakeAll(elements, i);
      output.Write("]");
      Enclosed(old(output.text), "[", Elements(elements), "]");
    }

    /** Writes one field: the pending delimiter, the name in quotes
        (not escaped), a colon and the value. The cursor's new value, which
        the source passes back through a `ref` parameter, is returned. */
    method WriteJsonProperty(name: string, value: Value, precedingDelimiter: string, output: TextWriter)
      returns (nextDelimiter: string)
      modifies output
      decreases if value.Str? then 0 else 1, value, 1
      ensures output.text == old(output.text) + Field(precedingDelimiter, name, Render(value))
      ensures nextDelimiter == ","
    {
      ghost var t0 := output.text;
      output.Write(precedingDelimiter);
      ghost var t1 := output.text;
      output.Write("\"");
      ghost var t2 := output.text;
      output.Write(name);
      ghost var t3 := output.text;
      output.Write("\":");
      ghost var t4 := output.text;
      WriteLiteral(value, output);
      FieldPieces(t0, t1, t2, t3, t4, output.text, precedingDelimiter, name, Render(value));
      nextDelimiter := ",";
    }

    /** Writes a value: `null` for null, else through the writer registered
        for its exact type, else its text as a string. */
    method WriteLiteral(value: Value, output: TextWriter)
      modifies output
      decreases if value.Str? then 0 else 1, value, 0
      ensures output.text == old(output.text) + Render(value)
    {
      match value
      case Null => output.Write("null");
      case Num(text) => WriteToString(text, output);
      case Str(s) => WriteString(s, output);
      case Date(text) => WriteDateTime(text, output);
      case Offset(text) => WriteOffset(text, output);
      case Literal(inner) => WriteLiteral(inner, output);
      case Seq(elems) => WriteSequence(elems, output);
      case Struct(tag, props) => WriteStructure(tag, props, output);
      case Other(text) => WriteString(text, output);
    }

    /** Writes a number's `ToString()` text as it is. */
    static method WriteToString(number: string, output: TextWriter)
      modifies output
      ensures output.text == old(output.text) + Render(Num(number))
    {
      output.Write(number);
    }

    /** Writes a `DateTimeOffset`'s round-trip text in quotes. */
    static method WriteOffset(value: string, output: TextWriter)
      modifies output
      ensures output.text == old(output.text) + Render(Offset(value))
    {
      output.Write("\"");
      output.Write(value);
      output.Write("\"");
    }

    /** Writes a `DateTime`'s round-trip text in quotes. */
    static method WriteDateTime(value: string, output: TextWriter)
      modifies output
      ensures output.text == old(output.text) + Render(Date(value))
    {
      output.Write("\"");
      output.Write(value);
      output.Write("\"");
    }

    /** Writes a string in quotes, a backslash put before each double quote
        in it and nothing else escaped. */
    static method WriteString(value: string, output: TextWriter)
      modifies output
      ensures output.text == old(output.text) + Render(Str(value))
    {
      var content := Escape(value);
      output.Write("\"");
      output.Write(content);
      output.Write("\"");
    }
  }
}
