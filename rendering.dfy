/**
 * The text the JSON formatter produces, as pure functions of the values it
 * is given, and the properties of that text.
 *
 * `Render`, `Cursor`, `Elements` and `RenderEvent` follow the writers of
 * SimpleJsonFormatter call by call, delimiter cursor included; `Join`,
 * `Entries` and the `...Entries` functions are independent descriptions of
 * the same text (comma-joined entries) that the lemmas relate them to.
 */
module Rendering {
  import opened Events

  // ---------------------------------------------------------------------
  // Strings
  // ---------------------------------------------------------------------

  /**
   * `s.Replace("\"", "\\\"")`: a backslash is put in front of every double
   * quote and no other character changes. Backslashes and control
   * characters are not escaped.
   */
  function Escape(s: string): string
  {
    if s == [] then []
    else (if s[0] == '"' then "\\\"" else [s[0]]) + Escape(s[1..])
  }

  /** Escaping adds one character per double quote, changes nothing in a
      text without one, and never starts with a double quote. */
  lemma {:induction false} Escaping(s: string)
    ensures |Escape(s)| == |s| + multiset(s)['"']
    ensures '"' !in s ==> Escape(s) == s
    ensures |Escape(s)| > 0 ==> Escape(s)[0] != '"'
  {
    if s != [] {
      Escaping(s[1..]);
      assert s == [s[0]] + s[1..];
    }
  }

  /** Reads an escaped text back: `\"` stands for `"`, every other character for itself. */
  function Unescape(r: string): string
  {
    if |r| >= 2 && r[0] == '\\' && r[1] == '"' then "\"" + Unescape(r[2..])
    else if r == [] then []
    else [r[0]] + Unescape(r[1..])
  }

  /** A string literal as `WriteString` emits it. */
  function Quoted(s: string): string
  {
    "\"" + Escape(s) + "\""
  }

  /** Reads a string literal back, if the text is one. */
  function ParseQuoted(r: string): Option<string>
  {
    if |r| >= 2 && r[0] == '"' && r[|r| - 1] == '"' then Some(Unescape(r[1..|r| - 1]))
    else None
  }

  // ---------------------------------------------------------------------
  // Literals and fields, following the writers
  // ---------------------------------------------------------------------

  /** `"name":literal`, the name written exactly as given. */
  function Entry(name: string, literal: string): string
  {
    "\"" + name + "\":" + literal
  }

  /** One field as `WriteJsonProperty` writes it: the pending delimiter, then the entry. */
  function Field(delim: string, name: string, literal: string): string
  {
    delim + Entry(name, literal)
  }

  /**
   * The fields a run of `WriteJsonProperty` calls writes, each given as its
   * name and the text of its value, with the delimiter cursor starting at
   * `delim`: the first field is preceded by `delim`, every later one by
   * `","`, the value every call leaves in the cursor.
   */
  function Cursor(delim: string, fields: seq<(string, string)>): string
  {
    if fields == [] then ""
    else
      var last := fields[|fields| - 1];
      Cursor(delim, fields[..|fields| - 1]) + Field(if |fields| == 1 then delim else ",", last.0, last.1)
  }

  /** The properties as fields: each name with the text of its value. */
  function Named(props: seq<Property>): seq<(string, string)>
    decreases props, 0
  {
    seq(|props|, i requires 0 <= i < |props| => (props[i].name, Render(props[i].value)))
  }

  /** The `$typeTag` field of a structure, its tag written as a string literal, or no field. */
  function TagField(tag: Option<string>): seq<(string, string)>
  {
    match tag
    case None => []
    case Some(t) => [("$typeTag", Quoted(t))]
  }

  /** The text `WriteLiteral` emits for a value: `null` for null, else the
      text of the writer registered for the value's exact type, else the
      value's text written as a string. */
  function Render(v: Value): string
  {
    match v
    case Null => "null"
    case Num(text) => text
    case Str(s) => Quoted(s)
    case Date(text) => RenderDate(text)
    case Offset(text) => RenderDate(text)
    case Literal(inner) => Render(inner)
    case Seq(elems) => RenderSequence(elems)
    case Struct(tag, props) => RenderStructure(tag, props)
    case Other(text) => Quoted(text)
  }

  /** `WriteDateTime` and `WriteOffset`: the round-trip text in quotes, not escaped. */
  function RenderDate(text: string): string
  {
    "\"" + text + "\""
  }

  /** `WriteSequence`: the elements in brackets. */
  function RenderSequence(elems: seq<Value>): string
    decreases elems, 1
  {
    "[" + Elements(elems) + "]"
  }

  /** The body of `WriteSequence`: every element followed by a comma. */
  function Elements(elems: seq<Value>): string
    decreases elems, 0
  {
    if elems == [] then ""
    else Elements(elems[..|elems| - 1]) + Render(elems[|elems| - 1]) + ","
  }

  /** `WriteStructure`: the tag field, if any, then the properties, all
      written from one cursor, in braces. */
  function RenderStructure(tag: Option<string>, props: seq<Property>): string
    decreases props, 1
  {
    "{" + Cursor("", TagField(tag) + Named(props)) + "}"
  }

  /** The fixed fields of an event, in the order `Format` writes them: the
      timestamp, the level, the message template and, if there is one, the
      exception. None of the last three types is registered, so each is
      written as a string holding its text. */
  function Header(e: LogEvent): seq<(string, string)>
  {
    [("TimeStamp", Render(Offset(e.timestamp))),
     ("Level", Render(Other(e.level))),
     ("MessageTemplate", Render(Other(e.messageTemplate)))]
    + (match e.exception
       case None => []
       case Some(x) => [("Exception", Render(Other(x)))])
  }

  /** The Properties object, its leading comma written as a constant and its
      entries from a fresh cursor, or nothing when there are no properties. */
  function PropertiesSection(props: seq<Property>): string
  {
    if |props| != 0 then ",\"Properties\":{" + Cursor("", Named(props)) + "}" else ""
  }

  /** The text `Format` writes for one event. */
  function RenderEvent(e: LogEvent, omitEnclosingObject: bool): string
  {
    (if omitEnclosingObject then "" else "{")
    + Cursor("", Header(e))
    + PropertiesSection(e.properties)
    + (if omitEnclosingObject then "" else "}")
  }

  // ---------------------------------------------------------------------
  // Reference descriptions: entries joined by a separator
  // ---------------------------------------------------------------------

  /** The items separated by `sep`: no separator before the first item or after the last. */
  function Join(items: seq<string>, sep: string): string
  {
    if |items| == 0 then ""
    else if |items| == 1 then items[0]
    else Join(items[..|items| - 1], sep) + sep + items[|items| - 1]
  }

  /** The entries of the given fields, in order. */
  function Entries(fields: seq<(string, string)>): seq<string>
  {
    seq(|fields|, i requires 0 <= i < |fields| => Entry(fields[i].0, fields[i].1))
  }

  /** The renderings of the given values, in order. */
  function RenderAll(elems: seq<Value>): seq<string>
  {
    seq(|elems|, i requires 0 <= i < |elems| => Render(elems[i]))
  }

  /** The top-level entries of an event, in the order they are written: the
      header fields, then, if there are properties, a Properties entry whose
      value is the properties rendered as an untagged structure. */
  function EventEntries(e: LogEvent): seq<string>
  {
    Entries(Header(e))
    + (if |e.properties| != 0 then [Entry("Properties", RenderStructure(None, e.properties))] else [])
  }

  // ---------------------------------------------------------------------
  // Strings: escaping is undone by reading back, and nothing else changes
  // ---------------------------------------------------------------------

  lemma {:induction false} UnescapeEscape(s: string)
    ensures Unescape(Escape(s)) == s
  {
    if s != [] {
      UnescapeEscape(s[1..]);
      var rest := Escape(s[1..]);
      if s[0] == '"' {
        assert Escape(s) == "\\\"" + rest;
        assert Escape(s)[2..] == rest;
      } else {
        assert Escape(s) == [s[0]] + rest;
        assert Escape(s)[1..] == rest;
      }
    }
  }

  /** A string literal reads back as the string. */
  lemma StringRoundTrip(s: string)
    ensures ParseQuoted(Render(Str(s))) == Some(s)
  {
    var r := Render(Str(s));
    assert r[1..|r| - 1] == Escape(s);
    UnescapeEscape(s);
  }

  /** A string renders as a quoted, quote-escaped literal that reads back as
      the string, two quotes plus one backslash per embedded quote longer. */
  lemma StringLiteral(s: string)
    ensures ParseQuoted(Render(Str(s))) == Some(s)
    ensures |Render(Str(s))| == |s| + 2 + multiset(s)['"']
    ensures Render(Str(s))[0] == '"' && Render(Str(s))[|Render(Str(s))| - 1] == '"'
    ensures '"' !in s ==> Render(Str(s)) == "\"" + s + "\""
  {
    Escaping(s);
    StringRoundTrip(s);
  }

  // ---------------------------------------------------------------------
  // The exact-type dispatch
  // ---------------------------------------------------------------------

  /** null is `null`; a number is its text, unquoted; a type missing from
      the registry is written exactly as a string holding its text would be,
      and so reads back as that text. */
  lemma Dispatch(t: string)
    ensures Render(Null) == "null"
    ensures Render(Num(t)) == t
    ensures Render(Other(t)) == Render(Str(t))
    ensures ParseQuoted(Render(Other(t))) == Some(t)
  {
    StringRoundTrip(t);
  }

  /** The value with every literal-value wrapper removed, at any depth:
      inside sequence elements and structure property values as well. */
  function Strip(v: Value): Value
  {
    match v
    case Literal(inner) => Strip(inner)
    case Seq(elems) => Seq(seq(|elems|, i requires 0 <= i < |elems| => Strip(elems[i])))
    case Struct(tag, props) =>
      Struct(tag, seq(|props|, i requires 0 <= i < |props| => Property(props[i].name, Strip(props[i].value))))
    case _ => v
  }

  /** The value holds no literal-value wrapper at any depth. */
  predicate Unwrapped(v: Value)
  {
    match v
    case Literal(_) => false
    case Seq(elems) => forall i :: 0 <= i < |elems| ==> Unwrapped(elems[i])
    case Struct(_, props) => forall i :: 0 <= i < |props| ==> Unwrapped(props[i].value)
    case _ => true
  }

  /** A literal-value wrapper is written as the object it holds, wherever it
      sits: removing every wrapper leaves a value with none that is written
      exactly as the original. */
  lemma {:induction false} LiteralWrapper(v: Value)
    ensures Unwrapped(Strip(v))
    ensures Render(Strip(v)) == Render(v)
    decreases v
  {
    match v
    case Literal(inner) =>
      LiteralWrapper(inner);
    case Seq(elems) =>
      var stripped := seq(|elems|, i requires 0 <= i < |elems| => Strip(elems[i]));
      forall i | 0 <= i < |elems|
        ensures Unwrapped(stripped[i]) && Render(stripped[i]) == Render(elems[i])
      {
        LiteralWrapper(elems[i]);
      }
      SameElements(stripped, elems);
    case Struct(tag, props) =>
      var stripped := seq(|props|, i requires 0 <= i < |props| => Property(props[i].name, Strip(props[i].value)));
      forall i | 0 <= i < |props|
        ensures Unwrapped(stripped[i].value) && Render(stripped[i].value) == Render(props[i].value)
      {
        LiteralWrapper(props[i].value);
      }
      assert Named(stripped) == Named(props);
    case _ =>
  }

  /** Elements written the same way give the same sequence body. */
  lemma {:induction false} SameElements(a: seq<Value>, b: seq<Value>)
    requires |a| == |b|
    requires forall i :: 0 <= i < |a| ==> Render(a[i]) == Render(b[i])
    ensures Elements(a) == Elements(b)
    decreases |a|
  {
    if a != [] {
      var n := |a|;
      SameElements(a[..n - 1], b[..n - 1]);
    }
  }

  /** Date and time texts are put in quotes verbatim: for a text without
      quotes (round-trip texts never hold one) that is the string literal. */
  lemma DateLiteral(t: string)
    ensures Render(Date(t)) == Render(Offset(t))
    ensures '"' !in t ==> Render(Date(t)) == Render(Str(t)) && ParseQuoted(Render(Date(t))) == Some(t)
  {
    if '"' !in t {
      Escaping(t);
      StringRoundTrip(t);
    }
  }

  // ---------------------------------------------------------------------
  // Join
  // ---------------------------------------------------------------------

  lemma Assoc(a: string, b: string, c: string)
    ensures (a + b) + c == a + (b + c)
  {
  }

  /** Text written as an opening delimiter, a body and a closing one. */
  lemma Enclosed(a: string, open: string, body: string, close: string)
    ensures a + open + body + close == a + (open + body + close)
  {
    Assoc(a, open, body);
    Assoc(a, open + body, close);
  }

  /** Text written in four pieces, one after the other, ends with the four
      pieces together. */
  lemma Pieces(t0: string, t1: string, t2: string, t3: string, t4: string,
               p1: string, p2: string, p3: string, p4: string, whole: string)
    requires t1 == t0 + p1 && t2 == t1 + p2 && t3 == t2 + p3 && t4 == t3 + p4
    requires whole == p1 + p2 + p3 + p4
    ensures t4 == t0 + whole
  {
    Assoc(t0, p1, p2);
    Assoc(t0, p1 + p2, p3);
    Assoc(t0, p1 + p2 + p3, p4);
  }

  /** The five writes of `WriteJsonProperty` together write one field. */
  lemma FieldPieces(t0: string, t1: string, t2: string, t3: string, t4: string, t5: string,
                    delim: string, name: string, literal: string)
    requires t1 == t0 + delim && t2 == t1 + "\"" && t3 == t2 + name && t4 == t3 + "\":" && t5 == t4 + literal
    ensures t5 == t0 + Field(delim, name, literal)
  {
    Pieces(t0, t1, t2, t3, t4, delim, "\"", name, "\":", delim + "\"" + name + "\":");
    Assoc(t0, delim + "\"" + name + "\":", literal);
    assert delim + "\"" + name + "\":" + literal == Field(delim, name, literal) by {
      Pieces(delim, delim + "\"", delim + "\"" + name, delim + "\"" + name + "\":",
             delim + "\"" + name + "\":" + literal, "\"", name, "\":", literal, Entry(name, literal));
    }
  }

  lemma AppendEmpty(s: string)
    ensures s + "" == s && "" + s == s
  {
  }

  lemma TakeAll<T>(s: seq<T>, k: nat)
    requires k == |s|
    ensures s[..k] == s
  {
  }

  /** Joining an item in front of others puts one separator between it and them, if there are others. */
  lemma {:induction false} JoinCons(head: string, items: seq<string>, sep: string)
    ensures Join([head] + items, sep) == head + (if items == [] then "" else sep + Join(items, sep))
    decreases |items|
  {
    var all := [head] + items;
    if items != [] {
      var init := items[..|items| - 1];
      var last := items[|items| - 1];
      assert all[..|all| - 1] == [head] + init;
      JoinCons(head, init, sep);
      assert Join(all, sep) == Join([head] + init, sep) + sep + last;
      if init == [] {
        assert Join(items, sep) == last;
      } else {
        var j := Join(init, sep);
        assert Join(items, sep) == j + sep + last;
        assert Join(all, sep) == head + (sep + j) + sep + last;
      }
    }
  }

  /** k items that hold no separator character are joined with exactly k - 1 of them. */
  lemma {:induction false} JoinSeparators(items: seq<string>, sep: string)
    requires |sep| == 1
    requires forall i :: 0 <= i < |items| ==> sep[0] !in items[i]
    ensures multiset(Join(items, sep))[sep[0]] == if items == [] then 0 else |items| - 1
  {
    if |items| > 1 {
      var init := items[..|items| - 1];
      var last := items[|items| - 1];
      JoinSeparators(init, sep);
      var j := Join(init, sep);
      assert Join(items, sep) == j + sep + last;
      assert multiset(Join(items, sep)) == multiset(j) + multiset(sep) + multiset(last);
      assert sep == [sep[0]];
    } else if |items| == 1 {
      assert sep[0] !in items[0];
    }
  }

  // ---------------------------------------------------------------------
  // The delimiter cursor: fields are joined by single commas
  // ---------------------------------------------------------------------

  /** One more call of `WriteJsonProperty` appends one field, preceded by
      `delim` if it is the first and by `","` otherwise. */
  lemma CursorSnoc(delim: string, fields: seq<(string, string)>, k: nat)
    requires k < |fields|
    ensures Cursor(delim, fields[..k + 1])
         == Cursor(delim, fields[..k]) + Field(if k == 0 then delim else ",", fields[k].0, fields[k].1)
  {
    assert fields[..k + 1][..k] == fields[..k];
  }

  /** Before the first call nothing has been written. */
  lemma CursorStart(start: string, delim: string, fields: seq<(string, string)>)
    ensures start == start + Cursor(delim, fields[..0])
  {
    assert fields[..0] == [];
  }

  /** The same step seen from the writer: text holding the first `k`
      fields, followed by field `k` written with the cursor's value, holds
      the first `k + 1` fields. */
  lemma CursorAppend(text: string, before: string, start: string, delim: string, fields: seq<(string, string)>,
                     k: nat, d: string, name: string, literal: string)
    requires k < |fields| && fields[k] == (name, literal)
    requires d == if k == 0 then delim else ","
    requires before == start + Cursor(delim, fields[..k])
    requires text == before + Field(d, name, literal)
    ensures text == start + Cursor(delim, fields[..k + 1])
  {
    CursorSnoc(delim, fields, k);
    Assoc(start, Cursor(delim, fields[..k]), Field(d, name, literal));
  }

  /** Two runs of fields written one after the other from one cursor: the
      second run starts from the cursor the first one leaves. */
  lemma {:induction false} CursorSplit(delim: string, a: seq<(string, string)>, b: seq<(string, string)>)
    ensures Cursor(delim, a + b) == Cursor(delim, a) + Cursor(if a == [] then delim else ",", b)
    decreases |b|
  {
    var d := if a == [] then delim else ",";
    if b == [] {
      assert a + b == a;
    } else {
      var init := b[..|b| - 1];
      var last := b[|b| - 1];
      CursorSplit(delim, a, init);
      assert (a + b)[..|a + b| - 1] == a + init;
      assert (a + b)[|a + b| - 1] == last;
      var f := Field(if |a + b| == 1 then delim else ",", last.0, last.1);
      assert f == Field(if |b| == 1 then d else ",", last.0, last.1);
      Assoc(Cursor(delim, a), Cursor(d, init), f);
    }
  }

  /** The text of a structure: its tag field, if any, then its properties
      written from the cursor the tag field leaves. */
  lemma StructureText(tag: Option<string>, props: seq<Property>)
    ensures tag.None? ==> RenderStructure(tag, props) == "{" + Cursor("", Named(props)) + "}"
    ensures tag.Some? ==>
      RenderStructure(tag, props) == "{" + Field("", "$typeTag", Render(Str(tag.value))) + Cursor(",", Named(props)) + "}"
  {
    if tag.Some? {
      var f := ("$typeTag", Render(Str(tag.value)));
      assert TagField(tag) == [f];
      CursorCons("", f, Named(props));
    } else {
      assert TagField(tag) + Named(props) == Named(props);
    }
  }

  /** The cursor after one field. */
  lemma CursorSingle(delim: string, f: (string, string))
    ensures Cursor(delim, [f]) == Field(delim, f.0, f.1)
  {
    assert [f][..0] == [];
    AppendEmpty(Field(delim, f.0, f.1));
  }

  /** A first field written from cursor `delim`, then the rest from `","`. */
  lemma CursorCons(delim: string, f: (string, string), rest: seq<(string, string)>)
    ensures Cursor(delim, [f] + rest) == Field(delim, f.0, f.1) + Cursor(",", rest)
  {
    CursorSplit(delim, [f], rest);
    CursorSingle(delim, f);
  }

  /** The fixed fields `Format` writes, in order, and the text of an event
      in terms of them. */
  lemma HeaderFields(e: LogEvent, omitEnclosingObject: bool) returns (fields: seq<(string, string)>)
    ensures RenderEvent(e, omitEnclosingObject)
         == (if omitEnclosingObject then "" else "{") + Cursor("", fields)
            + PropertiesSection(e.properties) + (if omitEnclosingObject then "" else "}")
    ensures |fields| == (if e.exception.Some? then 4 else 3)
    ensures fields[0] == ("TimeStamp", Render(Offset(e.timestamp)))
    ensures fields[1] == ("Level", Render(Other(e.level)))
    ensures fields[2] == ("MessageTemplate", Render(Other(e.messageTemplate)))
    ensures e.exception.Some? ==> fields[3] == ("Exception", Render(Other(e.exception.value)))
  {
    fields := Header(e);
  }

  /** One more element written by `WriteSequence`: its text and a comma. */
  lemma ElementsAppend(text: string, start: string, elems: seq<Value>, k: nat)
    requires k < |elems|
    requires text == start + Elements(elems[..k]) + Render(elems[k]) + ","
    ensures text == start + Elements(elems[..k + 1])
  {
    assert elems[..k + 1][..k] == elems[..k];
    Enclosed(start, Elements(elems[..k]), Render(elems[k]), ",");
  }

  /** Writing fields from cursor `delim` gives the cursor, then the entries
      joined by single commas; no fields give no text at all. */
  lemma {:induction false} CursorJoin(delim: string, fields: seq<(string, string)>)
    ensures Cursor(delim, fields) == if fields == [] then "" else delim + Join(Entries(fields), ",")
  {
    if |fields| == 1 {
      CursorJoinOne(delim, fields);
    } else if |fields| > 1 {
      CursorJoin(delim, fields[..|fields| - 1]);
      CursorJoinStep(delim, fields);
    }
  }

  lemma CursorJoinOne(delim: string, fields: seq<(string, string)>)
    requires |fields| == 1
    ensures Cursor(delim, fields) == delim + Join(Entries(fields), ",")
  {
    var e := Entry(fields[0].0, fields[0].1);
    assert fields[..0] == [];
    assert Cursor(delim, fields) == "" + (delim + e);
    assert Join(Entries(fields), ",") == e;
    AppendEmpty(delim + e);
  }

  lemma CursorJoinStep(delim: string, fields: seq<(string, string)>)
    requires |fields| > 1
    requires Cursor(delim, fields[..|fields| - 1]) == delim + Join(Entries(fields[..|fields| - 1]), ",")
    ensures Cursor(delim, fields) == delim + Join(Entries(fields), ",")
  {
    var n := |fields|;
    var init := fields[..n - 1];
    var e := Entry(fields[n - 1].0, fields[n - 1].1);
    var es := Entries(fields);
    var j := Join(Entries(init), ",");
    assert Cursor(delim, fields) == (delim + j) + ("," + e);
    EntriesPrefix(fields, n - 1);
    assert es[n - 1] == e;
    assert Join(es, ",") == j + "," + e;
    Assoc(delim, j, "," + e);
    Assoc(j, ",", e);
  }

  lemma EntriesPrefix(fields: seq<(string, string)>, k: nat)
    requires k <= |fields|
    ensures Entries(fields)[..k] == Entries(fields[..k])
  {
  }

  /** The characters of an entry are those of its name and its value, a colon and two quotes. */
  lemma EntryWithout(c: char, name: string, literal: string)
    requires c != '"' && c != ':' && c !in name && c !in literal
    ensures c !in Entry(name, literal)
  {
    var quote, colon := "\"", "\":";
    assert c !in quote && c !in colon;
    assert Entry(name, literal) == quote + name + colon + literal;
  }

  /** From the initial cursor `""`, k fields whose entries hold no comma are
      written with exactly k - 1 commas. */
  lemma CursorSeparators(fields: seq<(string, string)>)
    requires forall i :: 0 <= i < |fields| ==> ',' !in fields[i].0 && ',' !in fields[i].1
    ensures multiset(Cursor("", fields))[','] == if fields == [] then 0 else |fields| - 1
  {
    if fields != [] {
      var entries := Entries(fields);
      EntriesWithoutComma(fields);
      JoinSeparators(entries, ",");
      CursorJoin("", fields);
      AppendEmpty(Join(entries, ","));
    }
  }

  lemma EntriesWithoutComma(fields: seq<(string, string)>)
    requires forall i :: 0 <= i < |fields| ==> ',' !in fields[i].0 && ',' !in fields[i].1
    ensures forall i :: 0 <= i < |Entries(fields)| ==> ","[0] !in Entries(fields)[i]
  {
    forall i | 0 <= i < |fields|
      ensures ',' !in Entries(fields)[i]
    {
      EntryWithout(',', fields[i].0, fields[i].1);
    }
  }

  // ---------------------------------------------------------------------
  // Structures and sequences
  // ---------------------------------------------------------------------

  /** A structure without a tag is its properties' entries, in order,
      comma-joined and wrapped in braces. With a tag, the `$typeTag` entry
      (the tag as a string literal) comes first and the properties'
      entries, if any, follow it after one comma. */
  lemma Structure(tag: Option<string>, props: seq<Property>)
    ensures tag.None? ==> RenderStructure(tag, props) == "{" + Join(Entries(Named(props)), ",") + "}"
    ensures tag.Some? ==>
      RenderStructure(tag, props)
      == "{" + Entry("$typeTag", Render(Str(tag.value)))
         + (if props == [] then "" else "," + Join(Entries(Named(props)), ",")) + "}"
  {
    var fields := Named(props);
    var j := Join(Entries(fields), ",");
    StructureText(tag, props);
    if tag.Some? {
      CursorJoin(",", fields);
      AppendEmpty(Entry("$typeTag", Render(Str(tag.value))));
      assert Cursor(",", fields) == if props == [] then "" else "," + j;
    } else {
      CursorJoin("", fields);
      AppendEmpty(j);
      assert Cursor("", fields) == j;
    }
  }

  /** The body of a sequence is the elements comma-joined, then one more comma. */
  lemma {:induction false} ElementsJoin(elems: seq<Value>)
    ensures elems != [] ==> Elements(elems) == Join(RenderAll(elems), ",") + ","
  {
    if |elems| == 1 {
      assert elems[..0] == [];
      AppendEmpty(Render(elems[0]));
    } else if |elems| > 1 {
      ElementsJoin(elems[..|elems| - 1]);
      ElementsJoinStep(elems);
    }
  }

  lemma ElementsJoinStep(elems: seq<Value>)
    requires |elems| > 1
    requires Elements(elems[..|elems| - 1]) == Join(RenderAll(elems[..|elems| - 1]), ",") + ","
    ensures Elements(elems) == Join(RenderAll(elems), ",") + ","
  {
    var n := |elems|;
    var all := RenderAll(elems);
    var j := Join(RenderAll(elems[..n - 1]), ",");
    assert all[..n - 1] == RenderAll(elems[..n - 1]);
    assert Join(all, ",") == j + "," + all[n - 1];
  }

  /** An empty sequence is `[]`; otherwise the elements are comma-joined in
      order and one more comma follows the last, so the text ends with `,]`. */
  lemma Sequence(elems: seq<Value>)
    ensures elems == [] ==> RenderSequence(elems) == "[]"
    ensures elems != [] ==> RenderSequence(elems) == "[" + Join(RenderAll(elems), ",") + ",]"
    ensures elems != [] ==> RenderSequence(elems)[|RenderSequence(elems)| - 2..] == ",]"
  {
    if elems != [] {
      SequenceJoin(elems);
      var r := RenderSequence(elems);
      assert r == "[" + Join(RenderAll(elems), ",") + ",]";
      assert r[|r| - 2..] == ",]";
    }
  }

  lemma SequenceJoin(elems: seq<Value>)
    requires elems != []
    ensures RenderSequence(elems) == "[" + Join(RenderAll(elems), ",") + ",]"
  {
    ElementsJoin(elems);
    var j := Join(RenderAll(elems), ",");
    Assoc("[", j, ",");
    Assoc("[" + j, ",", "]");
    assert "," + "]" == ",]";
  }

  /** n elements whose renderings hold no comma are written with exactly n
      commas: one after each. */
  lemma SequenceSeparators(elems: seq<Value>)
    requires forall i :: 0 <= i < |elems| ==> ',' !in Render(elems[i])
    ensures multiset(RenderSequence(elems))[','] == |elems|
  {
    if elems == [] {
      EmptySequenceSeparators(elems);
    } else {
      var rendered := RenderAll(elems);
      forall i | 0 <= i < |rendered|
        ensures ',' !in rendered[i]
      {
        assert rendered[i] == Render(elems[i]);
      }
      SequenceJoin(elems);
      BracketedSeparators(rendered);
    }
  }

  lemma EmptySequenceSeparators(elems: seq<Value>)
    requires elems == []
    ensures multiset(RenderSequence(elems))[','] == 0
  {
    assert RenderSequence(elems) == ['[', ']'];
  }

  lemma BracketedSeparators(items: seq<string>)
    requires items != []
    requires forall i :: 0 <= i < |items| ==> ',' !in items[i]
    ensures multiset("[" + Join(items, ",") + ",]")[','] == |items|
  {
    var j := Join(items, ",");
    assert multiset(j)[','] == |items| - 1 by {
      assert forall i :: 0 <= i < |items| ==> ","[0] !in items[i];
      JoinSeparators(items, ",");
    }
    assert multiset("[" + j + ",]") == multiset("[") + multiset(j) + multiset(",]");
    assert multiset("[")[','] == 0 && multiset(",]")[','] == 1;
  }

  // ---------------------------------------------------------------------
  // Events
  // ---------------------------------------------------------------------

  /** The Properties section is one more field, written after a comma, whose
      value is the properties rendered as an untagged structure. */
  lemma PropertiesAsStructure(props: seq<Property>)
    ensures props != [] ==> PropertiesSection(props) == Field(",", "Properties", RenderStructure(None, props))
    ensures props == [] ==> PropertiesSection(props) == ""
  {
    if props != [] {
      var c := Cursor("", Named(props));
      var name := "\"" + "Properties" + "\":";
      StructureText(None, props);
      PropertiesKey();
      Regroup(",", name, "{", c, "}");
    }
  }

  lemma PropertiesKey()
    ensures ",\"Properties\":{" == "," + ("\"" + "Properties" + "\":") + "{"
  {
  }

  lemma Regroup(a: string, b: string, c: string, d: string, e: string)
    ensures a + (b + (c + d + e)) == a + b + c + d + e
  {
  }

  /** An event is its entries in fixed order (TimeStamp, Level,
      MessageTemplate, Exception if there is one, Properties if there are
      any), joined by single commas, inside braces unless the enclosing
      object is omitted. */
  lemma Event(e: LogEvent, omitEnclosingObject: bool)
    ensures RenderEvent(e, omitEnclosingObject)
      == (if omitEnclosingObject then "" else "{") + Join(EventEntries(e), ",") + (if omitEnclosingObject then "" else "}")
  {
    var open := if omitEnclosingObject then "" else "{";
    var close := if omitEnclosingObject then "" else "}";
    var h := Entries(Header(e));
    var j := Join(h, ",");
    var section := PropertiesSection(e.properties);
    assert Cursor("", Header(e)) == j by {
      CursorJoin("", Header(e));
      assert "" + j == j;
    }
    assert RenderEvent(e, omitEnclosingObject) == open + j + section + close;
    PropertiesAsStructure(e.properties);
    if e.properties != [] {
      var p := Entry("Properties", RenderStructure(None, e.properties));
      assert section == "," + p;
      assert EventEntries(e) == h + [p];
      assert (h + [p])[..|h|] == h;
      assert Join(EventEntries(e), ",") == j + "," + p;
      Assoc(j, ",", p);
      Assoc(open, j, "," + p);
    } else {
      assert EventEntries(e) == h;
      assert open + j + "" == open + j;
    }
  }

  /** Omitting the enclosing object drops exactly the outer braces. */
  lemma EnclosingObject(e: LogEvent)
    ensures RenderEvent(e, false) == "{" + RenderEvent(e, true) + "}"
  {
    var c := Cursor("", Header(e));
    var section := PropertiesSection(e.properties);
    assert RenderEvent(e, true) == c + section by {
      assert "" + c == c;
      assert c + section + "" == c + section;
    }
    Assoc("{", c, section);
  }

  /** Without the enclosing object the text begins with the TimeStamp field. */
  lemma FirstField(e: LogEvent)
    ensures RenderEvent(e, true)[..12] == "\"TimeStamp\":"
  {
    var fields := Header(e);
    var c := Cursor("", fields);
    var section := PropertiesSection(e.properties);
    var key := "\"" + "TimeStamp" + "\":";
    var literal := Render(Offset(e.timestamp));
    assert fields == [fields[0]] + fields[1..];
    CursorCons("", fields[0], fields[1..]);
    AppendEmpty(key + literal);
    assert c == (key + literal) + Cursor(",", fields[1..]);
    assert RenderEvent(e, true) == c + section by {
      AppendEmpty(c);
      AppendEmpty(c + section);
    }
    Prefix(key, literal);
    PrefixOf(key + literal, Cursor(",", fields[1..]), 12);
    PrefixOf(c, section, 12);
    assert key == "\"TimeStamp\":";
  }

  lemma PrefixOf(a: string, b: string, k: nat)
    requires k <= |a|
    ensures (a + b)[..k] == a[..k]
  {
  }

  lemma Prefix(a: string, b: string)
    ensures (a + b)[..|a|] == a
  {
  }
}
