/** Event streams as they are written (HTML, section 9.2.5): lines of comments and
    fields with any of three terminators. Whatever is written is what is read. */
module EventStreams {
  import opened Prelude
  import opened Encodings
  import opened Sse

  /** One line. A value may be set off by one space, which is not part of it. */
  datatype Line =
    | Blank
    | Comment(text: Bytes)
    | Field(name: Bytes, value: Bytes, spaced: bool)
    | Bare(name: Bytes)

  datatype Terminator = Lf | Cr | CrLf

  datatype Item = Item(line: Line, end: Terminator)

  function TextOf(l: Line): Bytes {
    match l
    case Blank => []
    case Comment(text) => [58] + text
    case Field(name, value, spaced) => name + [58] + (if spaced then [32] else []) + value
    case Bare(name) => name
  }

  function EndOf(t: Terminator): Bytes {
    match t
    case Lf => [10]
    case Cr => [13]
    case CrLf => [13, 10]
  }

  function Written(items: seq<Item>): Bytes {
    if items == [] then [] else TextOf(items[0].line) + EndOf(items[0].end) + Written(items[1..])
  }

  predicate OneLine(s: Bytes) {
    forall k :: 0 <= k < |s| ==> s[k] != 10 && s[k] != 13
  }

  /** What the grammar allows on a line that is not too long. */
  predicate Writable(l: Line) {
    && OneLine(TextOf(l)) && Utf8(TextOf(l)) && |TextOf(l)| <= 256 * 1024
    && (l.Field? || l.Bare? ==> l.name != [] && 58 !in l.name)
    && (l.Field? && !l.spaced ==> !([32] <= l.value))
  }

  /** A carriage return is not followed by what would make it half a terminator. */
  predicate Separate(items: seq<Item>) {
    forall k :: 0 < k < |items| && items[k - 1].end == Cr ==> items[k] != Item(Blank, Lf)
  }

  predicate WellWritten(items: seq<Item>) {
    (forall k :: 0 <= k < |items| ==> Writable(items[k].line)) && Separate(items)
  }

  // ---- What is meant -------------------------------------------------------

  /** The values of an event's data fields, whether it has an event field, whether
      that names another kind than "message", and the blank lines so far. */
  datatype Meant = Meant(data: seq<Bytes>, event: bool, foreign: bool, blanks: nat)

  const NOTHING: Meant := Meant([], false, false, 0)

  function Joined(data: seq<Bytes>): Bytes {
    if data == [] then [] else if |data| == 1 then data[0] else data[0] + [10] + Joined(data[1..])
  }

  function Noted(t: Meant, name: Bytes, value: Bytes): Meant {
    if name == [100, 97, 116, 97] then t.(data := t.data + [value])
    else if name == [101, 118, 101, 110, 116] then t.(event := true, foreign := value != [] && value != [109, 101, 115, 115, 97, 103, 101])
    else t
  }

  datatype Outcome = Outcome(open: Meant, messages: seq<Bytes>)

  /** The messages of a stream: at each blank line the values of the data fields
      since the last one, joined by line feeds, unless that is empty. */
  function Interpret(t: Meant, lines: seq<Line>): Result<Outcome>
    decreases |lines|
  {
    if lines == [] then Ok(Outcome(t, []))
    else
      match lines[0]
      case Comment(_) => Interpret(t, lines[1..])
      case Field(name, value, _) => Interpret(Noted(t, name, value), lines[1..])
      case Bare(name) => Interpret(Noted(t, name, []), lines[1..])
      case Blank =>
        if t.blanks >= 128 then Err(LimitExceeded)
        else if t.foreign then Err(InspectionUnavailable)
        else
          var rest := Interpret(Meant([], false, false, t.blanks + 1), lines[1..]);
          if rest.Err? || Joined(t.data) == [] then rest
          else Ok(Outcome(rest.value.open, [Joined(t.data)] + rest.value.messages))
  }

  function LinesOf(items: seq<Item>): seq<Line> {
    seq(|items|, k requires 0 <= k < |items| => items[k].line)
  }

  // ---- The decoder's memory ------------------------------------------------

  /** Each value with a line feed behind it. */
  function Buffer(data: seq<Bytes>): Bytes {
    if data == [] then [] else Buffer(data[..|data| - 1]) + data[|data| - 1] + [10]
  }

  predicate Remembers(c: Core, t: Meant) {
    c.data == Buffer(t.data) && c.event == t.event && c.unsupported == t.foreign && c.events == t.blanks
  }

  lemma {:induction false} BufferFirst(data: seq<Bytes>)
    requires data != []
    ensures Buffer(data) == data[0] + [10] + Buffer(data[1..])
    decreases |data|
  {
    var n := |data| - 1;
    if n == 0 {
      assert data[..0] == [] && data[1..] == [];
    } else {
      BufferFirst(data[..n]);
      assert data[..n][1..] == data[1..][..n - 1];
      JoinAssociates(data[0] + [10], Buffer(data[1..][..n - 1]), data[n] + [10]);
      JoinAssociates(Buffer(data[..n]), data[n], [10]);
      JoinAssociates(Buffer(data[1..][..n - 1]), data[n], [10]);
    }
  }

  lemma {:induction false} JoinedIsBuffer(data: seq<Bytes>)
    requires data != []
    ensures Buffer(data) == Joined(data) + [10]
  {
    BufferFirst(data);
    if |data| == 1 {
      assert data[1..] == [];
    } else {
      JoinedIsBuffer(data[1..]);
      JoinAssociates(data[0] + [10], Joined(data[1..]), [10]);
    }
  }

  // ---- One line ------------------------------------------------------------

  lemma NameOf(name: Bytes, rest: Bytes)
    requires 58 !in name
    ensures FieldName(name + [58] + rest) == name && FieldName(name) == name
    ensures Index(name + [58] + rest, COLON) == |name| && Index(name, COLON) == |name|
  {
    var s := name + [58] + rest;
    assert s[|name|] == 58;
    assert forall j :: 0 <= j < |name| ==> s[j] == name[j] && name[j] in name;
    IndexAt(s, COLON, |name|);
    IndexNone(name);
    assert s[..|name|] == name && name[..|name|] == name;
  }

  lemma {:induction false} IndexNone(s: Bytes)
    requires 58 !in s
    ensures Index(s, COLON) == |s|
  {
    if s != [] { IndexNone(s[1..]); }
  }

  lemma ValueOf(name: Bytes, value: Bytes, spaced: bool)
    requires 58 !in name && (!spaced ==> !([32] <= value))
    ensures FieldValue(TextOf(Field(name, value, spaced))) == value
  {
    hide FieldName, Index;
    var rest := (if spaced then [32] else []) + value;
    NameOf(name, rest);
    var s := TextOf(Field(name, value, spaced));
    assert s == name + [58] + rest;
    assert s[|name| + 1..] == rest;
    if spaced {
      assert s[|name| + 1] == 32;
      assert rest[1..] == value && s[|name| + 2..] == rest[1..];
    } else if value != [] {
      assert s[|name| + 1] == value[0] && rest == value;
      assert value[..1] == [value[0]];
    }
  }

  /** The line after a byte order mark that may be stripped, in the decoder's memory. */
  lemma FieldStep(c: Core, l: Line, t: Meant)
    requires Writable(l) && !l.Blank? && Remembers(c, t) && (c.seen || !(BOM <= TextOf(l)))
    requires |c.data| + |TextOf(l)| < MAX_RESPONSE
    ensures LineStep(c, TextOf(l)).Ok? && LineStep(c, TextOf(l)).value.message.None? && LineStep(c, TextOf(l)).value.core.seen
    ensures Remembers(LineStep(c, TextOf(l)).value.core, if l.Comment? then t else Noted(t, l.name, if l.Field? then l.value else []))
    ensures |LineStep(c, TextOf(l)).value.core.data| <= |c.data| + |TextOf(l)| + 1
  {
    hide Utf8, FieldName, FieldValue, Buffer, OneLine;
    var s := TextOf(l);
    if !l.Comment? {
      var value := if l.Field? then l.value else [];
      LineNamed(l);
      BufferMore(t.data, value);
    }
  }

  lemma LineNamed(l: Line)
    requires (l.Field? || l.Bare?) && l.name != [] && 58 !in l.name && (l.Field? && !l.spaced ==> !([32] <= l.value))
    ensures FieldName(TextOf(l)) == l.name && FieldValue(TextOf(l)) == if l.Field? then l.value else []
    ensures TextOf(l) != [] && TextOf(l)[0] != COLON
  {
    hide FieldName, FieldValue, Index;
    if l.Field? {
      var rest := (if l.spaced then [32] else []) + l.value;
      ValueOf(l.name, l.value, l.spaced);
      NameOf(l.name, rest);
      JoinAssociates(l.name + [58], if l.spaced then [32] else [], l.value);
    } else {
      BareIs(l.name);
    }
    assert TextOf(l)[0] == l.name[0] && l.name[0] in l.name;
  }

  lemma BareIs(name: Bytes)
    requires 58 !in name
    ensures FieldName(name) == name && FieldValue(name) == []
  {
    hide Index;
    NameOf(name, []);
  }

  lemma BufferMore(data: seq<Bytes>, value: Bytes)
    ensures Buffer(data + [value]) == Buffer(data) + value + [LF]
  {
    assert (data + [value])[..|data|] == data;
  }

  lemma BlankStep(c: Core, t: Meant)
    requires Remembers(c, t)
    ensures t.blanks >= 128 ==> LineStep(c, []) == Err(LimitExceeded)
    ensures t.blanks < 128 && t.foreign ==> LineStep(c, []) == Err(InspectionUnavailable)
    ensures t.blanks < 128 && !t.foreign ==>
              && LineStep(c, []).Ok? && LineStep(c, []).value.core.seen && LineStep(c, []).value.core.data == []
              && LineStep(c, []).value.message == (if Joined(t.data) == [] then None else Some(Joined(t.data)))
              && Remembers(LineStep(c, []).value.core, Meant([], false, false, t.blanks + 1))
  {
    hide Joined;
    if t.data != [] {
      JoinedIsBuffer(t.data);
      assert (Joined(t.data) + [10])[..|Joined(t.data)|] == Joined(t.data);
    } else {
      JoinedNone();
    }
  }

  lemma JoinedNone()
    ensures Joined([]) == []
  {
  }

  // ---- The whole stream ----------------------------------------------------

  /** The decoder's result is what was meant. */
  predicate Agrees(r: Result<Read>, q: Result<Outcome>) {
    && (r.Err? <==> q.Err?) && (r.Err? ==> r.error == q.error)
    && (r.Ok? ==> r.value.line == [] && r.value.messages == q.value.messages && Remembers(r.value.core, q.value.open))
  }

  lemma OneTaken(c: Core, items: seq<Item>)
    requires items != [] && WellWritten(items)
    ensures var l := LineStep(c, TextOf(items[0].line));
            Reference(c, Written(items)) == if l.Err? then Err(l.error) else After(l.value.message, Reference(l.value.core, Written(items[1..])))
  {
    hide Reference, LineStep, Utf8;
    var line, end, rest := TextOf(items[0].line), EndOf(items[0].end), Written(items[1..]);
    assert Writable(items[0].line);
    forall k | 0 <= k < |line| ensures !IsBreak(line[k]) {}
    ReferenceLine(c, line, end + rest);
    JoinAssociates(line, end, rest);
    NotHalf(items);
    assert Skipped(end + rest) == rest;
  }

  /** No line feed follows a carriage return that ends a line. */
  lemma NotHalf(items: seq<Item>)
    requires items != [] && WellWritten(items)
    ensures items[0].end == Cr && |items| > 1 ==> Written(items[1..]) != [] && Written(items[1..])[0] != 10
    ensures |items| == 1 ==> Written(items[1..]) == []
  {
    hide Utf8;
    if |items| > 1 && items[0].end == Cr {
      var text := TextOf(items[1].line);
      assert items[1..][0] == items[1] && Writable(items[1].line);
      assert items[1] != Item(Blank, Lf);
      if text == [] { TextNone(items[1].line); } else { assert text[0] != 10; }
    }
  }

  lemma TextNone(l: Line)
    requires Writable(l) && TextOf(l) == []
    ensures l == Blank
  {
    hide Utf8;
  }

  /** Reading a stream as it was written gives what was meant, error for error. */
  lemma {:induction false} WrittenIsRead(c: Core, t: Meant, items: seq<Item>)
    requires WellWritten(items) && Remembers(c, t) && |c.data| + |Written(items)| <= MAX_RESPONSE
    requires c.seen || items == [] || !(BOM <= TextOf(items[0].line))
    ensures Agrees(Reference(c, Written(items)), Interpret(t, LinesOf(items)))
    decreases |items|
  {
    hide LineStep, Reference, Remembers, Writable, Joined;
    if items == [] {
      EmptyLine();
      ReferenceRest(c, []);
    } else {
      var l := items[0].line;
      OneTaken(c, items);
      TailWritten(items);
      if l.Blank? {
        BlankStep(c, t);
        if t.blanks < 128 && !t.foreign {
          WrittenIsRead(LineStep(c, []).value.core, Meant([], false, false, t.blanks + 1), items[1..]);
        }
      } else {
        FieldStep(c, l, t);
        WrittenIsRead(LineStep(c, TextOf(l)).value.core, if l.Comment? then t else Noted(t, l.name, if l.Field? then l.value else []), items[1..]);
      }
    }
  }

  lemma TailWritten(items: seq<Item>)
    requires items != [] && WellWritten(items)
    ensures WellWritten(items[1..]) && LinesOf(items) == [items[0].line] + LinesOf(items[1..]) && Writable(items[0].line)
    ensures |Written(items)| >= |TextOf(items[0].line)| + 1 + |Written(items[1..])|
  {
    hide Writable;
    forall k | 0 < k < |items[1..]| && items[1..][k - 1].end == Cr ensures items[1..][k] != Item(Blank, Lf) {
      assert items[k].end == Cr;
    }
  }

  /** A leading byte order mark is not part of the first line. */
  lemma MarkIgnored(items: seq<Item>)
    requires items != [] && WellWritten(items) && !(BOM <= TextOf(items[0].line)) && |TextOf(items[0].line)| + 3 <= MAX_REQUEST
    ensures Reference(START, BOM + Written(items)) == Reference(START, Written(items))
  {
    hide Reference, Utf8, LineStep;
    var line, end, rest := TextOf(items[0].line), EndOf(items[0].end), Written(items[1..]);
    OneTaken(START, items);
    assert Writable(items[0].line);
    forall k | 0 <= k < |BOM + line| ensures !IsBreak((BOM + line)[k]) {
      if k >= 3 { assert (BOM + line)[k] == line[k - 3]; }
    }
    MarkStep(line);
    ReferenceLine(START, BOM + line, end + rest);
    JoinAssociates(BOM, line, end + rest);
    JoinAssociates(line, end, rest);
    NotHalf(items);
    assert Skipped(end + rest) == rest;
  }

  lemma MarkStep(line: Bytes)
    requires Utf8(line) && !(BOM <= line)
    ensures LineStep(START, BOM + line) == LineStep(START, line)
  {
    hide FieldName, FieldValue;
    var s := BOM + line;
    assert s[0] == 239 && s[1] == 187 && s[2] == 191;
    assert Utf8Length(s) == 3;
    assert s[3..] == line;
    hide Utf8Length;
  }

  /** The same through the decoder's bytes: any stream in this grammar, cut anywhere
      into chunks, is accepted exactly if it has a meaning, gives its messages, and
      may be finished exactly if no event is open at its end. */
  lemma WrittenIsFed(items: seq<Item>)
    requires WellWritten(items) && |Written(items)| <= MAX_RESPONSE && (items == [] || !(BOM <= TextOf(items[0].line)))
    ensures var r, q := Feed(INITIAL, Written(items)), Interpret(NOTHING, LinesOf(items));
            && (r.Err? <==> q.Err?) && (r.Err? ==> r.error == q.error)
            && (r.Ok? ==> r.value.messages == q.value.messages
                          && (MayEnd(Written(items)) <==> q.value.open.data == [] && !q.value.open.event))
  {
    hide Feed, Reference, Interpret, WellWritten, MayEnd;
    var s := Written(items);
    EmptyLine();
    FeedIsReference(START, [], s);
    assert [] + s == s;
    WrittenIsRead(START, NOTHING, items);
    if Feed(INITIAL, s).Ok? {
      FinishExactly(s);
      var open := Interpret(NOTHING, LinesOf(items)).value.open;
      BufferNone(open.data);
    }
  }

  lemma BufferNone(data: seq<Bytes>)
    ensures Buffer(data) == [] <==> data == []
  {
  }
}
