/** Server-sent event framing (HTML, sections 9.2.5 and 9.2.6), decoded
    incrementally, against a reference that reads the whole stream. */
module Sse {
  import opened Prelude
  import opened Encodings

  const MAX_REQUEST: nat := 256 * 1024
  const MAX_RESPONSE: nat := 1024 * 1024
  const MAX_EVENTS: nat := 128

  const CR: byte := 13
  const LF: byte := 10
  const COLON: byte := 58
  const BOM: Bytes := [239, 187, 191]
  const DATA: Bytes := [100, 97, 116, 97]
  const EVENT: Bytes := [101, 118, 101, 110, 116]
  const MESSAGE: Bytes := [109, 101, 115, 115, 97, 103, 101]

  // ---- One line ------------------------------------------------------------

  /** What the decoder remembers between lines. */
  datatype Core = Core(data: Bytes, event: bool, unsupported: bool, seen: bool, events: nat)

  const START: Core := Core([], false, false, false, 0)

  datatype Lined = Lined(core: Core, message: Option<Bytes>)

  predicate IsBreak(b: byte) {
    b == CR || b == LF
  }

  function Index(s: Bytes, b: byte): (k: nat)
    ensures k <= |s| && b !in s[..k] && (k < |s| ==> s[k] == b)
  {
    if s == [] || s[0] == b then 0
    else
      var k := Index(s[1..], b);
      assert s[..k + 1] == [s[0]] + s[1..][..k];
      k + 1
  }

  /** A field's name, and its value without one leading space. */
  function FieldName(line: Bytes): Bytes {
    line[..Index(line, COLON)]
  }

  function FieldValue(line: Bytes): (v: Bytes)
    ensures |v| + |FieldName(line)| <= |line|
  {
    var k := Index(line, COLON);
    if k == |line| then []
    else if k + 1 < |line| && line[k + 1] == SPACE then line[k + 2..]
    else line[k + 1..]
  }

  function Stripped(seen: bool, line: Bytes): (s: Bytes)
    ensures |s| <= |line|
  {
    if !seen && BOM <= line then line[3..] else line
  }

  function LineStep(c: Core, raw: Bytes): Result<Lined> {
    if !Utf8(raw) then Err(InspectionUnavailable)
    else
      var line := Stripped(c.seen, raw);
      var c1 := c.(seen := true);
      if line == [] then Blank(c1)
      else if line[0] == COLON then Ok(Lined(c1, None))
      else if FieldName(line) == DATA then
        if |FieldValue(line)| + 1 + |c.data| > MAX_RESPONSE then Err(LimitExceeded)
        else Ok(Lined(c1.(data := c.data + FieldValue(line) + [LF]), None))
      else if FieldName(line) == EVENT then
        Ok(Lined(c1.(event := true, unsupported := FieldValue(line) != [] && FieldValue(line) != MESSAGE), None))
      else Ok(Lined(c1, None))
  }

  /** A blank line dispatches the event. */
  function Blank(c: Core): Result<Lined> {
    if c.events + 1 > MAX_EVENTS then Err(LimitExceeded)
    else if c.unsupported then Err(InspectionUnavailable)
    else
      var c1 := c.(events := c.events + 1, event := false);
      if |c.data| <= 1 then Ok(Lined(c1.(data := []), None))
      else Ok(Lined(c1.(data := []), Some(c.data[..|c.data| - 1])))
  }

  // ---- The reference: split the whole stream, then fold its lines ----------

  function FirstBreak(s: Bytes): (k: nat)
    ensures k <= |s|
    ensures forall j :: 0 <= j < k ==> !IsBreak(s[j])
    ensures k < |s| ==> IsBreak(s[k])
  {
    if s == [] || IsBreak(s[0]) then 0 else FirstBreak(s[1..]) + 1
  }

  /** What follows the first line and its terminator. */
  function AfterBreak(s: Bytes): (rest: Bytes)
    requires FirstBreak(s) < |s|
    ensures |rest| < |s|
  {
    var k := FirstBreak(s);
    if s[k] == CR && k + 1 < |s| && s[k + 1] == LF then s[k + 2..] else s[k + 1..]
  }

  datatype Read = Read(core: Core, line: Bytes, messages: seq<Bytes>)

  /** Read `s` line by line; `line` is the unterminated rest. */
  function Reference(c: Core, s: Bytes): Result<Read>
    decreases |s|
  {
    var k := FirstBreak(s);
    if k > MAX_REQUEST then Err(LimitExceeded)
    else if k == |s| then Ok(Read(c, s, []))
    else
      var l := LineStep(c, s[..k]);
      if l.Err? then Err(l.error)
      else After(l.value.message, Reference(l.value.core, AfterBreak(s)))
  }

  function After(m: Option<Bytes>, r: Result<Read>): Result<Read> {
    if r.Err? || m.None? then r else Ok(r.value.(messages := [m.value] + r.value.messages))
  }

  // ---- The byte machine ----------------------------------------------------

  datatype Machine = Machine(core: Core, line: Bytes, afterCr: bool)

  const INITIAL: Machine := Machine(START, [], false)

  datatype Stepped = Stepped(machine: Machine, message: Option<Bytes>)

  function ByteStep(m: Machine, b: byte): Result<Stepped> {
    if m.afterCr && b == LF then Ok(Stepped(m.(afterCr := false), None))
    else if IsBreak(b) then
      var l := LineStep(m.core, m.line);
      if l.Err? then Err(l.error) else Ok(Stepped(Machine(l.value.core, [], b == CR), l.value.message))
    else if |m.line| >= MAX_REQUEST then Err(LimitExceeded)
    else Ok(Stepped(Machine(m.core, m.line + [b], false), None))
  }

  datatype Run = Run(machine: Machine, messages: seq<Bytes>)

  function Feed(m: Machine, s: Bytes): Result<Run>
    decreases |s|
  {
    if s == [] then Ok(Run(m, []))
    else
      var t := ByteStep(m, s[0]);
      if t.Err? then Err(t.error) else Then(t.value.message, Feed(t.value.machine, s[1..]))
  }

  function Then(m: Option<Bytes>, r: Result<Run>): Result<Run> {
    if r.Err? || m.None? then r else Ok(r.value.(messages := [m.value] + r.value.messages))
  }

  // ---- Chunks do not matter ------------------------------------------------

  function Continued(a: Result<Run>, b: Bytes): Result<Run> {
    if a.Err? then a
    else
      var next := Feed(a.value.machine, b);
      if next.Err? then next else Ok(next.value.(messages := a.value.messages + next.value.messages))
  }

  /** Feeding two chunks is feeding their concatenation. */
  lemma {:induction false} FeedJoin(m: Machine, a: Bytes, b: Bytes)
    ensures Feed(m, a + b) == Continued(Feed(m, a), b)
    decreases |a|
  {
    hide ByteStep;
    if a == [] {
      assert a + b == b;
      var next := Feed(m, b);
      if next.Ok? { assert [] + next.value.messages == next.value.messages; }
    } else {
      assert (a + b)[1..] == a[1..] + b;
      var t := ByteStep(m, a[0]);
      if t.Ok? {
        FeedJoin(t.value.machine, a[1..], b);
        var rest := Feed(t.value.machine, a[1..]);
        if t.value.message.Some? && rest.Ok? {
          var next := Feed(rest.value.machine, b);
          if next.Ok? { JoinAssociates([t.value.message.value], rest.value.messages, next.value.messages); }
        }
      }
    }
  }

  // ---- The machine computes the reference ----------------------------------

  /** The messages and the state in which the reference ends, forgetting only
      whether the last byte was a carriage return. */
  predicate Same(r: Result<Run>, q: Result<Read>) {
    && (r.Err? <==> q.Err?)
    && (r.Err? ==> r.error == q.error)
    && (r.Ok? ==> r.value.messages == q.value.messages && r.value.machine.core == q.value.core && r.value.machine.line == q.value.line)
  }

  predicate NoBreak(s: Bytes) {
    forall k :: 0 <= k < |s| ==> !IsBreak(s[k])
  }

  lemma {:induction false} BreakAfter(line: Bytes, s: Bytes)
    requires NoBreak(line)
    ensures FirstBreak(line + s) == |line| + FirstBreak(s)
    decreases |line|
  {
    if line == [] {
      assert line + s == s;
    } else {
      assert (line + s)[1..] == line[1..] + s;
      BreakAfter(line[1..], s);
    }
  }

  /** Reading `line` and then `s` by bytes is reading the lines of both. */
  lemma {:induction false} FeedIsReference(c: Core, line: Bytes, s: Bytes)
    requires NoBreak(line) && |line| <= MAX_REQUEST
    ensures Same(Feed(Machine(c, line, false), s), Reference(c, line + s))
    decreases |s|, 1
  {
    hide LineStep, FirstBreak, Reference;
    BreakAfter(line, s);
    if s == [] {
      assert line + s == line;
      ReferenceRest(c, line);
    } else if IsBreak(s[0]) {
      FeedBreak(c, line, s);
    } else {
      var m := Machine(c, line, false);
      if |line| >= MAX_REQUEST {
        TooLong(c, line, s);
      } else {
        assert line + s == line + [s[0]] + s[1..];
        FeedIsReference(c, line + [s[0]], s[1..]);
      }
    }
  }

  lemma ReferenceRest(c: Core, line: Bytes)
    requires NoBreak(line) && |line| <= MAX_REQUEST
    ensures Reference(c, line) == Ok(Read(c, line, []))
  {
    BreakAfter(line, []);
    assert line + [] == line;
  }

  lemma TooLong(c: Core, line: Bytes, s: Bytes)
    requires NoBreak(line) && |line| >= MAX_REQUEST && s != [] && !IsBreak(s[0])
    ensures Reference(c, line + s) == Err(LimitExceeded)
  {
    BreakAfter(line, s);
  }

  /** At a terminator the line is taken, and a following line feed skipped. */
  lemma {:induction false} FeedBreak(c: Core, line: Bytes, s: Bytes)
    requires NoBreak(line) && |line| <= MAX_REQUEST && s != [] && IsBreak(s[0])
    ensures Same(Feed(Machine(c, line, false), s), Reference(c, line + s))
    decreases |s|, 0
  {
    hide LineStep, FirstBreak, Reference;
    ReferenceLine(c, line, s);
    var l := LineStep(c, line);
    if l.Ok? {
      var m := Machine(l.value.core, [], s[0] == CR);
      var rest := Skipped(s);
      assert [] + rest == rest;
      FeedIsReference(l.value.core, [], rest);
      FeedSkips(l.value.core, s);
    }
  }

  function Skipped(s: Bytes): (rest: Bytes)
    requires s != []
    ensures |rest| < |s|
  {
    if s[0] == CR && |s| > 1 && s[1] == LF then s[2..] else s[1..]
  }

  lemma ReferenceLine(c: Core, line: Bytes, s: Bytes)
    requires NoBreak(line) && |line| <= MAX_REQUEST && s != [] && IsBreak(s[0])
    ensures Reference(c, line + s)
            == var l := LineStep(c, line);
               if l.Err? then Err(l.error) else After(l.value.message, Reference(l.value.core, Skipped(s)))
  {
    hide LineStep;
    BreakAfter(line, s);
    var t := line + s;
    assert FirstBreak(t) == |line|;
    assert t[..|line|] == line;
    assert t[|line|] == s[0];
    if s[0] == CR && |s| > 1 && s[1] == LF {
      assert t[|line| + 1] == s[1];
      assert t[|line| + 2..] == s[2..];
    } else {
      if |s| > 1 { assert t[|line| + 1] == s[1]; }
      assert t[|line| + 1..] == s[1..];
    }
  }

  /** After a terminator, the pending carriage return changes nothing but the
      treatment of a line feed. */
  lemma FeedSkips(c: Core, s: Bytes)
    requires s != [] && IsBreak(s[0])
    ensures var a, b := Feed(Machine(c, [], s[0] == CR), s[1..]), Feed(Machine(c, [], false), Skipped(s));
            && (a.Err? <==> b.Err?) && (a.Err? ==> a.error == b.error)
            && (a.Ok? ==> a.value.messages == b.value.messages && a.value.machine.core == b.value.machine.core
                          && a.value.machine.line == b.value.machine.line)
  {
    hide LineStep;
    if s[0] == CR && |s| > 1 && s[1] == LF {
      assert s[1..][1..] == s[2..];
    } else if s[0] == CR && |s| > 1 {
      assert ByteStep(Machine(c, [], true), s[1]) == ByteStep(Machine(c, [], false), s[1]);
    }
  }

  // ---- Where a stream may end ----------------------------------------------

  /** The terminated lines of a stream, the first one without a byte order mark. */
  function Lines(seen: bool, s: Bytes): seq<Bytes>
    decreases |s|
  {
    var k := FirstBreak(s);
    if k == |s| then [] else [Stripped(seen, s[..k])] + Lines(true, AfterBreak(s))
  }

  /** What follows the last terminator. */
  function Tail(s: Bytes): Bytes
    decreases |s|
  {
    if FirstBreak(s) == |s| then s else Tail(AfterBreak(s))
  }

  predicate IsField(line: Bytes) {
    line != [] && line[0] != COLON
  }

  /** A `data` or `event` field. */
  predicate Opens(line: Bytes) {
    IsField(line) && (FieldName(line) == DATA || FieldName(line) == EVENT)
  }

  /** A blank line follows line `i`. */
  predicate Dispatched(lines: seq<Bytes>, i: int) {
    exists j :: 0 <= j < |lines| && i < j && lines[j] == []
  }

  predicate AllDispatched(lines: seq<Bytes>) {
    forall i :: 0 <= i < |lines| && Opens(lines[i]) ==> Dispatched(lines, i)
  }

  /** No line is unterminated, and no `data` or `event` field follows the last
      blank line. */
  predicate MayEnd(s: Bytes) {
    Tail(s) == [] && AllDispatched(Lines(false, s))
  }

  predicate Idle(c: Core) {
    c.data == [] && !c.event
  }

  predicate Settled(idle: bool, lines: seq<Bytes>) {
    (idle || Dispatched(lines, -1)) && AllDispatched(lines)
  }

  lemma SettledLine(idle: bool, line: Bytes, lines: seq<Bytes>)
    ensures Settled(idle, [line] + lines) <==> Settled(if line == [] then true else idle && !Opens(line), lines)
  {
    hide FieldName;
    var all := [line] + lines;
    forall i | -1 <= i < |lines| ensures Dispatched(all, i + 1) <==> Dispatched(lines, i) {
      if j :| 0 <= j < |all| && i + 1 < j && all[j] == [] { assert lines[j - 1] == []; }
      if j :| 0 <= j < |lines| && i < j && lines[j] == [] { assert all[j + 1] == []; }
    }
    assert Dispatched(all, -1) <==> line == [] || Dispatched(lines, -1) by {
      if line == [] { assert all[0] == []; }
      if j :| 0 <= j < |all| && -1 < j && all[j] == [] { assert j == 0 || lines[j - 1] == []; }
      if Dispatched(lines, -1) { assert Dispatched(all, 0); }
    }
    if AllDispatched(all) {
      forall i | 0 <= i < |lines| && Opens(lines[i]) ensures Dispatched(lines, i) { assert Opens(all[i + 1]); }
      if Opens(line) { assert Opens(all[0]); }
    }
    if AllDispatched(lines) && (Opens(line) ==> Dispatched(lines, -1)) {
      forall i | 0 <= i < |all| && Opens(all[i]) ensures Dispatched(all, i) {
        if i > 0 { assert Opens(lines[i - 1]); }
      }
    }
  }

  lemma LineIdle(c: Core, raw: Bytes)
    requires LineStep(c, raw).Ok?
    ensures var line := Stripped(c.seen, raw);
            && LineStep(c, raw).value.core.seen
            && (Idle(LineStep(c, raw).value.core) <==> if line == [] then true else Idle(c) && !Opens(line))
  {
    hide Utf8, FieldName, FieldValue;
  }

  /** An accepted stream leaves no event open exactly when it may end there. */
  lemma {:induction false} EndsIdle(c: Core, s: Bytes)
    requires Reference(c, s).Ok?
    ensures Reference(c, s).value.line == Tail(s)
    ensures Idle(Reference(c, s).value.core) <==> Settled(Idle(c), Lines(c.seen, s))
    decreases |s|
  {
    hide LineStep, FirstBreak, Settled, Opens, Stripped, Idle;
    var k := FirstBreak(s);
    if k == |s| {
      NoLines(Idle(c));
    } else {
      LineIdle(c, s[..k]);
      EndsIdle(LineStep(c, s[..k]).value.core, AfterBreak(s));
      SettledLine(Idle(c), Stripped(c.seen, s[..k]), Lines(true, AfterBreak(s)));
    }
  }

  lemma NoLines(idle: bool)
    ensures Settled(idle, []) <==> idle
  {
  }

  /** After any accepted stream, the decoder has nothing open exactly when the
      stream may end there; and that is an event boundary exactly when no ignored
      field, such as `id` or `retry`, follows its last blank line. */
  lemma FinishExactly(s: Bytes)
    requires Feed(INITIAL, s).Ok?
    ensures var m := Feed(INITIAL, s).value.machine;
            m.line == [] && Idle(m.core) <==> MayEnd(s)
    ensures var m := Feed(INITIAL, s).value.machine;
            m.line == [] && Idle(m.core) && !IgnoredAfterBlank(s) <==> AtEventBoundary(s)
  {
    BoundaryExactly(s);
    hide Feed, Reference, MayEnd, AtEventBoundary, IgnoredAfterBlank;
    EmptyLine();
    FeedIsReference(START, [], s);
    assert [] + s == s;
    EndsIdle(START, s);
    MayEndParts(s);
  }

  lemma MayEndParts(s: Bytes)
    ensures MayEnd(s) <==> Tail(s) == [] && Settled(Idle(START), Lines(START.seen, s))
  {
    hide Tail, Lines, AllDispatched, Dispatched;
  }

  /** Each field, of whatever name, belongs to an event that a blank line ended. */
  predicate AtEventBoundary(s: Bytes) {
    var lines := Lines(false, s);
    Tail(s) == [] && forall i :: 0 <= i < |lines| && IsField(lines[i]) ==> Dispatched(lines, i)
  }

  /** A field of an ignored name follows the last blank line. */
  predicate IgnoredAfterBlank(s: Bytes) {
    var lines := Lines(false, s);
    exists i :: 0 <= i < |lines| && IsField(lines[i]) && !Opens(lines[i]) && !Dispatched(lines, i)
  }

  /** An event boundary is a place where the stream may end and no ignored field
      is open. */
  lemma BoundaryExactly(s: Bytes)
    ensures AtEventBoundary(s) <==> MayEnd(s) && !IgnoredAfterBlank(s)
  {
    hide FieldName, Dispatched, Lines, Tail;
  }

  const ID_LINE: Bytes := [105, 100, 58, 32, 49, 10]

  /** A stream that is one `id` field is finished successfully inside an event. */
  lemma IgnoredFieldFinishes()
    ensures Feed(INITIAL, ID_LINE).Ok? && MayEnd(ID_LINE) && !AtEventBoundary(ID_LINE)
  {
    hide LineStep, IsField, Opens, Feed, Lines;
    var line := ID_LINE[..5];
    IdLine(line);
    OneLine(line);
    assert !Dispatched([line], 0);
    EmptyLine();
    FeedIsReference(START, [], ID_LINE);
    assert [] + ID_LINE == ID_LINE;
  }

  lemma OneLine(line: Bytes)
    requires line == ID_LINE[..5] && Stripped(false, line) == line
    ensures Lines(false, ID_LINE) == [line] && Tail(ID_LINE) == Tail([])
    ensures FirstBreak(ID_LINE) == 5 && AfterBreak(ID_LINE) == []
  {
    hide Stripped;
    BreakAfter(line, [LF]);
    assert line + [LF] == ID_LINE;
    assert Lines(false, ID_LINE) == [line] + Lines(true, []);
  }

  lemma IdLine(line: Bytes)
    requires line == ID_LINE[..5]
    ensures IsField(line) && !Opens(line) && Stripped(false, line) == line
    ensures LineStep(START, line).Ok?
  {
    IndexAt(line, COLON, 2);
    AsciiUtf8(line, []);
    assert line + [] == line;
    assert |FieldName(line)| == 2;
  }

  // ---- Bounded memory ------------------------------------------------------

  function Buffered(m: Machine): nat {
    |m.line| + |m.core.data|
  }

  lemma LineShrinks(c: Core, line: Bytes)
    requires LineStep(c, line).Ok?
    ensures |LineStep(c, line).value.core.data| <= |c.data| + |line|
  {
    hide Utf8;
  }

  /** The decoder never buffers more than the bytes it was fed. */
  lemma {:induction false} FeedBounded(m: Machine, s: Bytes)
    requires NoBreak(m.line) && |m.line| <= MAX_REQUEST && Feed(m, s).Ok?
    ensures var n := Feed(m, s).value.machine;
            Buffered(n) <= Buffered(m) + |s| && NoBreak(n.line) && |n.line| <= MAX_REQUEST
    decreases |s|
  {
    hide LineStep;
    if s != [] {
      var t := ByteStep(m, s[0]);
      if IsBreak(s[0]) && !(m.afterCr && s[0] == LF) { LineShrinks(m.core, m.line); }
      FeedBounded(t.value.machine, s[1..]);
    }
  }

  /** Within the stream's limit the data limit is never what refuses a line. */
  lemma DataLimitUnreachable(c: Core, line: Bytes)
    requires |line| + |c.data| <= MAX_RESPONSE && Utf8(line) && Stripped(c.seen, line) != []
    requires Stripped(c.seen, line)[0] != COLON
    ensures LineStep(c, line).Ok?
  {
    hide Utf8;
  }

  // ---- What refuses a stream -----------------------------------------------

  /** What is wrong with a terminated line. */
  predicate BadLine(c: Core, raw: Bytes) {
    !Utf8(raw) || (Stripped(c.seen, raw) == [] && (c.events >= MAX_EVENTS || c.unsupported))
  }

  /** The next byte is one too many for its line, or ends a bad one. */
  predicate Fault(m: Machine, b: byte) {
    && !(m.afterCr && b == LF)
    && if IsBreak(b) then BadLine(m.core, m.line) else |m.line| >= MAX_REQUEST
  }

  lemma ByteRefused(m: Machine, b: byte)
    requires Buffered(m) <= MAX_RESPONSE
    ensures ByteStep(m, b).Err? <==> Fault(m, b)
  {
    if IsBreak(b) && !BadLine(m.core, m.line) && Stripped(m.core.seen, m.line) != [] && Stripped(m.core.seen, m.line)[0] != COLON {
      DataLimitUnreachable(m.core, m.line);
    }
    hide Utf8, FieldName, FieldValue;
  }

  predicate FaultAt(m: Machine, s: Bytes, k: int) {
    0 <= k < |s| && Feed(m, s[..k]).Ok? && Fault(Feed(m, s[..k]).value.machine, s[k])
  }

  /** A stream within the limit is refused exactly for an overlong line, a line
      that is not text, an unsupported event or too many events; the limit on the
      data of one event never refuses it. */
  lemma {:induction false} RefusedExactly(m: Machine, s: Bytes)
    requires NoBreak(m.line) && |m.line| <= MAX_REQUEST && Buffered(m) + |s| <= MAX_RESPONSE
    ensures Feed(m, s).Err? <==> exists k :: FaultAt(m, s, k)
    decreases |s|
  {
    hide Feed, Fault, ByteStep, NoBreak;
    if s == [] {
      FeedNone(m);
    } else {
      var n := |s| - 1;
      var front, last := s[..n], [s[n]];
      assert s == front + last;
      RefusedExactly(m, front);
      FeedJoin(m, front, last);
      forall k | 0 <= k < n ensures FaultAt(m, front, k) <==> FaultAt(m, s, k) { assert front[..k] == s[..k]; }
      if Feed(m, front).Ok? {
        FeedBounded(m, front);
        var mid := Feed(m, front).value.machine;
        ByteRefused(mid, s[n]);
        FeedSingle(mid, s[n]);
        assert FaultAt(m, s, n) <==> Fault(mid, s[n]);
      } else {
        var k :| FaultAt(m, front, k);
        assert FaultAt(m, s, k);
      }
    }
  }

  lemma FeedSingle(m: Machine, b: byte)
    ensures Feed(m, [b]).Err? <==> ByteStep(m, b).Err?
  {
    hide ByteStep;
    FeedOne(m, [b]);
    assert [b][1..] == [];
  }

  // ---- The decoder ---------------------------------------------------------

  /** What a caller of the decoder can tell. */
  datatype Decoder = Decoder(machine: Machine, bytes: nat, failed: bool)

  /** One push; `None` is a refusal, after which everything is refused. */
  predicate PushStep(a: Decoder, chunk: Bytes, out: Option<seq<Bytes>>, b: Decoder) {
    if a.failed || |chunk| > MAX_REQUEST || a.bytes + |chunk| > MAX_RESPONSE || Feed(a.machine, chunk).Err? then out.None? && b.failed
    else
      var run := Feed(a.machine, chunk).value;
      out == Some(run.messages) && b == Decoder(run.machine, a.bytes + |chunk|, false)
  }

  class SseDecoder {
    var line: Bytes
    var data: Bytes
    var event: bool
    var unsupportedEvent: bool
    var seenLine: bool
    var afterCr: bool
    var bytes: nat
    var events: nat
    var failed: bool
    ghost var fed: Bytes

    function Model(): Machine
      reads this
    {
      Machine(Core(data, event, unsupportedEvent, seenLine, events), line, afterCr)
    }

    function View(): Decoder
      reads this
    {
      Decoder(Model(), bytes, failed)
    }

    /** Until it fails, the decoder is where feeding all of `fed` leads. */
    ghost predicate Valid()
      reads this
    {
      && NoBreak(line) && |line| <= MAX_REQUEST && bytes <= MAX_RESPONSE && Buffered(Model()) <= bytes
      && (!failed ==> |fed| == bytes && Feed(INITIAL, fed).Ok? && Feed(INITIAL, fed).value.machine == Model())
    }

    constructor ()
      ensures Valid() && !failed && bytes == 0 && fed == [] && Model() == INITIAL
    {
      line, data, event, unsupportedEvent, seenLine, afterCr, bytes, events, failed := [], [], false, false, false, false, 0, 0, false;
      fed := [];
      new;
      FeedNone(INITIAL);
    }

    /** Decode one chunk. Any error poisons the decoder for good. */
    method Push(chunk: Bytes) returns (r: Result<seq<Bytes>>)
      requires Valid()
      modifies this
      ensures Valid()
      ensures r.Ok? <==> !old(failed) && |chunk| <= MAX_REQUEST && old(bytes) + |chunk| <= MAX_RESPONSE && Feed(old(Model()), chunk).Ok?
      ensures r.Ok? ==> r.value == Feed(old(Model()), chunk).value.messages && Model() == Feed(old(Model()), chunk).value.machine
      ensures r.Ok? ==> !failed && bytes == old(bytes) + |chunk| && fed == old(fed) + chunk
      ensures r.Err? ==> failed && line == [] && data == []
      ensures PushStep(old(View()), chunk, if r.Ok? then Some(r.value) else None, View())
    {
      hide ByteStep, LineStep, Feed, NoBreak;
      r := PushInner(chunk);
      if r.Err? {
        failed, line, data := true, [], [];
        EmptyLine();
      }
    }

    /** Decode byte by byte, within the limits on chunks and on the whole stream. */
    method PushInner(chunk: Bytes) returns (r: Result<seq<Bytes>>)
      requires Valid()
      modifies this
      ensures r.Ok? <==> !old(failed) && |chunk| <= MAX_REQUEST && old(bytes) + |chunk| <= MAX_RESPONSE && Feed(old(Model()), chunk).Ok?
      ensures r.Ok? ==> r.value == Feed(old(Model()), chunk).value.messages && Model() == Feed(old(Model()), chunk).value.machine
      ensures r.Ok? ==> !failed && bytes == old(bytes) + |chunk| && fed == old(fed) + chunk && Valid()
      ensures bytes <= MAX_RESPONSE
    {
      hide LineStep, Feed, NoBreak;
      if failed { return Err(InspectionUnavailable); }
      if |chunk| > MAX_REQUEST || |chunk| > MAX_RESPONSE - bytes { return Err(LimitExceeded); }
      ghost var start := Model();
      bytes := bytes + |chunk|;
      var messages: seq<Bytes> := [];
      FeedStart(start, chunk);
      for k := 0 to |chunk|
        invariant Fed(start, chunk, messages, Model(), k)
        invariant bytes == old(bytes) + |chunk| && !failed && fed == old(fed)
      {
        FedMore(start, chunk, messages, Model(), k);
        var byte := chunk[k];
        if afterCr {
          afterCr := false;
          if byte == LF { continue; }
        }
        if byte == CR || byte == LF {
          afterCr := byte == CR;
          var message := Line();
          if message.Err? { return Err(message.error); }
          if message.value.Some? { messages := messages + [message.value.value]; }
        } else {
          if |line| >= MAX_REQUEST { return Err(LimitExceeded); }
          line := line + [byte];
        }
      }
      FedAll(start, chunk, messages, Model());
      FeedBounded(start, chunk);
      FeedJoin(INITIAL, fed, chunk);
      fed := fed + chunk;
      return Ok(messages);
    }

    /** Take the buffered line and interpret it. */
    method Line() returns (r: Result<Option<Bytes>>)
      modifies this`line, this`data, this`event, this`unsupportedEvent, this`seenLine, this`events
      ensures var l := LineStep(old(Model()).core, old(line));
              && (r.Err? <==> l.Err?) && (r.Err? ==> r.error == l.error)
              && (r.Ok? ==> r.value == l.value.message && Model() == Machine(l.value.core, [], afterCr))
    {
      hide Utf8;
      var raw := line;
      line := [];
      if !Utf8(raw) { return Err(InspectionUnavailable); }
      var text := if !seenLine && BOM <= raw then raw[3..] else raw;
      seenLine := true;
      if text == [] {
        events := events + 1;
        if events > MAX_EVENTS { return Err(LimitExceeded); }
        event := false;
        if unsupportedEvent { return Err(InspectionUnavailable); }
        if |data| > 0 { data := data[..|data| - 1]; }
        if data == [] { return Ok(None); }
        var message := data;
        data := [];
        return Ok(Some(message));
      }
      if text[0] == COLON { return Ok(None); }
      var name, value := FieldName(text), FieldValue(text);
      if name == DATA {
        if |value| + 1 + |data| > MAX_RESPONSE { return Err(LimitExceeded); }
        data := data + value + [LF];
      } else if name == EVENT {
        event := true;
        unsupportedEvent := value != [] && value != MESSAGE;
      }
      return Ok(None);
    }

    /** Framing ends only where the bytes fed so far may end. */
    method Finish() returns (r: Result<()>)
      requires Valid()
      ensures r.Ok? <==> !failed && MayEnd(fed)
      ensures r.Err? ==> r.error == InspectionUnavailable
    {
      if !failed { FinishExactly(fed); }
      if failed || line != [] || data != [] || event { return Err(InspectionUnavailable); }
      return Ok(());
    }
  }

  lemma EmptyLine()
    ensures NoBreak([])
  {
  }

  /** After `k` bytes of `chunk` the machine is `m` and has produced `messages`. */
  ghost predicate Fed(start: Machine, chunk: Bytes, messages: seq<Bytes>, m: Machine, k: nat)
    requires k <= |chunk|
  {
    Feed(start, chunk) == Extended(messages, Feed(m, chunk[k..]))
  }

  ghost function Extended(messages: seq<Bytes>, r: Result<Run>): Result<Run> {
    if r.Err? then r else Ok(r.value.(messages := messages + r.value.messages))
  }

  lemma FeedStart(start: Machine, chunk: Bytes)
    ensures Fed(start, chunk, [], start, 0)
  {
    hide Feed;
    assert chunk[0..] == chunk;
    var r := Feed(start, chunk);
    if r.Ok? { assert [] + r.value.messages == r.value.messages; }
  }

  lemma FedMore(start: Machine, chunk: Bytes, messages: seq<Bytes>, m: Machine, k: nat)
    requires k < |chunk| && Fed(start, chunk, messages, m, k)
    ensures var t := ByteStep(m, chunk[k]);
            && (t.Err? ==> Feed(start, chunk) == Err(t.error))
            && (t.Ok? ==> Fed(start, chunk, if t.value.message.Some? then messages + [t.value.message.value] else messages, t.value.machine, k + 1))
  {
    hide ByteStep;
    var t := ByteStep(m, chunk[k]);
    FeedOne(m, chunk[k..]);
    hide Feed;
    assert chunk[k..][0] == chunk[k] && chunk[k..][1..] == chunk[k + 1..];
    if t.Ok? && t.value.message.Some? {
      var rest := Feed(t.value.machine, chunk[k + 1..]);
      if rest.Ok? { JoinAssociates(messages, [t.value.message.value], rest.value.messages); }
    }
  }

  lemma FeedOne(m: Machine, s: Bytes)
    requires s != []
    ensures var t := ByteStep(m, s[0]);
            Feed(m, s) == if t.Err? then Err(t.error) else Then(t.value.message, Feed(t.value.machine, s[1..]))
  {
  }

  lemma FedAll(start: Machine, chunk: Bytes, messages: seq<Bytes>, m: Machine)
    requires Fed(start, chunk, messages, m, |chunk|)
    ensures Feed(start, chunk) == Ok(Run(m, messages))
  {
    assert chunk[|chunk|..] == [];
    assert messages + [] == messages;
  }

  // ---- Whole streams -------------------------------------------------------

  function Concat(chunks: seq<Bytes>): Bytes {
    if chunks == [] then [] else Concat(chunks[..|chunks| - 1]) + chunks[|chunks| - 1]
  }

  /** The messages of successive pushes, and the machine they leave. */
  function Pushed(m: Machine, chunks: seq<Bytes>): Result<Run> {
    if chunks == [] then Ok(Run(m, [])) else Continued(Pushed(m, chunks[..|chunks| - 1]), chunks[|chunks| - 1])
  }

  /** However a stream is cut into chunks, carriage-return line-feed pairs
      included, the same messages come out, and they are those of the reference. */
  lemma {:induction false} ChunksDoNotMatter(chunks: seq<Bytes>)
    ensures Pushed(INITIAL, chunks) == Feed(INITIAL, Concat(chunks))
    ensures Same(Pushed(INITIAL, chunks), Reference(START, Concat(chunks)))
  {
    hide Feed, Reference;
    var m := INITIAL;
    if chunks == [] {
      FeedNone(m);
    } else {
      ChunksDoNotMatter(chunks[..|chunks| - 1]);
      FeedJoin(m, Concat(chunks[..|chunks| - 1]), chunks[|chunks| - 1]);
    }
    EmptyLine();
    FeedIsReference(START, [], Concat(chunks));
    assert [] + Concat(chunks) == Concat(chunks);
  }

  lemma FeedNone(m: Machine)
    ensures Feed(m, []) == Ok(Run(m, []))
  {
  }

  // ---- Printing ------------------------------------------------------------

  const DATA_PREFIX: Bytes := [100, 97, 116, 97, 58, 32]

  /** One data field per line of the message. */
  function DataLines(message: Bytes): Bytes {
    var k := Index(message, LF);
    if k == |message| then DATA_PREFIX + message + [LF]
    else DATA_PREFIX + message[..k] + [LF] + DataLines(message[k + 1..])
  }

  function Print(messages: seq<Bytes>): Bytes {
    if messages == [] then [] else DataLines(messages[0]) + [LF] + Print(messages[1..])
  }

  /** Each line of the message can be printed as one data field. */
  predicate ShortLines(message: Bytes)
    decreases |message|
  {
    var k := Index(message, LF);
    k + |DATA_PREFIX| <= MAX_REQUEST && (k < |message| ==> ShortLines(message[k + 1..]))
  }

  predicate Printable(message: Bytes) {
    message != [] && CR !in message && Utf8(message) && ShortLines(message) && |message| + 1 <= MAX_RESPONSE
  }

  lemma {:induction false} AsciiUtf8(a: Bytes, s: Bytes)
    requires (forall k :: 0 <= k < |a| ==> a[k] < 128) && Utf8(s)
    ensures Utf8(a + s)
  {
    if a == [] {
      assert a + s == s;
    } else {
      assert (a + s)[1..] == a[1..] + s;
      AsciiUtf8(a[1..], s);
    }
  }

  /** Splitting well-formed text at a line feed gives well-formed text. */
  lemma {:induction false} Utf8Split(s: Bytes, k: nat)
    requires Utf8(s) && k < |s| && s[k] == LF
    ensures Utf8(s[..k]) && Utf8(s[k + 1..])
    decreases |s|
  {
    var n := Utf8Length(s);
    SequenceHead(s, k);
    if k >= n {
      assert s[n..][k - n] == LF;
      Utf8Split(s[n..], k - n);
      assert s[n..][..k - n] == s[..k][n..];
      assert s[n..][k - n + 1..] == s[k + 1..];
    } else {
      assert s[..0] == [];
    }
  }

  /** A line feed is never inside a multi-byte sequence. */
  lemma SequenceHead(s: Bytes, k: nat)
    requires Utf8Length(s) > 0 && k < |s| && s[k] == LF
    ensures k < Utf8Length(s) ==> k == 0 && Utf8Length(s) == 1
    ensures k >= Utf8Length(s) ==> Utf8Length(s[..k]) == Utf8Length(s)
  {
  }

  /** Reading one printed data line adds it to the event. */
  lemma DataLineRead(c: Core, segment: Bytes, rest: Bytes)
    requires NoBreak(segment) && Utf8(segment) && |segment| + |DATA_PREFIX| <= MAX_REQUEST
    requires |c.data| + |segment| + 1 <= MAX_RESPONSE
    ensures Reference(c, DATA_PREFIX + segment + [LF] + rest)
            == Reference(c.(seen := true, data := c.data + segment + [LF]), rest)
  {
    hide LineStep, Reference, Utf8;
    var line := DATA_PREFIX + segment;
    AsciiUtf8(DATA_PREFIX, segment);
    assert NoBreak(line) by {
      forall k | 0 <= k < |line| ensures !IsBreak(line[k]) {
        if k >= |DATA_PREFIX| { assert line[k] == segment[k - |DATA_PREFIX|]; }
      }
    }
    DataLineStep(c, segment);
    JoinAssociates(line, [LF], rest);
    ReferenceLine(c, line, [LF] + rest);
    assert ([LF] + rest)[1..] == rest;
  }

  lemma DataLineStep(c: Core, segment: Bytes)
    requires Utf8(DATA_PREFIX + segment) && |c.data| + |segment| + 1 <= MAX_RESPONSE
    ensures LineStep(c, DATA_PREFIX + segment) == Ok(Lined(c.(seen := true, data := c.data + segment + [LF]), None))
  {
    hide Utf8;
    var line := DATA_PREFIX + segment;
    assert !(BOM <= line) by { assert line[0] == 100; }
    assert line[4] == COLON && line[5] == SPACE;
    IndexAt(line, COLON, 4);
    assert line[..4] == DATA;
    assert line[6..] == segment;
  }

  lemma {:induction false} IndexAt(s: Bytes, b: byte, k: nat)
    requires k < |s| && s[k] == b && forall j :: 0 <= j < k ==> s[j] != b
    ensures Index(s, b) == k
  {
    if k > 0 { IndexAt(s[1..], b, k - 1); }
  }

  lemma BlankRead(c: Core, rest: Bytes)
    requires !c.unsupported && c.events + 1 <= MAX_EVENTS && |c.data| >= 2 && c.seen
    ensures Reference(c, [LF] + rest)
            == After(Some(c.data[..|c.data| - 1]), Reference(c.(data := [], event := false, events := c.events + 1), rest))
  {
    hide Reference;
    EmptyLine();
    assert [] + ([LF] + rest) == [LF] + rest;
    ReferenceLine(c, [], [LF] + rest);
    assert ([LF] + rest)[1..] == rest;
  }

  lemma {:induction false} MessageRead(c: Core, message: Bytes, rest: Bytes)
    requires CR !in message && Utf8(message) && ShortLines(message)
    requires |c.data| + |message| + 1 <= MAX_RESPONSE
    ensures Reference(c, DataLines(message) + rest)
            == Reference(c.(seen := true, data := c.data + message + [LF]), rest)
    decreases |message|
  {
    hide Reference, Utf8, DataLines, Index, NoBreak;
    var k := Index(message, LF);
    var first := message[..k];
    FirstSegment(message);
    assert k + |DATA_PREFIX| <= MAX_REQUEST;
    if k == |message| {
      DataLineRead(c, message, rest);
    } else {
      var tail := message[k + 1..];
      DataLineRead(c, first, DataLines(tail) + rest);
      JoinAssociates(DATA_PREFIX + first + [LF], DataLines(tail), rest);
      MessageRead(c.(seen := true, data := c.data + first + [LF]), tail, rest);
      DataJoin(c.data, first, tail);
    }
  }

  lemma FirstSegment(message: Bytes)
    requires CR !in message && Utf8(message)
    ensures var k := Index(message, LF);
            && NoBreak(message[..k])
            && (k == |message| ==> message[..k] == message && DataLines(message) == DATA_PREFIX + message + [LF])
            && (k < |message| ==>
                  && Utf8(message[..k]) && Utf8(message[k + 1..]) && CR !in message[k + 1..]
                  && message == message[..k] + [LF] + message[k + 1..]
                  && DataLines(message) == DATA_PREFIX + message[..k] + [LF] + DataLines(message[k + 1..]))
  {
    hide Utf8, DataLines, Index;
    DataLinesSplit(message);
    var k := Index(message, LF);
    var first := message[..k];
    forall j | 0 <= j < k ensures !IsBreak(first[j]) { assert first[j] in message && first[j] in first; }
    if k < |message| {
      Utf8Split(message, k);
      forall b | b in message[k + 1..] ensures b in message {}
      Resplit(message, k);
    } else {
      assert first == message;
    }
  }

  lemma Resplit(message: Bytes, k: nat)
    requires k < |message| && message[k] == LF
    ensures message == message[..k] + [LF] + message[k + 1..]
  {
  }

  lemma DataLinesSplit(message: Bytes)
    ensures var k := Index(message, LF);
            DataLines(message) == if k == |message| then DATA_PREFIX + message + [LF]
                                  else DATA_PREFIX + message[..k] + [LF] + DataLines(message[k + 1..])
  {
    hide Index;
  }

  lemma DataJoin(data: Bytes, first: Bytes, tail: Bytes)
    ensures data + first + [LF] + tail + [LF] == data + (first + [LF] + tail) + [LF]
  {
  }

  /** Printing messages and decoding them gives them back, ready to finish. */
  lemma {:induction false} PrintDecode(c: Core, messages: seq<Bytes>)
    requires !c.unsupported && !c.event && c.data == [] && c.events + |messages| <= MAX_EVENTS
    requires forall k :: 0 <= k < |messages| ==> Printable(messages[k])
    ensures Reference(c, Print(messages))
            == Ok(Read(c.(seen := c.seen || messages != [], events := c.events + |messages|), [], messages))
    decreases |messages|
  {
    hide Reference, Utf8, DataLines;
    if messages == [] {
      EmptyLine();
      ReferenceRest(c, []);
    } else {
      var m, rest := messages[0], Print(messages[1..]);
      assert Printable(m);
      JoinAssociates(DataLines(m), [LF], rest);
      MessageRead(c, m, [LF] + rest);
      var held := c.(seen := true, data := c.data + m + [LF]);
      BlankRead(held, rest);
      assert held.data[..|held.data| - 1] == m;
      var next := held.(data := [], event := false, events := c.events + 1);
      PrintDecode(next, messages[1..]);
      assert [m] + messages[1..] == messages;
    }
  }

  // ---- Printed streams through the decoder ---------------------------------

  predicate IsPushing(decoders: seq<Decoder>, chunks: seq<Bytes>, outs: seq<Option<seq<Bytes>>>) {
    && |decoders| == |chunks| + 1 && |outs| == |chunks|
    && decoders[0] == Decoder(INITIAL, 0, false)
    && forall k :: 0 <= k < |chunks| ==> PushStep(decoders[k], chunks[k], outs[k], decoders[k + 1])
  }

  /** The messages that a decoder's pushes returned. */
  function Returned(outs: seq<Option<seq<Bytes>>>): seq<Bytes> {
    if outs == [] then []
    else Returned(outs[..|outs| - 1]) + (if outs[|outs| - 1].Some? then outs[|outs| - 1].value else [])
  }

  /** While the whole stream is acceptable, each push is accepted. */
  lemma {:induction false} PushesAccepted(decoders: seq<Decoder>, chunks: seq<Bytes>, outs: seq<Option<seq<Bytes>>>, k: nat)
    requires IsPushing(decoders, chunks, outs) && k <= |chunks|
    requires Feed(INITIAL, Concat(chunks[..k])).Ok? && |Concat(chunks[..k])| <= MAX_RESPONSE
    requires forall i :: 0 <= i < |chunks| ==> |chunks[i]| <= MAX_REQUEST
    ensures var run := Feed(INITIAL, Concat(chunks[..k])).value;
            decoders[k] == Decoder(run.machine, |Concat(chunks[..k])|, false) && Returned(outs[..k]) == run.messages
    ensures forall i :: 0 <= i < k ==> outs[i].Some?
    decreases k
  {
    hide Feed;
    if k == 0 {
      FeedNone(INITIAL);
    } else {
      assert chunks[..k][..k - 1] == chunks[..k - 1] && outs[..k][..k - 1] == outs[..k - 1];
      FeedJoin(INITIAL, Concat(chunks[..k - 1]), chunks[k - 1]);
      PushesAccepted(decoders, chunks, outs, k - 1);
      assert PushStep(decoders[k - 1], chunks[k - 1], outs[k - 1], decoders[k]);
    }
  }

  /** Messages printed within the stream's limit, cut anywhere into chunks that the
      decoder takes, come out again, and the stream may be finished there. */
  lemma PrintedIsPushed(messages: seq<Bytes>, decoders: seq<Decoder>, chunks: seq<Bytes>, outs: seq<Option<seq<Bytes>>>)
    requires |messages| <= MAX_EVENTS && forall k :: 0 <= k < |messages| ==> Printable(messages[k])
    requires |Print(messages)| <= MAX_RESPONSE && Concat(chunks) == Print(messages)
    requires IsPushing(decoders, chunks, outs) && forall i :: 0 <= i < |chunks| ==> |chunks[i]| <= MAX_REQUEST
    ensures (forall i :: 0 <= i < |outs| ==> outs[i].Some?) && Returned(outs) == messages
    ensures !decoders[|chunks|].failed && MayEnd(Concat(chunks))
  {
    hide Feed, Reference, Print, Printable, MayEnd, PushStep;
    PrintDecode(START, messages);
    EmptyLine();
    FeedIsReference(START, [], Print(messages));
    assert [] + Print(messages) == Print(messages);
    assert chunks[..|chunks|] == chunks && outs[..|chunks|] == outs;
    PushesAccepted(decoders, chunks, outs, |chunks|);
    FinishExactly(Print(messages));
  }
}
