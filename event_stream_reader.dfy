/**
 A reference reader for the `text/event-stream` format, written from
 section 9.2.5 ("Parsing an event stream") and section 9.2.6 ("Interpreting
 an event stream") of the WHATWG HTML Living Standard. It is the partner
 against which the frame serialiser in module ServerSentEvents is proved:
 it splits a received text into lines, classifies each line as a blank
 line, a comment or a field, and runs the field/dispatch state machine.
 */
module EventStreamReader {

  datatype Option<T> = None | Some(value: T)

  predicate IsLineBreak(c: char) { c == '\r' || c == '\n' }

  /** The string holds neither CR nor LF. */
  predicate NoLineBreak(s: string) {
    forall i :: 0 <= i < |s| ==> !IsLineBreak(s[i])
  }

  /** Index of the first CR or LF of `s`, or `|s|` when it has none. */
  function FirstBreak(s: string): (i: nat)
    ensures i <= |s|
    ensures i < |s| ==> IsLineBreak(s[i])
    ensures forall k :: 0 <= k < i ==> !IsLineBreak(s[k])
  {
    if s == [] then 0
    else if IsLineBreak(s[0]) then 0
    else 1 + FirstBreak(s[1..])
  }

  /** Index of the first colon of `s`, or `|s|` when it has none. */
  function ColonAt(s: string): (i: nat)
    ensures i <= |s|
    ensures i < |s| ==> s[i] == ':'
    ensures forall k :: 0 <= k < i ==> s[k] != ':'
  {
    if s == [] then 0
    else if s[0] == ':' then 0
    else 1 + ColonAt(s[1..])
  }

  /** The complete lines of a text and the unterminated tail after the last line break. */
  datatype Lines = Lines(complete: seq<string>, pending: string)

  /**
   Splits a text into lines. A line ends at CR LF, at a single LF or at a
   single CR (the `end-of-line` rule of section 9.2.5); the line itself
   never holds a line break, and what follows the last line break is
   pending, not a line.
   */
  function SplitLines(s: string): (r: Lines)
    ensures forall k :: 0 <= k < |r.complete| ==> NoLineBreak(r.complete[k])
    ensures NoLineBreak(r.pending)
    ensures r.complete == [] <==> NoLineBreak(s)
    ensures r.complete == [] ==> r.pending == s
    decreases |s|
  {
    var i := FirstBreak(s);
    if i == |s| then Lines([], s)
    else
      var skip := if s[i] == '\r' && i + 1 < |s| && s[i + 1] == '\n' then 2 else 1;
      var rest := SplitLines(s[i + skip..]);
      Lines([s[..i]] + rest.complete, rest.pending)
  }

  /** What one line of the stream is, by section 9.2.6. */
  datatype Line = Blank | Comment | FieldLine(name: string, value: string)

  /**
   Classifies a line: an empty line dispatches, a line starting with a
   colon is a comment, otherwise the field name runs up to the first
   colon and the value is everything after it, less one leading space; a
   line without colon is a field name with an empty value.
   */
  function ParseLine(line: string): (r: Line)
    ensures r.Blank? <==> line == []
    ensures r.Comment? <==> line != [] && line[0] == ':'
    ensures r.FieldLine? ==> r.name != [] && ':' !in r.name
    ensures r.FieldLine? ==>
      line == r.name || line == r.name + ":" + r.value || line == r.name + ": " + r.value
  {
    if line == [] then Blank
    else if line[0] == ':' then Comment
    else
      var i := ColonAt(line);
      if i == |line| then
        assert ':' !in line by {
          forall k | 0 <= k < |line| ensures line[k] != ':' { }
        }
        FieldLine(line, "")
      else
        var name := line[..i];
        var value := line[i + 1..];
        assert line == name + ":" + value;
        if value != [] && value[0] == ' ' then
          assert line == name + ": " + value[1..];
          FieldLine(name, value[1..])
        else
          FieldLine(name, value)
  }

  /** An event handed to the page: its type, its data and the last event ID with it. */
  datatype Message = Message(eventType: string, data: string, lastEventId: string)

  /**
   The reader's state: the event type, data and last event ID buffers,
   the event source's last event ID string and reconnection time
   (`None` while the stream has not set one), and the events dispatched so far.
   */
  datatype Reader = Reader(
    eventTypeBuffer: string,
    dataBuffer: string,
    lastEventIdBuffer: string,
    lastEventId: string,
    reconnectionTime: Option<nat>,
    dispatched: seq<Message>)

  /** A freshly connected reader. */
  const Initial: Reader := Reader("", "", "", "", None, [])

  predicate IsAsciiDigit(c: char) { '0' <= c <= '9' }

  predicate AllAsciiDigits(s: string) {
    forall i :: 0 <= i < |s| ==> IsAsciiDigit(s[i])
  }

  /** The base-ten value of a string of ASCII digits. */
  function DecimalValue(s: string): (n: nat)
    requires AllAsciiDigits(s)
  {
    if s == [] then 0
    else DecimalValue(s[..|s| - 1]) * 10 + (s[|s| - 1] as int - '0' as int)
  }

  /**
   Processes one field: `event` sets the event type buffer, `data`
   appends the value and an LF to the data buffer, `id` sets the last
   event ID buffer unless the value holds U+0000, `retry` sets the
   reconnection time when the value is all ASCII digits; any other field
   name is ignored. Nothing is dispatched here.
   */
  function ProcessField(st: Reader, name: string, value: string): (r: Reader)
    ensures r.dispatched == st.dispatched
    ensures name != "event" ==> r.eventTypeBuffer == st.eventTypeBuffer
    ensures name != "data" ==> r.dataBuffer == st.dataBuffer
    ensures name != "id" ==> r.lastEventIdBuffer == st.lastEventIdBuffer
    ensures name != "retry" ==> r.reconnectionTime == st.reconnectionTime
    ensures r.lastEventId == st.lastEventId
  {
    if name == "event" then st.(eventTypeBuffer := value)
    else if name == "data" then st.(dataBuffer := st.dataBuffer + value + "\n")
    else if name == "id" then
      if '\0' in value then st else st.(lastEventIdBuffer := value)
    else if name == "retry" then
      if value != [] && AllAsciiDigits(value) then st.(reconnectionTime := Some(DecimalValue(value)))
      else st
    else st
  }

  /**
   Dispatches the event being built: the last event ID string takes the
   buffer's value; an empty data buffer dispatches nothing; otherwise one
   trailing LF is removed from the data, the type defaults to "message",
   one event is appended, and both the type and data buffers are emptied.
   */
  function Dispatch(st: Reader): (r: Reader)
    ensures r.lastEventId == st.lastEventIdBuffer
    ensures r.eventTypeBuffer == "" && r.dataBuffer == ""
    ensures r.lastEventIdBuffer == st.lastEventIdBuffer
    ensures r.reconnectionTime == st.reconnectionTime
    ensures st.dataBuffer == [] ==> r.dispatched == st.dispatched
    ensures st.dataBuffer != [] ==> |r.dispatched| == |st.dispatched| + 1
    ensures r.dispatched[..|st.dispatched|] == st.dispatched
  {
    var st := st.(lastEventId := st.lastEventIdBuffer);
    if st.dataBuffer == [] then st.(eventTypeBuffer := "")
    else
      var n := |st.dataBuffer|;
      var data := if st.dataBuffer[n - 1] == '\n' then st.dataBuffer[..n - 1] else st.dataBuffer;
      var eventType := if st.eventTypeBuffer == [] then "message" else st.eventTypeBuffer;
      st.(dispatched := st.dispatched + [Message(eventType, data, st.lastEventId)],
          eventTypeBuffer := "", dataBuffer := "")
  }

  /** Processes one line: a blank line dispatches, a comment is ignored, a field is processed. */
  function Step(st: Reader, line: string): (r: Reader)
    ensures |st.dispatched| <= |r.dispatched| <= |st.dispatched| + 1
    ensures r.dispatched[..|st.dispatched|] == st.dispatched
  {
    match ParseLine(line)
    case Blank => Dispatch(st)
    case Comment => st
    case FieldLine(name, value) => ProcessField(st, name, value)
  }

  /** Processes lines in order; events are only ever appended, at most one per line. */
  function Interpret(st: Reader, lines: seq<string>): (r: Reader)
    ensures |st.dispatched| <= |r.dispatched| <= |st.dispatched| + |lines|
    ensures r.dispatched[..|st.dispatched|] == st.dispatched
    decreases |lines|
  {
    if lines == [] then st
    else Interpret(Step(st, lines[0]), lines[1..])
  }

  /**
   The reader's state after a whole received text: its complete lines are
   interpreted from a fresh reader; the unterminated tail is not processed.
   */
  function Read(s: string): (r: Reader)
    ensures |r.dispatched| <= |SplitLines(s).complete|
  {
    Interpret(Initial, SplitLines(s).complete)
  }
}
