/**
 The server-sent-events adapter: the text frame written for each posted
 event, and the lifecycle of one stream (start runs the producer, each
 post enqueues one frame, cancel runs the stored teardown).
 */
module ServerSentEvents {
  import opened EventStreamReader

  /** A server-sent event: its type and its data, both opaque strings. */
  datatype Event = Event(eventType: string, data: string)

  /** The media type the response is labelled with. */
  const EventStreamMediaType: string := "text/event-stream"

  /**
   The frame posted for one event: an `event:` line, a `data:` line and a
   blank line. Stated position by position: the type line, then the data
   line, then the blank line, and nothing else.
   */
  function Frame(e: Event): (r: string)
    ensures |r| == |e.eventType| + |e.data| + 16
    ensures r[..7] == "event: "
    ensures r[7..7 + |e.eventType|] == e.eventType
    ensures r[7 + |e.eventType|] == '\n'
    ensures r[8 + |e.eventType|..14 + |e.eventType|] == "data: "
    ensures r[14 + |e.eventType|..14 + |e.eventType| + |e.data|] == e.data
    ensures r[|r| - 2..] == "\n\n"
  {
    "event: " + e.eventType + "\n" + "data: " + e.data + "\n\n"
  }

  /** The frames of a sequence of events, in order. */
  function Frames(es: seq<Event>): (r: seq<string>)
    ensures |r| == |es|
  {
    seq(|es|, i requires 0 <= i < |es| => Frame(es[i]))
  }

  /** The text of a sequence of queued chunks, joined in order. */
  function Concat(chunks: seq<string>): (r: string) {
    if chunks == [] then "" else chunks[0] + Concat(chunks[1..])
  }

  /** Appending one chunk to the queue appends its text to the body. */
  lemma {:induction false} ConcatAppend(chunks: seq<string>, c: string)
    ensures Concat(chunks + [c]) == Concat(chunks) + c
    decreases |chunks|
  {
    if chunks == [] {
      assert [] + [c] == [c];
      assert Concat([c]) == c + Concat([]);
    } else {
      assert (chunks + [c])[1..] == chunks[1..] + [c];
      ConcatAppend(chunks[1..], c);
    }
  }

  /** Neither the type nor the data of the event holds a line break. */
  predicate SingleLine(e: Event) {
    NoLineBreak(e.eventType) && NoLineBreak(e.data)
  }

  /** The event a reader dispatches for a frame: an empty type reads as "message". */
  function Received(e: Event): (m: Message)
    ensures m.data == e.data && m.lastEventId == ""
  {
    Message(if e.eventType == "" then "message" else e.eventType, e.data, "")
  }

  function ReceivedAll(es: seq<Event>): (r: seq<Message>)
    ensures |r| == |es|
  {
    seq(|es|, i requires 0 <= i < |es| => Received(es[i]))
  }

  /** The three lines a single-line frame consists of. */
  function FrameLines(e: Event): (r: seq<string>)
    ensures |r| == 3
  {
    ["event: " + e.eventType, "data: " + e.data, ""]
  }

  // ---------------------------------------------------------------------
  // Line structure of a frame

  lemma {:induction false} FirstBreakAfter(line: string, rest: string)
    requires NoLineBreak(line)
    ensures FirstBreak(line + "\n" + rest) == |line|
    decreases |line|
  {
    if line != [] {
      assert (line + "\n" + rest)[1..] == line[1..] + "\n" + rest;
      FirstBreakAfter(line[1..], rest);
    }
  }

  /** A line without line breaks followed by LF splits off as one complete line. */
  lemma SplitLineThen(line: string, rest: string)
    requires NoLineBreak(line)
    ensures SplitLines(line + "\n" + rest)
         == Lines([line] + SplitLines(rest).complete, SplitLines(rest).pending)
  {
    var s := line + "\n" + rest;
    FirstBreakAfter(line, rest);
    assert s[..|line|] == line;
    assert s[|line| + 1..] == rest;
  }

  /**
   When type and data hold no line break, a frame followed by any text
   splits into the frame's three lines followed by the lines of that text.
   */
  lemma FrameThenLines(e: Event, rest: string)
    requires SingleLine(e)
    ensures SplitLines(Frame(e) + rest)
         == Lines(FrameLines(e) + SplitLines(rest).complete, SplitLines(rest).pending)
  {
    var t, d := "event: " + e.eventType, "data: " + e.data;
    assert NoLineBreak(t) by {
      forall i | 0 <= i < |t| ensures !IsLineBreak(t[i]) {
        if i >= 7 { assert t[i] == e.eventType[i - 7]; }
      }
    }
    assert NoLineBreak(d) by {
      forall i | 0 <= i < |d| ensures !IsLineBreak(d[i]) {
        if i >= 6 { assert d[i] == e.data[i - 6]; }
      }
    }
    var r0 := SplitLines(rest);
    var s3 := "\n" + rest;
    assert s3 == "" + "\n" + rest;
    SplitLineThen("", rest);
    var r3 := SplitLines(s3);
    var s2 := d + "\n" + s3;
    SplitLineThen(d, s3);
    var r2 := SplitLines(s2);
    var s1 := t + "\n" + s2;
    SplitLineThen(t, s2);
    Cons3(t, d, "", r0.complete);
    FrameRegroup(e, rest);
  }

  lemma Regroup<T>(p: seq<T>, x: seq<T>, n: seq<T>, q: seq<T>, y: seq<T>, rest: seq<T>)
    ensures p + x + n + q + y + (n + n) + rest == (p + x) + n + ((q + y) + n + (n + rest))
  {
  }

  /** A frame followed by more text, grouped line by line. */
  lemma FrameRegroup(e: Event, rest: string)
    ensures Frame(e) + rest
         == ("event: " + e.eventType) + "\n" + (("data: " + e.data) + "\n" + ("\n" + rest))
  {
    Regroup("event: ", e.eventType, "\n", "data: ", e.data, rest);
    assert "\n\n" == "\n" + "\n";
  }

  lemma Cons3<T>(a: T, b: T, c: T, xs: seq<T>)
    ensures [a] + ([b] + ([c] + xs)) == [a, b, c] + xs
  {
  }

  /**
   A single-line frame is exactly three complete lines, `event: <type>`,
   `data: <data>` and an empty line, with nothing pending after them.
   */
  lemma FrameSplitsIntoThreeLines(e: Event)
    requires SingleLine(e)
    ensures SplitLines(Frame(e)) == Lines(["event: " + e.eventType, "data: " + e.data, ""], "")
  {
    FrameThenLines(e, "");
    assert Frame(e) + "" == Frame(e);
  }

  /** Removing a field name, the colon and one space recovers the value. */
  lemma {:induction false} ColonAfter(name: string, value: string)
    requires ':' !in name
    ensures ColonAt(name + ":" + value) == |name|
    decreases |name|
  {
    if name != [] {
      assert (name + ":" + value)[1..] == name[1..] + ":" + value;
      ColonAfter(name[1..], value);
    }
  }

  lemma ParseFieldLine(name: string, value: string)
    requires name != [] && ':' !in name
    ensures ParseLine(name + ": " + value) == FieldLine(name, value)
  {
    var line := name + ": " + value;
    ColonAfter(name, " " + value);
    assert line == name + ":" + (" " + value);
    assert line[..|name|] == name;
    assert line[|name| + 1..] == " " + value;
    assert (" " + value)[1..] == value;
  }

  /**
   Read with the standard's field rules, the three template lines of a
   frame are the `event` field with the type, the `data` field with the
   data, and a blank line. They are the frame's lines only when type and
   data hold no CR or LF (FrameLinesOfFrame below).
   */
  lemma FrameFields(e: Event)
    ensures ParseLine(FrameLines(e)[0]) == FieldLine("event", e.eventType)
    ensures ParseLine(FrameLines(e)[1]) == FieldLine("data", e.data)
    ensures ParseLine(FrameLines(e)[2]) == Blank
  {
    assert ':' !in "event" && ':' !in "data";
    assert FrameLines(e)[0] == "event" + ": " + e.eventType;
    assert FrameLines(e)[1] == "data" + ": " + e.data;
    ParseFieldLine("event", e.eventType);
    ParseFieldLine("data", e.data);
  }

  /**
   For an event whose type and data hold no CR or LF, the frame's lines
   are the `event` field with exactly the type, the `data` field with
   exactly the data, and a blank line: no `id`, `retry` or other field.
   */
  lemma FrameLinesOfFrame(e: Event)
    requires SingleLine(e)
    ensures |SplitLines(Frame(e)).complete| == 3
    ensures ParseLine(SplitLines(Frame(e)).complete[0]) == FieldLine("event", e.eventType)
    ensures ParseLine(SplitLines(Frame(e)).complete[1]) == FieldLine("data", e.data)
    ensures ParseLine(SplitLines(Frame(e)).complete[2]) == Blank
  {
    FrameSplitsIntoThreeLines(e);
    FrameFields(e);
  }

  // ---------------------------------------------------------------------
  // Round trip through the reader

  /** A reader at rest that has dispatched `ms` and seen no `id` or `retry` field. */
  function Settled(ms: seq<Message>): (r: Reader) {
    Initial.(dispatched := ms)
  }

  /** A frame's three lines, read from a settled reader, dispatch exactly its event. */
  lemma ReadFrameLines(ms: seq<Message>, e: Event, rest: seq<string>)
    ensures Interpret(Settled(ms), FrameLines(e) + rest) == Interpret(Settled(ms + [Received(e)]), rest)
  {
    FrameFields(e);
    var lines := FrameLines(e) + rest;
    assert lines[0] == FrameLines(e)[0] && lines[1..][0] == FrameLines(e)[1];
    assert lines[1..][1..][0] == FrameLines(e)[2];
    assert lines[1..][1..][1..] == rest;
    var s1 := Step(Settled(ms), lines[0]);
    assert s1 == Settled(ms).(eventTypeBuffer := e.eventType);
    var s2 := Step(s1, lines[1..][0]);
    assert s2 == Settled(ms).(eventTypeBuffer := e.eventType, dataBuffer := e.data + "\n");
    var s3 := Step(s2, lines[1..][1..][0]);
    assert (e.data + "\n")[..|e.data|] == e.data;
    assert s3 == Settled(ms + [Received(e)]);
    assert Interpret(Settled(ms), lines) == Interpret(s1, lines[1..]);
    assert Interpret(s1, lines[1..]) == Interpret(s2, lines[1..][1..]);
    assert Interpret(s2, lines[1..][1..]) == Interpret(s3, rest);
  }

  /** The lines of the frames of `es`, three per event, in posting order. */
  function FrameLinesAll(es: seq<Event>): (r: seq<string>)
    ensures |r| == 3 * |es|
  {
    if es == [] then [] else FrameLines(es[0]) + FrameLinesAll(es[1..])
  }

  lemma {:induction false} StreamLines(es: seq<Event>)
    requires forall i :: 0 <= i < |es| ==> SingleLine(es[i])
    ensures SplitLines(Concat(Frames(es))) == Lines(FrameLinesAll(es), "")
    decreases |es|
  {
    if es != [] {
      assert Frames(es)[1..] == Frames(es[1..]);
      StreamLines(es[1..]);
      FrameThenLines(es[0], Concat(Frames(es[1..])));
    }
  }

  lemma {:induction false} ReadAllFrameLines(ms: seq<Message>, es: seq<Event>)
    ensures Interpret(Settled(ms), FrameLinesAll(es)) == Settled(ms + ReceivedAll(es))
    decreases |es|
  {
    if es == [] {
      assert ms + ReceivedAll(es) == ms;
    } else {
      var e, more := es[0], es[1..];
      assert FrameLinesAll(es) == FrameLines(e) + FrameLinesAll(more);
      ReadFrameLines(ms, e, FrameLinesAll(more));
      ReadAllFrameLines(ms + [Received(e)], more);
      ReceivedAllCons(es);
      AppendAssoc(ms, [Received(e)], ReceivedAll(more));
    }
  }

  lemma ReceivedAllCons(es: seq<Event>)
    requires es != []
    ensures ReceivedAll(es) == [Received(es[0])] + ReceivedAll(es[1..])
  {
  }

  lemma AppendAssoc<T>(a: seq<T>, b: seq<T>, c: seq<T>)
    ensures a + b + c == a + (b + c)
  {
  }

  /**
   The round trip: when no posted type or data holds a line break, a
   reader of the concatenated frames dispatches one event per frame, in
   posting order, with the posted data and the posted type ("message" for
   an empty type), leaves nothing pending, and is left with no last event
   ID and no reconnection time set.
   */
  lemma StreamRoundTrip(es: seq<Event>)
    requires forall i :: 0 <= i < |es| ==> SingleLine(es[i])
    ensures SplitLines(Concat(Frames(es))).pending == ""
    ensures Read(Concat(Frames(es))) == Settled(ReceivedAll(es))
    ensures |Read(Concat(Frames(es))).dispatched| == |es|
    ensures forall i :: 0 <= i < |es| ==>
      Read(Concat(Frames(es))).dispatched[i].data == es[i].data
    ensures forall i :: 0 <= i < |es| && es[i].eventType != "" ==>
      Read(Concat(Frames(es))).dispatched[i].eventType == es[i].eventType
  {
    StreamLines(es);
    ReadAllFrameLines([], es);
    assert [] + ReceivedAll(es) == ReceivedAll(es);
    assert Settled([]) == Initial;
  }

  /**
   Without the single-line precondition the round trip breaks: a blank
   line inside the data ends the event there, so the first event a client
   reads carries only the data before it.
   */
  lemma BlankLineInDataEndsEvent(t: string, d1: string, d2: string)
    requires SingleLine(Event(t, d1))
    ensures |Read(Frame(Event(t, d1 + "\n\n" + d2))).dispatched| >= 1
    ensures Read(Frame(Event(t, d1 + "\n\n" + d2))).dispatched[0] == Received(Event(t, d1))
    ensures Read(Frame(Event(t, d1 + "\n\n" + d2))).dispatched[0].data != d1 + "\n\n" + d2
  {
    var e := Event(t, d1);
    var rest := d2 + "\n\n";
    Regroup5("event: " + t + "\n" + "data: ", d1, "\n\n", d2, "\n\n");
    assert Frame(Event(t, d1 + "\n\n" + d2)) == Frame(e) + rest;
    FrameThenLines(e, rest);
    var more := SplitLines(rest).complete;
    ReadFrameLines([], e, more);
    assert Settled([]) == Initial;
    assert [] + [Received(e)] == [Received(e)];
    var r := Interpret(Settled([Received(e)]), more);
    assert Read(Frame(Event(t, d1 + "\n\n" + d2))) == r;
    assert r.dispatched[..1] == [Received(e)];
    assert r.dispatched[..1][0] == r.dispatched[0];
  }

  lemma NoLineBreakAppend(a: string, b: string)
    requires NoLineBreak(a) && NoLineBreak(b)
    ensures NoLineBreak(a + b)
  {
    forall i | 0 <= i < |a + b| ensures !IsLineBreak((a + b)[i]) {
      if i >= |a| { assert (a + b)[i] == b[i - |a|]; }
    }
  }

  lemma Regroup7<T>(p: seq<T>, x: seq<T>, n: seq<T>, q: seq<T>, y: seq<T>, u: seq<T>, z: seq<T>)
    ensures p + x + n + q + (y + n + u + z) + (n + n)
         == (p + x) + n + ((q + y) + n + ((u + z) + n + n))
  {
  }

  lemma Cons4<T>(a: T, b: T, c: T, x: T)
    ensures [a] + ([b] + ([c] + ([x] + []))) == [a, b, c, x]
  {
  }

  /** The frame of data `d` + LF + `id: v`, grouped line by line. */
  lemma InjectedIdRegroup(t: string, d: string, v: string)
    ensures Frame(Event(t, d + "\n" + "id: " + v))
         == ("event: " + t) + "\n" + (("data: " + d) + "\n" + (("id: " + v) + "\n" + "\n"))
  {
    Regroup7("event: ", t, "\n", "data: ", d, "id: ", v);
    assert "\n\n" == "\n" + "\n";
  }

  /** With single-line parts, the frame of data `d` + LF + `id: v` is four lines. */
  lemma InjectedIdLines(t: string, d: string, v: string)
    requires NoLineBreak(t) && NoLineBreak(d) && NoLineBreak(v)
    ensures SplitLines(Frame(Event(t, d + "\n" + "id: " + v))).complete
         == ["event: " + t, "data: " + d, "id: " + v, ""]
  {
    var l1, l2, l3 := "event: " + t, "data: " + d, "id: " + v;
    NoLineBreakAppend("event: ", t);
    NoLineBreakAppend("data: ", d);
    NoLineBreakAppend("id: ", v);
    var s4 := "\n";
    assert s4 == "" + "\n" + "";
    SplitLineThen("", "");
    var s3 := l3 + "\n" + s4;
    SplitLineThen(l3, s4);
    var s2 := l2 + "\n" + s3;
    SplitLineThen(l2, s3);
    SplitLineThen(l1, s2);
    InjectedIdRegroup(t, d, v);
    Cons4(l1, l2, l3, "");
  }

  /** The four lines set the type, the data and the last event ID buffers, then dispatch. */
  lemma InjectedIdInterpret(t: string, d: string, v: string)
    requires '\0' !in v
    ensures Interpret(Initial, ["event: " + t, "data: " + d, "id: " + v, ""])
         == Initial.(lastEventId := v, lastEventIdBuffer := v,
                     dispatched := [Message(if t == "" then "message" else t, d, v)])
  {
    var lines := ["event: " + t, "data: " + d, "id: " + v, ""];
    assert ':' !in "event" && ':' !in "data" && ':' !in "id";
    assert lines[0] == "event" + ": " + t;
    assert lines[1] == "data" + ": " + d;
    assert lines[2] == "id" + ": " + v;
    ParseFieldLine("event", t);
    ParseFieldLine("data", d);
    ParseFieldLine("id", v);
    var r1 := Step(Initial, lines[0]);
    assert r1 == Initial.(eventTypeBuffer := t);
    var r2 := Step(r1, lines[1]);
    assert r2 == Initial.(eventTypeBuffer := t, dataBuffer := d + "\n");
    var r3 := Step(r2, lines[2]);
    assert r3 == Initial.(eventTypeBuffer := t, dataBuffer := d + "\n", lastEventIdBuffer := v);
    var r4 := Step(r3, lines[3]);
    assert (d + "\n")[..|d|] == d;
    assert lines[1..] == [lines[1], lines[2], lines[3]];
    assert lines[1..][1..] == [lines[2], lines[3]];
    assert lines[1..][1..][1..] == [lines[3]];
    assert Interpret(Initial, lines) == Interpret(r1, lines[1..]);
    assert Interpret(r1, lines[1..]) == Interpret(r2, lines[1..][1..]);
    assert Interpret(r2, lines[1..][1..]) == Interpret(r3, lines[1..][1..][1..]);
    assert Interpret(r3, lines[1..][1..][1..]) == Interpret(r4, []);
  }

  /**
   Without the single-line precondition the data can also inject fields:
   data `d` + LF + `id: v` sends a frame whose third line is an `id`
   field, so a client's last event ID becomes `v` and the event it reads
   carries data `d` and that ID.
   */
  lemma LineBreakInDataInjectsId(t: string, d: string, v: string)
    requires NoLineBreak(t) && NoLineBreak(d) && NoLineBreak(v) && '\0' !in v
    ensures Read(Frame(Event(t, d + "\n" + "id: " + v))).lastEventId == v
    ensures Read(Frame(Event(t, d + "\n" + "id: " + v))).dispatched
         == [Message(if t == "" then "message" else t, d, v)]
  {
    InjectedIdLines(t, d, v);
    InjectedIdInterpret(t, d, v);
  }

  lemma Regroup5<T>(p: seq<T>, x: seq<T>, n: seq<T>, y: seq<T>, m: seq<T>)
    ensures p + (x + n + y) + m == (p + x + n) + (y + m)
  {
  }

  // ---------------------------------------------------------------------
  // Stream lifecycle

  /**
   A producer, as far as this adapter sees it: the events it posts while
   `start` runs it, and whether it returns a teardown function.
   */
  datatype Producer = Producer(posts: seq<Event>, returnsTeardown: bool)

  /**
   One stream returned to a request. `queue` is the controller's queue of
   frames, `closeFn` whether a teardown is stored, `producerCalls` and
   `closeCalls` count the invocations of the producer and of the teardown.
   */
  class EventStream {
    const producer: Producer
    const headers: map<string, string>
    var queue: seq<string>
    var closeFn: bool
    var started: bool
    var cancelled: bool
    var producerCalls: nat
    var closeCalls: nat
    ghost var posted: seq<Event>

    /**
     The queue holds the frames of the posted events in posting order; the
     producer has run exactly when the stream has started; a teardown is
     only stored by start; the teardown ran once if the stream was
     cancelled with one stored, and not otherwise.
     */
    ghost predicate Valid()
      reads this
    {
      && queue == Frames(posted)
      && producerCalls == (if started then 1 else 0)
      && (!started ==> posted == [] && !closeFn)
      && closeCalls == (if cancelled && closeFn then 1 else 0)
    }

    /** The response body so far: the queued frames, in order. */
    function Body(): (r: string)
      reads this
      ensures Valid() ==> r == Concat(Frames(posted))
    {
      Concat(queue)
    }

    /** The stream is built with the content type set and the producer not yet called. */
    constructor (fn: Producer)
      ensures Valid()
      ensures producer == fn
      ensures headers == map["content-type" := EventStreamMediaType]
      ensures queue == [] && posted == []
      ensures !started && !cancelled && !closeFn
      ensures producerCalls == 0 && closeCalls == 0
    {
      producer := fn;
      headers := map["content-type" := EventStreamMediaType];
      queue := [];
      posted := [];
      closeFn := false;
      started := false;
      cancelled := false;
      producerCalls := 0;
      closeCalls := 0;
    }

    /** Posts one event: its frame goes to the end of the queue; nothing else changes. */
    method PostEvent(e: Event)
      requires Valid() && started && !cancelled
      modifies this
      ensures Valid()
      ensures queue == old(queue) + [Frame(e)]
      ensures Body() == old(Body()) + Frame(e)
      ensures posted == old(posted) + [e]
      ensures closeFn == old(closeFn) && started == old(started) && cancelled == old(cancelled)
      ensures producerCalls == old(producerCalls) && closeCalls == old(closeCalls)
    {
      queue := queue + [Frame(e)];
      posted := posted + [e];
      assert queue == Frames(posted);
      ConcatAppend(old(queue), Frame(e));
    }

    /**
     Start runs the producer once with a streamer; every event it posts
     is queued in order, and its teardown, if it returns one, is stored.
     */
    method Start()
      requires Valid() && !started && !cancelled
      modifies this
      ensures Valid()
      ensures started && !cancelled
      ensures producerCalls == 1
      ensures posted == producer.posts
      ensures queue == Frames(producer.posts)
      ensures closeFn == producer.returnsTeardown
      ensures closeCalls == 0
    {
      started := true;
      producerCalls := producerCalls + 1;
      var i := 0;
      while i < |producer.posts|
        invariant 0 <= i <= |producer.posts|
        invariant Valid() && started && !cancelled && !closeFn
        invariant posted == producer.posts[..i]
        invariant producerCalls == 1 && closeCalls == 0
      {
        PostEvent(producer.posts[i]);
        i := i + 1;
      }
      assert producer.posts[..i] == producer.posts;
      closeFn := producer.returnsTeardown;
    }

    /**
     Cancel calls the stored teardown once, and nothing when none is
     stored; the queue and the stored teardown are left as they were.
     */
    method Cancel()
      requires Valid() && !cancelled
      modifies this
      ensures Valid()
      ensures cancelled
      ensures closeCalls == old(closeCalls) + (if closeFn then 1 else 0)
      ensures queue == old(queue) && posted == old(posted)
      ensures closeFn == old(closeFn) && started == old(started)
      ensures producerCalls == old(producerCalls)
    {
      if closeFn {
        closeCalls := closeCalls + 1;
      }
      cancelled := true;
    }

    /**
     What a client reads from the body: when no posted type or data holds
     a line break, exactly the posted events, in posting order.
     */
    lemma BodyReadsBack()
      requires Valid()
      requires forall i :: 0 <= i < |posted| ==> SingleLine(posted[i])
      ensures Read(Body()).dispatched == ReceivedAll(posted)
    {
      StreamRoundTrip(posted);
    }
  }
}
