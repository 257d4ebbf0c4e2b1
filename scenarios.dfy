/**
 Clients of EventStream that follow a stream through its lifecycle and
 check, from the contracts alone, what its body and teardown count are.
 */
module Scenarios {
  import opened EventStreamReader
  import opened ServerSentEvents

  /** One `ping` event with data `0`, and a teardown. */
  method PingOnce() {
    var s := new EventStream(Producer([Event("ping", "0")], true));
    assert s.producerCalls == 0;
    s.Start();
    assert |s.queue| == 1 && s.queue[0] == Frame(Event("ping", "0"));
    assert Frame(Event("ping", "0")) == "event: ping\ndata: 0\n\n";
    assert s.queue == ["event: ping\ndata: 0\n\n"];
    assert s.producerCalls == 1;
  }

  /** Two `msg` events, the second posted after start has returned. */
  method TwoMessages() {
    assert Frame(Event("msg", "a")) == "event: msg\ndata: a\n\n";
    assert Frame(Event("msg", "b")) == "event: msg\ndata: b\n\n";
    var s := new EventStream(Producer([Event("msg", "a")], true));
    s.Start();
    assert |s.queue| == 1 && s.queue[0] == Frame(Event("msg", "a"));
    s.PostEvent(Event("msg", "b"));
    assert s.queue == ["event: msg\ndata: a\n\n", "event: msg\ndata: b\n\n"];
    assert s.Body() == Concat(s.queue[..1]) + Frame(Event("msg", "b"));
    assert Concat(s.queue[..1]) == s.queue[0] + Concat([]);
    assert s.Body() == "event: msg\ndata: a\n\n" + "event: msg\ndata: b\n\n";
  }

  /** A client reading the body of the stream above receives both events. */
  method TwoMessagesReadBack() {
    var s := new EventStream(Producer([Event("msg", "a")], true));
    s.Start();
    s.PostEvent(Event("msg", "b"));
    assert s.posted == [Event("msg", "a"), Event("msg", "b")];
    s.BodyReadsBack();
    assert Read(s.Body()).dispatched == [Message("msg", "a", ""), Message("msg", "b", "")];
  }

  /** Cancelled before any event: the teardown runs once and the body is empty. */
  method CancelBeforeAnyEvent() {
    var s := new EventStream(Producer([], true));
    s.Start();
    s.Cancel();
    assert s.closeCalls == 1;
    assert s.queue == [];
  }

  /** A cancel before start calls nothing, and the producer never runs. */
  method CancelBeforeStart() {
    var early := new EventStream(Producer([Event("ping", "0")], true));
    early.Cancel();
    assert early.closeCalls == 0 && early.producerCalls == 0;
  }

  /** A cancel after a producer that returned no teardown calls nothing. */
  method CancelWithoutTeardown() {
    var none := new EventStream(Producer([Event("ping", "0")], false));
    none.Start();
    assert |none.queue| == 1 && none.queue[0] == Frame(Event("ping", "0"));
    assert Frame(Event("ping", "0")) == "event: ping\ndata: 0\n\n";
    none.Cancel();
    assert none.closeCalls == 0;
    assert none.queue == ["event: ping\ndata: 0\n\n"];
  }

  /** The content type does not depend on the producer. */
  method ContentTypeIsFixed(fn: Producer) {
    var s := new EventStream(fn);
    assert s.headers["content-type"] == "text/event-stream";
  }
}
