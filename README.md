# Server-sent events adapter, modelled in Dafny

`streamServerSent(fn)` turns a producer function into a streaming HTTP
response of media type `text/event-stream`. When the platform starts the
body stream, the producer is called once with a streamer whose
`postEvent(event)` enqueues one text frame `event: <type>\ndata: <data>\n\n`.
The producer returns a teardown function, and cancelling the body stream
calls it.

The project has three modules:

- `ServerSentEvents` (`server_sent_events.dfy`) models the source file.
  - `Event` holds an event's type and data. The field is named `eventType` because `type` is a Dafny keyword.
  - `Frame` is the frame template.
  - The class `EventStream` follows one stream through its lifecycle:
    - `queue` stands for the controller's queue.
    - `closeFn` says whether a teardown is stored.
    - `started` and `cancelled` record the lifecycle.
    - `producerCalls` and `closeCalls` count the calls to the producer and to the teardown.
    - the ghost field `posted` lists the events posted so far.
  - A producer is the value `Producer(posts, returnsTeardown)`. `posts` lists the events it posts while `start` runs it, and `returnsTeardown` says whether it returns a teardown. Events posted later, for example from a timer, are modelled as calls to `PostEvent` after `Start`.
- `EventStreamReader` (`event_stream_reader.dfy`) is a reference reader for the format. It is written from section 9.2.5 ("Parsing an event stream") and section 9.2.6 ("Interpreting an event stream") of the WHATWG HTML Living Standard, and it does four things:
  - it splits text into lines at CR LF, LF or CR;
  - it classifies each line as blank, comment or field, stripping one space after the colon;
  - it processes the `event`, `data`, `id` and `retry` fields;
  - a blank line dispatches the event being built. An empty data buffer dispatches nothing, one trailing LF is removed from the data, and an empty type becomes `"message"`.

  The serialiser is proved against this reader.
- `Scenarios` (`scenarios.dfy`) holds client methods. They follow streams through concrete lifecycles and check their bodies and teardown counts from the contracts alone.

Two details of the code shape the model:

- The code has no guard against a second teardown. `cancel` tests only whether a teardown was stored, and `closeFn` is never cleared (util/server_sent_events.ts:60-64). The teardown runs at most once only because the platform calls a stream's `cancel` at most once. That is why `Cancel` requires a stream that is not yet cancelled.
- `cancel` tests the stored value for truthiness. The model therefore lets a producer return no teardown (`returnsTeardown == false`), and a later cancel then calls nothing.

## Model

| member | source | states |
|---|---|---|
| `ServerSentEvents.Frame` | util/server_sent_events.ts:54 | The frame is exactly `event: ` + type + LF + `data: ` + data + LF LF, stated position by position. Its length is `|type| + |data| + 16`, it starts with `event: `, the type line precedes the data line, and it ends with a blank line. |
| `ServerSentEvents.FrameSplitsIntoThreeLines` | util/server_sent_events.ts:54 | When neither type nor data holds CR or LF, the frame is exactly three lines, `event: <type>`, `data: <data>` and an empty line, with nothing pending. |
| `ServerSentEvents.FrameThenLines` | util/server_sent_events.ts:54 | Under the same condition, a frame followed by any text splits into the frame's three lines followed by that text's lines. This is what makes consecutive frames independent. |
| `ServerSentEvents.FrameFields` | util/server_sent_events.ts:54 | Read by the standard's field rules, the frame template's three lines are the `event` field with exactly the type, the `data` field with exactly the data, and a blank line. Removing the name, the colon and one space recovers the value. |
| `ServerSentEvents.FrameLinesOfFrame` | util/server_sent_events.ts:54 | For an event whose type and data hold no CR or LF, the frame splits into exactly three lines: the `event` field with the type, the `data` field with the data, and a blank line. No `id`, `retry` or other field is emitted. |
| `ServerSentEvents.ReadFrameLines` | util/server_sent_events.ts:54 | From a reader at rest, a frame's three lines dispatch exactly one event, with the frame's type (`message` if empty) and data, and leave the reader at rest again. |
| `ServerSentEvents.StreamRoundTrip` | util/server_sent_events.ts:51-56 | If no posted type or data holds a line break, reading the concatenated frames yields one event per frame, in posting order, with the posted data and type. Nothing is left pending, and no last event ID or reconnection time is set. |
| `ServerSentEvents.BlankLineInDataEndsEvent` | util/server_sent_events.ts:54 | Without that condition the round trip fails: a blank line inside the data ends the event, so the first event read carries only the data before the blank line. |
| `ServerSentEvents.LineBreakInDataInjectsId` | util/server_sent_events.ts:54 | Without that condition the data can also inject a field. Data `d` + LF + `id: v` (no line break in type, `d` or `v`, and no NUL in `v`) sets the client's last event ID to `v`. The one event read carries data `d` and ID `v`. |
| `ServerSentEvents.ConcatAppend` | util/server_sent_events.ts:52 | Enqueuing one more chunk appends exactly that chunk's text to the body. |
| `ServerSentEvents.EventStream.constructor` | util/server_sent_events.ts:45-71 | A new stream has an empty queue and no stored teardown, and the producer has not been called. The `content-type` header is `text/event-stream` whatever the producer. |
| `ServerSentEvents.EventStream.Body` | util/server_sent_events.ts:49-56 | The response body so far: in a valid state, the frames of the posted events joined in posting order. `PostEvent` says how it grows and `BodyReadsBack` what a client reads from it. |
| `ServerSentEvents.EventStream.Start` | util/server_sent_events.ts:50-59 | Calls the producer exactly once. The queue then holds the frames of the producer's posts in order, the stored teardown is what the producer returned, and no teardown has run. |
| `ServerSentEvents.EventStream.PostEvent` | util/server_sent_events.ts:51-56 | Appends exactly `Frame(e)` to the end of the queue, and the body grows by that frame. Earlier entries, the stored teardown, the lifecycle flags and both counters are unchanged. |
| `ServerSentEvents.EventStream.Cancel` | util/server_sent_events.ts:60-64 | Calls the teardown once if one is stored and otherwise calls nothing. This covers a cancel before start and a producer that returned no teardown. The queue and the stored teardown are unchanged. |
| `ServerSentEvents.EventStream.BodyReadsBack` | util/server_sent_events.ts:49-58 | In any valid state, if no posted event holds a line break, a client reading the body receives exactly the posted events, in posting order. |

The class invariant `EventStream.Valid` ties the fields together:

- the queue is exactly the frames of the posted events;
- the producer has run exactly once if the stream has started, and not at all before;
- only a start can store a teardown;
- the teardown has run once if the stream was cancelled with a teardown stored, and never otherwise.

## Left out

- `ReadableStream`, `Response` and `Deno.serve` are platform primitives. The controller is modelled as the `queue` sequence, and the response as its `headers` map. The platform calls `start` while the `ReadableStream` is being constructed; the model separates construction from `Start` so that "the producer has not run yet" can be stated.
- `TextEncoder` UTF-8 encoding is a library call, so frames are kept as strings of characters, not bytes.
- The producer and the teardown are arbitrary effectful closures in the source. The producer is modelled as the list of events it posts during start plus whether it returns a teardown. A teardown call is modelled as an increment of `closeCalls`.
- A producer or teardown that throws is not modelled, because the model has no exceptions. The source does not catch either: the failure reaches the platform.
- Writing after close, and a second cancel, are not modelled, because their behaviour belongs to the platform stream. `PostEvent` requires a started stream that has not been cancelled, and `Cancel` requires a stream that has not been cancelled.
- Newlines in the type or data are neither escaped nor rejected, as in the source. The round trip is stated only for events without CR or LF, and two lemmas show what goes wrong otherwise: `BlankLineInDataEndsEvent` (a blank line in the data ends the event early) and `LineBreakInDataInjectsId` (a line in the data becomes an `id` field).
- The reader covers only what the frames need. It does not skip a leading byte order mark, since frames never start with one. It reads a whole received text, so it does not model how a streaming parser waits to see whether an LF follows a CR at the end of a chunk. It ignores events' origin and task queueing.
- util/server_sent_events_test.ts is a demo server driven by timers and the event loop, so it is not part of this model.
