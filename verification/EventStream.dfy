/**
Server-sent events: the frames of backend/agent/agent.py and the reading loop of
frontend/src/stores/chat.ts. A frame is one `data` field and a blank line
(section 9.2 of the WHATWG HTML Living Standard).
*/
module EventStream {
  import opened Wrappers
  import opened Text
  import opened ThinkTags

  datatype FormatParts = FormatParts(separator: string, field: string, done: string)

  type Format = f: FormatParts | f.separator != "" witness FormatParts("a", "", "")

  /** The format of the chat endpoint. */
  function Wire(): Format {
    FormatParts("\n\n", "data: ", "[DONE]")
  }

  datatype Drained = Drained(events: seq<string>, rest: string)

  /** Everything up to the last separator is an event, the rest waits. */
  function Drain(f: Format, events: seq<string>, buffer: string): Drained
    decreases |buffer|
  {
    var i := IndexOf(buffer, f.separator);
    if i.None? then Drained(events, buffer)
    else Drain(f, events + [buffer[..i.value]], buffer[i.value + |f.separator|..])
  }

  lemma DrainStep(f: Format, events: seq<string>, buffer: string, i: nat, event: string, rest: string)
    requires IndexOf(buffer, f.separator) == Some(i)
    requires event == buffer[..i] && rest == buffer[i + |f.separator|..]
    ensures Drain(f, events, buffer) == Drain(f, events + [event], rest)
  {
    hide IndexOf;
  }

  lemma DrainStop(f: Format, events: seq<string>, buffer: string)
    requires IndexOf(buffer, f.separator).None?
    ensures Drain(f, events, buffer) == Drained(events, buffer)
  {
    hide IndexOf;
  }

  /** The payload an event hands to the JSON parser, if any. */
  function Payload(f: Format, event: string): Option<string> {
    if StartsWith(event, f.field) && event[|f.field|..] != f.done then Some(event[|f.field|..]) else None
  }

  function Payloads(f: Format, events: seq<string>): seq<string> {
    if events == [] then []
    else
      var before := Payloads(f, events[..|events| - 1]);
      var p := Payload(f, events[|events| - 1]);
      if p.Some? then before + [p.value] else before
  }

  // ---- the client ----

  lemma PayloadsAppend(f: Format, events: seq<string>, event: string)
    ensures Payloads(f, events + [event])
         == Payloads(f, events) + (if Payload(f, event).Some? then [Payload(f, event).value] else [])
  {
    assert (events + [event])[..|events|] == events;
  }

  /** The inner loop of the reader: take the complete events off the buffer. */
  method TakeEvents(f: Format, ghost seen: seq<string>, sofar: seq<string>, waiting: string)
    returns (received: seq<string>, buffer: string)
    requires sofar == Payloads(f, seen)
    ensures var all := Drain(f, seen, waiting); received == Payloads(f, all.events) && buffer == all.rest
  {
    hide IndexOf, Drain, Payloads;
    buffer := waiting;
    received := sofar;
    ghost var events := seen;
    var end := IndexOf(buffer, f.separator);
    while end.Some?
      invariant end == IndexOf(buffer, f.separator)
      invariant Drain(f, seen, waiting) == Drain(f, events, buffer)
      invariant received == Payloads(f, events)
      decreases |buffer|
    {
      var event := buffer[..end.value];
      ghost var rest := buffer[end.value + |f.separator|..];
      DrainStep(f, events, buffer, end.value, event, rest);
      buffer := buffer[end.value + |f.separator|..];
      PayloadsAppend(f, events, event);
      events := events + [event];
      if StartsWith(event, f.field) {
        var data := event[|f.field|..];
        if data != f.done { received := received + [data]; }
      }
      end := IndexOf(buffer, f.separator);
    }
    DrainStop(f, events, buffer);
  }

  lemma {:induction false} FoundStaysFound(s: string, more: string, marker: string)
    requires IndexOf(s, marker).Some?
    ensures IndexOf(s + more, marker) == IndexOf(s, marker)
  {
    hide IndexOf;
    IndexOfStep(s, marker);
    IndexOfStep(s + more, marker);
    if StartsWith(s, marker) {
      assert (s + more)[..|marker|] == s[..|marker|];
    } else {
      FoundStaysFound(s[1..], more, marker);
      assert (s + more)[1..] == s[1..] + more;
      if StartsWith(s + more, marker) { PendingOverlap(marker, s, more); }
    }
  }

  /** What is drained first stays drained; the rest is drained with what follows. */
  lemma {:induction false} DrainInTwo(f: Format, events: seq<string>, a: string, b: string, first: Drained)
    requires first == Drain(f, events, a)
    ensures Drain(f, events, a + b) == Drain(f, first.events, first.rest + b)
    decreases |a|
  {
    hide IndexOf, Drain;
    var i := IndexOf(a, f.separator);
    if i.None? {
      DrainStop(f, events, a);
    } else {
      var event, rest := a[..i.value], a[i.value + |f.separator|..];
      DrainStep(f, events, a, i.value, event, rest);
      FoundStaysFound(a, b, f.separator);
      assert (a + b)[i.value + |f.separator|..] == rest + b && (a + b)[..i.value] == event;
      DrainStep(f, events, a + b, i.value, event, rest + b);
      DrainInTwo(f, events + [event], rest, b, first);
    }
  }

  /** The outer loop: append a chunk, take what is complete. */
  method ReadStream(f: Format, chunks: seq<string>) returns (received: seq<string>, buffer: string)
    ensures var all := Drain(f, [], Concat(chunks)); received == Payloads(f, all.events) && buffer == all.rest
  {
    NoSeparatorInNothing(f);
    DrainStop(f, [], "");
    hide IndexOf, Drain, Payloads;
    received, buffer := [], "";
    ghost var sofar := Drain(f, [], "");
    for i := 0 to |chunks|
      invariant sofar == Drain(f, [], Concat(chunks[..i]))
      invariant received == Payloads(f, sofar.events) && buffer == sofar.rest
    {
      DrainInTwo(f, [], Concat(chunks[..i]), chunks[i], sofar);
      assert chunks[..i + 1] == chunks[..i] + [chunks[i]];
      ConcatAppend(chunks[..i], chunks[i]);
      received, buffer := TakeEvents(f, sofar.events, received, buffer + chunks[i]);
      sofar := Drain(f, sofar.events, sofar.rest + chunks[i]);
    }
    assert chunks[..|chunks|] == chunks;
  }

  // ---- the server ----

  function Frame(f: Format, payload: string): string {
    f.field + payload + f.separator
  }

  function Stream(f: Format, payloads: seq<string>): string {
    if payloads == [] then "" else Frame(f, payloads[0]) + Stream(f, payloads[1..])
  }

  /** The first separator in the frame is the one that ends it. */
  predicate Framable(f: Format, payload: string) {
    IndexOf(Frame(f, payload), f.separator) == Some(|f.field| + |payload|)
  }

  function Events(f: Format, payloads: seq<string>): seq<string> {
    if payloads == [] then [] else [f.field + payloads[0]] + Events(f, payloads[1..])
  }

  /** The payloads but for the end marker. */
  function WithoutDone(f: Format, payloads: seq<string>): seq<string> {
    if payloads == [] then []
    else (if payloads[0] == f.done then [] else [payloads[0]]) + WithoutDone(f, payloads[1..])
  }

  lemma FrameReadsBack(f: Format, events: seq<string>, payload: string, more: string)
    requires Framable(f, payload)
    ensures Drain(f, events, Frame(f, payload) + more) == Drain(f, events + [f.field + payload], more)
  {
    hide IndexOf, Drain;
    var text := f.field + payload;
    FoundStaysFound(Frame(f, payload), more, f.separator);
    assert (Frame(f, payload) + more)[..|text|] == text;
    assert (Frame(f, payload) + more)[|text| + |f.separator|..] == more;
    DrainStep(f, events, Frame(f, payload) + more, |text|, text, more);
  }

  lemma NoSeparatorInNothing(f: Format)
    ensures IndexOf("", f.separator).None?
  {
  }

  lemma {:induction false} StreamDrains(f: Format, events: seq<string>, payloads: seq<string>)
    requires forall p :: p in payloads ==> Framable(f, p)
    ensures Drain(f, events, Stream(f, payloads)) == Drained(events + Events(f, payloads), "")
    decreases |payloads|
  {
    hide IndexOf, Drain;
    if payloads == [] {
      NoSeparatorInNothing(f);
      DrainStop(f, events, "");
      assert events + [] == events;
    } else {
      FrameReadsBack(f, events, payloads[0], Stream(f, payloads[1..]));
      StreamDrains(f, events + [f.field + payloads[0]], payloads[1..]);
      assert (events + [f.field + payloads[0]]) + Events(f, payloads[1..]) == events + Events(f, payloads);
    }
  }

  lemma EventsStep(f: Format, payloads: seq<string>)
    requires payloads != []
    ensures Events(f, payloads) == [f.field + payloads[0]] + Events(f, payloads[1..])
    ensures WithoutDone(f, payloads)
         == (if payloads[0] == f.done then [] else [payloads[0]]) + WithoutDone(f, payloads[1..])
  {
  }

  lemma PayloadOfField(f: Format, payload: string)
    ensures Payload(f, f.field + payload) == if payload == f.done then None else Some(payload)
  {
    assert (f.field + payload)[|f.field|..] == payload;
  }

  lemma EventsNothing(f: Format)
    ensures Events(f, []) == [] && WithoutDone(f, []) == []
  {
  }

  lemma {:induction false} PayloadsOfEvents(f: Format, events: seq<string>, payloads: seq<string>)
    ensures Payloads(f, events + Events(f, payloads)) == Payloads(f, events) + WithoutDone(f, payloads)
    decreases |payloads|
  {
    hide Payloads, Events, WithoutDone, Payload;
    if payloads == [] {
      EventsNothing(f);
      assert events + [] == events;
    } else {
      var e := f.field + payloads[0];
      var first := if payloads[0] == f.done then [] else [payloads[0]];
      EventsStep(f, payloads);
      PayloadOfField(f, payloads[0]);
      PayloadsOfEvents(f, events + [e], payloads[1..]);
      PayloadsAppend(f, events, e);
      assert events + Events(f, payloads) == (events + [e]) + Events(f, payloads[1..]);
      assert Payloads(f, events) + WithoutDone(f, payloads) == (Payloads(f, events) + first) + WithoutDone(f, payloads[1..]);
    }
  }

  lemma WholeStream(f: Format, payloads: seq<string>)
    requires forall p :: p in payloads ==> Framable(f, p)
    ensures var all := Drain(f, [], Stream(f, payloads));
            Payloads(f, all.events) == WithoutDone(f, payloads) && all.rest == ""
  {
    NoPayloads(f);
    hide Drain, Payloads, Events, WithoutDone, Stream, Framable;
    StreamDrains(f, [], payloads);
    PayloadsOfEvents(f, [], payloads);
    assert [] + Events(f, payloads) == Events(f, payloads);
    assert [] + WithoutDone(f, payloads) == WithoutDone(f, payloads);
  }

  lemma NoPayloads(f: Format)
    ensures Payloads(f, []) == []
  {
  }

  /**
  However the text of framable payloads is cut, the reader recovers them in order, less the end
  marker, and is left with an empty buffer.
  */
  lemma EveryChunkingReadsBack(f: Format, payloads: seq<string>, chunks: seq<string>)
    requires forall p :: p in payloads ==> Framable(f, p)
    requires Concat(chunks) == Stream(f, payloads)
    ensures var all := Drain(f, [], Concat(chunks));
            Payloads(f, all.events) == WithoutDone(f, payloads) && all.rest == ""
  {
    WholeStream(f, payloads);
  }

  lemma {:induction false} DrainGrows(f: Format, events: seq<string>, buffer: string, end: Drained)
    requires end == Drain(f, events, buffer)
    ensures events <= end.events
    decreases |buffer|
  {
    hide IndexOf, Drain;
    var i := IndexOf(buffer, f.separator);
    if i.None? {
      DrainStop(f, events, buffer);
    } else {
      var event, rest := buffer[..i.value], buffer[i.value + |f.separator|..];
      DrainStep(f, events, buffer, i.value, event, rest);
      DrainGrows(f, events + [event], rest, end);
    }
  }

  lemma {:induction false} PayloadsGrow(f: Format, a: seq<string>, b: seq<string>)
    requires a <= b
    ensures Payloads(f, a) <= Payloads(f, b)
  {
    if a != b {
      PayloadsGrow(f, a, b[..|b| - 1]);
      assert Payloads(f, b[..|b| - 1]) <= Payloads(f, b);
    }
  }

  /** A stream that breaks off has delivered a prefix of its payloads. */
  lemma BrokenStreamReadsPrefix(f: Format, payloads: seq<string>, arrived: string, lost: string)
    requires forall p :: p in payloads ==> Framable(f, p)
    requires arrived + lost == Stream(f, payloads)
    ensures Payloads(f, Drain(f, [], arrived).events) <= WithoutDone(f, payloads)
  {
    hide Drain, Payloads, WithoutDone, Stream, Framable;
    var first := Drain(f, [], arrived);
    DrainInTwo(f, [], arrived, lost, first);
    var end := Drain(f, [], arrived + lost);
    DrainGrows(f, first.events, first.rest + lost, end);
    PayloadsGrow(f, first.events, end.events);
    WholeStream(f, payloads);
  }

  // ---- which payloads can be framed ----

  /** No blank line inside, no line break at the end. */
  predicate OneBlock(payload: string) {
    && (forall k :: 0 <= k < |payload| - 1 ==> payload[k] != '\n' || payload[k + 1] != '\n')
    && (payload == "" || payload[|payload| - 1] != '\n')
  }

  lemma {:induction false} FirstBlankLine(text: string, blank: string)
    requires blank == ['\n', '\n']
    ensures OneBlock(text) <==> IndexOf(text + blank, blank) == Some(|text|)
  {
    hide IndexOf;
    var all := text + blank;
    IndexOfStep(all, blank);
    if text == "" {
      assert all == blank;
    } else {
      assert all[1..] == text[1..] + blank;
      assert StartsWith(all, blank) <==> all[0] == '\n' && all[1] == '\n';
      FirstBlankLine(text[1..], blank);
      assert OneBlock(text) ==> OneBlock(text[1..]);
      assert OneBlock(text[1..]) && !StartsWith(all, blank) ==> OneBlock(text) by {
        assert forall k :: 1 <= k < |text| ==> text[1..][k - 1] == text[k];
      }
    }
  }

  /** A payload of the chat endpoint can be framed if and only if it is one block, as newline-free ones are. */
  lemma WireFrames(payload: string)
    ensures Framable(Wire(), payload) <==> OneBlock(payload)
    ensures '\n' !in payload ==> OneBlock(payload)
  {
    var field := Wire().field;
    assert '\n' !in field;
    FieldAddsNoBreak(field, payload);
    FirstBlankLine(field + payload, Wire().separator);
  }

  /** What the endpoint writes for one payload. */
  lemma WireFrame(payload: string)
    ensures Frame(Wire(), payload) == "data: " + payload + "\n\n"
  {
  }

  /** What the client keeps: nothing of nothing, and of one payload more that one, unless it is the end marker. */
  lemma {:induction false} EndIsNotKept(payloads: seq<string>, last: string)
    ensures WithoutDone(Wire(), []) == []
    ensures WithoutDone(Wire(), payloads + [last])
         == WithoutDone(Wire(), payloads) + (if last == "[DONE]" then [] else [last])
  {
    if payloads == [] {
      assert [] + [last] == [last] && [last][1..] == [];
    } else {
      assert (payloads + [last])[1..] == payloads[1..] + [last];
      EndIsNotKept(payloads[1..], last);
    }
  }

  /** The chat endpoint frames JSON, which has no raw line breaks: the client recovers all of it. */
  lemma ChatStreamReadsBack(payloads: seq<string>, chunks: seq<string>)
    requires forall p :: p in payloads ==> '\n' !in p
    requires Concat(chunks) == Stream(Wire(), payloads)
    ensures var all := Drain(Wire(), [], Concat(chunks));
            Payloads(Wire(), all.events) == WithoutDone(Wire(), payloads) && all.rest == ""
  {
    forall p | p in payloads ensures Framable(Wire(), p) { WireFrames(p); }
    hide Wire, Framable, Drain, Payloads, WithoutDone, Stream;
    EveryChunkingReadsBack(Wire(), payloads, chunks);
  }

  /** The reader on a stream of framed payloads, however it is cut: all of them, and nothing left over. */
  method ReadPayloads(f: Format, ghost payloads: seq<string>, chunks: seq<string>) returns (received: seq<string>, buffer: string)
    requires forall p :: p in payloads ==> Framable(f, p)
    requires Concat(chunks) == Stream(f, payloads)
    ensures received == WithoutDone(f, payloads) && buffer == ""
  {
    EveryChunkingReadsBack(f, payloads, chunks);
    received, buffer := ReadStream(f, chunks);
  }

  lemma FieldAddsNoBreak(field: string, payload: string)
    requires '\n' !in field && field != ""
    ensures OneBlock(field + payload) <==> OneBlock(payload)
  {
    var s := field + payload;
    assert forall k :: 0 <= k < |payload| ==> s[|field| + k] == payload[k];
    if OneBlock(payload) {
      forall k | 0 <= k < |s| - 1 ensures s[k] != '\n' || s[k + 1] != '\n' {
        if k < |field| {
          assert s[k] == field[k];
        } else {
          assert s[k] == payload[k - |field|];
        }
      }
    }
    if OneBlock(s) {
      forall k | 0 <= k < |payload| - 1 ensures payload[k] != '\n' || payload[k + 1] != '\n' {
        assert s[|field| + k] == payload[k] && s[|field| + k + 1] == payload[k + 1];
      }
    }
  }
}
