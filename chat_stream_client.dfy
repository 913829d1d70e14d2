/**
 * The browser side of the chat stream, `chatService.streamMessage` in
 * client/src/services/chat-service.ts: the same carry-over line buffer as the server, the
 * `data: ` prefix test WITHOUT trimming, `[DONE]` ending the whole read, and every payload
 * that parses yielded. Together with the server's wire format this gives what the browser
 * receives for whatever the server wrote, however the transport cuts the text into chunks.
 */
module ChatStreamClient {
  import opened Wrappers
  import opened Text
  import opened SseLines
  import opened ChatRelay

  /** What the client does with one line: ignore it, stop reading, or yield a parsed value. */
  datatype ClientStep<T> = Ignore | Stop | Yield(value: T)

  /**
   * One line as the client reads it: only a line that starts with `data: ` is looked at (no
   * trim); its payload `[DONE]` stops the read; a payload `parse` (standing for `JSON.parse`)
   * accepts is yielded, and one it rejects is skipped.
   */
  function ClientLine<T>(line: string, parse: string -> Option<T>): (s: ClientStep<T>)
    ensures s == Stop <==> line == "data: [DONE]"
    ensures s.Yield? <==> StartsWith(line, "data: ") && line != "data: [DONE]" && parse(line[6..]).Some?
    ensures s.Yield? ==> s.value == parse(line[6..]).value
  {
    if StartsWith(line, "data: ") then
      var data := line[6..];
      assert line == "data: " + data;
      if data == "[DONE]" then Stop
      else match parse(data)
        case Some(v) => Yield(v)
        case None => Ignore
    else Ignore
  }

  /** The values yielded for `lines`, and whether a `[DONE]` among them ended the read. */
  function ClientLines<T>(lines: seq<string>, parse: string -> Option<T>): (seq<T>, bool) {
    if lines == [] then ([], false)
    else match ClientLine(lines[0], parse)
      case Stop => ([], true)
      case Ignore => ClientLines(lines[1..], parse)
      case Yield(v) =>
        var rest := ClientLines(lines[1..], parse);
        ([v] + rest.0, rest.1)
  }

  /** The values the generator yields for `chunks` read with carried-over `buffer`. */
  function ClientChunks<T>(buffer: string, chunks: seq<string>, parse: string -> Option<T>): seq<T>
    decreases |chunks|
  {
    if chunks == [] then []
    else
      var split := SplitLines(buffer + chunks[0]);
      var r := ClientLines(split.0, parse);
      if r.1 then r.0 else r.0 + ClientChunks(split.1, chunks[1..], parse)
  }

  /**
   * `streamMessage`: without a body it throws `No response body`; otherwise it yields the
   * values `ClientChunks` describes.
   */
  method StreamMessage<T>(body: Option<seq<string>>, parse: string -> Option<T>) returns (r: Result<seq<T>, string>)
    ensures body.None? ==> r == Failure("No response body")
    ensures body.Some? ==> r == Success(ClientChunks("", body.value, parse))
  {
    if body.None? {
      return Failure("No response body");
    }
    var chunks := body.value;
    var yielded: seq<T> := [];
    var buffer := "";
    var i := 0;
    while i < |chunks|
      invariant 0 <= i <= |chunks|
      invariant yielded + ClientChunks(buffer, chunks[i..], parse) == ClientChunks("", chunks, parse)
    {
      ghost var carried := buffer;
      buffer := buffer + chunks[i];
      var split := SplitLines(buffer);  // lines = buffer.split('\n'); buffer = lines.pop() || ''
      buffer := split.1;
      ClientChunksStep(carried, chunks, i, parse);
      var got, stopped := ReadLines(split.0, parse);
      if stopped {
        return Success(yielded + got);
      }
      ghost var later := ClientChunks(buffer, chunks[i + 1..], parse);
      assert (yielded + got) + later == yielded + (got + later);
      yielded := yielded + got;
      i := i + 1;
    }
    assert chunks[i..] == [] && yielded + [] == yielded;
    return Success(yielded);
  }

  /** The `for (const line of lines)` loop: the values it yields and whether it met `[DONE]`. */
  method ReadLines<T>(lines: seq<string>, parse: string -> Option<T>) returns (got: seq<T>, stopped: bool)
    ensures (got, stopped) == ClientLines(lines, parse)
  {
    got := [];
    var j := 0;
    assert lines[j..] == lines;
    assert got + ClientLines(lines, parse).0 == ClientLines(lines, parse).0;
    while j < |lines|
      invariant 0 <= j <= |lines|
      invariant ClientLines(lines, parse) == (var rest := ClientLines(lines[j..], parse); (got + rest.0, rest.1))
    {
      ClientLinesFrom(lines, j, parse);
      var line := lines[j];
      if StartsWith(line, "data: ") {
        var data := line[6..];
        if data == "[DONE]" {
          assert got + [] == got;
          return got, true;
        }
        var parsed := parse(data);
        if parsed.Some? {
          ghost var rest := ClientLines(lines[j + 1..], parse);
          assert (got + [parsed.value]) + rest.0 == got + ([parsed.value] + rest.0);
          got := got + [parsed.value];
        }
      }
      j := j + 1;
    }
    assert got + [] == got;
    return got, false;
  }

  lemma ClientChunksStep<T>(carried: string, chunks: seq<string>, i: nat, parse: string -> Option<T>)
    requires i < |chunks|
    ensures var split := SplitLines(carried + chunks[i]);
            var r := ClientLines(split.0, parse);
            ClientChunks(carried, chunks[i..], parse)
              == if r.1 then r.0 else r.0 + ClientChunks(split.1, chunks[i + 1..], parse)
  {
    assert chunks[i..][0] == chunks[i];
    assert chunks[i..][1..] == chunks[i + 1..];
  }

  lemma ClientLinesFrom<T>(lines: seq<string>, j: nat, parse: string -> Option<T>)
    requires j < |lines|
    ensures ClientLines(lines[j..], parse)
         == match ClientLine(lines[j], parse)
            case Stop => ([], true)
            case Ignore => ClientLines(lines[j + 1..], parse)
            case Yield(v) => ([v] + ClientLines(lines[j + 1..], parse).0, ClientLines(lines[j + 1..], parse).1)
  {
    assert lines[j..][0] == lines[j];
    assert lines[j..][1..] == lines[j + 1..];
  }

  // ---------------------------------------------------------------- chunking

  /** The text of all chunks together. */
  function Concat(chunks: seq<string>): string {
    if chunks == [] then "" else chunks[0] + Concat(chunks[1..])
  }

  lemma {:induction false} ClientLinesAppend<T>(a: seq<string>, b: seq<string>, parse: string -> Option<T>)
    ensures ClientLines(a + b, parse)
         == if ClientLines(a, parse).1 then ClientLines(a, parse)
            else (ClientLines(a, parse).0 + ClientLines(b, parse).0, ClientLines(b, parse).1)
  {
    if a == [] {
      assert a + b == b;
      assert [] + ClientLines(b, parse).0 == ClientLines(b, parse).0;
    } else {
      assert (a + b)[0] == a[0];
      assert (a + b)[1..] == a[1..] + b;
      ClientLinesAppend(a[1..], b, parse);
      match ClientLine(a[0], parse)
      case Stop =>
      case Ignore =>
      case Yield(v) =>
        assert [v] + (ClientLines(a[1..], parse).0 + ClientLines(b, parse).0)
            == ([v] + ClientLines(a[1..], parse).0) + ClientLines(b, parse).0;
    }
  }

  /**
   * What the client yields depends only on the text received, not on where the transport cut
   * it: it is what the complete lines of the whole text yield.
   */
  lemma {:induction false} ChunkingIrrelevant<T>(buffer: string, chunks: seq<string>, parse: string -> Option<T>)
    requires '\n' !in buffer
    ensures ClientChunks(buffer, chunks, parse) == ClientLines(SplitLines(buffer + Concat(chunks)).0, parse).0
    decreases |chunks|
  {
    if chunks == [] {
      assert buffer + Concat(chunks) == Terminated([]) + buffer;
      SplitLinesUnique([], buffer);
    } else {
      var split := SplitLines(buffer + chunks[0]);
      var l1, t1 := split.0, split.1;
      var more := Concat(chunks[1..]);
      assert buffer + Concat(chunks) == Terminated(l1) + t1 + more;
      SplitLinesAfter(l1, t1, more);
      ChunkingIrrelevant(t1, chunks[1..], parse);
      ClientLinesAppend(l1, SplitLines(t1 + more).0, parse);
    }
  }

  // ---------------------------------------------------------------- the server's wire text, read back

  /** The lines of the server's response body: each event is a `data: ` line and a blank line. */
  function FrameLines(events: seq<Outbound>): seq<string> {
    if events == [] then [] else ["data: " + Payload(events[0]), ""] + FrameLines(events[1..])
  }

  lemma {:induction false} WireIsLines(events: seq<Outbound>)
    ensures WireText(events) == Terminated(FrameLines(events))
    ensures NoneContains(FrameLines(events), '\n')
  {
    if events != [] {
      var head := ["data: " + Payload(events[0]), ""];
      WireIsLines(events[1..]);
      assert head[1..] == [""] && [""][1..] == [];
      assert Terminated(head) == Frame(events[0]);
      TerminatedAppend(head, FrameLines(events[1..]));
      var fl := FrameLines(events);
      assert forall k :: 0 <= k < |fl| ==> fl[k] == (if k < 2 then head[k] else FrameLines(events[1..])[k - 2]);
    }
  }

  /** The events before the first `[DONE]`. */
  function UntilDone(events: seq<Outbound>): (r: seq<Outbound>)
    ensures |r| <= |events| && r == events[..|r|]
    ensures DoneMarker !in r
    ensures DoneMarker in events ==> |r| < |events| && events[|r|] == DoneMarker
    ensures DoneMarker !in events ==> r == events
  {
    if events == [] then []
    else if events[0] == DoneMarker then []
    else
      var rest := UntilDone(events[1..]);
      assert events[..1 + |rest|] == [events[0]] + events[1..][..|rest|];
      [events[0]] + rest
  }

  function Views<T>(view: Outbound -> T, events: seq<Outbound>): (r: seq<T>)
    ensures |r| == |events|
    ensures forall k :: 0 <= k < |events| ==> r[k] == view(events[k])
  {
    if events == [] then [] else [view(events[0])] + Views(view, events[1..])
  }

  /** `parse` reads back what the server serialised: `JSON.parse` inverts `JSON.stringify`. */
  ghost predicate ReadsBack<T>(parse: string -> Option<T>, view: Outbound -> T) {
    forall e :: e != DoneMarker ==> parse(Payload(e)) == Some(view(e))
  }

  lemma {:induction false} ClientOnFrames<T>(events: seq<Outbound>, parse: string -> Option<T>, view: Outbound -> T)
    requires ReadsBack(parse, view)
    ensures ClientLines(FrameLines(events), parse) == (Views(view, UntilDone(events)), DoneMarker in events)
  {
    if events != [] {
      var e := events[0];
      var line := "data: " + Payload(e);
      assert line[6..] == Payload(e);
      assert StartsWith(line, "data: ");
      var fl := FrameLines(events);
      assert fl[0] == line && fl[1..] == [""] + FrameLines(events[1..]);
      assert ([""] + FrameLines(events[1..]))[0] == "" && ([""] + FrameLines(events[1..]))[1..] == FrameLines(events[1..]);
      assert ClientLine("", parse) == Ignore;
      if e == DoneMarker {
        assert ClientLine(line, parse) == Stop;
      } else {
        assert line != "data: [DONE]";
        assert ClientLine(line, parse) == Yield(view(e));
        ClientOnFrames(events[1..], parse, view);
        assert events[1..] == events[1..];
        assert (DoneMarker in events) == (DoneMarker in events[1..]);
      }
    }
  }

  /**
   * End to end: whatever the server writes, and however the transport splits it into chunks,
   * the browser yields exactly the events written before the first `[DONE]`, in order.
   */
  lemma BrowserReceives<T>(events: seq<Outbound>, chunks: seq<string>, parse: string -> Option<T>, view: Outbound -> T)
    requires Concat(chunks) == WireText(events)
    requires ReadsBack(parse, view)
    ensures ClientChunks("", chunks, parse) == Views(view, UntilDone(events))
  {
    ChunkingIrrelevant("", chunks, parse);
    WireIsLines(events);
    assert "" + Concat(chunks) == Terminated(FrameLines(events)) + "";
    SplitLinesUnique(FrameLines(events), "");
    ClientOnFrames(events, parse, view);
  }

  /**
   * For the stream handler's body (the relayed events, then the final event, then `[DONE]`):
   * once the provider's `[DONE]` has been relayed the browser stops there and never sees the
   * final event; without it the browser receives every delta AND the final event, which
   * repeats the whole response.
   */
  lemma StreamBodyAsReceived(written: seq<Outbound>, id: nat, full: string)
    requires forall e :: e in written ==> e.DeltaEvent? || e == DoneMarker
    ensures DoneMarker in written ==> UntilDone(written + [FinalEvent(id, full), DoneMarker]) == UntilDone(written)
    ensures DoneMarker !in written ==> UntilDone(written + [FinalEvent(id, full), DoneMarker]) == written + [FinalEvent(id, full)]
  {
    UntilDoneAppend(written, [FinalEvent(id, full), DoneMarker]);
    var tail := [FinalEvent(id, full), DoneMarker];
    assert tail[1..] == [DoneMarker];
    assert UntilDone(tail) == [FinalEvent(id, full)];
  }

  lemma {:induction false} UntilDoneAppend(a: seq<Outbound>, b: seq<Outbound>)
    ensures UntilDone(a + b) == if DoneMarker in a then UntilDone(a) else a + UntilDone(b)
  {
    if a == [] {
      assert a + b == b;
    } else {
      assert (a + b)[0] == a[0];
      assert (a + b)[1..] == a[1..] + b;
      UntilDoneAppend(a[1..], b);
      assert (DoneMarker in a) == (a[0] == DoneMarker || DoneMarker in a[1..]);
      if a[0] != DoneMarker && DoneMarker !in a[1..] {
        assert a == [a[0]] + a[1..];
      }
    }
  }
}

