/**
 * The chat relay of server/src/routes/chat.routes.ts: request checks, the ownership lookup,
 * prompt assembly, the upstream call's error rules, the event-stream relay loop of
 * `POST /messages/stream`, and both message handlers over a transcript store.
 */
module ChatRelay {
  import opened Wrappers
  import opened Text
  import opened SseLines
  import opened ApiErrors

  const SYSTEM_PROMPT: string := "You are a flirty, charming AI companion with a playful personality. You enjoy light-hearted banter, compliments, and making the user feel special. You're intelligent, witty, and a bit cheeky, but always respectful and appropriate. You remember previous conversations and reference them naturally. Your responses should be engaging, warm, and occasionally suggestive in a tasteful way. You aim to build a genuine connection while being helpful and entertaining."

  /** How many stored messages the prompt takes (`take: 20`). */
  const HISTORY_LIMIT: nat := 20

  const DEFAULT_MODEL: string := "llama-3.1-70b-versatile"

  // ---------------------------------------------------------------- data model

  datatype Role = SystemRole | UserRole | AssistantRole

  /** One role-tagged turn of the prompt sent upstream. */
  datatype Turn = Turn(role: Role, content: string)

  /** A stored message row; `createdAt` is the store's clock at the time of the write. */
  datatype MessageRow = MessageRow(id: nat, userId: string, conversationId: string, companionId: string,
                                   content: string, isFromUser: bool, createdAt: nat)

  datatype ConversationRow = ConversationRow(id: string, userId: string, companionId: string,
                                             title: string, updatedAt: nat)

  /** The request body fields both message handlers read. */
  datatype MessageRequest = MessageRequest(content: Option<string>, conversationId: Option<string>,
                                           companionId: Option<string>)

  /** A request that passed the checks: every field present and non-empty. */
  datatype Checked = Checked(userId: string, content: string, conversationId: string, companionId: string)

  // ---------------------------------------------------------------- request checks

  /**
   * The checks at the top of both handlers, in order: the caller, then `content`,
   * `conversationId` and `companionId`; a missing or empty field is rejected.
   */
  function CheckRequest(userId: Option<string>, req: MessageRequest): (r: Result<Checked, ApiError>)
    ensures r.Success? <==> Truthy(userId) && Truthy(req.content) && Truthy(req.conversationId) && Truthy(req.companionId)
    ensures r.Success? ==> r.value == Checked(userId.value, req.content.value, req.conversationId.value, req.companionId.value)
    ensures !Truthy(userId) ==> r == Failure(NewApiError(401, "Not authenticated"))
    ensures Truthy(userId) && !Truthy(req.content) ==> r == Failure(NewApiError(400, "content is required"))
    ensures Truthy(userId) && Truthy(req.content) && !Truthy(req.conversationId) ==>
              r == Failure(NewApiError(400, "conversationId is required"))
    ensures Truthy(userId) && Truthy(req.content) && Truthy(req.conversationId) && !Truthy(req.companionId) ==>
              r == Failure(NewApiError(400, "companionId is required"))
  {
    if !Truthy(userId) then Failure(NewApiError(401, "Not authenticated"))
    else if !Truthy(req.content) then Failure(NewApiError(400, "content is required"))
    else if !Truthy(req.conversationId) then Failure(NewApiError(400, "conversationId is required"))
    else if !Truthy(req.companionId) then Failure(NewApiError(400, "companionId is required"))
    else Success(Checked(userId.value, req.content.value, req.conversationId.value, req.companionId.value))
  }

  predicate OwnedBy(c: ConversationRow, req: Checked) {
    c.id == req.conversationId && c.userId == req.userId && c.companionId == req.companionId
  }

  /** `conversation.findFirst({ where: { id, userId, companionId } })`: the first matching row, if any. */
  function FindConversation(convs: seq<ConversationRow>, req: Checked): (r: Option<nat>)
    ensures r.Some? ==> r.value < |convs| && OwnedBy(convs[r.value], req)
    ensures r.Some? ==> forall k :: 0 <= k < r.value ==> !OwnedBy(convs[k], req)
    ensures r.None? <==> forall k :: 0 <= k < |convs| ==> !OwnedBy(convs[k], req)
  {
    if convs == [] then None
    else if OwnedBy(convs[0], req) then Some(0)
    else
      var r := FindConversation(convs[1..], req);
      if r.Some? then Some(r.value + 1) else None
  }

  // ---------------------------------------------------------------- prompt assembly

  predicate InThread(m: MessageRow, conversationId: string, userId: string) {
    m.conversationId == conversationId && m.userId == userId
  }

  /** The rows of one user's conversation, in store (creation) order. */
  function Thread(rows: seq<MessageRow>, conversationId: string, userId: string): (t: seq<MessageRow>)
    ensures |t| <= |rows|
    ensures forall k :: 0 <= k < |t| ==> InThread(t[k], conversationId, userId) && t[k] in rows
  {
    if rows == [] then []
    else
      var init := rows[..|rows| - 1];
      assert rows == init + [rows[|rows| - 1]];
      var rest := Thread(init, conversationId, userId);
      if InThread(rows[|rows| - 1], conversationId, userId) then rest + [rows[|rows| - 1]] else rest
  }

  /** Every stored row of the conversation and user is in the thread. */
  lemma {:induction false} ThreadComplete(rows: seq<MessageRow>, conversationId: string, userId: string, r: MessageRow)
    requires r in rows && InThread(r, conversationId, userId)
    ensures r in Thread(rows, conversationId, userId)
  {
    var init := rows[..|rows| - 1];
    assert rows == init + [rows[|rows| - 1]];
    if r != rows[|rows| - 1] {
      ThreadComplete(init, conversationId, userId, r);
    }
  }

  /**
   * `message.findMany({ where: { conversationId, userId }, orderBy: { createdAt: 'asc' }, take: 20 })`:
   * the OLDEST twenty rows of the thread, oldest first.
   */
  function History(rows: seq<MessageRow>, conversationId: string, userId: string): (h: seq<MessageRow>)
    ensures |h| <= HISTORY_LIMIT && |h| <= |Thread(rows, conversationId, userId)|
    ensures h == Thread(rows, conversationId, userId)[..|h|]
    ensures |h| == if |Thread(rows, conversationId, userId)| < HISTORY_LIMIT
                   then |Thread(rows, conversationId, userId)| else HISTORY_LIMIT
  {
    var t := Thread(rows, conversationId, userId);
    if |t| <= HISTORY_LIMIT then t else t[..HISTORY_LIMIT]
  }

  /** `m.isFromUser ? 'user' : 'assistant'`. */
  function ToTurn(m: MessageRow): Turn {
    Turn(if m.isFromUser then UserRole else AssistantRole, m.content)
  }

  /** The history rows as turns, in order. */
  function Turns(history: seq<MessageRow>): (turns: seq<Turn>)
    ensures |turns| == |history|
    ensures forall k :: 0 <= k < |history| ==> turns[k] == ToTurn(history[k])
  {
    if history == [] then [] else [ToTurn(history[0])] + Turns(history[1..])
  }

  /**
   * The prompt: the system turn first, then the history in order with stored user rows as user
   * turns and all others as assistant turns, then the new user turn last.
   */
  function AssemblePrompt(system: string, history: seq<MessageRow>, content: string): (p: seq<Turn>)
    ensures |p| == |history| + 2
    ensures p[0] == Turn(SystemRole, system)
    ensures forall k :: 0 <= k < |history| ==>
              p[k + 1].content == history[k].content
              && (p[k + 1].role == UserRole <==> history[k].isFromUser)
              && p[k + 1].role != SystemRole
    ensures p[|p| - 1] == Turn(UserRole, content)
  {
    var turns := Turns(history);
    assert forall k :: 0 <= k < |history| ==> ([Turn(SystemRole, system)] + turns)[k + 1] == turns[k];
    [Turn(SystemRole, system)] + turns + [Turn(UserRole, content)]
  }

  /** The prompt is never longer than 22 turns, whatever the thread's length. */
  lemma PromptBounded(system: string, rows: seq<MessageRow>, req: Checked)
    ensures |AssemblePrompt(system, History(rows, req.conversationId, req.userId), req.content)| <= HISTORY_LIMIT + 2
  {
  }

  /**
   * Storing one more row extends the thread by that row exactly when it belongs to the thread:
   * the thread is the stored rows filtered in store order.
   */
  lemma {:induction false} ThreadAppend(rows: seq<MessageRow>, m: MessageRow, conversationId: string, userId: string)
    ensures Thread(rows + [m], conversationId, userId)
         == Thread(rows, conversationId, userId) + (if InThread(m, conversationId, userId) then [m] else [])
  {
    assert (rows + [m])[..|rows|] == rows;
  }

  /**
   * The stored user turn is already part of the history, so while the thread is short the
   * prompt ends with the same user turn twice; once the thread holds twenty rows the new turn
   * is not in the history at all and the prompt keeps only the oldest rows.
   */
  lemma {:induction false} PromptRepeatsNewTurn(system: string, rows: seq<MessageRow>, u: MessageRow)
    requires u.isFromUser
    requires |Thread(rows, u.conversationId, u.userId)| < HISTORY_LIMIT
    ensures var p := AssemblePrompt(system, History(rows + [u], u.conversationId, u.userId), u.content);
            p[|p| - 2] == p[|p| - 1] == Turn(UserRole, u.content)
  {
    ThreadAppend(rows, u, u.conversationId, u.userId);
  }

  lemma {:induction false} PromptOmitsNewTurnWhenThreadFull(rows: seq<MessageRow>, u: MessageRow)
    requires u.isFromUser
    requires |Thread(rows, u.conversationId, u.userId)| >= HISTORY_LIMIT
    ensures History(rows + [u], u.conversationId, u.userId) == History(rows, u.conversationId, u.userId)
  {
    ThreadAppend(rows, u, u.conversationId, u.userId);
    var t := Thread(rows, u.conversationId, u.userId);
    assert (t + [u])[..HISTORY_LIMIT] == t[..HISTORY_LIMIT];
  }

  // ---------------------------------------------------------------- upstream call

  /** The configuration `callGroqAPI` reads from the environment. */
  datatype GroqEnv = GroqEnv(apiKey: Option<string>, model: Option<string>)

  /** `process.env.GROQ_MODEL || 'llama-3.1-70b-versatile'`. */
  function ModelOf(env: GroqEnv): string {
    if Truthy(env.model) then env.model.value else DEFAULT_MODEL
  }

  datatype UpstreamRequest = UpstreamRequest(model: string, messages: seq<Turn>, stream: bool)

  /** What `res.json()` and `json?.choices?.[0]?.message?.content` give: not JSON, or JSON with a string content or without. */
  datatype Completion = NotJson | Json(content: Option<string>)

  /**
   * The provider's answer: either `fetch` rejects, or a response with its `ok` flag, status,
   * status text, the body text read on failure (`''` when reading it fails), whether a body
   * exists, the body as decoded text chunks, and its reading as one JSON completion.
   */
  datatype UpstreamReply =
    | Unreachable(reason: string)
    | Reply(ok: bool, status: int, statusText: string, errorText: string, hasBody: bool,
            chunks: seq<string>, completion: Completion)

  /** The first rule of `callGroqAPI`, checked before any request is sent: the API key must be set. */
  function KeyCheck(env: GroqEnv): (r: Option<ApiError>)
    ensures r.None? <==> Truthy(env.apiKey)
    ensures r.Some? ==> r.value == NewApiError(500, "GROQ_API_KEY not configured")
  {
    if Truthy(env.apiKey) then None else Some(NewApiError(500, "GROQ_API_KEY not configured"))
  }

  function UpstreamErrorMessage(status: int, errorText: string, statusText: string): string {
    "Groq API error (" + IntToString(status) + "): " + (if errorText != "" then errorText else statusText)
  }

  /**
   * The remaining rules of `callGroqAPI`: a rejected fetch propagates, a non-ok status is a 502
   * carrying the status and the body text (or the status text when the body is empty), and a
   * missing body is a 502.
   */
  function ReplyCheck(reply: UpstreamReply): (r: Result<UpstreamReply, Thrown>)
    ensures r.Success? <==> reply.Reply? && reply.ok && reply.hasBody
    ensures r.Success? ==> r.value == reply
    ensures reply.Unreachable? ==> r.Failure? && r.error.Other? && StatusOf(r.error) == 0
    ensures reply.Reply? && !reply.ok ==>
              r == Failure(Api(NewApiError(502, UpstreamErrorMessage(reply.status, reply.errorText, reply.statusText))))
    ensures reply.Reply? && reply.ok && !reply.hasBody ==>
              r == Failure(Api(NewApiError(502, "Groq API returned no response body")))
  {
    match reply
    case Unreachable(reason) => Failure(Other("TypeError", reason, 0, None, None, None, true))
    case Reply(ok, status, statusText, errorText, hasBody, _, _) =>
      if !ok then Failure(Api(NewApiError(502, UpstreamErrorMessage(status, errorText, statusText))))
      else if !hasBody then Failure(Api(NewApiError(502, "Groq API returned no response body")))
      else Success(reply)
  }

  /** `callGroqAPIOnce` after a successful `callGroqAPI`: the completion must carry string content. */
  function CompletionCheck(c: Completion): (r: Result<string, Thrown>)
    ensures r.Success? <==> c.Json? && c.content.Some?
    ensures r.Success? ==> r.value == c.content.value
    ensures c.Json? && c.content.None? ==> r == Failure(Api(NewApiError(502, "Unexpected Groq API response")))
    ensures c.NotJson? ==> r.Failure? && r.error.Other? && r.error.name == "SyntaxError"
  {
    match c
    case NotJson => Failure(Other("SyntaxError", "Unexpected token in JSON", 0, None, None, None, true))
    case Json(content) =>
      if content.Some? then Success(content.value) else Failure(Api(NewApiError(502, "Unexpected Groq API response")))
  }

  // ---------------------------------------------------------------- event-stream relay

  /** What the handler writes to the client: a delta event, the `[DONE]` marker, or the final event. */
  datatype Outbound = DeltaEvent(content: string) | DoneMarker | FinalEvent(id: nat, content: string)

  /** How the relay loop treats one upstream line. */
  datatype LineAction = SkipLine | DoneLine | DeltaLine(delta: string)

  /**
   * One line of the upstream stream: trimmed, it must start with `data: `; the payload after
   * that prefix is either `[DONE]` or is handed to `extract`, which stands for `JSON.parse` and
   * the lookup of `choices[0].delta.content` and yields nothing when either fails.
   */
  function Classify(line: string, extract: string -> Option<string>): LineAction {
    var trimmed := Trim(line);
    if trimmed == "" || !StartsWith(trimmed, "data: ") then SkipLine
    else
      var data := trimmed[6..];
      if data == "[DONE]" then DoneLine
      else
        var delta := extract(data);
        if delta.Some? && |delta.value| > 0 then DeltaLine(delta.value) else SkipLine
  }

  /**
   * What `Classify` means: only a trimmed `data: ` line is acted on, `data: [DONE]` is the end
   * mark, and a delta is forwarded exactly when the payload yields a NON-EMPTY string; a payload
   * that does not parse is skipped.
   */
  lemma ClassifyMeaning(line: string, extract: string -> Option<string>)
    ensures var t := Trim(line);
            && (Classify(line, extract) != SkipLine ==> StartsWith(t, "data: "))
            && (Classify(line, extract) == DoneLine <==> t == "data: [DONE]")
            && (Classify(line, extract).DeltaLine? <==>
                  StartsWith(t, "data: ") && t != "data: [DONE]" && extract(t[6..]).Some? && extract(t[6..]).value != "")
            && (Classify(line, extract).DeltaLine? ==> Classify(line, extract).delta == extract(t[6..]).value)
  {
    var t := Trim(line);
    if StartsWith(t, "data: ") {
      assert t == "data: " + t[6..];
    }
  }

  /** The event one non-final line adds to the output. */
  function Emit(a: LineAction): seq<Outbound> {
    if a.DeltaLine? then [DeltaEvent(a.delta)] else []
  }

  /** The events written for the complete lines of one chunk; writing stops after `[DONE]`. */
  function RelayLines(lines: seq<string>, extract: string -> Option<string>): seq<Outbound> {
    if lines == [] then []
    else
      var a := Classify(lines[0], extract);
      if a == DoneLine then [DoneMarker] else Emit(a) + RelayLines(lines[1..], extract)
  }

  /**
   * The events written while reading `chunks` with carried-over `buffer`. `[DONE]` ends only the
   * current chunk's lines; the next chunk is read and relayed as before.
   */
  function RelayChunks(buffer: string, chunks: seq<string>, extract: string -> Option<string>): seq<Outbound>
    decreases |chunks|
  {
    if chunks == [] then []
    else
      var split := SplitLines(buffer + chunks[0]);
      RelayLines(split.0, extract) + RelayChunks(split.1, chunks[1..], extract)
  }

  /** The concatenated text of the delta events. */
  function DeltaText(events: seq<Outbound>): string {
    if events == [] then ""
    else (if events[0].DeltaEvent? then events[0].content else "") + DeltaText(events[1..])
  }

  predicate NoDoneLine(lines: seq<string>, extract: string -> Option<string>) {
    forall k :: 0 <= k < |lines| ==> Classify(lines[k], extract) != DoneLine
  }

  lemma {:induction false} RelayLinesAppend(a: seq<string>, b: seq<string>, extract: string -> Option<string>)
    requires NoDoneLine(a, extract)
    ensures RelayLines(a + b, extract) == RelayLines(a, extract) + RelayLines(b, extract)
  {
    if a == [] {
      assert a + b == b;
    } else {
      assert Classify(a[0], extract) != DoneLine;
      assert a == [a[0]] + a[1..];
      assert a + b == [a[0]] + (a[1..] + b);
      RelayLinesAppend(a[1..], b, extract);
      RelayLinesCons(a + b, a[0], a[1..] + b, extract);
      RelayLinesCons(a, a[0], a[1..], extract);
    }
  }

  /** Unfolding `RelayLines` once at a line that is not the end mark. */
  lemma RelayLinesCons(lines: seq<string>, first: string, rest: seq<string>, extract: string -> Option<string>)
    requires lines == [first] + rest && Classify(first, extract) != DoneLine
    ensures RelayLines(lines, extract) == Emit(Classify(first, extract)) + RelayLines(rest, extract)
  {
    assert lines[0] == first && lines[1..] == rest;
  }

  lemma {:induction false} DeltaTextAppend(a: seq<Outbound>, b: seq<Outbound>)
    ensures DeltaText(a + b) == DeltaText(a) + DeltaText(b)
  {
    if a == [] {
      assert a + b == b;
    } else {
      assert (a + b)[0] == a[0];
      assert (a + b)[1..] == a[1..] + b;
      DeltaTextAppend(a[1..], b);
    }
  }

  /**
   * The inner loop of `/messages/stream` over the complete lines of one chunk; `[DONE]` writes
   * the end mark and leaves this loop only. Returns the events written and the text they add to
   * the accumulated response.
   */
  method RelayChunkLines(lines: seq<string>, extract: string -> Option<string>) returns (written: seq<Outbound>, added: string)
    ensures written == RelayLines(lines, extract)
    ensures added == DeltaText(written)
  {
    written := [];
    added := "";
    var j := 0;
    while j < |lines|
      invariant 0 <= j <= |lines|
      invariant written + RelayLines(lines[j..], extract) == RelayLines(lines, extract)
      invariant added == DeltaText(written)
    {
      var action := Classify(lines[j], extract);
      if action == DoneLine {
        RelayLinesFrom(lines, j, extract);
        DeltaTextAppend(written, [DoneMarker]);
        written := written + [DoneMarker];
        return;
      }
      RelayLineStep(lines, j, extract, written, RelayLines(lines, extract));
      DeltaTextEmit(written, action);
      if action.DeltaLine? {
        added := added + action.delta;
      }
      written := written + Emit(action);
      j := j + 1;
    }
    assert written == written + RelayLines(lines[j..], extract);
  }

  /** The inner loop's invariant is kept by a line that is not the end mark. */
  lemma RelayLineStep(lines: seq<string>, j: nat, extract: string -> Option<string>,
                      written: seq<Outbound>, target: seq<Outbound>)
    requires j < |lines| && Classify(lines[j], extract) != DoneLine
    requires written + RelayLines(lines[j..], extract) == target
    ensures (written + Emit(Classify(lines[j], extract))) + RelayLines(lines[j + 1..], extract) == target
  {
    assert lines[j..] == [lines[j]] + lines[j + 1..];
    RelayLinesCons(lines[j..], lines[j], lines[j + 1..], extract);
  }

  lemma DeltaTextEmit(written: seq<Outbound>, a: LineAction)
    ensures DeltaText(written + Emit(a)) == DeltaText(written) + (if a.DeltaLine? then a.delta else "")
  {
    DeltaTextAppend(written, Emit(a));
    if a.DeltaLine? {
      assert DeltaText(Emit(a)) == a.delta + DeltaText([]);
    }
  }

  /** One step of `RelayLines` from position `j`. */
  lemma RelayLinesFrom(lines: seq<string>, j: nat, extract: string -> Option<string>)
    requires j < |lines|
    ensures RelayLines(lines[j..], extract)
         == if Classify(lines[j], extract) == DoneLine then [DoneMarker]
            else Emit(Classify(lines[j], extract)) + RelayLines(lines[j + 1..], extract)
  {
    assert lines[j..][0] == lines[j];
    assert lines[j..][1..] == lines[j + 1..];
  }

  /**
   * The read loop of `/messages/stream`: append each decoded chunk to the buffer, split off the
   * complete lines, relay them, and accumulate every forwarded delta into `full`.
   */
  method RelayStream(chunks: seq<string>, extract: string -> Option<string>) returns (written: seq<Outbound>, full: string)
    ensures written == RelayChunks("", chunks, extract)
    ensures full == DeltaText(written)
  {
    var buffer := "";
    full := "";
    written := [];
    var i := 0;
    while i < |chunks|
      invariant 0 <= i <= |chunks|
      invariant written + RelayChunks(buffer, chunks[i..], extract) == RelayChunks("", chunks, extract)
      invariant full == DeltaText(written)
    {
      ghost var carried := buffer;
      buffer := buffer + chunks[i];
      var split := SplitLines(buffer);  // lines = buffer.split('\n'); buffer = lines.pop() || ''
      var lines := split.0;
      buffer := split.1;
      var events, added := RelayChunkLines(lines, extract);
      RelayStreamStep(chunks, i, carried, lines, buffer, written, events, extract);
      written := written + events;
      full := full + added;
      i := i + 1;
    }
  }

  /** The read loop's invariant is kept by relaying the complete lines of one more chunk. */
  lemma RelayStreamStep(chunks: seq<string>, i: nat, carried: string, lines: seq<string>, rest: string,
                        written: seq<Outbound>, events: seq<Outbound>, extract: string -> Option<string>)
    requires i < |chunks|
    requires (lines, rest) == SplitLines(carried + chunks[i])
    requires events == RelayLines(lines, extract)
    ensures written + RelayChunks(carried, chunks[i..], extract)
         == (written + events) + RelayChunks(rest, chunks[i + 1..], extract)
    ensures DeltaText(written + events) == DeltaText(written) + DeltaText(events)
  {
    RelayChunksStep(carried, chunks, i, extract);
    DeltaTextAppend(written, events);
  }

  lemma RelayChunksStep(carried: string, chunks: seq<string>, i: nat, extract: string -> Option<string>)
    requires i < |chunks|
    ensures var split := SplitLines(carried + chunks[i]);
            RelayChunks(carried, chunks[i..], extract)
              == RelayLines(split.0, extract) + RelayChunks(split.1, chunks[i + 1..], extract)
  {
    assert chunks[i..][0] == chunks[i];
    assert chunks[i..][1..] == chunks[i + 1..];
  }

  // ---------------------------------------------------------------- relay properties

  /** Every event the loop writes is a non-empty delta or the end mark; the final event is never among them. */
  lemma {:induction false} RelayLinesShape(lines: seq<string>, extract: string -> Option<string>)
    ensures forall e :: e in RelayLines(lines, extract) ==> (e.DeltaEvent? && e.content != "") || e == DoneMarker
  {
    if lines != [] {
      RelayLinesShape(lines[1..], extract);
      var a := Classify(lines[0], extract);
      if a.DeltaLine? {
        ClassifyMeaning(lines[0], extract);
      }
    }
  }

  lemma {:induction false} RelayChunksShape(buffer: string, chunks: seq<string>, extract: string -> Option<string>)
    ensures forall e :: e in RelayChunks(buffer, chunks, extract) ==> (e.DeltaEvent? && e.content != "") || e == DoneMarker
    decreases |chunks|
  {
    if chunks != [] {
      var split := SplitLines(buffer + chunks[0]);
      RelayLinesShape(split.0, extract);
      RelayChunksShape(split.1, chunks[1..], extract);
    }
  }

  /** An extractor for the examples below: the payload `X` carries the delta `x`, nothing else parses. */
  function ExampleExtract(data: string): Option<string> {
    if data == "X" then Some("x") else None
  }

  /** The end mark, and a data line whose payload carries a delta under `ExampleExtract`. */
  const DONE_SAMPLE: string := "data: [DONE]"
  const DELTA_SAMPLE: string := "data: X"

  lemma ExampleLines(extract: string -> Option<string>)
    requires extract == ExampleExtract
    ensures Classify(DONE_SAMPLE, extract) == DoneLine
    ensures Classify(DELTA_SAMPLE, extract) == DeltaLine("x")
  {
    var done, x := DONE_SAMPLE, DELTA_SAMPLE;
    TrimFixed(done);
    TrimFixed(x);
    assert done[6..] == "[DONE]";
    assert x[6..] == "X";
  }

  lemma SplitOneLine(line: string)
    requires '\n' !in line
    ensures SplitLines(line + "\n") == ([line], "")
  {
    assert [line][1..] == [];
    assert Terminated([line]) + "" == line + "\n";
    SplitLinesUnique([line], "");
  }

  lemma SplitTwoLines(a: string, b: string)
    requires '\n' !in a && '\n' !in b
    ensures SplitLines(a + "\n" + b + "\n") == ([a, b], "")
  {
    assert [a, b][1..] == [b] && [b][1..] == [];
    assert Terminated([b]) == b + "\n";
    assert Terminated([a, b]) == a + "\n" + Terminated([b]);
    assert Terminated([a, b]) + "" == a + "\n" + b + "\n";
    SplitLinesUnique([a, b], "");
  }

  /**
   * `[DONE]` leaves only the loop over the current chunk's lines: a data line behind it in the
   * same chunk is dropped ...
   */
  lemma DoneDropsRestOfChunk()
    ensures RelayChunks("", [DONE_SAMPLE + "\n" + DELTA_SAMPLE + "\n"], ExampleExtract) == [DoneMarker]
  {
    var done, x := DONE_SAMPLE, DELTA_SAMPLE;
    var chunk := done + "\n" + x + "\n";
    assert "" + chunk == chunk;
    SplitTwoLines(done, x);
    ExampleLines(ExampleExtract);
    RelayChunksCons("", chunk, [], ExampleExtract);
    assert [done, x][0] == done;
    assert [chunk] == [chunk] + [];
  }

  /** ... but the same line arriving in the next chunk is still relayed. */
  lemma DoneKeepsReadingChunks()
    ensures RelayChunks("", [DONE_SAMPLE + "\n", DELTA_SAMPLE + "\n"], ExampleExtract) == [DoneMarker, DeltaEvent("x")]
  {
    TwoLineChunks(DONE_SAMPLE, DELTA_SAMPLE, ExampleExtract);
    ExampleSingleLines();
    assert [DoneMarker] + [DeltaEvent("x")] == [DoneMarker, DeltaEvent("x")];
  }

  /** The example lines relayed on their own. */
  lemma ExampleSingleLines()
    ensures RelayLines([DONE_SAMPLE], ExampleExtract) == [DoneMarker]
    ensures RelayLines([DELTA_SAMPLE], ExampleExtract) == [DeltaEvent("x")]
  {
    ExampleLines(ExampleExtract);
    RelayLinesCons([DELTA_SAMPLE], DELTA_SAMPLE, [], ExampleExtract);
  }

  /** Two chunks of one complete line each relay the two lines in turn. */
  lemma TwoLineChunks(a: string, b: string, extract: string -> Option<string>)
    requires '\n' !in a && '\n' !in b
    ensures RelayChunks("", [a + "\n", b + "\n"], extract) == RelayLines([a], extract) + RelayLines([b], extract)
  {
    var c0, c1 := a + "\n", b + "\n";
    assert [c0, c1] == [c0] + [c1] && [c1] == [c1] + [];
    LineChunk(b, [], extract);
    LineChunk(a, [c1], extract);
  }

  /** A chunk holding exactly one complete line relays that line and carries nothing over. */
  lemma LineChunk(line: string, rest: seq<string>, extract: string -> Option<string>)
    requires '\n' !in line
    ensures RelayChunks("", [line + "\n"] + rest, extract) == RelayLines([line], extract) + RelayChunks("", rest, extract)
  {
    RelayChunksCons("", line + "\n", rest, extract);
    assert "" + (line + "\n") == line + "\n";
    SplitOneLine(line);
  }

  /** Unfolding `RelayChunks` once. */
  lemma RelayChunksCons(buffer: string, chunk: string, rest: seq<string>, extract: string -> Option<string>)
    ensures var split := SplitLines(buffer + chunk);
            RelayChunks(buffer, [chunk] + rest, extract) == RelayLines(split.0, extract) + RelayChunks(split.1, rest, extract)
  {
    assert ([chunk] + rest)[0] == chunk && ([chunk] + rest)[1..] == rest;
  }

  /** A line that neither starts nor ends with whitespace is its own trim. */
  lemma TrimFixed(s: string)
    requires s != [] && !IsJsWhitespace(s[0]) && !IsJsWhitespace(s[|s| - 1])
    ensures Trim(s) == s
  {
  }

  // ---------------------------------------------------------------- wire format

  /** The JSON text after `data: ` for each event the handler writes. */
  function Payload(e: Outbound): (p: string)
    ensures '\n' !in p
    ensures e == DoneMarker <==> p == "[DONE]"
    ensures e != DoneMarker ==> |p| > 0 && p[0] == '{'
  {
    match e
    case DeltaEvent(content) =>
      var q := JsonQuote(content);
      NoLineFeedIn("{\"content\":", q, "}");
      "{\"content\":" + q + "}"
    case DoneMarker => "[DONE]"
    case FinalEvent(id, content) =>
      var i, q := JsonQuote(NatToString(id)), JsonQuote(content);
      NoLineFeedIn("{\"id\":", i, ",\"content\":");
      NoLineFeedIn("{\"id\":" + i + ",\"content\":", q, ",\"done\":true}");
      "{\"id\":" + i + ",\"content\":" + q + ",\"done\":true}"
  }

  lemma NoLineFeedIn(a: string, b: string, c: string)
    requires '\n' !in a && '\n' !in b && '\n' !in c
    ensures '\n' !in a + b + c
  {
  }

  /** One event on the wire: `data: <payload>` and a blank line. */
  function Frame(e: Outbound): string {
    "data: " + Payload(e) + "\n\n"
  }

  /** The whole response body for the events written, in order. */
  function WireText(events: seq<Outbound>): string {
    if events == [] then "" else Frame(events[0]) + WireText(events[1..])
  }

  // ---------------------------------------------------------------- handlers over the store

  /** An effect a handler has beyond its reply, in the order it happens. */
  datatype Effect = Stored(row: MessageRow) | Requested(request: UpstreamRequest) | Touched(conversationId: string, at: nat)

  /** The JSON reply of `POST /messages`; its role is always `assistant`. */
  datatype AssistantReply = AssistantReply(id: nat, content: string, role: Role, timestamp: nat, conversationId: string)

  datatype MessageOutcome = MessageRejected(error: Thrown) | Replied(reply: AssistantReply)

  datatype StreamOutcome = StreamRejected(error: Thrown) | Streamed(events: seq<Outbound>)

  /** `conversation.update({ where: { id }, data: { updatedAt: new Date() } })`. */
  function TouchRows(cs: seq<ConversationRow>, id: string, at: nat): (r: seq<ConversationRow>)
    ensures |r| == |cs|
    ensures forall k :: 0 <= k < |cs| && cs[k].id != id ==> r[k] == cs[k]
    ensures forall k :: 0 <= k < |cs| && cs[k].id == id ==>
              r[k].updatedAt == at && r[k].(updatedAt := cs[k].updatedAt) == cs[k]
  {
    seq(|cs|, k requires 0 <= k < |cs| => if cs[k].id == id then cs[k].(updatedAt := at) else cs[k])
  }

  /**
   * The transcript store both handlers use, with the provider's answer passed in. `clock` stands
   * for the wall clock: every write takes the current time and the next write sees a later one.
   * `systemPrompt` is the persona text every prompt opens with, `SYSTEM_PROMPT`.
   */
  class ChatBackend {
    const systemPrompt: string
    var conversations: seq<ConversationRow>
    var messages: seq<MessageRow>
    var clock: nat
    var nextId: nat
    var effects: seq<Effect>

    /** Rows are kept in creation order with distinct ids, and no timestamp lies in the future. */
    ghost predicate Valid()
      reads this
    {
      (forall i, j :: 0 <= i < j < |messages| ==>
         messages[i].createdAt < messages[j].createdAt && messages[i].id < messages[j].id)
      && (forall i :: 0 <= i < |messages| ==> messages[i].createdAt < clock && messages[i].id < nextId)
      && (forall i :: 0 <= i < |conversations| ==> conversations[i].updatedAt <= clock)
    }

    constructor (conversations: seq<ConversationRow>, clock: nat)
      requires forall i :: 0 <= i < |conversations| ==> conversations[i].updatedAt <= clock
      ensures Valid()
      ensures this.conversations == conversations && this.clock == clock
      ensures messages == [] && effects == [] && nextId == 0
      ensures systemPrompt == SYSTEM_PROMPT
    {
      systemPrompt := SYSTEM_PROMPT;
      this.conversations := conversations;
      this.clock := clock;
      messages := [];
      nextId := 0;
      effects := [];
    }

    /** `message.create`: the row gets a fresh id and the current time, and goes last. */
    method CreateMessage(c: Checked, content: string, isFromUser: bool) returns (row: MessageRow)
      requires Valid()
      modifies this
      ensures Valid()
      ensures row == MessageRow(old(nextId), c.userId, c.conversationId, c.companionId, content, isFromUser, old(clock))
      ensures messages == old(messages) + [row] && effects == old(effects) + [Stored(row)]
      ensures clock == old(clock) + 1 && nextId == old(nextId) + 1 && conversations == old(conversations)
    {
      row := MessageRow(nextId, c.userId, c.conversationId, c.companionId, content, isFromUser, clock);
      messages := messages + [row];
      effects := effects + [Stored(row)];
      clock := clock + 1;
      nextId := nextId + 1;
    }

    /** Bumps the conversation's `updatedAt` to the current time; no timestamp moves backwards. */
    method Touch(id: string)
      requires Valid()
      modifies this
      ensures Valid()
      ensures conversations == TouchRows(old(conversations), id, old(clock))
      ensures forall k :: 0 <= k < |conversations| ==> conversations[k].updatedAt >= old(conversations[k].updatedAt)
      ensures effects == old(effects) + [Touched(id, old(clock))]
      ensures clock == old(clock) + 1 && messages == old(messages) && nextId == old(nextId)
    {
      conversations := TouchRows(conversations, id, clock);
      effects := effects + [Touched(id, clock)];
      clock := clock + 1;
    }

    /** The upstream request that goes out: recorded as an effect. */
    method Request(request: UpstreamRequest)
      modifies this
      ensures effects == old(effects) + [Requested(request)]
      ensures conversations == old(conversations) && messages == old(messages)
      ensures clock == old(clock) && nextId == old(nextId)
    {
      effects := effects + [Requested(request)];
    }

    /**
     * `POST /messages/stream`. After the checks and the ownership lookup the request is answered
     * by `StreamAccepted`; a rejected request changes nothing.
     */
    method HandleStream(userId: Option<string>, req: MessageRequest, env: GroqEnv, reply: UpstreamReply,
                        extract: string -> Option<string>) returns (outcome: StreamOutcome)
      requires Valid()
      modifies this
      ensures Valid()
      ensures var ck := CheckRequest(userId, req);
              ck.Failure? ==>
                outcome == StreamRejected(Api(ck.error))
                && messages == old(messages) && effects == old(effects) && conversations == old(conversations)
      ensures var ck := CheckRequest(userId, req);
              ck.Success? && FindConversation(old(conversations), ck.value).None? ==>
                outcome == StreamRejected(Api(NewApiError(404, "Conversation not found")))
                && messages == old(messages) && effects == old(effects) && conversations == old(conversations)
      ensures var ck := CheckRequest(userId, req);
              ck.Success? && FindConversation(old(conversations), ck.value).Some? ==>
                StreamAnswered(ck.value, env, reply, extract, outcome)
    {
      var ck := CheckRequest(userId, req);
      if ck.Failure? {
        return StreamRejected(Api(ck.error));
      }
      var found := FindConversation(conversations, ck.value);
      if found.None? {
        return StreamRejected(Api(NewApiError(404, "Conversation not found")));
      }
      outcome := StreamAccepted(ck.value, env, reply, extract);
    }

    /**
     * How an accepted stream request is answered. The user's message is stored BEFORE the
     * provider is asked; the provider sees the system turn, the oldest twenty rows of the thread
     * (which may already hold the new message) and the new message. The streamed deltas are
     * relayed, their concatenation is stored as the assistant's message (even when it is empty),
     * the conversation is bumped, and the body ends with the final event and one more `[DONE]`.
     */
    twostate predicate StreamAnswered(c: Checked, env: GroqEnv, reply: UpstreamReply,
                                      extract: string -> Option<string>, outcome: StreamOutcome)
      reads this
    {
      var u := MessageRow(old(nextId), c.userId, c.conversationId, c.companionId, c.content, true, old(clock));
      var request := UpstreamRequest(ModelOf(env),
        AssemblePrompt(systemPrompt, History(old(messages) + [u], c.conversationId, c.userId), c.content), true);
      && (KeyCheck(env).Some? ==>
            outcome == StreamRejected(Api(KeyCheck(env).value))
            && messages == old(messages) + [u] && effects == old(effects) + [Stored(u)]
            && conversations == old(conversations))
      && (KeyCheck(env).None? && ReplyCheck(reply).Failure? ==>
            outcome == StreamRejected(ReplyCheck(reply).error)
            && messages == old(messages) + [u] && effects == old(effects) + [Stored(u), Requested(request)]
            && conversations == old(conversations))
      && (KeyCheck(env).None? && ReplyCheck(reply).Success? ==>
            var written := RelayChunks("", reply.chunks, extract);
            var a := MessageRow(old(nextId) + 1, c.userId, c.conversationId, c.companionId,
                                DeltaText(written), false, old(clock) + 1);
            outcome == Streamed(written + [FinalEvent(a.id, a.content), DoneMarker])
            && messages == old(messages) + [u, a]
            && effects == old(effects) + [Stored(u), Requested(request), Stored(a),
                                          Touched(c.conversationId, old(clock) + 2)]
            && conversations == TouchRows(old(conversations), c.conversationId, old(clock) + 2))
    }

    method StreamAccepted(c: Checked, env: GroqEnv, reply: UpstreamReply, extract: string -> Option<string>)
      returns (outcome: StreamOutcome)
      requires Valid()
      modifies this
      ensures Valid()
      ensures StreamAnswered(c, env, reply, extract, outcome)
    {
      var u := CreateMessage(c, c.content, true);
      var history := History(messages, c.conversationId, c.userId);
      var prompt := AssemblePrompt(systemPrompt, history, c.content);
      var keyError := KeyCheck(env);
      if keyError.Some? {
        return StreamRejected(Api(keyError.value));
      }
      var request := UpstreamRequest(ModelOf(env), prompt, true);
      Request(request);
      var checked := ReplyCheck(reply);
      if checked.Failure? {
        return StreamRejected(checked.error);
      }
      ghost var e0 := effects;
      outcome := RelayAndStore(c, reply.chunks, extract);
      ghost var a := messages[|messages| - 1];
      assert messages == old(messages) + [u, a] by {
        assert old(messages) + [u] + [a] == old(messages) + [u, a];
      }
      assert effects == old(effects) + [Stored(u), Requested(request), Stored(a), Touched(c.conversationId, old(clock) + 2)] by {
        assert e0 == old(effects) + [Stored(u), Requested(request)];
        assert effects == e0 + [Stored(a), Touched(c.conversationId, old(clock) + 2)];
      }
    }

    /** The relay itself, then the assistant's message and the bump, then the closing events. */
    method RelayAndStore(c: Checked, chunks: seq<string>, extract: string -> Option<string>)
      returns (outcome: StreamOutcome)
      requires Valid()
      modifies this
      ensures Valid()
      ensures var written := RelayChunks("", chunks, extract);
              var a := MessageRow(old(nextId), c.userId, c.conversationId, c.companionId,
                                  DeltaText(written), false, old(clock));
              outcome == Streamed(written + [FinalEvent(a.id, a.content), DoneMarker])
              && messages == old(messages) + [a]
              && effects == old(effects) + [Stored(a), Touched(c.conversationId, old(clock) + 1)]
              && conversations == TouchRows(old(conversations), c.conversationId, old(clock) + 1)
    {
      var written, full := RelayStream(chunks, extract);
      var a := StoreAnswer(c, full);
      outcome := Streamed(written + [FinalEvent(a.id, full), DoneMarker]);
    }

    /**
     * `POST /messages`: the same checks as the stream handler; an accepted request is answered
     * by `MessageAccepted`.
     */
    method HandleMessage(userId: Option<string>, req: MessageRequest, env: GroqEnv, reply: UpstreamReply)
      returns (outcome: MessageOutcome)
      requires Valid()
      modifies this
      ensures Valid()
      ensures var ck := CheckRequest(userId, req);
              ck.Failure? ==>
                outcome == MessageRejected(Api(ck.error))
                && messages == old(messages) && effects == old(effects) && conversations == old(conversations)
      ensures var ck := CheckRequest(userId, req);
              ck.Success? && FindConversation(old(conversations), ck.value).None? ==>
                outcome == MessageRejected(Api(NewApiError(404, "Conversation not found")))
                && messages == old(messages) && effects == old(effects) && conversations == old(conversations)
      ensures var ck := CheckRequest(userId, req);
              ck.Success? && FindConversation(old(conversations), ck.value).Some? ==>
                MessageAnswered(ck.value, env, reply, outcome)
    {
      var ck := CheckRequest(userId, req);
      if ck.Failure? {
        return MessageRejected(Api(ck.error));
      }
      var found := FindConversation(conversations, ck.value);
      if found.None? {
        return MessageRejected(Api(NewApiError(404, "Conversation not found")));
      }
      outcome := MessageAccepted(ck.value, env, reply);
    }

    /**
     * How an accepted `POST /messages` is answered: the same storage and prompt as the stream
     * handler, one whole completion instead of a stream, and the stored assistant message as
     * the reply.
     */
    twostate predicate MessageAnswered(c: Checked, env: GroqEnv, reply: UpstreamReply, outcome: MessageOutcome)
      reads this
    {
      var u := MessageRow(old(nextId), c.userId, c.conversationId, c.companionId, c.content, true, old(clock));
      var request := UpstreamRequest(ModelOf(env),
        AssemblePrompt(systemPrompt, History(old(messages) + [u], c.conversationId, c.userId), c.content), false);
      && (KeyCheck(env).Some? ==>
            outcome == MessageRejected(Api(KeyCheck(env).value))
            && messages == old(messages) + [u] && effects == old(effects) + [Stored(u)]
            && conversations == old(conversations))
      && (KeyCheck(env).None? && ReplyCheck(reply).Failure? ==>
            outcome == MessageRejected(ReplyCheck(reply).error)
            && messages == old(messages) + [u] && effects == old(effects) + [Stored(u), Requested(request)]
            && conversations == old(conversations))
      && (KeyCheck(env).None? && ReplyCheck(reply).Success? && CompletionCheck(reply.completion).Failure? ==>
            outcome == MessageRejected(CompletionCheck(reply.completion).error)
            && messages == old(messages) + [u] && effects == old(effects) + [Stored(u), Requested(request)]
            && conversations == old(conversations))
      && (KeyCheck(env).None? && ReplyCheck(reply).Success? && CompletionCheck(reply.completion).Success? ==>
            var a := MessageRow(old(nextId) + 1, c.userId, c.conversationId, c.companionId,
                                CompletionCheck(reply.completion).value, false, old(clock) + 1);
            outcome == Replied(AssistantReply(a.id, a.content, AssistantRole, a.createdAt, c.conversationId))
            && messages == old(messages) + [u, a]
            && effects == old(effects) + [Stored(u), Requested(request), Stored(a),
                                          Touched(c.conversationId, old(clock) + 2)]
            && conversations == TouchRows(old(conversations), c.conversationId, old(clock) + 2))
    }

    method MessageAccepted(c: Checked, env: GroqEnv, reply: UpstreamReply) returns (outcome: MessageOutcome)
      requires Valid()
      modifies this
      ensures Valid()
      ensures MessageAnswered(c, env, reply, outcome)
    {
      var u := CreateMessage(c, c.content, true);
      var history := History(messages, c.conversationId, c.userId);
      var prompt := AssemblePrompt(systemPrompt, history, c.content);
      var keyError := KeyCheck(env);
      if keyError.Some? {
        return MessageRejected(Api(keyError.value));
      }
      var request := UpstreamRequest(ModelOf(env), prompt, false);
      Request(request);
      var checked := ReplyCheck(reply);
      if checked.Failure? {
        return MessageRejected(checked.error);
      }
      var content := CompletionCheck(reply.completion);
      if content.Failure? {
        return MessageRejected(content.error);
      }
      ghost var e0 := effects;
      var a := StoreAnswer(c, content.value);
      outcome := Replied(AssistantReply(a.id, a.content, AssistantRole, a.createdAt, c.conversationId));
      assert messages == old(messages) + [u, a] by {
        assert old(messages) + [u] + [a] == old(messages) + [u, a];
      }
      assert effects == old(effects) + [Stored(u), Requested(request), Stored(a), Touched(c.conversationId, old(clock) + 2)] by {
        assert e0 == old(effects) + [Stored(u), Requested(request)];
      }
    }

    /** The assistant's message is stored, then the conversation is bumped. */
    method StoreAnswer(c: Checked, content: string) returns (a: MessageRow)
      requires Valid()
      modifies this
      ensures Valid()
      ensures a == MessageRow(old(nextId), c.userId, c.conversationId, c.companionId, content, false, old(clock))
      ensures messages == old(messages) + [a]
      ensures effects == old(effects) + [Stored(a), Touched(c.conversationId, old(clock) + 1)]
      ensures conversations == TouchRows(old(conversations), c.conversationId, old(clock) + 1)
      ensures clock == old(clock) + 2 && nextId == old(nextId) + 1
    {
      a := CreateMessage(c, content, false);
      Touch(c.conversationId);
    }
  }
}
