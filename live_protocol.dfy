/** The wire-level logic of services/geminiService.ts that does not touch agent
    state: reading images out of a generate-content response, assembling the
    live session's system instruction, and demultiplexing one inbound live
    message into the calls the agent makes. */
module LiveProtocol {
  import opened Wrappers
  import opened DataUrl

  // ---------------------------------------------------------------------------
  // Responses of the generate-content call

  /** `part.inlineData`: a media payload and its type. */
  datatype InlineData = InlineData(mimeType: string, data: string)
  datatype Part = Part(inlineData: Option<InlineData>)
  datatype Content = Content(parts: Option<seq<Part>>)
  datatype Candidate = Candidate(content: Option<Content>)
  datatype GenerateResponse = GenerateResponse(candidates: Option<seq<Candidate>>)

  /** `response.candidates?.[0]?.content?.parts || []`. */
  function ResponseParts(resp: GenerateResponse): seq<Part> {
    if resp.candidates.Some? && |resp.candidates.value| > 0
       && resp.candidates.value[0].content.Some?
       && resp.candidates.value[0].content.value.parts.Some?
    then resp.candidates.value[0].content.value.parts.value
    else []
  }

  /** Part `i` is the first part that carries inline data. */
  ghost predicate IsFirstInline(parts: seq<Part>, i: int) {
    0 <= i < |parts| && parts[i].inlineData.Some? &&
    forall j :: 0 <= j < i ==> parts[j].inlineData.None?
  }

  /** The data URL of an inline payload. */
  function InlineUrl(d: InlineData): string {
    Serialize(Image(d.mimeType, d.data))
  }

  /** The loop `for (const part of parts) if (part.inlineData) return url`: the
      data URL of the first part with inline data, or nothing when no part has
      any (`FirstInlineImageFindsFirst`). */
  function FirstInlineImage(parts: seq<Part>): (r: Option<string>)
    ensures r.None? <==> forall i :: 0 <= i < |parts| ==> parts[i].inlineData.None?
  {
    if parts == [] then None
    else if parts[0].inlineData.Some? then Some(InlineUrl(parts[0].inlineData.value))
    else
      assert forall i :: 1 <= i < |parts| ==> parts[i] == parts[1..][i - 1];
      FirstInlineImage(parts[1..])
  }

  /** The search finds nothing exactly when no part has inline data, and
      otherwise gives the data URL of the first part that has some. */
  lemma {:induction false} FirstInlineImageFindsFirst(parts: seq<Part>)
    ensures FirstInlineImage(parts).None? <==> forall i :: 0 <= i < |parts| ==> parts[i].inlineData.None?
    ensures FirstInlineImage(parts).Some? ==>
      exists i :: IsFirstInline(parts, i) && FirstInlineImage(parts).value == InlineUrl(parts[i].inlineData.value)
  {
    if parts == [] {
    } else if parts[0].inlineData.Some? {
      assert IsFirstInline(parts, 0);
    } else {
      FirstInlineImageFindsFirst(parts[1..]);
      assert forall i :: 1 <= i < |parts| ==> parts[i] == parts[1..][i - 1];
      assert forall i :: IsFirstInline(parts[1..], i) ==> IsFirstInline(parts, i + 1);
    }
  }

  const NoImageMessage: string := "No image generated"

  /** The result of `generateHolidayVibeImage` once the response has arrived:
      the first inline image as a data URL, or the error "No image generated". */
  function ExtractCover(resp: GenerateResponse): (r: Result<string>)
    ensures r.Ok? <==> FirstInlineImage(ResponseParts(resp)).Some?
    ensures r.Ok? ==> r.value == FirstInlineImage(ResponseParts(resp)).value
    ensures r.Err? ==> r.message == NoImageMessage
  {
    match FirstInlineImage(ResponseParts(resp))
    case Some(url) => Ok(url)
    case None => Err(NoImageMessage)
  }

  /** The result of `generateHolidayBackground`: the same search, with `null`
      in place of the error. */
  function ExtractBackground(resp: GenerateResponse): (r: Option<string>)
    ensures r == FirstInlineImage(ResponseParts(resp))
    ensures r.None? <==> ExtractCover(resp).Err?
  {
    FirstInlineImage(ResponseParts(resp))
  }

  /** A returned image whose type and payload are well formed parses back, with
      the components' data-URL pattern, to exactly that type and payload. */
  lemma {:induction false} ExtractedImageParses(parts: seq<Part>)
    requires FirstInlineImage(parts).Some?
    ensures exists i :: (IsFirstInline(parts, i) &&
      (IsMimeType(parts[i].inlineData.value.mimeType) && IsPayload(parts[i].inlineData.value.data) ==>
        Parse(FirstInlineImage(parts).value) ==
          Some(Image(parts[i].inlineData.value.mimeType, parts[i].inlineData.value.data))))
  {
    FirstInlineImageFindsFirst(parts);
    var i :| IsFirstInline(parts, i) && FirstInlineImage(parts).value == InlineUrl(parts[i].inlineData.value);
    var d := parts[i].inlineData.value;
    if IsMimeType(d.mimeType) && IsPayload(d.data) {
      ParseSerialize(Image(d.mimeType, d.data));
    }
  }

  // ---------------------------------------------------------------------------
  // Session configuration

  /** The fixed part of the system instruction (services/geminiService.ts:161-165),
      with the template's line breaks and indentation. */
  const InstructionBase: string :=
    "You are a creative Holiday Card consultant. \n" +
    "    Your goal is to help design the perfect card. \n" +
    "    1. Ask about recipient, vibe, and message.\n" +
    "    2. When the user says \"generate card\" or implies they are done, YOU MUST CALL the \"generate_card\" tool.\n" +
    "    3. Keep responses short and conversational.\n" +
    "    "
  const ContextLead: string := "User has provided initial context: \""
  const ContextTail: string := "\". Use this to start."

  /** The name of the one tool the session declares. */
  const GenerateCardTool: string := "generate_card"

  /** The system instruction for an initial context: the fixed text, followed,
      when the context is non-empty, by a sentence quoting it. */
  function SystemInstruction(initialContext: string): (r: string)
    ensures |r| >= |InstructionBase| && r[..|InstructionBase|] == InstructionBase
  {
    InstructionBase + (if initialContext != [] then ContextLead + initialContext + ContextTail else "")
  }

  /** The instruction always opens with the fixed text, is exactly that text
      when there is no context, and otherwise quotes the context whole between
      the lead-in and the closing sentence. */
  lemma SystemInstructionLayout(initialContext: string)
    ensures var r := SystemInstruction(initialContext);
      |r| >= |InstructionBase| && r[..|InstructionBase|] == InstructionBase
    ensures initialContext == [] <==> SystemInstruction(initialContext) == InstructionBase
    ensures var r := SystemInstruction(initialContext);
      initialContext != [] ==>
      |r| == |InstructionBase| + |ContextLead| + |initialContext| + |ContextTail| &&
      r[|InstructionBase| + |ContextLead|..|r| - |ContextTail|] == initialContext
  {
    if initialContext != [] {
      QuoteLayout(InstructionBase, ContextLead, initialContext, ContextTail);
    } else {
      assert SystemInstruction(initialContext) == InstructionBase + [];
    }
  }

  /** Where the parts of `base + (lead + quoted + tail)` sit. */
  lemma QuoteLayout(base: string, lead: string, quoted: string, tail: string)
    ensures var r := base + (lead + quoted + tail);
      r[..|base|] == base && r[|base| + |lead|..|r| - |tail|] == quoted
  {
    var r := base + (lead + quoted + tail);
    assert r[|base| + |lead|..|r| - |tail|] == (lead + quoted + tail)[|lead|..|lead| + |quoted|];
  }

  /** Different initial contexts give different instructions: the context can be
      read back from the instruction. */
  lemma SystemInstructionInjective(a: string, b: string)
    requires SystemInstruction(a) == SystemInstruction(b)
    ensures a == b
  {
    SystemInstructionLayout(a);
    SystemInstructionLayout(b);
  }

  // ---------------------------------------------------------------------------
  // Inbound live messages

  /** `{ id, name }` of one requested function call. */
  datatype FunctionCall = FunctionCall(id: string, name: string)
  /** `{ id, name, response: { result } }` of one acknowledgment. */
  datatype FunctionResponse = FunctionResponse(id: string, name: string, result: string)

  /** `message.serverContent`; `inputTranscription` and `outputTranscription`
      stand for `inputTranscription?.text` and `outputTranscription?.text`. */
  datatype ServerContent = ServerContent(
    modelTurn: Option<Content>,
    inputTranscription: Option<string>,
    outputTranscription: Option<string>,
    turnComplete: Option<bool>)

  /** A `LiveServerMessage`: an optional tool call (its `functionCalls`) and
      optional server content. */
  datatype LiveMessage = LiveMessage(toolCall: Option<seq<FunctionCall>>, serverContent: Option<ServerContent>)

  /** The arguments of one `onTranscriptUpdate(input, output, turnComplete)` call. */
  datatype Notice = Notice(input: string, output: string, turnComplete: bool)

  /** A call the agent makes outward, in the order it makes them. */
  datatype Effect =
    | SendToolResponse(responses: seq<FunctionResponse>)
    | GenerateTrigger
    | TranscriptUpdate(notice: Notice)
    | SendRealtimeInput(frame: seq<real>)

  const OkResult: string := "ok"

  /** `functionCalls.map(fc => ({ id: fc.id, name: fc.name, response: { result: "ok" } }))`. */
  function ToolAcks(calls: seq<FunctionCall>): (r: seq<FunctionResponse>)
    ensures |r| == |calls|
    ensures forall i :: 0 <= i < |calls| ==> r[i] == FunctionResponse(calls[i].id, calls[i].name, OkResult)
  {
    if calls == [] then [] else [FunctionResponse(calls[0].id, calls[0].name, OkResult)] + ToolAcks(calls[1..])
  }

  /** `message.serverContent?.modelTurn?.parts`, empty when any link is missing. */
  function ModelParts(msg: LiveMessage): seq<Part> {
    if msg.serverContent.Some? && msg.serverContent.value.modelTurn.Some?
       && msg.serverContent.value.modelTurn.value.parts.Some?
    then msg.serverContent.value.modelTurn.value.parts.value
    else []
  }

  /** `message.serverContent?.modelTurn?.parts?.[0]?.inlineData?.data`, kept only
      when truthy (a non-empty string): only the first part can carry audio. */
  function AudioPayload(msg: LiveMessage): (r: Option<string>)
    ensures r.Some? <==> |ModelParts(msg)| > 0 && ModelParts(msg)[0].inlineData.Some?
                         && ModelParts(msg)[0].inlineData.value.data != []
    ensures r.Some? ==> r.value == ModelParts(msg)[0].inlineData.value.data
  {
    var parts := ModelParts(msg);
    if |parts| > 0 && parts[0].inlineData.Some? && parts[0].inlineData.value.data != []
    then Some(parts[0].inlineData.value.data) else None
  }

  /** `message.serverContent?.inputTranscription?.text || ""`. */
  function InputText(msg: LiveMessage): string {
    if msg.serverContent.Some? && msg.serverContent.value.inputTranscription.Some?
    then msg.serverContent.value.inputTranscription.value else ""
  }

  /** `message.serverContent?.outputTranscription?.text || ""`. */
  function OutputText(msg: LiveMessage): string {
    if msg.serverContent.Some? && msg.serverContent.value.outputTranscription.Some?
    then msg.serverContent.value.outputTranscription.value else ""
  }

  /** `message.serverContent?.turnComplete || false`. */
  function TurnCompleteFlag(msg: LiveMessage): bool {
    msg.serverContent.Some? && msg.serverContent.value.turnComplete == Some(true)
  }

  /** The transcript notification a message produces: the two texts and the
      completion flag, and none at all when both texts are empty and the turn
      is not complete. */
  function TranscriptNotice(msg: LiveMessage): (r: Option<Notice>)
    ensures r.Some? <==> InputText(msg) != [] || OutputText(msg) != [] || TurnCompleteFlag(msg)
    ensures r.Some? ==> r.value == Notice(InputText(msg), OutputText(msg), TurnCompleteFlag(msg))
    ensures r.Some? ==> r.value != Notice("", "", false)
  {
    var input := InputText(msg);
    var output := OutputText(msg);
    var done := TurnCompleteFlag(msg);
    if input != [] || output != [] || done then Some(Notice(input, output, done)) else None
  }

  /** The outward calls `onmessage` makes for one message, in order: the tool
      acknowledgment (only while a session promise is held), the generate
      trigger (only when the callback is set), and the transcript notification
      (only when that callback is set). */
  function MessageEffects(msg: LiveMessage, live: bool, hasTrigger: bool, hasTranscript: bool): (r: seq<Effect>)
    ensures |r| <= 3
    ensures GenerateTrigger in r <==> msg.toolCall.Some? && hasTrigger
    ensures msg.toolCall.Some? && live && hasTrigger ==> r[0].SendToolResponse? && r[1] == GenerateTrigger
    ensures r != [] && r[|r| - 1].TranscriptUpdate? <==> hasTranscript && TranscriptNotice(msg).Some?
  {
    ToolCallEffects(msg, live, hasTrigger) + TranscriptEffects(msg, hasTranscript)
  }

  /** The tool-call half of `onmessage`: acknowledgment, then trigger. */
  function ToolCallEffects(msg: LiveMessage, live: bool, hasTrigger: bool): (r: seq<Effect>)
    ensures |r| <= 2 && (r != [] ==> msg.toolCall.Some?)
    ensures GenerateTrigger in r <==> msg.toolCall.Some? && hasTrigger
    ensures forall e :: e in r ==> !e.TranscriptUpdate? && !e.SendRealtimeInput?
  {
    (if msg.toolCall.Some? && live then [SendToolResponse(ToolAcks(msg.toolCall.value))] else [])
    + (if msg.toolCall.Some? && hasTrigger then [GenerateTrigger] else [])
  }

  /** The transcription half of `onmessage`. */
  function TranscriptEffects(msg: LiveMessage, hasTranscript: bool): (r: seq<Effect>)
    ensures |r| <= 1 && forall e :: e in r ==> e.TranscriptUpdate?
    ensures r != [] <==> hasTranscript && TranscriptNotice(msg).Some?
  {
    if hasTranscript && TranscriptNotice(msg).Some? then [TranscriptUpdate(TranscriptNotice(msg).value)] else []
  }

  /** The number of generate triggers among some calls. */
  function CountTriggers(effects: seq<Effect>): nat {
    if effects == [] then 0 else (if effects[0].GenerateTrigger? then 1 else 0) + CountTriggers(effects[1..])
  }

  /** The number of messages that carry a tool call. */
  function CountToolCalls(msgs: seq<LiveMessage>): nat {
    if msgs == [] then 0 else (if msgs[0].toolCall.Some? then 1 else 0) + CountToolCalls(msgs[1..])
  }

  /** The calls made for a run of messages handled one after another. */
  function SessionEffects(msgs: seq<LiveMessage>, live: bool, hasTrigger: bool, hasTranscript: bool): seq<Effect> {
    if msgs == [] then [] else MessageEffects(msgs[0], live, hasTrigger, hasTranscript) + SessionEffects(msgs[1..], live, hasTrigger, hasTranscript)
  }

  lemma {:induction false} CountTriggersAppend(a: seq<Effect>, b: seq<Effect>)
    ensures CountTriggers(a + b) == CountTriggers(a) + CountTriggers(b)
  {
    if a != [] {
      assert (a + b)[1..] == a[1..] + b;
      CountTriggersAppend(a[1..], b);
    } else {
      assert a + b == b;
    }
  }

  /** One message fires the generate trigger exactly once when it carries a tool
      call and the callback is set, whatever the number of function calls, and
      otherwise not at all. */
  lemma OneTriggerPerToolCall(msg: LiveMessage, live: bool, hasTrigger: bool, hasTranscript: bool)
    ensures CountTriggers(MessageEffects(msg, live, hasTrigger, hasTranscript))
            == if msg.toolCall.Some? && hasTrigger then 1 else 0
  {
    var ack := if msg.toolCall.Some? && live then [SendToolResponse(ToolAcks(msg.toolCall.value))] else [];
    var trig := if msg.toolCall.Some? && hasTrigger then [GenerateTrigger] else [];
    var note := if hasTranscript && TranscriptNotice(msg).Some? then [TranscriptUpdate(TranscriptNotice(msg).value)] else [];
    CountTriggersAppend(ack + trig, note);
    CountTriggersAppend(ack, trig);
  }

  /** Over a run of messages, the trigger fires once per tool-call message. */
  lemma {:induction false} TriggersMatchToolCalls(msgs: seq<LiveMessage>, live: bool, hasTranscript: bool)
    ensures CountTriggers(SessionEffects(msgs, live, true, hasTranscript)) == CountToolCalls(msgs)
    ensures CountTriggers(SessionEffects(msgs, live, false, hasTranscript)) == 0
  {
    if msgs != [] {
      TriggersMatchToolCalls(msgs[1..], live, hasTranscript);
      OneTriggerPerToolCall(msgs[0], live, true, hasTranscript);
      OneTriggerPerToolCall(msgs[0], live, false, hasTranscript);
      CountTriggersAppend(MessageEffects(msgs[0], live, true, hasTranscript), SessionEffects(msgs[1..], live, true, hasTranscript));
      CountTriggersAppend(MessageEffects(msgs[0], live, false, hasTranscript), SessionEffects(msgs[1..], live, false, hasTranscript));
    }
  }

  /** A message with a tool call sent while the session promise is held yields
      exactly one acknowledgment, first, answering every call in order with
      its id, its name and "ok"; without a tool call or a session, none. */
  lemma AckPerToolCall(msg: LiveMessage, live: bool, hasTrigger: bool, hasTranscript: bool)
    ensures var effects := MessageEffects(msg, live, hasTrigger, hasTranscript);
      (msg.toolCall.Some? && live ==>
        effects[0].SendToolResponse? &&
        |effects[0].responses| == |msg.toolCall.value| &&
        (forall i :: 0 <= i < |msg.toolCall.value| ==>
           effects[0].responses[i].id == msg.toolCall.value[i].id &&
           effects[0].responses[i].name == msg.toolCall.value[i].name &&
           effects[0].responses[i].result == OkResult) &&
        (forall k :: 1 <= k < |effects| ==> !effects[k].SendToolResponse?)) &&
      (!(msg.toolCall.Some? && live) ==> forall k :: 0 <= k < |effects| ==> !effects[k].SendToolResponse?)
  {
  }

  /** No transcript notification ever carries two empty texts with the turn
      still open, and a transcript notification is sent only when the callback is set. */
  lemma NoEmptyTranscriptUpdates(msg: LiveMessage, live: bool, hasTrigger: bool, hasTranscript: bool)
    ensures forall e :: e in MessageEffects(msg, live, hasTrigger, hasTranscript) && e.TranscriptUpdate? ==>
      hasTranscript && (e.notice.input != [] || e.notice.output != [] || e.notice.turnComplete)
  {
  }
}
