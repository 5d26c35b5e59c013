# holidayVibe in Dafny

A model of the sequential logic of the holidayVibe client, a React app whose
pages talk to Gemini models.

The model covers these parts:

- **`HolidayLiveAgent`** (services/geminiService.ts). This object owns one live
  voice session. The model covers:
  - its audio playback scheduler, where each buffer starts at
    `max(nextStartTime, currentTime)` and the cursor moves to the buffer's end;
  - the demultiplexer for inbound messages: tool acknowledgments, the generate
    trigger, first-part audio, and transcript notifications;
  - the capture guard and teardown;
  - the system-instruction template;
  - the search that turns a generate-content response into an image data URL.
- **The turn accumulator** that the card workshop and the elf assistant run on
  the agent's transcript callback. Every history entry it produces is
  non-empty and trimmed.
- **The base64 data-URL parser and serialiser** that the photo pages use. The
  parser is a regular expression and the serialiser is a template. They split
  a string in exactly one way and round-trip in both directions.
- **The component state machines:**
  - the card workshop: pagination, chat send, connection toggle, the gift QR
    payload, the generation context and the memory update;
  - the elf live assistant;
  - the image studio;
  - the video page: API-key flag and error classification;
  - the donation page: a status that advances through timed steps;
  - the root `App`: view switching and the `updateMemory` partial-record merge.

Pure logic is written as datatypes, functions and lemmas. Components and the
agent are classes whose fields are the component's state hooks. The methods of
these classes change those fields as the source's setters do.

Some things enter the model as parameters:
- the audio clock and buffer durations;
- microphone permission and the endpoint's answer;
- the host page's API-key answers;
- the outcomes of model requests.

The agent also has an `outbox` field. It records every outward call the agent
makes (acknowledgment, realtime frame, callback invocation) in the order the
handler issues them.

Modules, one per file:
- `Wrappers`
- `Text` (JavaScript `trim`, `join`, `includes`)
- `DataUrl`
- `AgentMemory`
- `AppShell` (App.tsx)
- `LiveProtocol` (wire-level pure logic of services/geminiService.ts)
- `PlaybackSchedule`
- `GeminiService` (`HolidayLiveAgent`)
- `Conversation`
- `SantaLive`
- `CardWorkshop`
- `VibeStudio`
- `VeoMemories`
- `CharityAgent`

Notes on what the code does at the places the model follows it closely:
- The playback cursor starts at 0 (services/geminiService.ts:133), not at the
  clock's current time. Because every start is a `max` with the clock, the
  schedule is the same as if it started at the clock.
- `disconnect` stops every tracked source but does not clear the set
  (services/geminiService.ts:272). Sources leave the set only through their
  `onended` handler.
- `disconnect` drops the session promise but never closes the live session
  (services/geminiService.ts:269-274). Messages can therefore still arrive
  after it. A tool call arriving then still fires the generate trigger, so
  the card workshop runs `generateAssets` again, but no acknowledgment is
  sent, because `sessionPromise?.then` finds no promise. The model shows this
  as `OnMessage` on a disconnected agent: its outbox gains the trigger and no
  `SendToolResponse`.
- The tool acknowledgment is registered on the session promise
  (`sessionPromise?.then`, services/geminiService.ts:179-187), while the
  trigger callback runs synchronously (services/geminiService.ts:190-192).
  The acknowledgment is therefore delivered after the trigger. The outbox
  records the order in which the two are issued.
- The acknowledgment is one `sendToolResponse` call per message that carries
  one response per function call (services/geminiService.ts:181-185).
- Decoding a message's audio can throw (services/geminiService.ts:198-203).
  The throw rejects the `onmessage` handler before the transcript step
  (services/geminiService.ts:208-216), so the transcript of that message is
  never reported, while the tool-call effects already happened.

## Model

| member | source | states |
|---|---|---|
| Text.Trim | features/CardWorkshop.tsx:121-122 | `trim()` returns a slice of its input with only whitespace cut off before and after it, and the cut is maximal: the result neither starts nor ends with whitespace |
| Text.BlankIffTrimEmpty | features/CardWorkshop.tsx:148 | `!s.trim()` holds exactly when every character of `s` is whitespace |
| Text.TrimIdempotent | features/CardWorkshop.tsx:149 | trimming a trimmed text changes nothing |
| Text.TrimmedIsFixpoint | features/SantaLive.tsx:44-45 | a text with no whitespace at either end is its own trim |
| Text.JoinContains | features/CardWorkshop.tsx:166 | every joined line occurs in the joined text |
| Text.Includes | features/VeoMemories.tsx:55 | `includes` is true exactly when the substring occurs at some position |
| DataUrl.MimeOk | features/VibeStudio.tsx:26 | the executable test accepts exactly the media types group 1 of the pattern matches |
| DataUrl.PayloadOk | features/VeoMemories.tsx:38 | the executable test accepts exactly the payloads `(.+)$` matches |
| DataUrl.Parse | features/VibeStudio.tsx:26-28 | a successful match yields groups the regular expression accepts, and together they rebuild the input |
| DataUrl.MimeHasNoSemicolon | features/VibeStudio.tsx:26 | no media type the pattern accepts contains `;` |
| DataUrl.ParseComplete | features/VeoMemories.tsx:38-39 | every string the pattern matches is parsed into exactly its groups |
| DataUrl.ParseIffMatches | features/VibeStudio.tsx:26 | parsing succeeds with a pair exactly when the regular expression matches with that pair as groups |
| DataUrl.MatchIsUnique | features/VibeStudio.tsx:26 | the split is unambiguous: one string matches with at most one pair of groups |
| DataUrl.Serialize | services/geminiService.ts:34 | the template's output starts with `data:`, ends with the payload, and is as long as its four pieces |
| DataUrl.ParseSerialize | features/VibeStudio.tsx:93 | printing a well-formed pair with the template and parsing it back gives the pair |
| DataUrl.SerializeParse | services/geminiService.ts:34 | a parsed string is reproduced exactly by the template |
| AgentMemory.Initial | App.tsx:36-43 | the initial memory holds six keys; the card URL and gift are null and the conversation context is empty |
| AgentMemory.Merge | App.tsx:45-47 | keys in the update take its values, other keys keep theirs, and no other key appears |
| AgentMemory.MergeEmpty | App.tsx:46 | an empty update leaves memory unchanged |
| AgentMemory.MergeIdempotent | App.tsx:46 | applying the same update twice equals applying it once |
| AgentMemory.MergeSequential | App.tsx:46 | updating with `a` then `b` equals one update of `a` overridden by `b` |
| AppShell.App.constructor | App.tsx:35-43 | starts on the workshop view with the initial memory |
| AppShell.App.UpdateMemory | App.tsx:45-47 | the memory becomes the merge of the old memory with the update; the view is unchanged |
| AppShell.App.ClickHeader | App.tsx:54 | the header click always shows the workshop |
| AppShell.App.ClickAbout | App.tsx:64-72 | the About button exists only on the workshop and switches to About |
| AppShell.App.AboutBack | App.tsx:79 | the About page's back button returns to the workshop |
| LiveProtocol.FirstInlineImage | services/geminiService.ts:32-36 | the search comes back empty exactly when no part has inline data |
| LiveProtocol.FirstInlineImageFindsFirst | services/geminiService.ts:32-36 | the search finds nothing exactly when no part has inline data, else the data URL of the first part with inline data |
| LiveProtocol.ExtractCover | services/geminiService.ts:32-37 | the cover result is that first image, or the error "No image generated" exactly when there is none |
| LiveProtocol.ExtractBackground | services/geminiService.ts:56-61 | the background result is the same search, null exactly when the cover variant would throw |
| LiveProtocol.ExtractedImageParses | services/geminiService.ts:34 | the returned image, when its type and payload are well formed, parses back to exactly that part's type and payload |
| LiveProtocol.SystemInstruction | services/geminiService.ts:161-166 | the instruction always opens with the fixed consultant text |
| LiveProtocol.SystemInstructionLayout | services/geminiService.ts:161-166 | the instruction opens with the fixed text; it is exactly that text for an empty context and otherwise quotes the whole context |
| LiveProtocol.SystemInstructionInjective | services/geminiService.ts:166 | different initial contexts give different instructions |
| LiveProtocol.ToolAcks | services/geminiService.ts:181-185 | one response per function call, in order, each with the call's id and name and the result "ok" |
| LiveProtocol.AudioPayload | services/geminiService.ts:196-197 | audio is taken only from the first model part, and only when its inline payload is non-empty |
| LiveProtocol.TranscriptNotice | services/geminiService.ts:208-215 | a notice carries the input text or "", the output text or "", and the completion flag or false; it exists exactly when one of the three is non-empty or true |
| LiveProtocol.ToolCallEffects | services/geminiService.ts:176-193 | the tool-call step makes at most two calls, only for a tool-call message, and fires the trigger exactly when there is a tool call and the callback is set; it sends no transcript and no audio |
| LiveProtocol.TranscriptEffects | services/geminiService.ts:208-216 | the transcript step makes at most one call, a transcript notification, exactly when the callback is set and the message gives a notice |
| LiveProtocol.MessageEffects | services/geminiService.ts:174-216 | one message makes at most three calls; the trigger is among them exactly when there is a tool call and the callback is set; with a live session and the callback the acknowledgment comes first and the trigger second; the last call is a transcript notification exactly when one is due |
| LiveProtocol.OneTriggerPerToolCall | services/geminiService.ts:176-192 | one message fires the trigger exactly once when it has a tool call and the callback is set, however many calls it holds |
| LiveProtocol.TriggersMatchToolCalls | services/geminiService.ts:190-192 | over a run of messages, the trigger fires once per tool-call message, or never without the callback |
| LiveProtocol.AckPerToolCall | services/geminiService.ts:179-187 | a tool-call message yields exactly one acknowledgment, issued first, answering each call in order; none without a tool call or session |
| LiveProtocol.NoEmptyTranscriptUpdates | services/geminiService.ts:208-215 | no transcript notice has two empty texts with the turn open, and notices go out only when the callback is set |
| PlaybackSchedule.StartOf | services/geminiService.ts:258 | a buffer starts no earlier than the cursor and no earlier than the clock, at one of the two |
| PlaybackSchedule.ScheduleOneMore | services/geminiService.ts:258-263 | one more buffer starts at `max(cursor, now)` and moves the cursor by its duration |
| PlaybackSchedule.CursorBounds | services/geminiService.ts:263 | the cursor never moves backwards and is never behind the end of any scheduled buffer |
| PlaybackSchedule.NeverInPast | services/geminiService.ts:258-262 | no buffer is scheduled before the clock reading at its scheduling, or before the starting cursor |
| PlaybackSchedule.Gapless | services/geminiService.ts:258-263 | each buffer starts at the later of the previous buffer's end and its own clock reading, so consecutive buffers never overlap |
| PlaybackSchedule.ArrivalOrder | services/geminiService.ts:262 | start times never decrease: buffers play in arrival order |
| GeminiService.Close | services/geminiService.ts:270-271 | closing leaves a missing context missing and never leaves one running |
| GeminiService.StartedOnScheduleAppend | services/geminiService.ts:258-266 | a source started where the schedule puts the next buffer keeps all tracked sources on schedule |
| GeminiService.OnScheduleEndsByCursor | services/geminiService.ts:263 | every source on schedule ends by the cursor |
| GeminiService.AudioSource.constructor | services/geminiService.ts:259-262 | a new source has its start time and buffer duration and is not stopped |
| GeminiService.HolidayLiveAgent.constructor | services/geminiService.ts:130-141 | no session, no contexts, cursor 0, no sources, no callbacks |
| GeminiService.HolidayLiveAgent.Connect | services/geminiService.ts:143-234 | both contexts are created; a microphone refusal throws before any session is requested; otherwise the session carries the instruction for the context and succeeds exactly when the endpoint accepts |
| GeminiService.HolidayLiveAgent.OnOpen | services/geminiService.ts:171-173 | capture starts on open, and only when an input context exists |
| GeminiService.HolidayLiveAgent.OnAudioProcess | services/geminiService.ts:242-248 | a captured block is sent only while capture runs and a live session is held; otherwise it is dropped |
| GeminiService.HolidayLiveAgent.PlayAudio | services/geminiService.ts:255-267 | with a playback context the buffer starts at `max(cursor, now)` after every earlier buffer's end, the cursor moves to its end, and exactly one fresh source joins the set; without one nothing changes |
| GeminiService.HolidayLiveAgent.OnEnded | services/geminiService.ts:265 | a finished source removes itself and no other |
| GeminiService.HolidayLiveAgent.HandleToolCall | services/geminiService.ts:176-193 | a tool call issues the acknowledgment when a live session is held, then the trigger when the callback is set |
| GeminiService.HolidayLiveAgent.HandleTranscript | services/geminiService.ts:208-216 | the transcript notice, if any, goes out when the callback is set |
| GeminiService.HolidayLiveAgent.PlayMessageAudio | services/geminiService.ts:196-205 | only the first part's audio is scheduled, when there is a playback context and it decodes: exactly one fresh, unstopped source joins the set, starting at `max(cursor, now)` with the decoded duration; the step completes exactly unless decoding throws |
| GeminiService.HolidayLiveAgent.PlayThenReport | services/geminiService.ts:196-216 | the audio step as above, then the transcript notification unless decoding threw |
| GeminiService.HolidayLiveAgent.OnMessage | services/geminiService.ts:174-217 | one message produces exactly the calls the demultiplexer specifies, in order, and schedules its decoded audio as one fresh, unstopped source at `max(cursor, now)` with the decoded duration; when decoding throws, only the tool-call calls happen and nothing is scheduled; the agent's own code leaves session, contexts and callbacks untouched |
| GeminiService.HolidayLiveAgent.Disconnect | services/geminiService.ts:269-274 | both contexts are closed, every tracked source is stopped, and the session is dropped; nothing else changes |
| Conversation.Extend | features/CardWorkshop.tsx:116 | a delta is appended to each side of the open turn, keeping what was already received as a prefix |
| Conversation.Entries | features/CardWorkshop.tsx:121 | one side of a turn gives one trimmed entry exactly when it is not blank, and nothing otherwise |
| Conversation.Finalize | features/CardWorkshop.tsx:119-125 | a completed turn gives the trimmed user entry, then the trimmed elf entry, each only when non-blank; every entry is well formed |
| Conversation.AppendWellFormed | features/CardWorkshop.tsx:123 | appending well-formed entries keeps the history non-empty and trimmed entry by entry |
| Conversation.EntriesOfTrimmed | features/SantaLive.tsx:44 | a non-empty trimmed text gives exactly itself |
| Conversation.FinalizeTrimmed | features/SantaLive.tsx:42-48 | a turn of two trimmed non-empty texts gives exactly those two entries, user first |
| Conversation.FinalizeExample | features/SantaLive.tsx:35-51 | "Hello" from the user and "Hi " then "there" from the elf give the entries user "Hello", elf "Hi there" |
| Conversation.FinalizeEmptyTurn | features/SantaLive.tsx:42-48 | a turn in which nothing was said adds no entry |
| Conversation.Lines | features/CardWorkshop.tsx:166 | one `role: text` line per history entry, in order |
| SantaLive.SantaLivePage.constructor | features/SantaLive.tsx:5-9 | disconnected, empty history and turn, no agent |
| SantaLive.SantaLivePage.OnTranscriptUpdate | features/SantaLive.tsx:35-51 | deltas extend the pending turn; on completion the history gains the finalized entries after its old entries, and the turn is reset |
| SantaLive.SantaLivePage.ToggleConnection | features/SantaLive.tsx:27-61 | disconnecting stops the agent and drops it; connecting installs a fresh agent with only the transcript callback, and the page is connected exactly when connect succeeds |
| SantaLive.SantaLivePage.Unmount | features/SantaLive.tsx:12-18 | unmounting disconnects a held agent |
| CardWorkshop.HostsDiffer | features/CardWorkshop.tsx:66-71 | the three redemption hosts differ at their first letter |
| CardWorkshop.QrData | features/CardWorkshop.tsx:59-75 | with no gift the payload is the placeholder `https://google.com`; a web-link gift is the payload unchanged; a code is appended to its provider's redemption page |
| CardWorkshop.QrCarriesGift | features/CardWorkshop.tsx:59-75 | an entered gift is carried whole at the end of the QR payload; a code goes behind the provider's secure redemption page |
| CardWorkshop.QrCodeInjective | features/CardWorkshop.tsx:65-71 | different codes or providers give different QR payloads |
| CardWorkshop.ActionButtonText | features/CardWorkshop.tsx:219-224 | the label depends on loading and connection only |
| CardWorkshop.AssembleContext | features/CardWorkshop.tsx:165-176 | the context built by successive appends is the theme line, the joined history lines, and the pending chat line |
| CardWorkshop.ContextStartsWithTheme | features/CardWorkshop.tsx:165 | the context starts with "Theme/Requirements: " and the theme as typed |
| CardWorkshop.ContextNeverBlank | features/CardWorkshop.tsx:174-176 | the context is never blank, so the fallback can never be taken |
| CardWorkshop.ContextCoversHistory | features/CardWorkshop.tsx:166 | every history line occurs in the context |
| CardWorkshop.ContextCoversPendingChat | features/CardWorkshop.tsx:169-171 | unsent non-blank chat text ends the context as a trimmed user line |
| CardWorkshop.CoverUrl | features/CardWorkshop.tsx:187-188 | a failed cover request or one without an image fails; otherwise the first image |
| CardWorkshop.Workshop.constructor | features/CardWorkshop.tsx:18-40 | first page, names and gift from memory with their defaults, empty inputs and history, no agent |
| CardWorkshop.Workshop.PrevPage | features/CardWorkshop.tsx:494 | one page back, clamped at 0 |
| CardWorkshop.Workshop.NextPage | features/CardWorkshop.tsx:502 | one page on, clamped at 3 |
| CardWorkshop.Workshop.SelectPage | features/CardWorkshop.tsx:498-499 | a page dot selects that page, within 0..3 |
| CardWorkshop.Workshop.OnTranscriptUpdate | features/CardWorkshop.tsx:115-127 | deltas extend the pending turn; on completion the history gains the finalized entries and stays well formed |
| CardWorkshop.Workshop.SendMessage | features/CardWorkshop.tsx:147-151 | blank text changes nothing; otherwise its trim joins the history and the input is cleared |
| CardWorkshop.Workshop.HandleDisconnect | features/CardWorkshop.tsx:102-106 | a held agent is disconnected (session dropped, contexts closed, sources stopped), then the page is disconnected with no agent |
| CardWorkshop.Workshop.ToggleConnection | features/CardWorkshop.tsx:108-145 | disconnects when connected; otherwise a fresh agent with both callbacks connects with theme and chat text joined by a space, and the page is connected exactly when connect succeeds |
| CardWorkshop.Workshop.OpenSession | features/CardWorkshop.tsx:112-143 | the connecting half: fresh agent, callbacks set, trigger closure capturing the current inputs, instruction from the initial text |
| CardWorkshop.Workshop.GenerateAssets | features/CardWorkshop.tsx:160-209 | on success memory receives the context, message, images, names and gift, and the page turns to 1; on failure memory and page are unchanged; loading and status are reset |
| CardWorkshop.Workshop.HandleMainAction | features/CardWorkshop.tsx:211-216 | disconnects first when connected, then generates from the inputs as they stand |
| CardWorkshop.Workshop.OnGenerateTriggerAsWritten | features/CardWorkshop.tsx:130-134 | the trigger as written disconnects and stores the context of the inputs captured at connect time |
| CardWorkshop.Workshop.OnGenerateTrigger | features/CardWorkshop.tsx:130-134 | the corrected trigger stores the context of the current inputs, which covers every history line |
| CardWorkshop.Workshop.Unmount | features/CardWorkshop.tsx:45-49 | unmounting disconnects a held agent: its session is dropped, neither context keeps running, and every source it was playing is stopped |
| CardWorkshop.StaleTriggerDropsConversation | features/CardWorkshop.tsx:130-134 | a line said after connecting is missing from the as-written context and present in the current one |
| VibeStudio.BuildRequest | services/geminiService.ts:14-24 | a request that carries a photo carries the given one under the edit instruction; otherwise the cover-art instruction is sent |
| VibeStudio.BuildRequestCarries | services/geminiService.ts:14-24 | the request carries the photo exactly when its payload and type are non-empty, and its text always quotes the context |
| VibeStudio.UploadedPhotoIsSent | features/VibeStudio.tsx:40-44 | a photo the data-URL pattern accepted is always sent inline |
| VibeStudio.Studio.constructor | features/VibeStudio.tsx:12-17 | empty prompt, not loading, no image, create mode, no upload |
| VibeStudio.Studio.SetPrompt | features/VibeStudio.tsx:105 | the prompt becomes the typed text |
| VibeStudio.Studio.OnFileLoaded | features/VibeStudio.tsx:23-31 | a match stores its two groups and switches to edit; a rejected string changes nothing |
| VibeStudio.Studio.ClickCreateNew | features/VibeStudio.tsx:71 | create mode, upload cleared |
| VibeStudio.Studio.ClickEditPhoto | features/VibeStudio.tsx:77 | edit mode |
| VibeStudio.Studio.Preview | features/VibeStudio.tsx:91-93 | the preview exists exactly in edit mode with an upload, and its data URL parses back to the upload |
| VibeStudio.Studio.HandleGenerate | features/VibeStudio.tsx:36-55 | an empty prompt changes nothing; otherwise the request for prompt and upload is sent, an image result is shown and recorded as `vibe = prompt`, a failure changes neither, and loading ends false |
| VeoMemories.RevokesKey | features/VeoMemories.tsx:55 | a failure revokes the key exactly when its message contains "Requested entity was not found" |
| VeoMemories.RevocationExamples | features/VeoMemories.tsx:55-60 | the service's own "Video generation failed" and a message-less failure do not revoke the key; a message containing the marker does |
| VeoMemories.Memories.constructor | features/VeoMemories.tsx:5-9 | no image, default prompt, not generating, no video, key not ready |
| VeoMemories.Memories.CheckApiKey | features/VeoMemories.tsx:16-22 | with a host page the flag becomes its answer; otherwise it is unchanged |
| VeoMemories.Memories.HandleSelectKey | features/VeoMemories.tsx:24-30 | with a host page the flag becomes true optimistically |
| VeoMemories.Memories.SetPrompt | features/VeoMemories.tsx:109 | the prompt becomes the typed text |
| VeoMemories.Memories.OnFileLoaded | features/VeoMemories.tsx:36-40 | the image is set only on a match, to its groups |
| VeoMemories.Memories.Generate | features/VeoMemories.tsx:45-64 | without an image nothing changes; otherwise the request is sent, the video is shown only on success, the key is revoked exactly when `RevokesKey` holds, and generating ends false |
| CharityAgent.Pending | features/CharityAgent.tsx:17-26 | callbacks are pending exactly in the connecting, negotiating and transferring states |
| CharityAgent.StepsInDelayOrder | features/CharityAgent.tsx:20-25 | the delays 1500 < 3000 < 5000 make the callbacks fire in the order scheduled |
| CharityAgent.PendingHead | features/CharityAgent.tsx:20-25 | the callback due first moves to the next status and leaves exactly the next status's callbacks; only the last carries the update |
| CharityAgent.DonationAccumulates | features/CharityAgent.tsx:24 | the stored total grows by exactly the amount (absent counts as 0), the charity becomes the chosen one, and other keys are kept |
| CharityAgent.Agent.constructor | features/CharityAgent.tsx:11-13 | amount 25, the remembered charity or "Code for Kids", idle |
| CharityAgent.Agent.SelectAmount | features/CharityAgent.tsx:78-81 | an amount button sets one of 10, 25, 50, 100, only while idle |
| CharityAgent.Agent.SelectCharity | features/CharityAgent.tsx:66 | a charity tile selects it, only while idle |
| CharityAgent.Agent.Donate | features/CharityAgent.tsx:17-26 | from idle the status becomes connecting and the three callbacks are scheduled; from any other status nothing happens |
| CharityAgent.Agent.FireTimer | features/CharityAgent.tsx:20-25 | the callback due first runs, moving to the next status; at transferring it records the donation in the shared memory |
| CharityAgent.Agent.DonateAgain | features/CharityAgent.tsx:44 | "Donate again" goes from success to idle and does nothing elsewhere |
| CharityAgent.DonationRun | features/CharityAgent.tsx:17-26 | from idle a donation passes through connecting, negotiating, transferring to success and adds the amount to the stored total |

## Left out

- `audioUtils` (`createPcmBlob`, `decodeAudioData`, `base64ToUint8Array`) is not part of this model. A decoded buffer enters as its duration, or as nothing when decoding throws, and a captured frame as a sequence of reals.
- Network and SDK calls are parameters of the methods that await them. These are `generateContent`, `ai.live.connect`, `getUserMedia`, `generateVideos` and its polling loop (services/geminiService.ts:85-90), and the host page's key dialog.
- Audio-graph wiring (gain node, script processor, destinations) is not modelled.
- The QR-code `fetch`, `FileReader`, and the PDF export (jsPDF, html2canvas) are left out as I/O. `FileReader`'s result enters as a string.
- `generateCardText`'s prompt text and grounding chunks are left out. Its result enters as the response text or its absence.
- The generate-content prompts for the background and the video are left out, as is the video URL's `&key=` suffix.
- Concurrency is not modelled. Each inbound message is handled to completion before the next one. The `await` of `decodeAudioData` inside `onmessage`, and promise-chained sends that land in later microtasks, are not interleaved.
- The component's intermediate `generationStatus` texts ("Writing your message..." and so on) are left out. They are overwritten before the method returns.
- Alerts and console output are left out.
- Rendering, CSS, `Snowfall`, `AboutPage` beyond its back button, and `types.ts` are left out.
- React StrictMode's double invocation of updaters is left out.
- The clock and durations are mathematical reals. IEEE rounding is not modelled.
- GeminiService.HolidayLiveAgent.OnMessage: callbacks are recorded in the outbox, not run. The card workshop's trigger callback (features/CardWorkshop.tsx:129-133) calls `handleDisconnect`, and `disconnect` has no `await` (services/geminiService.ts:269-274). So it runs to completion inside `onmessage` at services/geminiService.ts:190-192, before the same message's audio and transcript steps. Those steps then run on an agent whose contexts are closed, whose sources were already stopped and whose session promise is null. Audio in that message is scheduled after the stop sweep and is never stopped, and its transcript still reaches the page. The model does not show this re-entry; its "untouched" clauses hold for the agent's own code only.
- GeminiService.HolidayLiveAgent.OnMessage: the outbox order puts the acknowledgment before the trigger. That is the order in which the handler issues them; delivery of the acknowledgment waits for the session promise.
- CardWorkshop.Workshop.OnTranscriptUpdate and the other component invariants do not include the agent's own `Valid` invariant. The agent's invariant is kept by its own methods.
- CharityAgent.Agent.FireTimer: the last callback's update is computed at donate time, from the choices and memory of that render. The invariant asks that the shared memory is not changed by another page while a donation runs.
- VeoMemories.Memories.Generate: the `alert` that distinguishes the two failure kinds is not modelled; only the key flag is.
- CardWorkshop.QrCarriesGift: the `default` branch of the provider switch is unreachable, because the provider type has exactly three values. It therefore has no counterpart in the model.

## Findings

| source | as written | input that shows it | evidently intended | confidence | as-written member | corrected member |
|---|---|---|---|---|---|---|
| features/CardWorkshop.tsx:130-134 | the `onGenerateTrigger` closure is created when the connection opens, so it calls the `generateAssets` of that render, which reads the inputs and history of that moment | connect with nothing typed and no history, say "a snowy log cabin by the lake" in a completed turn, then the agent calls the tool: the stored context is "Theme/Requirements: \n" and lacks the line | the generation context contains the conversation held when the tool call arrives | not executed | CardWorkshop.Workshop.OnGenerateTriggerAsWritten, CardWorkshop.StaleTriggerDropsConversation | CardWorkshop.Workshop.OnGenerateTrigger, CardWorkshop.ContextCoversHistory |
