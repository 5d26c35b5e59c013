/** `HolidayLiveAgent` (services/geminiService.ts:128-275): the object that owns
    one live duplex session, its two audio contexts, the playback cursor and the
    set of playing sources, and routes inbound messages.
    The outside world enters as parameters: the playback clock's `currentTime`,
    the duration of a decoded buffer, microphone permission and the endpoint's
    answer. Every outward call (tool acknowledgment, realtime audio frame,
    callback invocation) is appended to `outbox` in the order it is made. */
module GeminiService {
  import opened Wrappers
  import opened LiveProtocol
  import opened PlaybackSchedule

  /** An `AudioContext | null` field: never created, running, or closed. */
  datatype ContextState = Absent | Running | Closed

  /** `sessionPromise`: `null`, a promise the endpoint rejected, or a live session. */
  datatype SessionState = NoSession | Rejected | Live

  /** `ctx?.close()`. */
  function Close(c: ContextState): (r: ContextState)
    ensures r == Absent <==> c == Absent
    ensures r != Running
  {
    if c == Absent then Absent else Closed
  }

  /** An `AudioBufferSourceNode`: when it was told to start, how long its buffer
      lasts, and whether `stop()` has been called on it. */
  class AudioSource {
    const start: real
    const duration: Duration
    var stopped: bool

    constructor (start: real, duration: Duration)
      ensures this.start == start && this.duration == duration && !stopped
    {
      this.start := start;
      this.duration := duration;
      stopped := false;
    }
  }

  /** Source `i` was started when the schedule of the requests says, and plays
      the `i`-th buffer. */
  ghost predicate StartedOnSchedule(scheduled: seq<AudioSource>, reqs: seq<Request>) {
    |scheduled| == |reqs| &&
    forall i :: 0 <= i < |scheduled| ==>
      scheduled[i].start == Starts(0.0, reqs)[i] && scheduled[i].duration == reqs[i].duration
  }

  /** Starting one more source where the schedule puts the next buffer keeps
      the sources on schedule. */
  lemma StartedOnScheduleAppend(scheduled: seq<AudioSource>, reqs: seq<Request>, src: AudioSource, q: Request)
    requires StartedOnSchedule(scheduled, reqs)
    requires src.start == StartOf(Cursor(0.0, reqs), q) && src.duration == q.duration
    ensures StartedOnSchedule(scheduled + [src], reqs + [q])
  {
    ScheduleOneMore(0.0, reqs, q);
    var starts := Starts(0.0, reqs + [q]);
    forall i | 0 <= i < |scheduled| + 1
      ensures (scheduled + [src])[i].start == starts[i] && (scheduled + [src])[i].duration == (reqs + [q])[i].duration
    {
      if i < |scheduled| {
        assert starts[i] == Starts(0.0, reqs)[i];
      }
    }
  }

  /** Every source on schedule ends by the cursor of its requests. */
  lemma OnScheduleEndsByCursor(scheduled: seq<AudioSource>, reqs: seq<Request>)
    requires StartedOnSchedule(scheduled, reqs)
    ensures forall i :: 0 <= i < |scheduled| ==>
      scheduled[i].start + scheduled[i].duration <= Cursor(0.0, reqs)
  {
    CursorBounds(0.0, reqs);
  }

  /** Decoding is attempted only for a first-part audio payload while a playback
      context exists; it fails when the decoder throws (`decoded` is `None`). */
  predicate DecodeFails(msg: LiveMessage, audioContext: ContextState, decoded: Option<Duration>) {
    AudioPayload(msg).Some? && audioContext != Absent && decoded.None?
  }

  class HolidayLiveAgent {
    var session: SessionState
    var audioContext: ContextState
    var inputContext: ContextState
    var nextStartTime: real
    var sources: set<AudioSource>
    /** Whether `onTranscriptUpdate` / `onGenerateTrigger` are set (non-null). */
    var hasTranscriptCallback: bool
    var hasGenerateCallback: bool
    /** Whether the microphone processor has been wired (`startAudioStream` ran). */
    var capturing: bool
    /** The system instruction of the last session requested. */
    var instruction: Option<string>
    var outbox: seq<Effect>

    /** Every `playAudio` call that scheduled a buffer, and the source it created. */
    ghost var requests: seq<Request>
    ghost var scheduled: seq<AudioSource>

    /** The cursor is where the schedule of every buffer so far has left it,
        every source was created by a scheduling step and started when the
        schedule says, and the tracked set holds only such sources. */
    ghost predicate Valid()
      reads this
    {
      nextStartTime == Cursor(0.0, requests) &&
      StartedOnSchedule(scheduled, requests) &&
      (forall s :: s in sources ==> s in scheduled)
    }

    /** `new HolidayLiveAgent()`: nothing connected, cursor at 0, no sources, no callbacks. */
    constructor ()
      ensures Valid()
      ensures session == NoSession && audioContext == Absent && inputContext == Absent
      ensures nextStartTime == 0.0 && sources == {} && requests == []
      ensures !hasTranscriptCallback && !hasGenerateCallback && !capturing
      ensures instruction == None && outbox == []
    {
      session := NoSession;
      audioContext := Absent;
      inputContext := Absent;
      nextStartTime := 0.0;
      sources := {};
      hasTranscriptCallback := false;
      hasGenerateCallback := false;
      capturing := false;
      instruction := None;
      outbox := [];
      requests := [];
      scheduled := [];
    }

    /** `connect(initialContext)`: creates both audio contexts, then asks for the
        microphone. A refusal throws before any session is requested (the new
        contexts stay open). Otherwise the session is requested with the system
        instruction for `initialContext`, and the call succeeds exactly when the
        endpoint accepts. Capture does not start here but in `OnOpen`. */
    method Connect(initialContext: string, micGranted: bool, endpointAccepts: bool) returns (ok: bool)
      requires Valid()
      modifies this
      ensures Valid()
      ensures ok <==> micGranted && endpointAccepts
      ensures audioContext == Running && inputContext == Running
      ensures !micGranted ==> session == old(session) && instruction == old(instruction)
      ensures micGranted ==> session == (if endpointAccepts then Live else Rejected)
      ensures micGranted ==> instruction == Some(SystemInstruction(initialContext))
      ensures capturing == old(capturing) && outbox == old(outbox)
      ensures nextStartTime == old(nextStartTime) && sources == old(sources)
      ensures requests == old(requests) && scheduled == old(scheduled)
      ensures hasTranscriptCallback == old(hasTranscriptCallback) && hasGenerateCallback == old(hasGenerateCallback)
    {
      audioContext := Running;
      inputContext := Running;
      if !micGranted {
        return false;
      }
      instruction := Some(SystemInstruction(initialContext));
      session := if endpointAccepts then Live else Rejected;
      ok := endpointAccepts;
    }

    /** The session's `onopen` callback: `startAudioStream`, a no-op without an
        input context. */
    method OnOpen()
      modifies this
      ensures capturing == (old(capturing) || old(inputContext) != Absent)
      ensures session == old(session) && audioContext == old(audioContext) && inputContext == old(inputContext)
      ensures nextStartTime == old(nextStartTime) && sources == old(sources) && outbox == old(outbox)
      ensures requests == old(requests) && scheduled == old(scheduled) && instruction == old(instruction)
      ensures hasTranscriptCallback == old(hasTranscriptCallback) && hasGenerateCallback == old(hasGenerateCallback)
    {
      if inputContext != Absent {
        capturing := true;
      }
    }

    /** The processor's `onaudioprocess` handler for one captured block: the block
        is sent only while the processor exists and a live session is held;
        otherwise `sessionPromise?.then` drops it (it is never queued). */
    method OnAudioProcess(frame: seq<real>)
      modifies this
      ensures outbox == old(outbox) + (if capturing && session == Live then [SendRealtimeInput(frame)] else [])
      ensures session == old(session) && audioContext == old(audioContext) && inputContext == old(inputContext)
      ensures nextStartTime == old(nextStartTime) && sources == old(sources) && capturing == old(capturing)
      ensures requests == old(requests) && scheduled == old(scheduled) && instruction == old(instruction)
      ensures hasTranscriptCallback == old(hasTranscriptCallback) && hasGenerateCallback == old(hasGenerateCallback)
    {
      if capturing && session == Live {
        outbox := outbox + [SendRealtimeInput(frame)];
      }
    }

    /** `playAudio(buffer)`: with a playback context, the buffer starts at
        `max(nextStartTime, now)`, the cursor moves to its end, and exactly one
        new source joins the tracked set; with none, nothing changes. */
    method PlayAudio(duration: Duration, now: real) returns (src: AudioSource?)
      requires Valid()
      modifies this
      ensures Valid()
      ensures old(audioContext) == Absent ==>
        src == null && nextStartTime == old(nextStartTime) && sources == old(sources) && requests == old(requests)
      ensures old(audioContext) != Absent ==>
        src != null && fresh(src) && !src.stopped &&
        src.start == Max(old(nextStartTime), now) && src.duration == duration &&
        nextStartTime == src.start + duration &&
        sources == old(sources) + {src} && src !in old(sources) &&
        requests == old(requests) + [Request(now, duration)]
      ensures old(audioContext) != Absent ==>
        src != null && forall i :: 0 <= i < |old(scheduled)| ==>
          src.start >= old(scheduled)[i].start + old(scheduled)[i].duration
      ensures session == old(session) && audioContext == old(audioContext) && inputContext == old(inputContext)
      ensures capturing == old(capturing) && outbox == old(outbox) && instruction == old(instruction)
      ensures hasTranscriptCallback == old(hasTranscriptCallback) && hasGenerateCallback == old(hasGenerateCallback)
    {
      if audioContext == Absent {
        return null;
      }
      var q := Request(now, duration);
      ScheduleOneMore(0.0, requests, q);
      OnScheduleEndsByCursor(scheduled, requests);
      var start := Max(nextStartTime, now);
      src := new AudioSource(start, duration);
      StartedOnScheduleAppend(scheduled, requests, src, q);
      nextStartTime := start + duration;
      sources := sources + {src};
      requests := requests + [q];
      scheduled := scheduled + [src];
    }

    /** A source's `onended` handler: removes that source and no other. */
    method OnEnded(s: AudioSource)
      modifies this
      ensures sources == old(sources) - {s}
      ensures session == old(session) && audioContext == old(audioContext) && inputContext == old(inputContext)
      ensures nextStartTime == old(nextStartTime) && capturing == old(capturing) && outbox == old(outbox)
      ensures requests == old(requests) && scheduled == old(scheduled) && instruction == old(instruction)
      ensures hasTranscriptCallback == old(hasTranscriptCallback) && hasGenerateCallback == old(hasGenerateCallback)
    {
      sources := sources - {s};
    }

    /** The tool-call half of `onmessage`: the acknowledgment goes out through
        `sessionPromise?.then` (so only while a session promise is held), and the
        trigger fires when its callback is set. */
    method HandleToolCall(msg: LiveMessage)
      modifies this`outbox
      ensures outbox == old(outbox) + ToolCallEffects(msg, session == Live, hasGenerateCallback)
    {
      if msg.toolCall.Some? {
        if session == Live {
          outbox := outbox + [SendToolResponse(ToolAcks(msg.toolCall.value))];
        }
        if hasGenerateCallback {
          outbox := outbox + [GenerateTrigger];
        }
      }
    }

    /** The transcription half of `onmessage`. */
    method HandleTranscript(msg: LiveMessage)
      modifies this`outbox
      ensures outbox == old(outbox) + TranscriptEffects(msg, hasTranscriptCallback)
    {
      if hasTranscriptCallback {
        var notice := TranscriptNotice(msg);
        if notice.Some? {
          outbox := outbox + [TranscriptUpdate(notice.value)];
        }
      }
    }

    /** The session's `onmessage` callback for one message, handled to completion
        before the next (`decoded` is the duration `decodeAudioData` gives the
        message's audio, or `None` when decoding throws; `now` is the playback
        clock when the audio is scheduled): acknowledge a tool call and fire the
        trigger, schedule the first part's audio, then report the transcript. A
        decode that throws rejects the handler before the transcript step, so
        that message's transcript is never reported. */
    method OnMessage(msg: LiveMessage, decoded: Option<Duration>, now: real)
      requires Valid()
      modifies this
      ensures Valid()
      ensures DecodeFails(msg, old(audioContext), decoded) ==>
        outbox == old(outbox) + ToolCallEffects(msg, old(session) == Live, hasGenerateCallback)
      ensures !DecodeFails(msg, old(audioContext), decoded) ==>
        outbox == old(outbox) + MessageEffects(msg, old(session) == Live, hasGenerateCallback, hasTranscriptCallback)
      ensures AudioPayload(msg).Some? && old(audioContext) != Absent && decoded.Some? ==>
        requests == old(requests) + [Request(now, decoded.value)] &&
        nextStartTime == Max(old(nextStartTime), now) + decoded.value &&
        |sources - old(sources)| == 1 && old(sources) <= sources &&
        exists src: AudioSource :: fresh(src) && !src.stopped && sources == old(sources) + {src} &&
          src.start == Max(old(nextStartTime), now) && src.duration == decoded.value
      ensures !(AudioPayload(msg).Some? && old(audioContext) != Absent && decoded.Some?) ==>
        requests == old(requests) && nextStartTime == old(nextStartTime) && sources == old(sources)
      ensures session == old(session) && audioContext == old(audioContext) && inputContext == old(inputContext)
      ensures capturing == old(capturing) && instruction == old(instruction)
      ensures hasTranscriptCallback == old(hasTranscriptCallback) && hasGenerateCallback == old(hasGenerateCallback)
    {
      HandleToolCall(msg);
      PlayThenReport(msg, decoded, now);
    }

    /** The rest of `onmessage` after the tool call: the audio step, then the
        transcript step unless decoding threw. */
    method PlayThenReport(msg: LiveMessage, decoded: Option<Duration>, now: real)
      requires Valid()
      modifies this
      ensures Valid()
      ensures outbox == old(outbox) +
        (if DecodeFails(msg, old(audioContext), decoded) then [] else TranscriptEffects(msg, hasTranscriptCallback))
      ensures AudioPayload(msg).Some? && old(audioContext) != Absent && decoded.Some? ==>
        requests == old(requests) + [Request(now, decoded.value)] &&
        nextStartTime == Max(old(nextStartTime), now) + decoded.value &&
        |sources - old(sources)| == 1 && old(sources) <= sources &&
        exists src: AudioSource :: fresh(src) && !src.stopped && sources == old(sources) + {src} &&
          src.start == Max(old(nextStartTime), now) && src.duration == decoded.value
      ensures !(AudioPayload(msg).Some? && old(audioContext) != Absent && decoded.Some?) ==>
        requests == old(requests) && nextStartTime == old(nextStartTime) && sources == old(sources)
      ensures session == old(session) && audioContext == old(audioContext) && inputContext == old(inputContext)
      ensures capturing == old(capturing) && instruction == old(instruction)
      ensures hasTranscriptCallback == old(hasTranscriptCallback) && hasGenerateCallback == old(hasGenerateCallback)
    {
      var completed := PlayMessageAudio(msg, decoded, now);
      if completed {
        HandleTranscript(msg);
      }
    }

    /** The audio half of `onmessage`: the first part's inline audio, if any, is
        decoded and scheduled; no other part's audio is. `completed` is false
        exactly when decoding throws. */
    method PlayMessageAudio(msg: LiveMessage, decoded: Option<Duration>, now: real) returns (completed: bool)
      requires Valid()
      modifies this
      ensures Valid()
      ensures completed <==> !DecodeFails(msg, old(audioContext), decoded)
      ensures AudioPayload(msg).Some? && old(audioContext) != Absent && decoded.Some? ==>
        requests == old(requests) + [Request(now, decoded.value)] &&
        nextStartTime == Max(old(nextStartTime), now) + decoded.value &&
        |sources - old(sources)| == 1 && old(sources) <= sources &&
        exists src: AudioSource :: fresh(src) && !src.stopped && sources == old(sources) + {src} &&
          src.start == Max(old(nextStartTime), now) && src.duration == decoded.value
      ensures !(AudioPayload(msg).Some? && old(audioContext) != Absent && decoded.Some?) ==>
        requests == old(requests) && nextStartTime == old(nextStartTime) && sources == old(sources)
      ensures outbox == old(outbox)
      ensures session == old(session) && audioContext == old(audioContext) && inputContext == old(inputContext)
      ensures capturing == old(capturing) && instruction == old(instruction)
      ensures hasTranscriptCallback == old(hasTranscriptCallback) && hasGenerateCallback == old(hasGenerateCallback)
    {
      var audio := AudioPayload(msg);
      if audio.Some? && audioContext != Absent {
        if decoded.None? {
          return false;
        }
        var src := PlayAudio(decoded.value, now);
        assert sources - old(sources) == {src};
      }
      completed := true;
    }

    /** `disconnect()`: closes both contexts (a missing one stays missing), calls
        `stop` on every tracked source, and drops the session so later frames
        are discarded. Nothing else changes; calling it again changes nothing more. */
    method Disconnect()
      modifies this, sources
      ensures old(Valid()) ==> Valid()
      ensures audioContext == Close(old(audioContext)) && inputContext == Close(old(inputContext))
      ensures session == NoSession
      ensures forall s :: s in old(sources) ==> s.stopped
      ensures sources == old(sources) && nextStartTime == old(nextStartTime)
      ensures capturing == old(capturing) && outbox == old(outbox) && instruction == old(instruction)
      ensures requests == old(requests) && scheduled == old(scheduled)
      ensures hasTranscriptCallback == old(hasTranscriptCallback) && hasGenerateCallback == old(hasGenerateCallback)
    {
      audioContext := Close(audioContext);
      inputContext := Close(inputContext);
      forall s | s in sources {
        s.stopped := true;
      }
      session := NoSession;
    }
  }
}
