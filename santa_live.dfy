/** The Elf Live Assistant page (features/SantaLive.tsx:4-61): a voice session
    with the live agent whose transcript deltas are gathered into a pending turn
    and, when a turn completes, appended to the history. */
module SantaLive {
  import opened Wrappers
  import opened Conversation
  import opened LiveProtocol
  import opened GeminiService

  class SantaLivePage {
    var connected: bool
    var history: seq<Entry>
    var currentTurn: Turn
    /** `agentRef.current`. */
    var agent: HolidayLiveAgent?

    /** Every history entry is trimmed and non-empty. */
    ghost predicate Valid()
      reads this
    {
      WellFormedHistory(history)
    }

    constructor ()
      ensures Valid()
      ensures !connected && history == [] && currentTurn == EmptyTurn && agent == null
    {
      connected := false;
      history := [];
      currentTurn := EmptyTurn;
      agent := null;
    }

    /** The `onTranscriptUpdate` callback: the deltas extend the pending turn; on
        turn completion the completed turn's non-blank sides are appended to the
        history, user first, and the pending turn is reset. */
    method OnTranscriptUpdate(input: string, output: string, turnComplete: bool)
      requires Valid()
      modifies this
      ensures Valid()
      ensures !turnComplete ==>
        currentTurn == Extend(old(currentTurn), input, output) && history == old(history)
      ensures turnComplete ==>
        currentTurn == EmptyTurn &&
        history == old(history) + Finalize(Extend(old(currentTurn), input, output))
      ensures connected == old(connected) && agent == old(agent)
    {
      currentTurn := Extend(currentTurn, input, output);
      if turnComplete {
        var items := Finalize(currentTurn);
        AppendWellFormed(history, items);
        history := history + items;
        currentTurn := EmptyTurn;
      }
    }

    /** `toggleConnection`. Connected: the agent is disconnected and dropped.
        Otherwise a fresh agent with only the transcript callback replaces the
        held one (a previous agent left by a failed connect is dropped without a
        disconnect) and connects with the default empty context; the page
        counts as connected only when the connect succeeds. */
    method ToggleConnection(micGranted: bool, endpointAccepts: bool)
      requires Valid()
      modifies this, agent, (if agent == null then {} else agent.sources)
      ensures Valid()
      ensures old(connected) ==> !connected && agent == null
      ensures old(connected) && old(agent) != null ==>
        old(agent).session == NoSession && old(agent).audioContext != Running &&
        old(agent).inputContext != Running &&
        forall s :: s in old(agent.sources) ==> s.stopped
      ensures !old(connected) ==>
        agent != null && fresh(agent) &&
        connected == (micGranted && endpointAccepts) &&
        agent.hasTranscriptCallback && !agent.hasGenerateCallback &&
        (micGranted ==> agent.instruction == Some(SystemInstruction("")))
      ensures history == old(history) && currentTurn == old(currentTurn)
    {
      if connected {
        if agent != null {
          agent.Disconnect();
        }
        connected := false;
        agent := null;
      } else {
        var a := new HolidayLiveAgent();
        a.hasTranscriptCallback := true;
        agent := a;
        var ok := a.Connect("", micGranted, endpointAccepts);
        if ok {
          connected := true;
        }
      }
    }

    /** The unmount cleanup: disconnects a held agent. */
    method Unmount()
      modifies agent, (if agent == null then {} else agent.sources)
      ensures agent != null ==>
        agent.session == NoSession && agent.audioContext != Running && agent.inputContext != Running &&
        forall s :: s in old(agent.sources) ==> s.stopped
    {
      if agent != null {
        agent.Disconnect();
      }
    }
  }
}
