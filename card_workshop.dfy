/** The card workshop (features/CardWorkshop.tsx): the pure pieces (the gift QR
    payload, the main button's label, the generation context built from the
    inputs and the conversation) and the component itself as a class whose
    fields are its state hooks. */
module CardWorkshop {
  import opened Wrappers
  import opened Text
  import opened AgentMemory
  import opened AppShell
  import opened LiveProtocol
  import opened Conversation
  import opened GeminiService

  /** `'URL' | 'CODE'`. */
  datatype GiftType = UrlGift | CodeGift

  /** `'APPLE' | 'GOOGLE' | 'AMAZON'`. */
  datatype GiftProvider = Apple | Google | Amazon

  /** The QR payload when no gift is entered. */
  const PlaceholderQr: string := "https://google.com"

  const Secure: string := "https://"

  /** The host of a provider's redemption page. */
  function RedeemHost(p: GiftProvider): string {
    match p
    case Apple => "apps.apple.com"
    case Google => "play.google.com"
    case Amazon => "www.amazon.com"
  }

  /** The path and query key of a provider's redemption page. */
  function RedeemPath(p: GiftProvider): string {
    match p
    case Apple => "/redeem?code="
    case Google => "/redeem?code="
    case Amazon => "/gc/redeem?claimCode="
  }

  /** The redemption page a provider's code is appended to. */
  function RedeemPrefix(p: GiftProvider): string {
    Secure + RedeemHost(p) + RedeemPath(p)
  }

  /** `getQrData`: a placeholder without a gift, the link itself for a web-link
      gift, and the provider's redemption page carrying the code for a code. */
  function QrData(giftValue: string, giftType: GiftType, provider: GiftProvider): (r: string)
    ensures giftValue == "" ==> r == "https://google.com"
    ensures giftValue != "" && giftType == UrlGift ==> r == giftValue
    ensures giftValue != "" && giftType == CodeGift ==> r == RedeemPrefix(provider) + giftValue
  {
    if giftValue == "" then PlaceholderQr
    else if giftType == UrlGift then giftValue
    else RedeemPrefix(provider) + giftValue
  }

  /** Reading a redemption link back: its scheme, the host's first letter, and
      the code after the page prefix. */
  lemma SplitLink(s: string, h: string, path: string, v: string)
    requires h != []
    ensures var q := s + h + path + v;
      q[..|s|] == s && q[|s|] == h[0] && q[|s + h + path|..] == v
  {
    assert s + h + path + v == s + (h + (path + v));
  }

  /** The three redemption hosts start with different letters. */
  lemma HostsDiffer(p: GiftProvider, r: GiftProvider)
    requires p != r
    ensures RedeemHost(p) != [] && RedeemHost(r) != [] && RedeemHost(p)[0] != RedeemHost(r)[0]
  {
  }

  /** Whenever a gift is entered the QR payload carries it whole at its end;
      for a code the payload is a secure link that starts with the chosen
      provider's redemption page. */
  lemma QrCarriesGift(giftValue: string, giftType: GiftType, provider: GiftProvider)
    requires giftValue != ""
    ensures var q := QrData(giftValue, giftType, provider);
      |q| >= |giftValue| && q[|q| - |giftValue|..] == giftValue
    ensures giftType == CodeGift ==>
      var q := QrData(giftValue, giftType, provider);
      q[..|Secure|] == Secure && q[..|RedeemPrefix(provider)|] == RedeemPrefix(provider)
  {
    if giftType == CodeGift {
      assert RedeemHost(provider) != [];
      SplitLink(Secure, RedeemHost(provider), RedeemPath(provider), giftValue);
      var q := QrData(giftValue, giftType, provider);
      assert q == RedeemPrefix(provider) + giftValue;
      assert q[..|RedeemPrefix(provider)|] == RedeemPrefix(provider);
    }
  }

  /** Different codes, or the same code at different providers, give different
      QR payloads: the scanned link identifies both the provider and the code. */
  lemma QrCodeInjective(a: string, p: GiftProvider, b: string, r: GiftProvider)
    requires a != "" && b != ""
    requires QrData(a, CodeGift, p) == QrData(b, CodeGift, r)
    ensures a == b && p == r
  {
    assert RedeemHost(p) != [] && RedeemHost(r) != [];
    SplitLink(Secure, RedeemHost(p), RedeemPath(p), a);
    SplitLink(Secure, RedeemHost(r), RedeemPath(r), b);
    if p != r {
      HostsDiffer(p, r);
    }
  }

  /** `getActionButtonText`: its two branches after `connected` both give
      "Create Card", so the label depends on the loading and connection flags
      only. */
  function ActionButtonText(loading: bool, connected: bool, historyLength: nat, contextInput: string): (r: string)
    ensures r == (if loading then "Creating Magic..." else if connected then "Finish & Create Card" else "Create Card")
  {
    if loading then "Creating Magic..."
    else if connected then "Finish & Create Card"
    else if historyLength > 0 || !IsBlank(contextInput) then "Create Card"
    else "Create Card"
  }

  const ThemeLead: string := "Theme/Requirements: "
  const PendingLead: string := "\nuser: "
  const FallbackContext: string := "A standard festive holiday card."

  /** The context `generateAssets` sends: the theme line, the history lines
      joined by newlines, and the unsent chat text as a last user line when it
      is not blank. */
  function ContextText(contextInput: string, history: seq<Entry>, chatInput: string): string {
    ThemeLead + contextInput + "\n" + Join(Lines(history), "\n") + PendingLine(chatInput)
  }

  /** The line unsent chat text adds to the context: nothing when it is blank. */
  function PendingLine(chatInput: string): string {
    if IsBlank(chatInput) then "" else PendingLead + Trim(chatInput)
  }

  /** The first lines of `generateAssets`: the theme line, then the history
      lines, then the unsent chat text, with the fallback for an empty result. */
  method AssembleContext(contextInput: string, history: seq<Entry>, chatInput: string) returns (context: string)
    ensures context == ContextText(contextInput, history, chatInput)
  {
    context := ThemeLead + contextInput + "\n";
    context := context + Join(Lines(history), "\n");
    if !IsBlank(chatInput) {
      context := context + (PendingLead + Trim(chatInput));
    } else {
      assert context + PendingLine(chatInput) == context;
    }
    assert context == ContextText(contextInput, history, chatInput);
    ContextNeverBlank(contextInput, history, chatInput);
    if IsBlank(context) && IsBlank(contextInput) {
      context := FallbackContext;
    }
  }

  lemma PrefixOfConcat(a: string, b: string, c: string, d: string)
    ensures var s := a + b + "\n" + c + d;
      |s| >= |a + b| && s[..|a + b|] == a + b
  {
    assert a + b + "\n" + c + d == (a + b) + ("\n" + c + d);
  }

  /** The context always opens with the theme line and the theme as typed. */
  lemma ContextStartsWithTheme(contextInput: string, history: seq<Entry>, chatInput: string)
    ensures var c := ContextText(contextInput, history, chatInput);
      |c| >= |ThemeLead + contextInput| && c[..|ThemeLead + contextInput|] == ThemeLead + contextInput
  {
    PrefixOfConcat(ThemeLead, contextInput, Join(Lines(history), "\n"), PendingLine(chatInput));
  }

  /** The context is never blank, so the "standard festive holiday card"
      fallback can never be taken. */
  lemma ContextNeverBlank(contextInput: string, history: seq<Entry>, chatInput: string)
    ensures !IsBlank(ContextText(contextInput, history, chatInput))
  {
    var c := ContextText(contextInput, history, chatInput);
    assert c[0] == 'T' && !IsSpace(c[0]);
  }

  /** Every line of the history `h` occurs somewhere in `c`. */
  ghost predicate CoversHistory(c: string, h: seq<Entry>) {
    forall k :: 0 <= k < |h| ==> Contains(c, Line(h[k]))
  }

  /** Every line of the conversation history appears in the context. */
  lemma ContextCoversHistory(contextInput: string, history: seq<Entry>, chatInput: string)
    ensures CoversHistory(ContextText(contextInput, history, chatInput), history)
  {
    var c := ContextText(contextInput, history, chatInput);
    var joined := Join(Lines(history), "\n");
    var head := ThemeLead + contextInput + "\n";
    var tail := PendingLine(chatInput);
    assert c == head + joined + tail;
    forall k | 0 <= k < |history|
      ensures Contains(c, Line(history[k]))
    {
      JoinContains(Lines(history), "\n", k);
      var i :| OccursAt(joined, Lines(history)[k], i);
      OccursInContext(head, joined, tail, Line(history[k]), i);
      assert OccursAt(c, Line(history[k]), |head| + i);
    }
  }

  /** Unsent chat text that is not blank appears, trimmed, as the last user line. */
  lemma ContextCoversPendingChat(contextInput: string, history: seq<Entry>, chatInput: string)
    requires !IsBlank(chatInput)
    ensures var c := ContextText(contextInput, history, chatInput);
      var line := PendingLead + Trim(chatInput);
      |c| >= |line| && c[|c| - |line|..] == line
  {
    var c := ContextText(contextInput, history, chatInput);
    var line := PendingLead + Trim(chatInput);
    assert c == (ThemeLead + contextInput + "\n" + Join(Lines(history), "\n")) + line;
  }

  /** What `generateAssets` reads from the component's state. */
  datatype Inputs = Inputs(
    contextInput: string, chatInput: string, history: seq<Entry>,
    recipient: string, sender: string, giftValue: string)

  /** The context `generateAssets` builds from the given inputs. */
  function ContextOf(inputs: Inputs): string {
    ContextText(inputs.contextInput, inputs.history, inputs.chatInput)
  }

  /** The image a cover request gives: a failed request or a response without
      an inline image both throw. */
  function CoverUrl(cover: Result<GenerateResponse>): (r: Result<string>)
    ensures cover.Err? ==> r.Err?
    ensures cover.Ok? ==> r == ExtractCover(cover.value)
  {
    match cover
    case Err(e) => Err(e)
    case Ok(resp) => ExtractCover(resp)
  }

  /** Whether all three generation requests complete: text, then cover (which
      must hold an image), then background. */
  predicate Succeeds(text: Result<Option<string>>, cover: Result<GenerateResponse>, background: Result<GenerateResponse>) {
    text.Ok? && CoverUrl(cover).Ok? && background.Ok?
  }

  /** The memory update of a successful generation. */
  function AssetUpdates(inputs: Inputs, text: Option<string>, coverUrl: string, background: Option<string>): Memory {
    map[ConversationContext := Str(ContextOf(inputs)),
        CardMessage := (if text.Some? then Str(text.value) else Undefined),
        GeneratedCardUrl := Str(coverUrl),
        GeneratedBackgroundUrl := (if background.Some? then Str(background.value) else Null),
        RecipientName := Str(inputs.recipient),
        SenderName := Str(inputs.sender),
        GiftUrl := Str(inputs.giftValue)]
  }

  class Workshop {
    var activePage: int
    var loading: bool
    var generationStatus: string
    var giftType: GiftType
    var giftProvider: GiftProvider
    var recipient: string
    var sender: string
    var contextInput: string
    var giftValue: string
    var chatInput: string
    var connected: bool
    var history: seq<Entry>
    var currentTurn: Turn
    /** `agentRef.current`. */
    var agent: HolidayLiveAgent?
    /** The state the `onGenerateTrigger` closure of the held agent was created
        in (`None` when no closure has been created). */
    var triggerInputs: Option<Inputs>
    /** The `memory` / `updateMemory` props. */
    const app: App

    /** The page index stays among the four pages, and the history is trimmed
        and non-empty entry by entry. */
    ghost predicate Valid()
      reads this
    {
      0 <= activePage <= 3 && WellFormedHistory(history)
    }

    /** The inputs as they stand now. */
    function Current(): (inputs: Inputs)
      reads this
      ensures inputs.history == history && inputs.chatInput == chatInput && inputs.contextInput == contextInput
    {
      Inputs(contextInput, chatInput, history, recipient, sender, giftValue)
    }

    /** The first render: names and gift come from memory with their defaults. */
    constructor (app: App)
      ensures Valid() && this.app == app
      ensures recipient == StringOr(app.memory, RecipientName, "Family")
      ensures sender == StringOr(app.memory, SenderName, "Me")
      ensures giftValue == StringOr(app.memory, GiftUrl, "")
      ensures activePage == 0 && !loading && generationStatus == ""
      ensures giftType == UrlGift && giftProvider == Apple
      ensures contextInput == "" && chatInput == "" && !connected
      ensures history == [] && currentTurn == EmptyTurn && agent == null && triggerInputs == None
    {
      this.app := app;
      activePage := 0;
      loading := false;
      generationStatus := "";
      giftType := UrlGift;
      giftProvider := Apple;
      recipient := StringOr(app.memory, RecipientName, "Family");
      sender := StringOr(app.memory, SenderName, "Me");
      contextInput := "";
      giftValue := StringOr(app.memory, GiftUrl, "");
      chatInput := "";
      connected := false;
      history := [];
      currentTurn := EmptyTurn;
      agent := null;
      triggerInputs := None;
    }

    /** The previous-page arrow: one page back, never before the cover. */
    method PrevPage()
      requires Valid()
      modifies this`activePage
      ensures Valid()
      ensures activePage == (if old(activePage) == 0 then 0 else old(activePage) - 1)
    {
      activePage := if activePage - 1 < 0 then 0 else activePage - 1;
    }

    /** The next-page arrow: one page on, never past the back page. */
    method NextPage()
      requires Valid()
      modifies this`activePage
      ensures Valid()
      ensures activePage == (if old(activePage) == 3 then 3 else old(activePage) + 1)
    {
      activePage := if activePage + 1 > 3 then 3 else activePage + 1;
    }

    /** A click on one of the four page dots. */
    method SelectPage(i: int)
      requires Valid() && 0 <= i <= 3
      modifies this`activePage
      ensures Valid() && activePage == i
    {
      activePage := i;
    }

    /** The `onTranscriptUpdate` callback: deltas extend the pending turn, and a
        completed turn's non-blank sides join the history, user first. */
    method OnTranscriptUpdate(input: string, output: string, turnComplete: bool)
      requires Valid()
      modifies this`currentTurn, this`history
      ensures Valid()
      ensures !turnComplete ==>
        currentTurn == Extend(old(currentTurn), input, output) && history == old(history)
      ensures turnComplete ==>
        currentTurn == EmptyTurn &&
        history == old(history) + Finalize(Extend(old(currentTurn), input, output))
    {
      currentTurn := Extend(currentTurn, input, output);
      if turnComplete {
        var items := Finalize(currentTurn);
        AppendWellFormed(history, items);
        history := history + items;
        currentTurn := EmptyTurn;
      }
    }

    /** `handleSendMessage`: typed text that is not blank joins the history
        trimmed and the input is cleared; blank text changes nothing. */
    method SendMessage()
      requires Valid()
      modifies this`history, this`chatInput
      ensures Valid()
      ensures IsBlank(old(chatInput)) ==> history == old(history) && chatInput == old(chatInput)
      ensures !IsBlank(old(chatInput)) ==>
        history == old(history) + [Entry(User, Trim(old(chatInput)))] && chatInput == ""
    {
      if IsBlank(chatInput) {
        return;
      }
      var items := Entries(User, chatInput);
      assert items == [Entry(User, Trim(chatInput))];
      AppendWellFormed(history, items);
      history := history + items;
      chatInput := "";
    }

    /** `handleDisconnect`: a held agent is disconnected, then dropped. */
    method HandleDisconnect()
      requires Valid()
      modifies this`connected, this`agent, agent, (if agent == null then {} else agent.sources)
      ensures Valid()
      ensures !connected && agent == null
      ensures old(agent) != null ==>
        old(agent).session == NoSession && old(agent).audioContext != Running &&
        old(agent).inputContext != Running &&
        forall s :: s in old(agent.sources) ==> s.stopped
    {
      if agent != null {
        agent.Disconnect();
      }
      connected := false;
      agent := null;
    }

    /** `toggleConnection`. Connected: disconnect. Otherwise a fresh agent with
        both callbacks replaces the held one; its trigger closure captures the
        current inputs; it connects with the theme and the unsent chat text
        joined by a space, and the page counts as connected only when that
        succeeds. */
    method ToggleConnection(micGranted: bool, endpointAccepts: bool)
      requires Valid()
      modifies this`connected, this`agent, this`triggerInputs, agent, (if agent == null then {} else agent.sources)
      ensures Valid()
      ensures old(connected) ==> !connected && agent == null && triggerInputs == old(triggerInputs)
      ensures !old(connected) ==>
        agent != null && fresh(agent) &&
        connected == (micGranted && endpointAccepts) &&
        agent.hasTranscriptCallback && agent.hasGenerateCallback &&
        triggerInputs == Some(Current()) &&
        (micGranted ==> agent.instruction == Some(SystemInstruction(contextInput + " " + chatInput)))
    {
      if connected {
        HandleDisconnect();
      } else {
        OpenSession(micGranted, endpointAccepts);
      }
    }

    /** The connecting half of `toggleConnection`. */
    method OpenSession(micGranted: bool, endpointAccepts: bool)
      requires Valid()
      modifies this`connected, this`agent, this`triggerInputs
      ensures Valid()
      ensures agent != null && fresh(agent) &&
        connected == (old(connected) || (micGranted && endpointAccepts)) &&
        agent.hasTranscriptCallback && agent.hasGenerateCallback &&
        triggerInputs == Some(Current()) &&
        (micGranted ==> agent.instruction == Some(SystemInstruction(contextInput + " " + chatInput)))
    {
      var a := new HolidayLiveAgent();
      a.hasTranscriptCallback := true;
      a.hasGenerateCallback := true;
      triggerInputs := Some(Current());
      var ok := a.Connect(contextInput + " " + chatInput, micGranted, endpointAccepts);
      agent := a;
      if ok {
        connected := true;
      }
    }

    /** `generateAssets` over the given inputs, the three requests' outcomes given
        as parameters (`text` holds the response's text, absent when the response
        has none). The context is assembled step by step and, on success, the
        memory receives it with the generated assets and the names and gift, and
        the preview turns to the letter; on any failure memory and page stay as
        they were. Loading and status are reset either way. */
    method GenerateAssets(inputs: Inputs, text: Result<Option<string>>,
                          cover: Result<GenerateResponse>, background: Result<GenerateResponse>)
      requires Valid()
      modifies this`loading, this`generationStatus, this`activePage, app
      ensures Valid()
      ensures !loading && generationStatus == ""
      ensures Succeeds(text, cover, background) ==>
        activePage == 1 &&
        app.memory == Merge(old(app.memory),
          AssetUpdates(inputs, text.value, CoverUrl(cover).value, ExtractBackground(background.value)))
      ensures !Succeeds(text, cover, background) ==>
        activePage == old(activePage) && app.memory == old(app.memory)
      ensures Succeeds(text, cover, background) ==>
        ConversationContext in app.memory && app.memory[ConversationContext] == Str(ContextOf(inputs))
      ensures app.view == old(app.view)
    {
      loading := true;
      generationStatus := "Creating magic...";
      var context := AssembleContext(inputs.contextInput, inputs.history, inputs.chatInput);
      if text.Ok? {
        var url := CoverUrl(cover);
        if url.Ok? && background.Ok? {
          var bg := ExtractBackground(background.value);
          var updates := AssetUpdates(inputs, text.value, url.value, bg);
          assert updates[ConversationContext] == Str(context);
          app.UpdateMemory(updates);
          activePage := 1;
        }
      }
      loading := false;
      generationStatus := "";
    }

    /** `handleMainAction`: disconnect a live session first, then generate from
        the inputs as they stand. */
    method HandleMainAction(text: Result<Option<string>>,
                            cover: Result<GenerateResponse>, background: Result<GenerateResponse>)
      requires Valid()
      modifies this`connected, this`agent, agent, (if agent == null then {} else agent.sources)
      modifies this`loading, this`generationStatus, this`activePage, app
      ensures Valid()
      ensures !loading && generationStatus == ""
      ensures old(connected) ==> !connected && agent == null
      ensures Succeeds(text, cover, background) ==>
        activePage == 1 &&
        app.memory == Merge(old(app.memory),
          AssetUpdates(old(Current()), text.value, CoverUrl(cover).value, ExtractBackground(background.value)))
      ensures !Succeeds(text, cover, background) ==>
        activePage == old(activePage) && app.memory == old(app.memory)
    {
      if connected {
        HandleDisconnect();
      }
      GenerateAssets(Current(), text, cover, background);
    }

    /** The `onGenerateTrigger` closure as written: it disconnects, then runs
        the `generateAssets` of the render in which the connection was opened,
        so the context comes from the inputs and history captured then. */
    method OnGenerateTriggerAsWritten(text: Result<Option<string>>,
                                      cover: Result<GenerateResponse>, background: Result<GenerateResponse>)
      requires Valid()
      modifies this`connected, this`agent, agent, (if agent == null then {} else agent.sources)
      modifies this`loading, this`generationStatus, this`activePage, app
      ensures Valid()
      ensures !connected && agent == null
      ensures old(triggerInputs).Some? && Succeeds(text, cover, background) ==>
        ConversationContext in app.memory &&
        app.memory[ConversationContext] == Str(ContextOf(old(triggerInputs).value))
    {
      HandleDisconnect();
      if triggerInputs.Some? {
        GenerateAssets(triggerInputs.value, text, cover, background);
      }
    }

    /** The trigger as evidently intended: it disconnects and generates from
        the inputs and the conversation as they stand when the tool call
        arrives, so every history line reaches the generation context. */
    method OnGenerateTrigger(text: Result<Option<string>>,
                             cover: Result<GenerateResponse>, background: Result<GenerateResponse>)
      requires Valid()
      modifies this`connected, this`agent, agent, (if agent == null then {} else agent.sources)
      modifies this`loading, this`generationStatus, this`activePage, app
      ensures Valid()
      ensures !connected && agent == null
      ensures Succeeds(text, cover, background) ==>
        ConversationContext in app.memory &&
        app.memory[ConversationContext] == Str(ContextOf(old(Current()))) &&
        CoversHistory(app.memory[ConversationContext].s, old(history))
    {
      HandleDisconnect();
      var inputs := Current();
      GenerateAssets(inputs, text, cover, background);
      ContextCoversHistory(inputs.contextInput, inputs.history, inputs.chatInput);
    }

    /** The unmount cleanup: disconnects a held agent. */
    method Unmount()
      modifies agent, (if agent == null then {} else agent.sources)
      ensures agent != null ==>
        agent.session == NoSession && agent.audioContext != Running && agent.inputContext != Running &&
        forall s :: s in old(agent.sources) ==> s.stopped
    {
      if agent != null {
        agent.Disconnect();
      }
    }
  }

  /** The stale trigger loses the conversation: connect with nothing typed and
      no history, then say one thing in a completed turn. The as-written
      trigger's context is the connect-time one, which lacks the line that the
      context of the conversation as it stands contains. */
  lemma StaleTriggerDropsConversation()
    ensures var said := [Entry(User, "a snowy log cabin by the lake")];
      var atConnect := Inputs("", "", [], "Family", "Me", "");
      var atTrigger := Inputs("", "", said, "Family", "Me", "");
      ContextOf(atConnect) != ContextOf(atTrigger) &&
      !CoversHistory(ContextOf(atConnect), said) && CoversHistory(ContextOf(atTrigger), said)
  {
    var said := [Entry(User, "a snowy log cabin by the lake")];
    var line := Line(said[0]);
    assert |line| == 35;
    var c := ContextText("", [], "");
    assert PendingLine("") == "";
    assert c == ThemeLead + "\n";
    assert forall i :: !OccursAt(c, line, i);
    ContextCoversHistory("", said, "");
  }
}
