/** The assistant's chat panel (components/AIAssistantChat.tsx): dictation
    into the input box, the microphone error messages, and the message list
    with its pending placeholder. The browser's speech engine is not part of
    the model: its events are methods that the engine would call, with the
    event's data as parameters. */
module AssistantChat {
  import opened Wrappers
  import opened Text
  import opened Types
  import opened Constants
  import opened Seqs
  import GeminiService

  // ---------------------------------------------------------------------
  // Dictation

  /** One entry of a recognition event's result list: the transcript of its
      first alternative, and whether the engine has settled on it. */
  datatype SpeechResult = SpeechResult(transcript: string, isFinal: bool)

  /** The results an event reports as new: those from `resultIndex` on. */
  function Pending(results: seq<SpeechResult>, resultIndex: nat): seq<SpeechResult> {
    if resultIndex <= |results| then results[resultIndex..] else []
  }

  /** The settled transcripts, each followed by a space. */
  function FinalText(rs: seq<SpeechResult>): string
    decreases |rs|
  {
    if rs == [] then ""
    else
      var last := rs[|rs| - 1];
      FinalText(rs[..|rs| - 1]) + (if last.isFinal then last.transcript + " " else "")
  }

  /** The unsettled transcripts, run together. */
  function InterimText(rs: seq<SpeechResult>): string
    decreases |rs|
  {
    if rs == [] then ""
    else
      var last := rs[|rs| - 1];
      InterimText(rs[..|rs| - 1]) + (if last.isFinal then "" else last.transcript)
  }

  /** The non-empty parts, in order, with one space between neighbours. */
  function JoinNonEmpty(parts: seq<string>): string
    decreases |parts|
  {
    if parts == [] then ""
    else
      var rest := JoinNonEmpty(parts[1..]);
      if parts[0] == "" then rest
      else if rest == "" then parts[0]
      else parts[0] + " " + rest
  }

  /** `text` with `piece` added after a space, the empty text and the empty
      piece adding nothing. */
  function Extend(text: string, piece: string): string {
    if piece == "" then text else if text == "" then piece else text + " " + piece
  }

  /** Three parts are joined by extending the first with the other two. */
  lemma {:induction false} JoinThree(a: string, b: string, c: string)
    ensures JoinNonEmpty([a, b, c]) == Extend(Extend(a, b), c)
  {
    assert [a, b, c][1..] == [b, c] && [b, c][1..] == [c] && [c][1..] == [];
    assert JoinNonEmpty([c]) == c;
    assert JoinNonEmpty([b, c]) == Extend(b, c);
    if a != "" && b != "" && c != "" {
      assert a + " " + (b + " " + c) == a + " " + b + " " + c;
    }
  }

  /** Joining only ever adds spaces between two non-empty parts, so parts
      with no white space at their ends give a text with none at its ends. */
  lemma {:induction false} JoinTrimmed(parts: seq<string>)
    requires forall k :: 0 <= k < |parts| ==> IsTrimmed(parts[k])
    ensures IsTrimmed(JoinNonEmpty(parts))
    decreases |parts|
  {
    if parts != [] {
      JoinTrimmed(parts[1..]);
      var rest := JoinNonEmpty(parts[1..]);
      if parts[0] != "" && rest != "" {
        var r := parts[0] + " " + rest;
        assert r[0] == parts[0][0] && r[|r| - 1] == rest[|rest| - 1];
      }
    }
  }

  /** The joined text is empty exactly when every part is. */
  lemma {:induction false} JoinEmptyIff(parts: seq<string>)
    ensures JoinNonEmpty(parts) == "" <==> forall k :: 0 <= k < |parts| ==> parts[k] == ""
    decreases |parts|
  {
    if parts != [] {
      JoinEmptyIff(parts[1..]);
      assert forall k :: 1 <= k < |parts| ==> parts[k] == parts[1..][k - 1];
    }
  }

  /** The input text after a recognition event: the text the box held when
      listening began, then the settled speech, then the unsettled speech,
      each trimmed and joined by single spaces where non-empty. */
  function MergedText(baseline: string, results: seq<SpeechResult>, resultIndex: nat): string {
    var rs := Pending(results, resultIndex);
    JoinNonEmpty([Trim(baseline), Trim(FinalText(rs)), Trim(InterimText(rs))])
  }

  /** One more result adds its transcript to the settled or the unsettled text. */
  lemma {:induction false} TextsSnoc(rs: seq<SpeechResult>, r: SpeechResult)
    ensures r.isFinal ==> FinalText(rs + [r]) == FinalText(rs) + (r.transcript + " ")
    ensures r.isFinal ==> InterimText(rs + [r]) == InterimText(rs)
    ensures !r.isFinal ==> FinalText(rs + [r]) == FinalText(rs)
    ensures !r.isFinal ==> InterimText(rs + [r]) == InterimText(rs) + r.transcript
  {
    assert (rs + [r])[..|rs|] == rs;
  }

  /** The `onresult` handler's loop over the new results: the settled
      transcripts, each followed by a space, and the unsettled ones. */
  method CollectTranscripts(results: seq<SpeechResult>, resultIndex: nat) returns (currentFinal: string, currentInterim: string)
    ensures currentFinal == FinalText(Pending(results, resultIndex))
    ensures currentInterim == InterimText(Pending(results, resultIndex))
  {
    currentFinal := "";
    currentInterim := "";
    var i := resultIndex;
    while i < |results|
      invariant resultIndex <= i
      invariant i <= |results| ==> currentFinal == FinalText(results[resultIndex..i])
      invariant i <= |results| ==> currentInterim == InterimText(results[resultIndex..i])
      invariant i > |results| ==> i == resultIndex && currentFinal == "" && currentInterim == ""
      decreases |results| - i
    {
      assert results[resultIndex..i + 1] == results[resultIndex..i] + [results[i]];
      TextsSnoc(results[resultIndex..i], results[i]);
      var part := results[i].transcript;
      if results[i].isFinal {
        currentFinal := currentFinal + (part + " ");
      } else {
        currentInterim := currentInterim + part;
      }
      i := i + 1;
    }
    if resultIndex <= |results| {
      assert results[resultIndex..i] == Pending(results, resultIndex);
    }
  }

  /** The `onresult` handler's computation of the new input text. */
  method MergeTranscript(baseline: string, results: seq<SpeechResult>, resultIndex: nat) returns (newText: string)
    ensures newText == MergedText(baseline, results, resultIndex)
  {
    var currentFinal, currentInterim := CollectTranscripts(results, resultIndex);
    MergedTextExtends(baseline, results, resultIndex);
    MergedTextIsTrimmed(baseline, results, resultIndex);
    currentFinal := Trim(currentFinal);
    currentInterim := Trim(currentInterim);
    newText := Trim(baseline);
    // Each step below is `Extend`, written out as the handler does it.
    if currentFinal != "" {
      if newText != "" {
        newText := newText + " " + currentFinal;
      } else {
        newText := currentFinal;
      }
    }
    if currentInterim != "" {
      if newText != "" {
        newText := newText + " " + currentInterim;
      } else {
        newText := currentInterim;
      }
    }
    assert newText == Extend(Extend(Trim(baseline), currentFinal), currentInterim);
    newText := Trim(newText);
  }

  /** The merged text has no white space at either end. */
  lemma {:induction false} MergedTextIsTrimmed(baseline: string, results: seq<SpeechResult>, resultIndex: nat)
    ensures IsTrimmed(MergedText(baseline, results, resultIndex))
  {
    var rs := Pending(results, resultIndex);
    JoinTrimmed([Trim(baseline), Trim(FinalText(rs)), Trim(InterimText(rs))]);
  }

  /** An event that brings no speech leaves the trimmed starting text. */
  lemma {:induction false} SilenceKeepsBaseline(baseline: string, results: seq<SpeechResult>, resultIndex: nat)
    requires Trim(FinalText(Pending(results, resultIndex))) == ""
    requires Trim(InterimText(Pending(results, resultIndex))) == ""
    ensures MergedText(baseline, results, resultIndex) == Trim(baseline)
  {
    var rs := Pending(results, resultIndex);
    var parts := [Trim(baseline), Trim(FinalText(rs)), Trim(InterimText(rs))];
    assert JoinNonEmpty(parts[2..]) == "" by { assert parts[2..][1..] == []; }
    assert JoinNonEmpty(parts[1..]) == "" by { assert parts[1..][1..] == parts[2..]; }
  }

  /** Results before `resultIndex` do not contribute. */
  lemma {:induction false} EarlierResultsIgnored(baseline: string, results: seq<SpeechResult>, resultIndex: nat, j: nat, other: SpeechResult)
    requires j < resultIndex && j < |results|
    ensures MergedText(baseline, results[j := other], resultIndex) == MergedText(baseline, results, resultIndex)
  {
    if resultIndex <= |results| {
      assert results[j := other][resultIndex..] == results[resultIndex..];
    }
  }

  /** The example's results: one settled word, then two unsettled pieces. */
  const EXAMPLE_RESULTS: seq<SpeechResult> :=
    [SpeechResult("world", true), SpeechResult("the", false), SpeechResult("re", false)]

  lemma {:induction false} ExampleTexts()
    ensures FinalText(EXAMPLE_RESULTS) == "world " && InterimText(EXAMPLE_RESULTS) == "there"
  {
    var r1 := [SpeechResult("world", true)];
    var r2 := r1 + [SpeechResult("the", false)];
    var rs := r2 + [SpeechResult("re", false)];
    assert rs == EXAMPLE_RESULTS;
    assert r1[..0] == [] && r2[..1] == r1 && rs[..2] == r2;
    assert FinalText(r1) == "" + "world" + " ";
    assert FinalText(r2) == FinalText(r1) + "";
    assert FinalText(rs) == FinalText(r2) + "";
    assert InterimText(r1) == "" + "";
    assert InterimText(r2) == InterimText(r1) + "the";
    assert InterimText(rs) == InterimText(r2) + "re";
  }

  /** The merged text extends the starting text with the settled speech,
      then with the unsettled speech. */
  lemma {:induction false} MergedTextExtends(baseline: string, results: seq<SpeechResult>, resultIndex: nat)
    ensures var rs := Pending(results, resultIndex);
      MergedText(baseline, results, resultIndex) == Extend(Extend(Trim(baseline), Trim(FinalText(rs))), Trim(InterimText(rs)))
  {
    var rs := Pending(results, resultIndex);
    JoinThree(Trim(baseline), Trim(FinalText(rs)), Trim(InterimText(rs)));
  }

  lemma {:induction false} ExamplePieces()
    ensures var rs := Pending(EXAMPLE_RESULTS, 0);
      Trim(FinalText(rs)) == "world" && Trim(InterimText(rs)) == "there"
  {
    ExampleTexts();
    assert Pending(EXAMPLE_RESULTS, 0) == EXAMPLE_RESULTS;
    var w := "world ";
    assert Trim(w) == "world" by {
      assert SpaceRun(w, 0) == 0;
      assert SpaceRunBefore(w, 6, 0) == 1;
    }
    assert IsTrimmed("there");
  }

  /** Settled transcripts are separated by a space, unsettled ones are run
      together, and the settled speech comes first. */
  lemma {:induction false} DictationExample(baseline: string, results: seq<SpeechResult>)
    requires baseline == "Hello" && results == EXAMPLE_RESULTS
    ensures MergedText(baseline, results, 0) == "Hello world there"
  {
    ExamplePieces();
    assert Trim(baseline) == baseline by { assert IsTrimmed(baseline); }
    MergedFromPieces(baseline, results, 0, baseline, "world", "there");
    ExampleExtensions(baseline);
  }

  lemma {:induction false} MergedFromPieces(baseline: string, results: seq<SpeechResult>, resultIndex: nat,
                                            b: string, f: string, i: string)
    requires Trim(baseline) == b
    requires Trim(FinalText(Pending(results, resultIndex))) == f
    requires Trim(InterimText(Pending(results, resultIndex))) == i
    ensures MergedText(baseline, results, resultIndex) == Extend(Extend(b, f), i)
  {
    MergedTextExtends(baseline, results, resultIndex);
  }

  lemma {:induction false} ExampleExtensions(baseline: string)
    requires baseline == "Hello"
    ensures Extend(Extend(baseline, "world"), "there") == "Hello world there"
  {
    var first := Extend(baseline, "world");
    assert first == baseline + " " + "world";
    assert Extend(first, "there") == first + " " + "there";
    assert "Hello" + " " + "world" + " " + "there" == "Hello world there";
  }

  // ---------------------------------------------------------------------
  // Microphone errors

  // Each sentence is written as two literals so that the verifier reads its
  // first character from the short first part: indexing into one long
  // literal is what makes `MicErrorMessageIsGenericIffUnknown` too costly.

  const NO_SPEECH_MESSAGE: string := "No speech detected." + " Please try again."

  const AUDIO_CAPTURE_MESSAGE: string :=
    "Microphone problem." + " Please ensure it is connected and enabled."

  const NOT_ALLOWED_MESSAGE: string :=
    "Microphone access denied." + " Please allow microphone permission in your browser settings."

  /** The message shown for a recognition error code: a fixed sentence for
      each of the four codes the panel knows, a generic line otherwise. */
  function MicErrorMessage(code: string): (r: string)
    ensures |r| > 7
    ensures code == "no-speech" ==> r == NO_SPEECH_MESSAGE
    ensures code == "audio-capture" ==> r == AUDIO_CAPTURE_MESSAGE
    ensures code == "not-allowed" || code == "security" ==> r == NOT_ALLOWED_MESSAGE
  {
    if code == "no-speech" then NO_SPEECH_MESSAGE
    else if code == "audio-capture" then AUDIO_CAPTURE_MESSAGE
    else if code == "not-allowed" || code == "security" then NOT_ALLOWED_MESSAGE
    else "Error: " + (if code == "" then "Unknown speech error" else code)
  }

  /** The four known codes get their own sentences; every other code is
      reported as "Error: " followed by the code, or by a stand-in when the
      code is empty. */
  lemma {:induction false} MicErrorMessageIsGenericIffUnknown(code: string)
    ensures MicErrorMessage(code)[..7] == "Error: " <==>
      code != "no-speech" && code != "audio-capture" && code != "not-allowed" && code != "security"
    ensures MicErrorMessage(code)[..7] == "Error: " ==>
      MicErrorMessage(code)[7..] == if code == "" then "Unknown speech error" else code
  {
    var r := MicErrorMessage(code);
    if code == "no-speech" {
      assert r[0] == 'N';
    } else if code == "audio-capture" {
      assert r[0] == 'M';
    } else if code == "not-allowed" || code == "security" {
      assert r[0] == 'M';
    }
  }

  // ---------------------------------------------------------------------
  // The message list

  const UNAVAILABLE_MESSAGE: string :=
    "AI Assistant is unavailable as the API key is not configured. Please contact support."

  const PLACEHOLDER_TEXT: string := "Thinking..."

  const UNEXPECTED_ERROR: string := "An unexpected error occurred."

  const NOT_SUPPORTED_ERROR: string := "Speech recognition is not supported by your browser."

  const START_FAILED_ERROR: string :=
    "Could not start voice input. Check microphone permissions and browser support."

  /** A message that is neither waiting for a reply nor a failure. */
  predicate Settled(m: ChatMessage) {
    !m.isLoading && !m.isError
  }

  /** The messages handed to the service as history. */
  function HistoryForApi(messages: seq<ChatMessage>): (r: seq<ChatMessage>)
    ensures forall k :: 0 <= k < |r| ==> !r[k].isLoading && !r[k].isError
  {
    Filter(messages, Settled)
  }

  /** The history keeps the order of the messages it keeps, and keeps every
      settled one. */
  lemma {:induction false} HistoryKeepsOrder(messages: seq<ChatMessage>)
    ensures IsSubsequence(HistoryForApi(messages), messages)
    ensures forall m :: m in messages && Settled(m) ==> m in HistoryForApi(messages)
  {
    FilterIsSubsequence(messages, Settled);
    forall m | m in messages && Settled(m)
      ensures m in HistoryForApi(messages)
    {
      FilterMembership(messages, Settled, m);
    }
  }

  /** The service's own selection of turns already drops what this one
      drops, so the two together send what the service alone would, as long
      as the user's messages are settled, as the panel makes them. */
  lemma {:induction false} HistoryFilterIsRedundant(messages: seq<ChatMessage>)
    requires forall k :: 0 <= k < |messages| && messages[k].sender == User ==> Settled(messages[k])
    ensures GeminiService.FormatHistory(HistoryForApi(messages)) == GeminiService.FormatHistory(messages)
  {
    FilterFilter(messages, Settled, GeminiService.KeptInHistory);
  }

  /** The messages with the one whose id is `id` given its final text. */
  function ReplaceById(messages: seq<ChatMessage>, id: MessageId, text: string, isError: bool): (r: seq<ChatMessage>)
    ensures |r| == |messages|
  {
    seq(|messages|, k requires 0 <= k < |messages| =>
      if messages[k].id == id then messages[k].(text := text, isLoading := false, isError := isError) else messages[k])
  }

  /** Only the placeholder changes: it keeps its id and sender and gets the
      text and error flag, and no longer waits; every other message stays
      as it was, in its place. */
  lemma {:induction false} ReplaceOnlyTouchesPlaceholder(messages: seq<ChatMessage>, id: MessageId, text: string, isError: bool, k: nat)
    requires k < |messages|
    ensures var r := ReplaceById(messages, id, text, isError);
      r[k].id == messages[k].id && r[k].sender == messages[k].sender &&
      (messages[k].id != id ==> r[k] == messages[k]) &&
      (messages[k].id == id ==> r[k].text == text && !r[k].isLoading && r[k].isError == isError)
  {
  }

  /** The text a reply, or a failure, gives the placeholder: the reply
      itself, or "Error: " and what went wrong. */
  function ReplyText(reply: Result<string, Thrown>): (r: string)
    ensures reply.Ok? ==> r == reply.value
    ensures reply.Err? ==> |r| >= 7 && r[..7] == "Error: "
    ensures reply.Err? && reply.error.ErrorObject? ==> r[7..] == reply.error.message
    ensures reply.Err? && reply.error.OtherValue? ==> r == "Error: " + UNEXPECTED_ERROR
  {
    match reply
    case Ok(text) => text
    case Err(ErrorObject(message)) => "Error: " + message
    case Err(OtherValue) => "Error: " + UNEXPECTED_ERROR
  }

  /** The panel's send as composed with the service: the service never
      throws, so the placeholder always ends as a settled, non-empty answer
      and the catch branch is never taken. */
  lemma {:induction false} AssistantReplyFillsPlaceholder(
    messages: seq<ChatMessage>, id: MessageId, apiKey: string, query: string,
    history: seq<ChatMessage>, service: GeminiService.Request -> GeminiService.SdkOutcome, k: nat)
    requires k < |messages| && messages[k].id == id
    ensures var answer := GeminiService.GetAIAssistantResponse(apiKey, query, history, service).result;
      var r := ReplaceById(messages, id, ReplyText(Ok(answer)), false);
      r[k] == messages[k].(text := answer, isLoading := false, isError := false) &&
      r[k].text != "" && Settled(r[k])
  {
    var answer := GeminiService.GetAIAssistantResponse(apiKey, query, history, service).result;
    assert ReplyText(Ok(answer)) == answer;
  }

  /** What the pending send needs when its reply arrives. */
  datatype PendingReply = PendingReply(placeholderId: MessageId, query: string, history: seq<ChatMessage>)

  /** No two messages share an id. */
  predicate DistinctIds(messages: seq<ChatMessage>) {
    forall i, j :: 0 <= i < j < |messages| ==> messages[i].id != messages[j].id
  }

  /** Engines are told apart by the order they were created in. */
  type EngineId = nat

  /** The panel's state. `nextId` stands in for `uuidv4`: ids are handed
      out in increasing order, so each is new. `recognition` is the engine
      the panel refers to, `running` the engines started and not yet
      stopped or ended. */
  class ChatPanel {
    const apiKeyExists: bool
    const micSupported: bool
    var messages: seq<ChatMessage>
    var userInput: string
    var isLoading: bool
    var isListening: bool
    var micError: Option<string>
    var listenStartText: string
    var nextId: MessageId
    var recognition: Option<EngineId>
    var running: set<EngineId>
    var nextEngine: EngineId

    /** Ids are distinct and below `nextId`; the only engine that may run
        is the one the panel refers to. */
    ghost predicate Valid()
      reads this
    {
      DistinctIds(messages) && (forall k :: 0 <= k < |messages| ==> messages[k].id < nextId) &&
      (forall e :: e in running ==> recognition == Some(e)) &&
      (recognition.Some? ==> recognition.value < nextEngine)
    }

    constructor(apiKeyExists: bool, micSupported: bool)
      ensures Valid()
      ensures this.apiKeyExists == apiKeyExists && this.micSupported == micSupported
      ensures messages == [] && userInput == "" && !isLoading && !isListening && micError.None?
      ensures recognition.None? && running == {}
    {
      this.apiKeyExists := apiKeyExists;
      this.micSupported := micSupported;
      messages := [];
      userInput := "";
      isLoading := false;
      isListening := false;
      micError := None;
      listenStartText := "";
      nextId := 0;
      recognition := None;
      running := {};
      nextEngine := 0;
    }

    /** The quick questions are offered when a question could be sent and
        nothing has been typed or is being dictated. */
    predicate ShowQuickQuestions(): (shown: bool)
      reads this
      ensures shown ==> apiKeyExists && !isLoading && !isListening
      ensures Trim(userInput) != "" ==> !shown
      ensures apiKeyExists && !isLoading && !isListening && Trim(userInput) == "" ==> shown
    {
      apiKeyExists && !isLoading && !isListening && Trim(userInput) == ""
    }

    /** Asks the engine the panel refers to, if any, to stop. */
    method StopRecognition()
      requires Valid()
      modifies this
      ensures Valid()
      ensures running == {}
      ensures recognition == old(recognition) && nextEngine == old(nextEngine)
      ensures messages == old(messages) && userInput == old(userInput) && isLoading == old(isLoading)
      ensures isListening == old(isListening) && micError == old(micError)
      ensures listenStartText == old(listenStartText) && nextId == old(nextId)
    {
      running := {};
    }

    /** Opening the panel starts a new conversation with one message from
        the assistant, which is a failure notice when there is no key. */
    method Open()
      requires Valid()
      modifies this
      ensures Valid()
      ensures messages == [ChatMessage(old(nextId), Ai,
        if apiKeyExists then AI_ASSISTANT_INITIAL_MESSAGE else UNAVAILABLE_MESSAGE, false, !apiKeyExists)]
      ensures messages[0].isError == !apiKeyExists
      ensures userInput == "" && micError.None? && !isListening
      ensures old(isListening) ==> running == {}
      ensures !old(isListening) ==> running == old(running)
      ensures isLoading == old(isLoading) && listenStartText == old(listenStartText)
      ensures nextId == old(nextId) + 1 && recognition == old(recognition) && nextEngine == old(nextEngine)
      ensures ShowQuickQuestions() <==> apiKeyExists && !isLoading
    {
      var text := if apiKeyExists then AI_ASSISTANT_INITIAL_MESSAGE else UNAVAILABLE_MESSAGE;
      messages := [ChatMessage(nextId, Ai, text, false, !apiKeyExists)];
      nextId := nextId + 1;
      userInput := "";
      micError := None;
      if recognition.Some? && isListening {
        StopRecognition();
      }
      isListening := false;
    }

    /** Closing the panel stops listening and keeps the conversation. */
    method Close()
      requires Valid()
      modifies this
      ensures Valid()
      ensures !isListening
      ensures old(isListening) ==> running == {}
      ensures !old(isListening) ==> running == old(running)
      ensures messages == old(messages) && userInput == old(userInput) && isLoading == old(isLoading)
      ensures micError == old(micError) && listenStartText == old(listenStartText) && nextId == old(nextId)
      ensures recognition == old(recognition) && nextEngine == old(nextEngine)
    {
      if recognition.Some? && isListening {
        StopRecognition();
      }
      isListening := false;
    }

    /** The panel goes away: its engine is stopped and forgotten. */
    method Unmount()
      requires Valid()
      modifies this
      ensures Valid()
      ensures recognition.None? && running == {}
      ensures messages == old(messages) && userInput == old(userInput) && isLoading == old(isLoading)
      ensures isListening == old(isListening) && micError == old(micError) && nextId == old(nextId)
      ensures listenStartText == old(listenStartText) && nextEngine == old(nextEngine)
    {
      if recognition.Some? {
        StopRecognition();
        recognition := None;
      }
    }

    /** The first half of `handleSendMessage`, up to the request: a blank
        text, a reply still pending, or a missing key sends nothing;
        otherwise the trimmed text and a waiting placeholder are appended,
        and the history is what the list held before. */
    method BeginSend(messageText: string) returns (pending: Option<PendingReply>)
      requires Valid()
      modifies this
      ensures Valid()
      ensures Trim(messageText) == "" || old(isLoading) || !apiKeyExists ==>
        pending.None? && messages == old(messages) && isLoading == old(isLoading) && nextId == old(nextId)
      ensures Trim(messageText) != "" && !old(isLoading) && apiKeyExists ==>
        pending == Some(PendingReply(old(nextId) + 1, Trim(messageText), HistoryForApi(old(messages)))) &&
        messages == old(messages) + [ChatMessage(old(nextId), User, Trim(messageText), false, false),
                                     ChatMessage(old(nextId) + 1, Ai, PLACEHOLDER_TEXT, true, false)] &&
        isLoading && !ShowQuickQuestions() && nextId == old(nextId) + 2
      ensures userInput == old(userInput) && isListening == old(isListening) && micError == old(micError)
      ensures listenStartText == old(listenStartText) && recognition == old(recognition) && running == old(running)
      ensures nextEngine == old(nextEngine)
    {
      var text := Trim(messageText);
      if text == "" || isLoading || !apiKeyExists {
        return None;
      }
      var userMessage := ChatMessage(nextId, User, text, false, false);
      var placeholder := ChatMessage(nextId + 1, Ai, PLACEHOLDER_TEXT, true, false);
      var history := HistoryForApi(messages);
      messages := messages + [userMessage, placeholder];
      isLoading := true;
      nextId := nextId + 2;
      pending := Some(PendingReply(placeholder.id, text, history));
    }

    /** The second half: the placeholder gets the reply, or the failure,
        and the panel stops waiting. */
    method FinishSend(pending: PendingReply, reply: Result<string, Thrown>)
      requires Valid()
      modifies this
      ensures Valid()
      ensures messages == ReplaceById(old(messages), pending.placeholderId, ReplyText(reply), reply.Err?)
      ensures !isLoading
      ensures userInput == old(userInput) && isListening == old(isListening) && micError == old(micError)
      ensures listenStartText == old(listenStartText) && nextId == old(nextId)
      ensures recognition == old(recognition) && running == old(running) && nextEngine == old(nextEngine)
    {
      messages := ReplaceById(messages, pending.placeholderId, ReplyText(reply), reply.Err?);
      isLoading := false;
    }

    /** Submitting the form sends the typed text when it is not blank, and
        then empties the box; a blank box is left as it is. */
    method FormSubmit() returns (pending: Option<PendingReply>)
      requires Valid()
      modifies this
      ensures Valid()
      ensures Trim(old(userInput)) == "" ==> userInput == old(userInput)
      ensures Trim(old(userInput)) != "" ==> userInput == ""
      ensures Trim(old(userInput)) == "" || old(isLoading) || !apiKeyExists ==>
        pending.None? && messages == old(messages) && isLoading == old(isLoading) && nextId == old(nextId)
      ensures Trim(old(userInput)) != "" && !old(isLoading) && apiKeyExists ==>
        pending == Some(PendingReply(old(nextId) + 1, Trim(old(userInput)), HistoryForApi(old(messages)))) &&
        messages == old(messages) + [ChatMessage(old(nextId), User, Trim(old(userInput)), false, false),
                                     ChatMessage(old(nextId) + 1, Ai, PLACEHOLDER_TEXT, true, false)] &&
        isLoading && nextId == old(nextId) + 2
      ensures isListening == old(isListening) && micError == old(micError) && listenStartText == old(listenStartText)
      ensures recognition == old(recognition) && running == old(running) && nextEngine == old(nextEngine)
    {
      if Trim(userInput) != "" {
        pending := BeginSend(userInput);
        userInput := "";
      } else {
        pending := None;
      }
    }

    /** The microphone button. Stopping a running engine is left to its end
        event; starting creates a new engine, after stopping the previous
        one, and `startFails` says whether the new one refuses to start. */
    method ToggleListening(startFails: bool)
      requires Valid()
      modifies this
      ensures Valid()
      ensures !micSupported ==> micError == Some(NOT_SUPPORTED_ERROR)
      ensures !micSupported ==> isListening == old(isListening) && listenStartText == old(listenStartText)
      ensures micSupported && old(isLoading) ==>
        micError == old(micError) && isListening == old(isListening) && listenStartText == old(listenStartText)
      ensures micSupported && !old(isLoading) && old(isListening) ==>
        micError == old(micError) && isListening && listenStartText == old(listenStartText) && running == {}
      ensures micSupported && !old(isLoading) && !old(isListening) ==>
        listenStartText == old(userInput) && !isListening &&
        micError == (if startFails then Some(START_FAILED_ERROR) else None) &&
        recognition == Some(old(nextEngine)) &&
        running == (if startFails then {} else {old(nextEngine)})
      ensures !micSupported || old(isLoading) ==>
        recognition == old(recognition) && running == old(running) && nextEngine == old(nextEngine)
      ensures micSupported && !old(isLoading) && old(isListening) ==>
        recognition == old(recognition) && nextEngine == old(nextEngine)
      ensures micSupported && !old(isLoading) && !old(isListening) ==> nextEngine == old(nextEngine) + 1
      ensures messages == old(messages) && userInput == old(userInput) && isLoading == old(isLoading)
      ensures nextId == old(nextId)
    {
      if !micSupported {
        micError := Some(NOT_SUPPORTED_ERROR);
        return;
      }
      if isLoading {
        return;
      }
      if isListening {
        if recognition.Some? {
          StopRecognition();
        }
      } else {
        micError := None;
        if recognition.Some? {
          StopRecognition();
        }
        recognition := Some(nextEngine);
        nextEngine := nextEngine + 1;
        listenStartText := userInput;
        if startFails {
          micError := Some(START_FAILED_ERROR);
          isListening := false;
        } else {
          running := {recognition.value};
        }
      }
    }

    /** The engine has started. */
    method OnStart()
      requires Valid()
      modifies this
      ensures Valid()
      ensures isListening
      ensures messages == old(messages) && userInput == old(userInput) && isLoading == old(isLoading)
      ensures micError == old(micError) && listenStartText == old(listenStartText) && nextId == old(nextId)
      ensures recognition == old(recognition) && running == old(running) && nextEngine == old(nextEngine)
    {
      isListening := true;
    }

    /** The engine reports results: the box shows the merged text. */
    method OnResult(results: seq<SpeechResult>, resultIndex: nat)
      requires Valid()
      modifies this
      ensures Valid()
      ensures userInput == MergedText(listenStartText, results, resultIndex)
      ensures IsTrimmed(userInput)
      ensures messages == old(messages) && isLoading == old(isLoading) && isListening == old(isListening)
      ensures micError == old(micError) && listenStartText == old(listenStartText) && nextId == old(nextId)
      ensures recognition == old(recognition) && running == old(running) && nextEngine == old(nextEngine)
    {
      userInput := MergeTranscript(listenStartText, results, resultIndex);
      MergedTextIsTrimmed(listenStartText, results, resultIndex);
    }

    /** The engine reports an error: its message is shown and listening stops. */
    method OnError(code: string)
      requires Valid()
      modifies this
      ensures Valid()
      ensures micError == Some(MicErrorMessage(code)) && !isListening
      ensures messages == old(messages) && userInput == old(userInput) && isLoading == old(isLoading)
      ensures listenStartText == old(listenStartText) && nextId == old(nextId)
      ensures recognition == old(recognition) && running == old(running) && nextEngine == old(nextEngine)
    {
      micError := Some(MicErrorMessage(code));
      isListening := false;
    }

    /** The engine has ended: listening stops and the box is trimmed. */
    method OnEnd()
      requires Valid()
      modifies this
      ensures Valid()
      ensures !isListening && userInput == Trim(old(userInput)) && running == {}
      ensures messages == old(messages) && isLoading == old(isLoading) && micError == old(micError)
      ensures listenStartText == old(listenStartText) && nextId == old(nextId) && recognition == old(recognition)
      ensures nextEngine == old(nextEngine)
    {
      isListening := false;
      userInput := Trim(userInput);
      running := {};
    }
  }

  /** Starting to listen while an engine runs leaves only the new engine
      running: the old one is stopped first. */
  method SecondSessionLeavesOneEngine(panel: ChatPanel)
    requires panel.Valid() && panel.micSupported && !panel.isLoading && !panel.isListening
    modifies panel
    ensures panel.Valid()
    ensures panel.recognition.Some? && panel.running == {panel.recognition.value}
    ensures old(panel.recognition).Some? ==> old(panel.recognition).value !in panel.running
  {
    panel.ToggleListening(false);
  }
}
