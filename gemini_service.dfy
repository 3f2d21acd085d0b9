/** The client of the hosted model (services/geminiService.ts): the prompt,
    the generation settings, the shaping of the reply, the rewriting of
    errors and the two exported calls. The SDK's `generateContent` is a
    parameter `service` that maps a request to a reply or a thrown value;
    `process.env.API_KEY` is a parameter `apiKey`, with "" standing for
    both an empty and an unset variable (both are falsy). */
module GeminiService {
  import opened Wrappers
  import opened Text
  import opened Types
  import opened Constants
  import opened Seqs

  // ---------------------------------------------------------------------
  // The prompt

  /** The competitor-prices field as the prompt prints it: an empty field
      (falsy) becomes "Not specified". */
  function CompetitorText(data: ProductInputData): string {
    if data.competitorPrices == "" then NOT_SPECIFIED else data.competitorPrices
  }

  /** The fixed wording of the template, between the values it quotes. */
  const PROMPT_OPENING: string :=
    "\nYou are an AI-powered Dynamic Pricing Optimization assistant for "

  const PROMPT_BRIEF: string :=
    ".\n"
    + "Your expertise includes real-time market analysis, competitor pricing monitoring, demand forecasting, and profit optimization.\n"
    + "\n"
    + "Analyze the following product data to provide a dynamic pricing recommendation:\n"
    + "\n"
    + "Product Information:\n"
    + "- Product Name: "

  const PRICE_LABEL: string := "\n- Current Price: $"

  const COGS_LABEL: string := "\n- Cost of Goods Sold (COGS): $"

  const MARGIN_LABEL: string := "\n- Desired Profit Margin: "

  const INVENTORY_LABEL: string := "%\n- Current Inventory Level: "

  const INVENTORY_UNIT: string := " units\n"

  const COMPETITOR_LABEL: string := "- Competitor Prices: "

  const NOT_SPECIFIED: string := "Not specified"

  const SCENARIO_LABEL: string := "- Pricing Scenario: "

  const PROMPT_INSTRUCTIONS: string :=
    "\n"
    + "\n"
    + "Based on this information, provide the following structured response. Be concise due to token limits.\n"
    + "1.  **Optimal Recommended Price:** (Specific price or narrow range. E.g., $XX.XX or $XX.XX - $YY.YY)\n"
    + "2.  **Detailed Reasoning:** (Key factors influencing the recommendation based on the provided data.)\n"
    + "3.  **Actionable Insights:** (Key takeaways from the analysis.)\n"
    + "4.  **Implementation Steps:** (Brief steps to implement the recommendation.)\n"
    + "5.  **Potential Impact:** (Brief estimate on sales, revenue, or profit margin.)\n"
    + "\n"
    + "Consider profit margins, market positioning (if inferable from competitor prices), and customer willingness-to-pay.\n"
    + "Format your response clearly and concisely with numbered points.\n"
    + "If competitor prices are provided or the scenario is \"New Launch\", use Google Search to gather relevant, up-to-date market context or competitor information if it enhances the recommendation.\n"
    + "  "

  /** The prompt's lines up to the product figures. */
  function PromptHead(data: ProductInputData): string {
    PROMPT_OPENING + COMPANY_NAME + PROMPT_BRIEF + data.productName
    + PRICE_LABEL + FieldText(data.currentPrice)
    + COGS_LABEL + FieldText(data.cogs)
    + MARGIN_LABEL + FieldText(data.desiredProfitMargin)
    + INVENTORY_LABEL + FieldText(data.inventoryLevel) + INVENTORY_UNIT
  }

  /** The prompt's competitor-prices line. */
  function CompetitorLine(data: ProductInputData): string {
    COMPETITOR_LABEL + CompetitorText(data) + "\n"
  }

  /** The prompt's lines from the scenario to the end of the template. */
  function PromptTail(data: ProductInputData): string {
    SCENARIO_LABEL + ScenarioName(data.pricingScenario) + PROMPT_INSTRUCTIONS
  }

  /** `buildPrompt`: a single user turn carrying the filled-in template. */
  function BuildPrompt(data: ProductInputData): (c: ChatHistoryEntry)
    ensures c.role == UserRole
  {
    ChatHistoryEntry(UserRole, PromptHead(data) + CompetitorLine(data) + PromptTail(data))
  }

  /** An empty competitor-prices field is written as "Not specified". */
  lemma {:induction false} PromptSaysNotSpecified(data: ProductInputData)
    requires data.competitorPrices == ""
    ensures Contains(BuildPrompt(data).text, COMPETITOR_LABEL + NOT_SPECIFIED + "\n")
  {
    OccursInside(PromptHead(data), CompetitorLine(data), PromptTail(data), CompetitorLine(data), 0);
  }

  /** A filled-in competitor-prices field is quoted as typed, even when it
      is only white space. */
  lemma {:induction false} PromptQuotesCompetitorPrices(data: ProductInputData)
    requires data.competitorPrices != ""
    ensures Contains(BuildPrompt(data).text, COMPETITOR_LABEL + data.competitorPrices + "\n")
  {
    OccursInside(PromptHead(data), CompetitorLine(data), PromptTail(data), CompetitorLine(data), 0);
  }

  /** Each figure of the form stands between its own label and the next
      one: the prompt quotes every field as typed. */
  lemma {:induction false} PromptQuotesFields(data: ProductInputData)
    ensures var text := BuildPrompt(data).text;
      Contains(text, PROMPT_BRIEF + data.productName + PRICE_LABEL) &&
      Contains(text, PRICE_LABEL + FieldText(data.currentPrice) + COGS_LABEL) &&
      Contains(text, COGS_LABEL + FieldText(data.cogs) + MARGIN_LABEL) &&
      Contains(text, MARGIN_LABEL + FieldText(data.desiredProfitMargin) + INVENTORY_LABEL) &&
      Contains(text, INVENTORY_LABEL + FieldText(data.inventoryLevel) + INVENTORY_UNIT)
  {
    var head, line, tail := PromptHead(data), CompetitorLine(data), PromptTail(data);
    HeadQuotesFields(data);
    ContainsExtended(head, line, tail, PROMPT_BRIEF + data.productName + PRICE_LABEL);
    ContainsExtended(head, line, tail, PRICE_LABEL + FieldText(data.currentPrice) + COGS_LABEL);
    ContainsExtended(head, line, tail, COGS_LABEL + FieldText(data.cogs) + MARGIN_LABEL);
    ContainsExtended(head, line, tail, MARGIN_LABEL + FieldText(data.desiredProfitMargin) + INVENTORY_LABEL);
    ContainsExtended(head, line, tail, INVENTORY_LABEL + FieldText(data.inventoryLevel) + INVENTORY_UNIT);
  }

  /** The scenario's name follows its label and is followed by the
      instructions, which close the prompt. */
  lemma {:induction false} PromptEndsWithScenario(data: ProductInputData)
    ensures var text := BuildPrompt(data).text; var tail := PromptTail(data);
      tail == SCENARIO_LABEL + ScenarioName(data.pricingScenario) + PROMPT_INSTRUCTIONS &&
      |tail| <= |text| && text[|text| - |tail|..] == tail
  {
    var front := PromptHead(data) + CompetitorLine(data);
    SuffixOf(front, PromptTail(data));
  }

  /** The figures of the form, located in the head of the prompt. */
  lemma {:induction false} HeadQuotesFields(data: ProductInputData)
    ensures var head := PromptHead(data);
      Contains(head, PROMPT_BRIEF + data.productName + PRICE_LABEL) &&
      Contains(head, PRICE_LABEL + FieldText(data.currentPrice) + COGS_LABEL) &&
      Contains(head, COGS_LABEL + FieldText(data.cogs) + MARGIN_LABEL) &&
      Contains(head, MARGIN_LABEL + FieldText(data.desiredProfitMargin) + INVENTORY_LABEL) &&
      Contains(head, INVENTORY_LABEL + FieldText(data.inventoryLevel) + INVENTORY_UNIT)
  {
    var name, price, cogs := data.productName, FieldText(data.currentPrice), FieldText(data.cogs);
    var margin, inventory := FieldText(data.desiredProfitMargin), FieldText(data.inventoryLevel);
    FieldsOccur(PROMPT_OPENING + COMPANY_NAME, PROMPT_BRIEF, name, PRICE_LABEL, price, COGS_LABEL, cogs,
      MARGIN_LABEL, margin, INVENTORY_LABEL, inventory, INVENTORY_UNIT);
  }

  /** In a chain of labels and values, each value stands between its label
      and the next one. */
  lemma {:induction false} FieldsOccur(p: string, l1: string, v1: string, l2: string, v2: string, l3: string,
    v3: string, l4: string, v4: string, l5: string, v5: string, l6: string)
    ensures var s := p + l1 + v1 + l2 + v2 + l3 + v3 + l4 + v4 + l5 + v5 + l6;
      Contains(s, l1 + v1 + l2) && Contains(s, l2 + v2 + l3) && Contains(s, l3 + v3 + l4) &&
      Contains(s, l4 + v4 + l5) && Contains(s, l5 + v5 + l6)
  {
    var s1 := p + l1 + v1 + l2;
    var s2 := s1 + v2 + l3;
    var s3 := s2 + v3 + l4;
    var s4 := s3 + v4 + l5;
    PiecesOccur(p, l1, v1, l2);
    PiecesOccur(p + l1 + v1, l2, v2, l3);
    PiecesOccur(p + l1 + v1 + l2 + v2, l3, v3, l4);
    PiecesOccur(p + l1 + v1 + l2 + v2 + l3 + v3, l4, v4, l5);
    PiecesOccur(p + l1 + v1 + l2 + v2 + l3 + v3 + l4 + v4, l5, v5, l6);
    ContainsExtended(s1, v2, l3, l1 + v1 + l2);
    ContainsExtended(s2, v3, l4, l1 + v1 + l2);
    ContainsExtended(s2, v3, l4, l2 + v2 + l3);
    ContainsExtended(s3, v4, l5, l1 + v1 + l2);
    ContainsExtended(s3, v4, l5, l2 + v2 + l3);
    ContainsExtended(s3, v4, l5, l3 + v3 + l4);
    ContainsExtended(s4, v5, l6, l1 + v1 + l2);
    ContainsExtended(s4, v5, l6, l2 + v2 + l3);
    ContainsExtended(s4, v5, l6, l3 + v3 + l4);
    ContainsExtended(s4, v5, l6, l4 + v4 + l5);
  }

  // ---------------------------------------------------------------------
  // Generation settings

  datatype Tool = GoogleSearch

  /** The `config` object of a request; an absent key is `None`. */
  datatype GenerationConfig = GenerationConfig(
    tools: Option<seq<Tool>>,
    maxOutputTokens: Option<nat>,
    systemInstruction: Option<string>)

  const EMPTY_CONFIG := GenerationConfig(None, None, None)

  const RECOMMENDATION_MAX_OUTPUT_TOKENS: nat := 512

  const ASSISTANT_MAX_OUTPUT_TOKENS: nat := 256

  /** Search grounding is used for a new launch or when competitor prices
      are given, white space not counting. */
  predicate UseSearch(data: ProductInputData) {
    data.pricingScenario == NewLaunch || Trim(data.competitorPrices) != ""
  }

  /** The settings of a recommendation request: either the search tool or a
      token cap, never both and never neither. */
  function RecommendationConfig(data: ProductInputData): (c: GenerationConfig)
    ensures c.tools.Some? != c.maxOutputTokens.Some?
    ensures c.tools.Some? <==> UseSearch(data)
    ensures c.tools.Some? ==> c.tools.value == [GoogleSearch]
    ensures c.maxOutputTokens.Some? ==> c.maxOutputTokens.value == RECOMMENDATION_MAX_OUTPUT_TOKENS
    ensures c.systemInstruction.None?
  {
    if UseSearch(data) then EMPTY_CONFIG.(tools := Some([GoogleSearch]))
    else EMPTY_CONFIG.(maxOutputTokens := Some(RECOMMENDATION_MAX_OUTPUT_TOKENS))
  }

  /** The settings object built field by field, as the request code does. */
  method BuildModelConfig(data: ProductInputData) returns (modelConfig: GenerationConfig)
    ensures modelConfig == RecommendationConfig(data)
  {
    var useSearch := data.pricingScenario == NewLaunch || (data.competitorPrices != "" && Trim(data.competitorPrices) != "");
    modelConfig := EMPTY_CONFIG;
    if useSearch {
      modelConfig := modelConfig.(tools := Some([GoogleSearch]));
    } else {
      modelConfig := modelConfig.(maxOutputTokens := Some(RECOMMENDATION_MAX_OUTPUT_TOKENS));
    }
  }

  /** The settings of an assistant request. */
  const ASSISTANT_CONFIG := GenerationConfig(None, Some(ASSISTANT_MAX_OUTPUT_TOKENS), Some(AI_ASSISTANT_SYSTEM_INSTRUCTION))

  /** What is handed to `generateContent`. */
  datatype Request = Request(model: string, contents: seq<ChatHistoryEntry>, config: GenerationConfig)

  // ---------------------------------------------------------------------
  // The SDK's reply and its normalisation

  /** The SDK's shapes, with a field of each that the application drops. */
  datatype SdkWeb = SdkWeb(uri: Option<string>, title: Option<string>, domain: Option<string>)

  datatype SdkChunk = SdkChunk(web: Option<SdkWeb>, retrievedContext: Option<string>)

  datatype SdkMetadata = SdkMetadata(groundingChunks: Option<seq<SdkChunk>>, webSearchQueries: Option<seq<string>>)

  datatype SdkCandidate = SdkCandidate(groundingMetadata: Option<SdkMetadata>, finishReason: Option<string>)

  datatype SdkResponse = SdkResponse(text: Option<string>, candidates: Option<seq<SdkCandidate>>)

  /** What awaiting `generateContent` gives: a response, or a thrown value. */
  datatype SdkOutcome = Replied(response: SdkResponse) | Threw(thrown: Thrown)

  function NormaliseChunk(c: SdkChunk): GroundingChunk {
    GroundingChunk(if c.web.Some? then Some(GroundingChunkWeb(c.web.value.uri, c.web.value.title)) else None)
  }

  function NormaliseMetadata(m: SdkMetadata): GroundingMetadata {
    GroundingMetadata(if m.groundingChunks.Some? then Some(Map(m.groundingChunks.value, NormaliseChunk)) else None)
  }

  function NormaliseCandidate(c: SdkCandidate): Candidate {
    Candidate(if c.groundingMetadata.Some? then Some(NormaliseMetadata(c.groundingMetadata.value)) else None)
  }

  /** The candidates as the application's own types. */
  function NormaliseCandidates(cs: Option<seq<SdkCandidate>>): Option<seq<Candidate>> {
    if cs.Some? then Some(Map(cs.value, NormaliseCandidate)) else None
  }

  /** Normalisation keeps the number and order of candidates and of their
      chunks, keeps every link's uri and title, and turns a chunk without
      `web` into one without `web`. */
  lemma {:induction false} NormalisationKeepsShape(cs: seq<SdkCandidate>)
    ensures var r := NormaliseCandidates(Some(cs));
      r.Some? && |r.value| == |cs| &&
      forall i :: 0 <= i < |cs| ==>
        (r.value[i].groundingMetadata.Some? <==> cs[i].groundingMetadata.Some?) &&
        (cs[i].groundingMetadata.Some? ==>
          var before := cs[i].groundingMetadata.value.groundingChunks;
          var after := r.value[i].groundingMetadata.value.groundingChunks;
          (after.Some? <==> before.Some?) &&
          (before.Some? ==>
            |after.value| == |before.value| &&
            forall j :: 0 <= j < |before.value| ==>
              (after.value[j].web.None? <==> before.value[j].web.None?) &&
              (before.value[j].web.Some? ==>
                after.value[j].web.value.uri == before.value[j].web.value.uri &&
                after.value[j].web.value.title == before.value[j].web.value.title)))
  {
  }

  /** The application's candidates, as an SDK reply carrying nothing else. */
  function EmbedChunk(c: GroundingChunk): SdkChunk {
    SdkChunk(if c.web.Some? then Some(SdkWeb(c.web.value.uri, c.web.value.title, None)) else None, None)
  }

  function EmbedCandidate(c: Candidate): SdkCandidate {
    SdkCandidate(
      if c.groundingMetadata.Some? then
        var m := c.groundingMetadata.value;
        Some(SdkMetadata(if m.groundingChunks.Some? then Some(Map(m.groundingChunks.value, EmbedChunk)) else None, None))
      else None,
      None)
  }

  /** Normalisation loses nothing the application's types can hold. */
  lemma {:induction false} NormaliseEmbedded(cs: seq<Candidate>)
    ensures NormaliseCandidates(Some(Map(cs, EmbedCandidate))) == Some(cs)
  {
    forall i | 0 <= i < |cs|
      ensures NormaliseCandidate(EmbedCandidate(cs[i])) == cs[i]
    {
      var c := cs[i];
      if c.groundingMetadata.Some? && c.groundingMetadata.value.groundingChunks.Some? {
        var chunks := c.groundingMetadata.value.groundingChunks.value;
        assert Map(Map(chunks, EmbedChunk), NormaliseChunk) == chunks;
      }
    }
    assert Map(Map(cs, EmbedCandidate), NormaliseCandidate) == cs;
  }

  // ---------------------------------------------------------------------
  // Error rewriting

  const MISSING_KEY_ERROR: string :=
    "API_KEY is not configured. Cannot contact AI service. Please ensure the API_KEY environment variable is set."

  const RECOMMENDATION_FAILURE: string := "Failed to get pricing recommendation"

  const RECOMMENDATION_FAILURE_PREFIX: string := RECOMMENDATION_FAILURE + ": "

  const RECOMMENDATION_CREDENTIAL_PREFIX: string :=
    RECOMMENDATION_FAILURE_PREFIX + "API Key is invalid or missing permissions. Details: "

  const RECOMMENDATION_UNKNOWN_ERROR: string := RECOMMENDATION_FAILURE + " due to an unknown error."

  const ASSISTANT_NO_KEY_REPLY: string :=
    "I'm currently unable to connect to my knowledge base. Please ensure the API key is configured."

  const ASSISTANT_EMPTY_REPLY: string := "I'm sorry, I couldn't generate a response. Please try again."

  const ASSISTANT_CONFIG_REPLY: string :=
    "There seems to be an issue with the API configuration. I cannot process your request."

  const ASSISTANT_ERROR_PREFIX: string := "I encountered an error: "

  const ASSISTANT_ERROR_SUFFIX: string := ". Please try again."

  const ASSISTANT_UNKNOWN_ERROR: string := "An unexpected error occurred while trying to get a response."

  /** The lower-cased message mentions an invalid key or a refused permission. */
  predicate IsCredentialError(message: string) {
    Contains(ToLower(message), "api key not valid") || Contains(ToLower(message), "permission denied")
  }

  /** The message a failed recommendation call throws: it always opens with
      the failure phrase and, for an `Error`, ends with its message; the
      wording in between depends on whether the key was refused. */
  function RecommendationError(t: Thrown): (r: string)
    ensures |r| > |RECOMMENDATION_FAILURE| && r[..|RECOMMENDATION_FAILURE|] == RECOMMENDATION_FAILURE
    ensures t.ErrorObject? ==> |r| >= |t.message| && r[|r| - |t.message|..] == t.message
    ensures t.ErrorObject? && IsCredentialError(t.message) ==> r == RECOMMENDATION_CREDENTIAL_PREFIX + t.message
    ensures t.ErrorObject? && !IsCredentialError(t.message) ==> r == RECOMMENDATION_FAILURE_PREFIX + t.message
    ensures t.OtherValue? ==> r == RECOMMENDATION_UNKNOWN_ERROR
  {
    match t
    case ErrorObject(message) =>
      if IsCredentialError(message) then RECOMMENDATION_CREDENTIAL_PREFIX + message
      else RECOMMENDATION_FAILURE_PREFIX + message
    case OtherValue => RECOMMENDATION_UNKNOWN_ERROR
  }

  /** The reply the assistant gives instead of an answer when the call fails:
      the configuration reply for a refused key, the error's own message
      wrapped in an apology otherwise, and a fixed sentence for a thrown
      value that is not an `Error`. */
  function AssistantErrorReply(t: Thrown): (r: string)
    ensures r != ""
    ensures t.ErrorObject? && !IsCredentialError(t.message) ==> OccursAt(r, t.message, |ASSISTANT_ERROR_PREFIX|)
    ensures t.ErrorObject? && !IsCredentialError(t.message) ==>
      r == ASSISTANT_ERROR_PREFIX + t.message + ASSISTANT_ERROR_SUFFIX
    ensures t.ErrorObject? && IsCredentialError(t.message) ==> r == ASSISTANT_CONFIG_REPLY
    ensures t.OtherValue? ==> r == ASSISTANT_UNKNOWN_ERROR
  {
    match t
    case ErrorObject(message) =>
      if IsCredentialError(message) then ASSISTANT_CONFIG_REPLY
      else ASSISTANT_ERROR_PREFIX + message + ASSISTANT_ERROR_SUFFIX
    case OtherValue => ASSISTANT_UNKNOWN_ERROR
  }

  /** Both calls classify a failure the same way: the recommendation error
      carries the key-problem wording exactly when the assistant gives its
      configuration reply, and that is exactly when an `Error`'s message
      names an invalid key or a refused permission. */
  lemma {:induction false} ErrorClassificationAgrees(t: Thrown)
    ensures AssistantErrorReply(t) == ASSISTANT_CONFIG_REPLY <==> t.ErrorObject? && IsCredentialError(t.message)
    ensures t.ErrorObject? ==>
      (RecommendationError(t) == RECOMMENDATION_CREDENTIAL_PREFIX + t.message <==> AssistantErrorReply(t) == ASSISTANT_CONFIG_REPLY)
  {
    match t
    case ErrorObject(message) =>
      if !IsCredentialError(message) {
        assert AssistantErrorReply(t)[0] == 'I';
        assert |RecommendationError(t)| < |RECOMMENDATION_CREDENTIAL_PREFIX + message|;
      }
    case OtherValue =>
      assert |ASSISTANT_UNKNOWN_ERROR| != |ASSISTANT_CONFIG_REPLY|;
  }

  /** The test ignores case: a message and its lower-cased form are
      classified alike. */
  lemma {:induction false} CredentialTestIgnoresCase(message: string)
    ensures IsCredentialError(message) <==> IsCredentialError(ToLower(message))
  {
    LowerIdempotent(message);
  }

  /** The test looks for the phrase anywhere: text around it does not change
      the verdict. */
  lemma {:induction false} CredentialTestFindsPhraseAnywhere(before: string, message: string, after: string)
    requires IsCredentialError(message)
    ensures IsCredentialError(before + message + after)
  {
    LowerConcat(before + message, after);
    LowerConcat(before, message);
    var low := ToLower(before) + ToLower(message) + ToLower(after);
    if Contains(ToLower(message), "api key not valid") {
      OccursInside(ToLower(before), ToLower(message), ToLower(after), "api key not valid", IndexOf(ToLower(message), "api key not valid"));
    } else {
      OccursInside(ToLower(before), ToLower(message), ToLower(after), "permission denied", IndexOf(ToLower(message), "permission denied"));
    }
  }

  /** The service's wording for a rejected key is read as a credential error
      although its letters are not all lower case. */
  lemma {:induction false} RejectedKeyIsCredentialError()
    ensures IsCredentialError("API key not valid. Please pass a valid API key.")
  {
    var m := "API key not valid. Please pass a valid API key.";
    assert m[..17] == "API key not valid";
    LowerPhrase(m[..17]);
    PhraseOpens(m, 17);
  }

  lemma {:induction false} LowerPhrase(phrase: string)
    requires phrase == "API key not valid"
    ensures ToLower(phrase) == "api key not valid"
  {
  }

  /** A message whose first `n` characters lower-case to the phrase. */
  lemma {:induction false} PhraseOpens(m: string, n: nat)
    requires n <= |m| && ToLower(m[..n]) == "api key not valid"
    ensures IsCredentialError(m)
  {
    assert ToLower(m)[..n] == ToLower(m[..n]);
    assert OccursAt(ToLower(m), "api key not valid", 0);
  }

  // ---------------------------------------------------------------------
  // Chat history

  /** The turns worth sending: every user message, and the assistant's
      messages that are neither pending nor failed. */
  predicate KeptInHistory(m: ChatMessage) {
    m.sender == User || (m.sender == Ai && !m.isLoading && !m.isError)
  }

  function ToEntry(m: ChatMessage): ChatHistoryEntry {
    ChatHistoryEntry(if m.sender == User then UserRole else ModelRole, m.text)
  }

  /** The chat messages as conversation turns, in order. */
  function FormatHistory(history: seq<ChatMessage>): (r: seq<ChatHistoryEntry>)
    ensures |r| <= |history|
  {
    Map(Filter(history, KeptInHistory), ToEntry)
  }

  /** Formatting is message by message: one kept message gives one turn, a
      dropped one gives none. */
  lemma {:induction false} FormatHistorySingle(m: ChatMessage)
    ensures FormatHistory([m]) == if KeptInHistory(m) then [ToEntry(m)] else []
  {
    assert Filter([m], KeptInHistory) == (if KeptInHistory(m) then [m] else []) + Filter([m][1..], KeptInHistory);
  }

  /** ... and it keeps the order of the messages. */
  lemma {:induction false} FormatHistoryAppend(a: seq<ChatMessage>, b: seq<ChatMessage>)
    ensures FormatHistory(a + b) == FormatHistory(a) + FormatHistory(b)
  {
    FilterAppend(a, b, KeptInHistory);
    MapAppend(Filter(a, KeptInHistory), Filter(b, KeptInHistory), ToEntry);
  }

  /** Every user message is sent, under the user role. */
  lemma {:induction false} FormatHistoryKeepsUserMessages(history: seq<ChatMessage>, k: nat)
    requires k < |history| && history[k].sender == User
    ensures ChatHistoryEntry(UserRole, history[k].text) in FormatHistory(history)
  {
    FilterMembership(history, KeptInHistory, history[k]);
    var kept := Filter(history, KeptInHistory);
    var i :| 0 <= i < |kept| && kept[i] == history[k];
    assert FormatHistory(history)[i] == ChatHistoryEntry(UserRole, history[k].text);
  }

  /** `e` carries the text of `m`, under the user role only if `m` is the
      user's, and under the model role only if `m` is a finished, successful
      message of the assistant. */
  predicate IsFinishedTurn(m: ChatMessage, e: ChatHistoryEntry) {
    m.text == e.text &&
    (e.role == UserRole ==> m.sender == User) &&
    (e.role == ModelRole ==> m.sender == Ai && !m.isLoading && !m.isError)
  }

  /** Every turn sent is a user message, or a finished, successful message
      of the assistant; system notices never are. */
  lemma {:induction false} FormatHistorySendsOnlyFinishedTurns(history: seq<ChatMessage>, e: ChatHistoryEntry)
    requires e in FormatHistory(history)
    ensures exists m :: m in history && IsFinishedTurn(m, e)
  {
    var kept := Filter(history, KeptInHistory);
    var i :| 0 <= i < |kept| && FormatHistory(history)[i] == e;
    FilterMembership(history, KeptInHistory, kept[i]);
  }

  // ---------------------------------------------------------------------
  // The two exported calls

  /** A call's outcome together with the request it sent, if any. */
  datatype Exchange<T> = Exchange(sent: Option<Request>, result: T)

  /** `response.text || ''`. */
  function TextOr(text: Option<string>, fallback: string): string {
    if text.Some? && text.value != "" then text.value else fallback
  }

  /** `generatePricingRecommendation`: `Err` stands for the thrown `Error`
      and carries its message. */
  function GeneratePricingRecommendation(apiKey: string, data: ProductInputData, service: Request -> SdkOutcome)
    : (r: Exchange<Result<GeminiResponseData, string>>)
    ensures r.sent.None? <==> apiKey == ""
    ensures apiKey == "" ==> r.result == Err(MISSING_KEY_ERROR)
    ensures r.sent.Some? ==>
      r.sent.value == Request(GEMINI_MODEL_TEXT, [BuildPrompt(data)], RecommendationConfig(data))
    ensures r.sent.Some? && r.result.Err? ==>
      service(r.sent.value).Threw? && r.result.error == RecommendationError(service(r.sent.value).thrown)
    ensures r.result.Ok? ==> r.sent.Some? && service(r.sent.value).Replied?
    ensures r.result.Ok? ==>
      var reply := service(r.sent.value).response;
      r.result.value == GeminiResponseData(TextOr(reply.text, ""), NormaliseCandidates(reply.candidates))
  {
    if apiKey == "" then Exchange(None, Err(MISSING_KEY_ERROR))
    else
      var request := Request(GEMINI_MODEL_TEXT, [BuildPrompt(data)], RecommendationConfig(data));
      match service(request)
      case Replied(response) =>
        Exchange(Some(request), Ok(GeminiResponseData(TextOr(response.text, ""), NormaliseCandidates(response.candidates))))
      case Threw(thrown) => Exchange(Some(request), Err(RecommendationError(thrown)))
  }

  /** `getAIAssistantResponse`: it never throws and never answers with an
      empty string. */
  function GetAIAssistantResponse(apiKey: string, userQuery: string, history: seq<ChatMessage>, service: Request -> SdkOutcome)
    : (r: Exchange<string>)
    ensures r.result != ""
    ensures r.sent.None? <==> apiKey == ""
    ensures apiKey == "" ==> r.result == ASSISTANT_NO_KEY_REPLY
    ensures r.sent.Some? ==>
      r.sent.value == Request(GEMINI_MODEL_TEXT, FormatHistory(history) + [ChatHistoryEntry(UserRole, userQuery)], ASSISTANT_CONFIG)
    ensures r.sent.Some? ==> match service(r.sent.value)
      case Replied(response) => r.result == TextOr(response.text, ASSISTANT_EMPTY_REPLY)
      case Threw(thrown) => r.result == AssistantErrorReply(thrown)
  {
    if apiKey == "" then Exchange(None, ASSISTANT_NO_KEY_REPLY)
    else
      var request := Request(GEMINI_MODEL_TEXT, FormatHistory(history) + [ChatHistoryEntry(UserRole, userQuery)], ASSISTANT_CONFIG);
      match service(request)
      case Replied(response) => Exchange(Some(request), TextOr(response.text, ASSISTANT_EMPTY_REPLY))
      case Threw(thrown) => Exchange(Some(request), AssistantErrorReply(thrown))
  }

  /** The query is always the last turn sent, under the user role, after
      exactly the formatted history. */
  lemma {:induction false} QueryIsLastTurn(apiKey: string, userQuery: string, history: seq<ChatMessage>, service: Request -> SdkOutcome)
    requires apiKey != ""
    ensures var contents := GetAIAssistantResponse(apiKey, userQuery, history, service).sent.value.contents;
      |contents| == |FormatHistory(history)| + 1 &&
      contents[|contents| - 1] == ChatHistoryEntry(UserRole, userQuery) &&
      contents[..|contents| - 1] == FormatHistory(history)
  {
    var contents := GetAIAssistantResponse(apiKey, userQuery, history, service).sent.value.contents;
    assert contents[..|contents| - 1] == FormatHistory(history);
  }
}
