# Dynamic Pricing Optimizer: a verified model of its deterministic core

The Dynamic Pricing Optimizer is a React front end over Google's Gemini
model. A shop owner fills in a product form and gets a pricing
recommendation. A chat assistant, with optional dictation, explains how the
application works. The language model itself is remote. What this project
models is the deterministic logic around it:

- **`RecommendationDisplay`** (`recommendation_display.dfy`) is the parser
  that turns the model's reply into a card. It does four things:
  - splits the reply on the numbered-item delimiter `\n\s*\d+\.\s+`, using
    an explicit greedy recogniser that is proved sound and complete against
    the regular expression;
  - derives the title;
  - picks each item's heading by the `**:`-before-`:` rule, using
    JavaScript's `substring`, which clamps its bounds and swaps them when
    they are reversed;
  - splits item bodies into trimmed, non-empty paragraphs, drops empty
    sections and lists the source links.
- **`GeminiService`** (`gemini_service.dfy`) is the client of the model:
  - the prompt template and its "Not specified" fallback;
  - the choice between the search tool and a token cap, as a function and as
    the field-by-field construction the client performs;
  - normalisation of candidates and grounding chunks;
  - the error rewriting of both calls;
  - turning chat messages into conversation turns;
  - the two exported calls, including their missing-key short circuits.

  The SDK is a parameter: `service: Request -> SdkOutcome` answers a request
  with a reply or with a thrown value.
- **`AssistantChat`** (`assistant_chat.dfy`) is the assistant panel:
  - the `onresult` merge of dictated text, as a loop proved against a
    specification function;
  - the microphone error messages;
  - the history filter and the placeholder replacement;
  - a `ChatPanel` class. Its fields are the component's state and refs, and
    its methods are the handlers: open and close, unmount, send and its
    completion, form submit, and the microphone toggle with its engine
    events.
- **`App`** (`app.dfy`) is the page-level state as an `AppView` class, with
  the submit, navigation and toggle handlers. It also includes the choice
  of what the right-hand panel shows.
- **Support modules:**
  - `Text` (`text.dfy`) holds the JavaScript string operations the code
    uses: `trim`, `indexOf`, `includes`, `substring`, one-character `split`,
    ASCII `toLowerCase`, and the `\s` and `\d` classes.
  - `Seqs` (`seqs.dfy`) holds `filter` and `map`.
  - `Types` and `Constants` hold the data shapes and fixed strings.
  - `Wrappers` holds `Option` and `Result`.

The `**Heading:**` format: the recommendation prompt asks for items written
`**Heading:**` (services/geminiService.ts:32-36), but the parser's bold
branch looks for `**:`, which only occurs in `**Heading**:`. An item in the
prompt's own format therefore takes the plain-colon branch. Its heading
comes out right, but its body keeps the closing `**` at its start.
`RecommendationDisplay.PromptStyleItemKeepsClosingMarks` proves this for
every such item. The model keeps the code's behaviour.

## Model

| member | source | states |
|---|---|---|
| Text.Trim | components/RecommendationDisplay.tsx:20 | `trim` cuts off exactly the white space at both ends: the result is a slice of the input with only white space around it, has none at its own ends, and a trimmed text is unchanged |
| Text.IndexOf | components/RecommendationDisplay.tsx:24-25 | `indexOf` is -1 exactly when the pattern never occurs; otherwise it is an occurrence with none before it |
| Text.Substring | components/RecommendationDisplay.tsx:31-41 | `substring` takes the slice between its bounds when they are in order and inside the text, the slice between them swapped when they are reversed, the whole text when they cover it, and is never longer than the text |
| Text.SplitOnJoin | components/RecommendationDisplay.tsx:49-50 | splitting on `\n` loses nothing: joining the pieces with `\n` gives back the text |
| Text.SplitOnConcat | components/RecommendationDisplay.tsx:49-50 | splitting two texts joined by the separator gives the pieces of the first followed by the pieces of the second |
| Text.LowerIdempotent | services/geminiService.ts:96 | lower-casing twice is lower-casing once |
| RecommendationDisplay.MatchAt | components/RecommendationDisplay.tsx:14 | a reported match lies inside the text (what it matches is stated by `MatchAtSound` and `MatchAtComplete`) |
| RecommendationDisplay.MatchAtSound | components/RecommendationDisplay.tsx:14 | every match the recogniser reports is a newline, white space, at least one digit, a period and at least one white-space character |
| RecommendationDisplay.MatchAtComplete | components/RecommendationDisplay.tsx:14 | wherever the pattern can match, the recogniser finds a match with the same runs and the longest trailing white space |
| RecommendationDisplay.FirstMatch | components/RecommendationDisplay.tsx:14 | the reported match is at or after the start and no position before it matches |
| RecommendationDisplay.Split | components/RecommendationDisplay.tsx:14 | `split` always gives at least one piece (the title part) |
| RecommendationDisplay.SplitSingleIffNoMatch | components/RecommendationDisplay.tsx:14 | there is exactly one piece exactly when the text holds no delimiter, and that piece is then the whole text |
| RecommendationDisplay.SplitDelimiters | components/RecommendationDisplay.tsx:14 | the text is the pieces of `split` interleaved with the delimiters it removed, one fewer delimiter than pieces, each exactly one delimiter match |
| RecommendationDisplay.SplitRejoins | components/RecommendationDisplay.tsx:14 | such delimiters exist for every text: splitting loses nothing but delimiters |
| RecommendationDisplay.SplitPiecesHaveNoDelimiter | components/RecommendationDisplay.tsx:14 | no piece of the split holds a delimiter anywhere |
| RecommendationDisplay.StripHeadingMarks | components/RecommendationDisplay.tsx:15 | removing `^#+\s*` keeps a text that does not open with `#`; otherwise it cuts the whole leading run of `#` (at least one, up to the first other character) and all the white space after it, and keeps the rest, a suffix of the text |
| RecommendationDisplay.Title | components/RecommendationDisplay.tsx:14-15 | the title is never empty and has no white space at either end; it is the default "AI Pricing Recommendation" exactly when the text before the first item, with its leading `#` run and the white space after it removed and then trimmed, is empty, and otherwise it is that text |
| RecommendationDisplay.TitleOfMarkedHeading | components/RecommendationDisplay.tsx:15 | a head `# h`, with `h` trimmed and not starting with `#`, is titled `h` |
| RecommendationDisplay.TitleOfNumberedReply | components/RecommendationDisplay.tsx:15 | a reply that starts with an item gets the default title "AI Pricing Recommendation" |
| RecommendationDisplay.TitleOfPlainReply | components/RecommendationDisplay.tsx:15 | a trimmed reply with no item and no `#` is its own title |
| RecommendationDisplay.Paragraphs | components/RecommendationDisplay.tsx:49-52 | every paragraph is non-empty, trimmed and has no newline |
| RecommendationDisplay.ParagraphsAreTrimmedLines | components/RecommendationDisplay.tsx:49-52 | a text is a paragraph exactly when it is non-empty and is the trimmed form of some line of the body |
| RecommendationDisplay.ParagraphsOfOneLine | components/RecommendationDisplay.tsx:49-52 | a trimmed, non-empty single line is one paragraph |
| RecommendationDisplay.ParagraphsOfLine | components/RecommendationDisplay.tsx:49-52 | a text without a line break gives its trimmed form as its one paragraph, or no paragraph when it is blank |
| RecommendationDisplay.ParagraphsConcat | components/RecommendationDisplay.tsx:49-52 | the paragraphs of two blocks joined by a line break are those of the first followed by those of the second, in line order and with repeated lines kept |
| RecommendationDisplay.BoldFirstColon | components/RecommendationDisplay.tsx:24-29 | when the bold branch is taken, the first `:` is preceded by `**` and the `**:` found is that one |
| RecommendationDisplay.ColonAfterMarksIsBold | components/RecommendationDisplay.tsx:24-29 | when the first `:` is preceded by `**`, the bold branch is taken |
| RecommendationDisplay.BoldFirstIff | components/RecommendationDisplay.tsx:24-29 | the bold branch is taken exactly when the first `:` directly follows `**`, and then `**:` is found two places before it |
| RecommendationDisplay.HeadingSplit | components/RecommendationDisplay.tsx:24-37 | the heading is trimmed; the cut point is -1 (and the heading empty) exactly when the chunk has no `:`, and otherwise lies just after the first `:` in both branches |
| RecommendationDisplay.ParseChunk | components/RecommendationDisplay.tsx:20-57 | the heading has no white space at either end |
| RecommendationDisplay.ParseChunkWithoutColon | components/RecommendationDisplay.tsx:24-47 | a chunk without `:` gets an empty heading, and its paragraphs are those of the whole trimmed chunk |
| RecommendationDisplay.ParseChunkBodyAfterColon | components/RecommendationDisplay.tsx:29-41 | in both heading branches, the body is the text after the first `:` (the bold branch cuts there too) |
| RecommendationDisplay.PlainHeadingSplit | components/RecommendationDisplay.tsx:33-36 | whenever the bold test fails and the chunk has a colon, the heading is the text before the first `:` with its asterisks removed and trimmed, and the cut is just after that `:` |
| RecommendationDisplay.ParseChunkPlainHeading | components/RecommendationDisplay.tsx:33-36 | in the plain-colon branch, the heading has no `*` and draws only on characters before the first `:` |
| RecommendationDisplay.BoldHeading | components/RecommendationDisplay.tsx:24-31 | for every chunk `**h**:rest` with no `*` or `:` in `h`, the bold branch gives the heading `h` trimmed and cuts just after the colon |
| RecommendationDisplay.BoldHeadingSwapsBounds | components/RecommendationDisplay.tsx:29-31 | when the first `**` is the one in `**:`, `substring` swaps its reversed bounds and the heading is `**` |
| RecommendationDisplay.ParsedChunks | components/RecommendationDisplay.tsx:17-19 | one section per chunk, in chunk order |
| RecommendationDisplay.Sections | components/RecommendationDisplay.tsx:14-59 | at most one section per delimiter; the sections are parsed items kept in item order; each has a heading or a paragraph |
| RecommendationDisplay.SectionsAreItemsWithContent | components/RecommendationDisplay.tsx:17-59 | a section is displayed exactly when it is a parsed item with a heading or a paragraph |
| RecommendationDisplay.SectionsKeepRepeats | components/RecommendationDisplay.tsx:17-59 | each section with content is displayed as many times as it occurs among the parsed items, and one without content never is; with the subsequence clause of `Sections` this fixes the displayed list, so repeated identical items are all kept |
| RecommendationDisplay.SectionParagraphsAreLines | components/RecommendationDisplay.tsx:49-59 | every paragraph of every displayed section is non-empty, trimmed and has no newline |
| RecommendationDisplay.ParsedParagraphsAreLines | components/RecommendationDisplay.tsx:40-58 | the same, for every item the map produces |
| RecommendationDisplay.ChunkParagraphsAreLines | components/RecommendationDisplay.tsx:40-52 | the same, for one parsed item in either branch |
| RecommendationDisplay.NoItemsNoSections | components/RecommendationDisplay.tsx:14-19 | a reply without numbered items has no sections |
| RecommendationDisplay.SectionsOfParsedItems | components/RecommendationDisplay.tsx:17-59 | when every item parses to a section with content, the displayed sections are exactly those, in order |
| RecommendationDisplay.SplitExample | components/RecommendationDisplay.tsx:14 | `"0-title\n1. **A**: x\n2. B: y"` splits into the title part and the two items |
| RecommendationDisplay.BoldItem | components/RecommendationDisplay.tsx:24-52 | the item `**A**: x` takes the bold branch and becomes heading `A` with paragraph `x` |
| RecommendationDisplay.PlainItem | components/RecommendationDisplay.tsx:33-52 | the item `B: y` takes the colon branch and becomes heading `B` with paragraph `y` |
| RecommendationDisplay.WorkedExample | components/RecommendationDisplay.tsx:14-58 | the items of the example reply parse to the sections `A: [x]` and `B: [y]`, both with content, so `SectionsOfParsedItems` displays exactly these two |
| RecommendationDisplay.StripBoldMarks | components/RecommendationDisplay.tsx:35 | removing the asterisks from `**` followed by a star-free text gives back that text |
| RecommendationDisplay.PromptStyleIndices | components/RecommendationDisplay.tsx:24-25 | in `**h:**rest`, the first `:` follows `h` and there is no `**:` |
| RecommendationDisplay.PromptStyleHeading | components/RecommendationDisplay.tsx:29-36 | `**h:**rest` takes the colon branch: the heading is `h` and the cut is just after the colon |
| RecommendationDisplay.PromptStyleItemKeepsClosingMarks | components/RecommendationDisplay.tsx:24-52 | an item written as the prompt asks (services/geminiService.ts:32-36) gets the right heading, but its single paragraph starts with the closing `**` |
| RecommendationDisplay.LinkOf | components/RecommendationDisplay.tsx:92-97 | a link points at the chunk's uri and is captioned by its title, or by the uri when the title is missing or empty; the caption is never empty |
| RecommendationDisplay.Sources | components/RecommendationDisplay.tsx:89 | no more links than chunks |
| RecommendationDisplay.SourcesAppend | components/RecommendationDisplay.tsx:89 | links are listed chunk by chunk, in chunk order |
| RecommendationDisplay.SourcesListEveryLink | components/RecommendationDisplay.tsx:89 | every present chunk with a web uri is listed |
| RecommendationDisplay.SourcesComeFromLinkedChunks | components/RecommendationDisplay.tsx:89 | every listed link comes from a present chunk with a web uri, so no listed uri is empty |
| RecommendationDisplay.Render | components/RecommendationDisplay.tsx:10-97 | nothing is rendered exactly when the text is empty and there are no chunks; a card carries the title; its body is the sections exactly when there are any, the raw text exactly when there are none and the text is non-empty, and nothing only for an empty text with chunks; it lists the sources of the chunks exactly when chunks were given |
| RecommendationDisplay.UnnumberedReplyShownVerbatim | components/RecommendationDisplay.tsx:70-83 | a non-empty reply with no delimiter match anywhere is shown as raw text (the general case, any reply without sections, is in `Render`) |
| RecommendationDisplay.EmptyItemShownVerbatim | components/RecommendationDisplay.tsx:14-83 | `"Intro\n1. "` holds a delimiter, yet its only item is empty and dropped, so it too is shown as raw text |
| GeminiService.BuildPrompt | services/geminiService.ts:15-43 | the prompt is one user turn |
| GeminiService.PromptSaysNotSpecified | services/geminiService.ts:28 | an empty competitor-prices field appears as "Not specified" in the prompt |
| GeminiService.PromptQuotesCompetitorPrices | services/geminiService.ts:28 | a non-empty field appears verbatim on its line |
| GeminiService.PromptQuotesFields | services/geminiService.ts:23-27 | the product name, price, cost of goods, margin and inventory level each appear as typed, between their own label and the next line's label |
| GeminiService.PromptEndsWithScenario | services/geminiService.ts:29-40 | the prompt ends with the scenario's label and name followed by the fixed instructions |
| GeminiService.RecommendationConfig | services/geminiService.ts:54-68 | exactly one of the search tool and the 512-token cap; the search tool exactly when the scenario is New Launch or the trimmed competitor prices are non-empty |
| GeminiService.BuildModelConfig | services/geminiService.ts:54-68 | the object built field by field is that configuration |
| GeminiService.NormalisationKeepsShape | services/geminiService.ts:80-89 | normalisation keeps the number and order of candidates and chunks, every uri and title, and which chunks have no web source |
| GeminiService.NormaliseEmbedded | services/geminiService.ts:80-89 | normalising a reply built from application values gives those values back: nothing the application keeps is lost |
| GeminiService.RecommendationError | services/geminiService.ts:93-101 | the rewritten error always starts "Failed to get pricing recommendation"; for an `Error` it is the credentials wording followed by its message when the message names an invalid key or a refused permission, and "Failed to get pricing recommendation: " followed by its message otherwise; for any other thrown value it is the fixed unknown-error sentence |
| GeminiService.AssistantErrorReply | services/geminiService.ts:133-141 | the reply is never empty: the configuration sentence for a credentials error, "I encountered an error: " with the message and ". Please try again." for any other `Error`, and the fixed unexpected-error sentence for any other thrown value |
| GeminiService.ErrorClassificationAgrees | services/geminiService.ts:95-141 | the assistant gives its configuration reply exactly when the recommendation call uses its credentials wording, exactly when an `Error`'s message mentions an invalid key or a refused permission |
| GeminiService.CredentialTestIgnoresCase | services/geminiService.ts:96 | the credentials test gives the same answer for a message and its lower-cased form |
| GeminiService.CredentialTestFindsPhraseAnywhere | services/geminiService.ts:96 | a message that passes the test still passes with text added before or after it |
| GeminiService.RejectedKeyIsCredentialError | services/geminiService.ts:96 | "API key not valid. Please pass a valid API key." is recognised as a credentials error despite its capitals |
| GeminiService.FormatHistory | services/geminiService.ts:113-118 | at most one turn per message |
| GeminiService.FormatHistorySingle | services/geminiService.ts:113-118 | a single message gives its turn when it is kept, and nothing otherwise |
| GeminiService.FormatHistoryAppend | services/geminiService.ts:113-118 | formatting goes message by message, in order |
| GeminiService.FormatHistoryKeepsUserMessages | services/geminiService.ts:114-116 | every user message is sent as a user turn |
| GeminiService.FormatHistorySendsOnlyFinishedTurns | services/geminiService.ts:114-116 | every turn sent comes from a user message, or from a finished, successful assistant message under the model role |
| GeminiService.GeneratePricingRecommendation | services/geminiService.ts:46-103 | without a key, the call fails with the configuration error and sends nothing; otherwise it sends one request with the prompt and the chosen configuration; it returns the normalised reply, with the text defaulting to empty, or the rewritten error |
| GeminiService.GetAIAssistantResponse | services/geminiService.ts:106-143 | the answer is never empty; without a key it is the canned reply and nothing is sent; otherwise the history turns and then the query go out with the system instruction and a 256-token cap, and the answer is the reply text, the apology for an empty reply, or the error reply |
| GeminiService.QueryIsLastTurn | services/geminiService.ts:123 | the query is the last turn sent, under the user role, after exactly the formatted history |
| AssistantChat.JoinThree | components/AIAssistantChat.tsx:240-256 | joining three parts is extending the first with the second and then with the third |
| AssistantChat.JoinTrimmed | components/AIAssistantChat.tsx:240-258 | joining trimmed parts gives a trimmed text |
| AssistantChat.JoinEmptyIff | components/AIAssistantChat.tsx:240-258 | the join is empty exactly when every part is |
| AssistantChat.CollectTranscripts | components/AIAssistantChat.tsx:225-235 | the loop's final text is every settled transcript from `resultIndex` on, in result order, each followed by a space, and its interim text is the unsettled ones run together; earlier results play no part |
| AssistantChat.MergeTranscript | components/AIAssistantChat.tsx:224-259 | the handler's loop and joins compute the merged text: the trimmed baseline, then the trimmed final parts, then the trimmed interim parts, non-empty ones joined by single spaces |
| AssistantChat.MergedTextExtends | components/AIAssistantChat.tsx:237-256 | the merged text is the trimmed baseline extended by the final text and then by the interim text |
| AssistantChat.MergedTextIsTrimmed | components/AIAssistantChat.tsx:258 | the new input text has no white space at either end |
| AssistantChat.SilenceKeepsBaseline | components/AIAssistantChat.tsx:240-258 | an event without final or interim text leaves the trimmed baseline |
| AssistantChat.EarlierResultsIgnored | components/AIAssistantChat.tsx:228 | results before `resultIndex` do not affect the text |
| AssistantChat.ExampleTexts | components/AIAssistantChat.tsx:228-235 | for a final "world" and the interim pieces "the" and "re", the loop's final text is "world " (each final part followed by a space) and its interim text "there" (run together) |
| AssistantChat.DictationExample | components/AIAssistantChat.tsx:224-259 | "Hello" plus a final "world" and the interim pieces "the" and "re" becomes "Hello world there" |
| AssistantChat.MicErrorMessage | components/AIAssistantChat.tsx:263-271 | each of the four known codes gets its own fixed sentence (`not-allowed` and `security` the same one), and every message is longer than the generic "Error: " prefix |
| AssistantChat.MicErrorMessageIsGenericIffUnknown | components/AIAssistantChat.tsx:263-271 | the generic "Error: " form is used exactly for codes other than the four known ones, and it carries the code or "Unknown speech error" |
| AssistantChat.HistoryForApi | components/AIAssistantChat.tsx:158 | no message sent as history is loading or failed |
| AssistantChat.HistoryKeepsOrder | components/AIAssistantChat.tsx:158 | the history keeps the messages' order and every settled message |
| AssistantChat.HistoryFilterIsRedundant | components/AIAssistantChat.tsx:158 | while user messages are settled, as the panel makes them, the panel's filter changes nothing the service sends |
| AssistantChat.ReplaceById | components/AIAssistantChat.tsx:162-174 | replacing keeps the number of messages |
| AssistantChat.ReplaceOnlyTouchesPlaceholder | components/AIAssistantChat.tsx:162-174 | only the message with the placeholder id changes: it keeps its id and sender, gets the text and error flag, and stops loading; every other message stays as it was, in its place |
| AssistantChat.ReplyText | components/AIAssistantChat.tsx:161-172 | the placeholder's new text is the reply itself, or "Error: " followed by the `Error`'s message, or exactly "Error: An unexpected error occurred." for any other thrown value |
| AssistantChat.ChatPanel.constructor | components/AIAssistantChat.tsx:88-101 | the panel starts with no messages, empty input, not loading, not listening, no error and no engine |
| AssistantChat.ChatPanel.ShowQuickQuestions | components/AIAssistantChat.tsx:293 | the quick questions show only when there is a key and nothing is loading or being dictated; any typed text that is not blank hides them; with a key, nothing loading or dictated and a blank input they do show |
| AssistantChat.ChatPanel.StopRecognition | components/AIAssistantChat.tsx:115-116 | stopping leaves no engine running and nothing else changed |
| AssistantChat.ChatPanel.Open | components/AIAssistantChat.tsx:104-119 | opening leaves a single assistant message that is the greeting or the unavailability notice, flagged as an error exactly when there is no key; it clears the input and the microphone error and stops listening, stopping a listening engine; loading, the remembered text and the engines are unchanged; afterwards the quick questions show exactly when there is a key and no request runs |
| AssistantChat.ChatPanel.Close | components/AIAssistantChat.tsx:120-125 | closing stops listening and stops a listening engine; messages, input, loading, the microphone error, the remembered text, the ids and the engines are unchanged |
| AssistantChat.ChatPanel.Unmount | components/AIAssistantChat.tsx:132-139 | unmounting stops the engine and forgets it; every other field is unchanged |
| AssistantChat.ChatPanel.BeginSend | components/AIAssistantChat.tsx:141-158 | a blank text, a running request or a missing key change nothing; otherwise exactly the trimmed user message and then a loading placeholder with fresh ids are appended, loading starts, and the history is the settled messages from before |
| AssistantChat.ChatPanel.FinishSend | components/AIAssistantChat.tsx:160-178 | the placeholder gets the reply or "Error: " and the failure text, and loading ends |
| AssistantChat.AssistantReplyFillsPlaceholder | components/AIAssistantChat.tsx:160-165 | with the service's answer, which never throws, the placeholder gets that answer, which is non-empty, and is neither loading nor an error |
| AssistantChat.ChatPanel.FormSubmit | components/AIAssistantChat.tsx:181-187 | a blank input changes nothing; otherwise the input is cleared and the trimmed text goes through the send: appended with its placeholder when accepted, refused without change when a request runs or there is no key; the microphone state and engines are unchanged |
| AssistantChat.ChatPanel.ToggleListening | components/AIAssistantChat.tsx:194-289 | no support: the "not supported" error and nothing else; loading: nothing; listening: the engine is stopped; otherwise the error is cleared, the old engine is stopped, a new one is created and remembers the input, and a failed start shows the start error and stops listening; messages, input, loading and ids never change |
| AssistantChat.ChatPanel.OnStart | components/AIAssistantChat.tsx:220-222 | listening starts |
| AssistantChat.ChatPanel.OnResult | components/AIAssistantChat.tsx:224-259 | the input becomes the merged text of the remembered input and the event, which is trimmed |
| AssistantChat.ChatPanel.OnError | components/AIAssistantChat.tsx:261-273 | the error becomes the code's message and listening stops |
| AssistantChat.ChatPanel.OnEnd | components/AIAssistantChat.tsx:275-279 | listening stops, the engine is no longer running, and the input is trimmed |
| AssistantChat.SecondSessionLeavesOneEngine | components/AIAssistantChat.tsx:206-214 | starting to listen again leaves only the new engine running, and never the previous one |
| App.PanelFor | App.tsx:88-104 | the chosen panel's condition holds; it is the spinner exactly when loading, and the recommendation only with data and no error |
| App.ExactlyOnePanel | App.tsx:88-104 | for every state, exactly one of spinner, error, recommendation and placeholder shows, in that priority |
| App.DisplayedChunks | App.tsx:93 | without candidates there are no chunks; chunks shown are the first candidate's grounding chunks |
| App.OnlyFirstCandidateShown | App.tsx:93 | the chunks shown are the first candidate's; later candidates never matter |
| App.AppView.constructor | App.tsx:17-21 | the home page, with no data, no error, nothing loading and the assistant closed |
| App.AppView.StartSubmit | App.tsx:25-27 | loading starts, the error and data are cleared, and the spinner shows |
| App.AppView.FinishSubmit | App.tsx:29-44 | loading ends, storing the data, the `Error`'s message, or the fixed message for any other thrown value |
| App.AppView.Submit | App.tsx:23-45 | afterwards nothing loads and exactly one of data and error is held: the call's result with the recommendation panel, or its error message with the error panel |
| App.AppView.NavigateToOptimizer | App.tsx:47-51 | the optimizer page with data and error cleared; loading and the assistant unchanged |
| App.AppView.NavigateToHome | App.tsx:53-57 | the home page with data and error cleared; loading and the assistant unchanged |
| App.AppView.ToggleAssistant | App.tsx:59-61 | only the assistant flag flips |

## Left out

- The Gemini SDK call is not modelled. `generateContent` is the parameter `service`, and the request it receives is stated exactly. The SDK's own fields beyond those the application copies are kept only to show that they are dropped.
- Console logging is left out. It has no effect on state.
- The API key is a string, and `""` stands for "not set". The process environment is not modelled.
- `uuidv4` is modelled as a counter (`nextId`) that hands out increasing numbers, so every id is new. The randomness is not modelled.
- Async interleaving is not modelled. Each send is split into `BeginSend` and `FinishSend`, and each submit into `StartSubmit` and `FinishSubmit`. Interleaving, React's batching of state updates and stale closures between the halves are not modelled. `Submit` models one uninterrupted submission.
- The browser's speech engine is not modelled. Its events are the methods `OnStart`, `OnResult`, `OnError` and `OnEnd`, called with the event data. Event timing is not modelled, and neither are events from an engine that was replaced.
- The engine's `stop` is modelled as immediate: the engine is no longer running. The later `onend` is a separate call.
- Only alternative `[0]` of each speech result is modelled, as `SpeechResult.transcript`.
- `inputRef.current?.value` is modelled as the `userInput` state, which the controlled input always shows.
- `toLowerCase` is modelled for ASCII letters only. Other Unicode case mappings are not modelled. A few non-ASCII characters lower-case to ASCII letters (KELVIN SIGN, U+212A, becomes `k`; LATIN CAPITAL LETTER I WITH DOT ABOVE, U+0130, becomes `i` and a combining dot), so a message spelling "api key not valid" with the Kelvin sign counts as a credentials error in JavaScript but not in `GeminiService.IsCredentialError`.
- Strings are sequences of Unicode characters, while JavaScript strings are UTF-16 code units. They differ only for characters beyond U+FFFF, which are one character here and two code units there; lengths and indices of text holding such characters are not modelled.
- Numeric form fields are modelled as the decimal text that JavaScript prints for them. Number formatting and `parseFloat` in the input form are floating point.
- JSX, CSS, focus, scrolling, `setTimeout`, the theme context and the presentational components are not modelled.
- `QUICK_QUESTIONS` is left out. Its click handler is `BeginSend` with the question's text.
- `GeminiService.BuildPrompt` states only the turn's role in its own contract. The template's content is stated by lemmas: `PromptQuotesFields` locates the five figure lines of the form, `PromptSaysNotSpecified` and `PromptQuotesCompetitorPrices` the competitor line, and `PromptEndsWithScenario` the scenario line and the instructions. The wording of the opening lines is shown only by the body.
