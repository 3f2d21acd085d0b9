/** The application's data shapes. Optional fields (`x?: T`) become `Option`s,
    except the two optional chat-message flags, whose `undefined` is read as
    false everywhere and so is modelled as `false`. */
module Types {
  import opened Wrappers

  datatype PricingScenario = Standard | Promotion | Clearance | NewLaunch

  /** The enum's string value, as it appears in the prompt. */
  function ScenarioName(p: PricingScenario): string {
    match p
    case Standard => "Standard"
    case Promotion => "Promotion"
    case Clearance => "Clearance"
    case NewLaunch => "New Launch"
  }

  /** A numeric form field: a number, or the empty string when left blank.
      The number is carried as the decimal text JavaScript prints for it. */
  datatype NumberField = Amount(decimal: string) | Blank

  /** How a `number | ''` field prints inside a template literal. */
  function FieldText(f: NumberField): string {
    match f
    case Amount(d) => d
    case Blank => ""
  }

  datatype ProductInputData = ProductInputData(
    productName: string,
    currentPrice: NumberField,
    cogs: NumberField,
    desiredProfitMargin: NumberField,
    competitorPrices: string,
    inventoryLevel: NumberField,
    pricingScenario: PricingScenario)

  datatype GroundingChunkWeb = GroundingChunkWeb(uri: Option<string>, title: Option<string>)

  datatype GroundingChunk = GroundingChunk(web: Option<GroundingChunkWeb>)

  datatype GroundingMetadata = GroundingMetadata(groundingChunks: Option<seq<GroundingChunk>>)

  datatype Candidate = Candidate(groundingMetadata: Option<GroundingMetadata>)

  datatype GeminiResponseData = GeminiResponseData(text: string, candidates: Option<seq<Candidate>>)

  datatype Sender = User | Ai | SystemInfo

  /** Message ids come from `uuidv4`; here they are abstract values. */
  type MessageId = nat

  datatype ChatMessage = ChatMessage(id: MessageId, sender: Sender, text: string, isLoading: bool, isError: bool)

  datatype Role = UserRole | ModelRole

  /** A conversation turn sent to the model; `parts` always holds one text part. */
  datatype ChatHistoryEntry = ChatHistoryEntry(role: Role, text: string)

  /** What a `catch` clause receives: an `Error` with its message, or any other value. */
  datatype Thrown = ErrorObject(message: string) | OtherValue
}
