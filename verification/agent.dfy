/**
 * One user turn of the shopping assistant's conversation loop, as a pure step
 * on the message transcript. Everything the loop learns from outside (the
 * console line, the two chat-completion calls, argument decoding and the
 * catalog fetch) is an input.
 */
module Agent {
  import opened Wrappers
  import opened Text
  import opened Json
  import opened Catalog

  /** The only tool the assistant declares and executes. */
  const ToolName := "get_products_api"

  /** The instructions the transcript starts with. */
  const SystemPrompt :=
    "You are a helpful shopping assistant. Your primary goal is to assist users in finding products.\n" +
    "You have access to a `get_products_api` tool to fetch product information.\n" +
    "\n" +
    "When a user asks for products:\n" +
    "1. Call the `get_products_api` tool to get product data.\n" +
    "2. If the user's query contains keywords (like product names, types, or categories), pass that as the 'query' argument to the tool.\n" +
    "3. If no specific product is mentioned, you can call the tool without a 'query' to list general products.\n" +
    "4. Once you have the product data, present up to 5 relevant products to the user.\n" +
    "5. For each product, display its 'productName', 'price' (convert cents to dollars, e.g., 10000 becomes $100.00), and optionally 'description' or 'category' if relevant to the user's query.\n" +
    "6. If no products are found for a specific query, politely inform the user and perhaps suggest some general popular products.\n" +
    "7. Be friendly, concise, and always offer further assistance.\n"

  const Apology := "I apologize, but I encountered an error. Could you please try again?"

  /** One tool-call request from the model: its id, the tool it names, and its raw JSON arguments. */
  datatype ToolCall = ToolCall(id: string, name: string, arguments: string)

  /**
   * One transcript entry. A tool message keeps the tool's result as a value;
   * its content is that value serialised as JSON.
   */
  datatype Message =
    | System(prompt: string)
    | User(text: string)
    | Assistant(reply: Option<string>)
    | AssistantCalls(preamble: Option<string>, calls: seq<ToolCall>)
    | Tool(callId: string, toolName: string, output: CatalogResult)

  type Transcript = seq<Message>

  /** The transcript before the first turn: the system message alone. */
  const Initial: Transcript := [System(SystemPrompt)]

  // ---------------------------------------------------------------------------
  // What the outside world answers during a turn

  /** The first chat completion: it failed, or it replied with optional text and zero or more tool calls. */
  datatype FirstReply = FirstFailed | Replied(content: Option<string>, toolCalls: seq<ToolCall>)

  /** `json.loads` on a call's arguments. */
  datatype ArgsDecode = Malformed | Decoded(value: Value)

  /**
   * The follow-up chat completion made after a tool message: it raised
   * `json.JSONDecodeError`, which the handler for malformed arguments catches
   * first; it raised any other exception; or it replied with optional text.
   */
  datatype FollowUp = FollowUpBadJson | FollowUpFailed(reason: string) | FollowUpReplied(content: Option<string>)

  /**
   * The oracles of one turn: the argument decoder, and for the call at each
   * position the catalog fetch and the follow-up completion it would see.
   */
  datatype World = World(decode: string -> ArgsDecode, fetch: nat -> FetchOutcome, followUp: nat -> FollowUp)

  // ---------------------------------------------------------------------------
  // Assistant messages the loop writes itself

  /** The exceptions the per-call handler catches after the arguments decoded. */
  datatype ToolFault =
    | ArgsNotMapping        // `**args` on a decoded value that is not an object
    | UnexpectedArgument    // `**args` with a key other than `query`
    | FollowUpError(reason: string)

  function ToolFaultText(f: ToolFault): string {
    match f
    case ArgsNotMapping => "get_products_api() argument after ** must be a mapping"
    case UnexpectedArgument => "get_products_api() got an unexpected keyword argument"
    case FollowUpError(reason) => reason
  }

  function UnknownToolText(name: string): string {
    "I was asked to use an unknown tool (" + name + "). Please try again or rephrase your request."
  }

  function InvalidArgumentsText(name: string, arguments: string): string {
    "I encountered an error processing your request: Agent tried to call " + name +
    " with invalid JSON arguments: " + arguments
  }

  function ToolErrorText(f: ToolFault): string {
    "I encountered an error while trying to find products: " + ToolFaultText(f)
  }

  // ---------------------------------------------------------------------------
  // The exit sentinel

  /** `user_input.strip().lower() in ("exit", "quit")`. */
  predicate IsExitCommand(input: string) {
    Lower(Strip(input)) in {"exit", "quit"}
  }

  // ---------------------------------------------------------------------------
  // Dispatching one tool call

  /**
   * Python's binding of `get_products_api(**args)`: the decoded arguments must
   * be an object whose only possible key is `query`; a missing `query` is the
   * default `None`.
   */
  function BindArgs(v: Value): (r: Result<Value, ToolFault>)
    ensures r.Success? <==> v.Obj? && v.fields.Keys <= {"query"}
    ensures r.Success? && "query" !in v.fields ==> r.value == Null
    ensures r.Success? && "query" in v.fields ==> r.value == v.fields["query"]
  {
    match v
    case Obj(fields) =>
      if fields.Keys <= {"query"} then Success(if "query" in fields then fields["query"] else Null)
      else Failure(UnexpectedArgument)
    case _ => Failure(ArgsNotMapping)
  }

  /** The call reaches the tool: known name, decodable and bindable arguments. */
  predicate Executes(c: ToolCall, w: World) {
    && c.name == ToolName
    && w.decode(c.arguments).Decoded?
    && BindArgs(w.decode(c.arguments).value).Success?
  }

  /**
   * The messages one iteration of the `for tool_call in tool_calls` loop
   * appends for the call at position `k`: the name is checked before the
   * arguments are decoded, and every path ends with one assistant message.
   */
  function CallSegment(c: ToolCall, k: nat, w: World): (seg: seq<Message>)
    ensures |seg| == (if Executes(c, w) then 2 else 1)
    ensures seg[|seg| - 1].Assistant?
    ensures seg[0].Tool? <==> Executes(c, w)
    ensures seg[0].Tool? ==> seg[0].callId == c.id && seg[0].toolName == c.name
  {
    if c.name != ToolName then
      [Assistant(Some(UnknownToolText(c.name)))]
    else
      match w.decode(c.arguments)
      case Malformed => [Assistant(Some(InvalidArgumentsText(c.name, c.arguments)))]
      case Decoded(v) =>
        match BindArgs(v)
        case Failure(f) => [Assistant(Some(ToolErrorText(f)))]
        case Success(query) =>
          [Tool(c.id, c.name, GetProducts(w.fetch(k), query)), FollowUpReply(c, w.followUp(k))]
  }

  /**
   * The reply after an executed call's tool message: the follow-up's content,
   * or the message of the `except` clause that caught its exception.
   */
  function FollowUpReply(c: ToolCall, f: FollowUp): (m: Message)
    ensures m.Assistant?
  {
    match f
    case FollowUpBadJson => Assistant(Some(InvalidArgumentsText(c.name, c.arguments)))
    case FollowUpFailed(reason) => Assistant(Some(ToolErrorText(FollowUpError(reason))))
    case FollowUpReplied(content) => Assistant(content)
  }

  /** The dispatch loop from position `from` on, threading the transcript through every call in order. */
  function Dispatch(t: Transcript, calls: seq<ToolCall>, from: nat, w: World): (r: Transcript)
    ensures t <= r
    ensures from <= |calls| ==> |r| >= |t| + |calls| - from
    decreases |calls| - from
  {
    if from >= |calls| then t
    else Dispatch(t + CallSegment(calls[from], from, w), calls, from + 1, w)
  }

  // ---------------------------------------------------------------------------
  // One turn

  datatype TurnResult = Ended(transcript: Transcript) | Continued(transcript: Transcript)

  /**
   * What follows the user message: the first completion, and then the direct
   * answer, the tool dispatch, or the turn-level apology when the first
   * completion failed.
   */
  function Respond(t: Transcript, first: FirstReply, w: World): (r: Transcript)
    ensures t < r
  {
    match first
    case FirstFailed => t + [Assistant(Some(Apology))]
    case Replied(content, calls) =>
      if |calls| == 0 then t + [Assistant(content)]
      else Dispatch(t + [AssistantCalls(content, calls)], calls, 0, w)
  }

  /** One pass of the `while True` loop: the exit check, then the user message and the response. */
  function Turn(t: Transcript, input: string, first: FirstReply, w: World): (r: TurnResult)
    ensures r.Ended? <==> IsExitCommand(input)
    ensures r.Ended? ==> r.transcript == t
    ensures r.Continued? ==> t + [User(input)] < r.transcript
  {
    if IsExitCommand(input) then Ended(t)
    else Continued(Respond(t + [User(input)], first, w))
  }

  /** What the console and the model supply for one turn. */
  datatype TurnInput = TurnInput(text: string, first: FirstReply, world: World)

  /** The session: turns run in order until an exit command or the end of the inputs. */
  function Session(t: Transcript, inputs: seq<TurnInput>): (r: Transcript)
    ensures t <= r
    decreases |inputs|
  {
    if |inputs| == 0 then t
    else
      match Turn(t, inputs[0].text, inputs[0].first, inputs[0].world)
      case Ended(_) => t
      case Continued(next) => Session(next, inputs[1..])
  }
}
