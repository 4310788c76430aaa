# Shopping assistant: catalog filter and conversation turn

This project models the two pieces of logic in the shopping assistant
(`class_4_shopping_agent_project/shopping_agent.py`) that can be stated
precisely:

1. **The catalog tool `get_products_api`** after its HTTP request: the check
   that the decoded body holds a `data` list, the optional case-insensitive
   substring filter over `productName`, `description` and `category` joined by
   single spaces, and the way every fault becomes an error dictionary instead
   of an exception (module `Catalog`, on top of `Text` and `Json`).
2. **One turn of the conversation loop** in `run_shopping_agent`, as a pure
   step on the message transcript (module `Agent`): the `exit`/`quit`
   sentinel, the user message, the first chat completion, and then the direct
   answer, the turn-level apology, or the dispatch of each requested tool
   call in order, each call that reaches the tool with its own follow-up
   completion. Module
   `AgentProperties` proves what a turn and a whole session guarantee about
   the transcript; `Scenarios` states what the model computes on small
   concrete inputs.

Everything the program learns from outside is an input: the console line,
the first completion (`FirstReply`: failed, or content plus tool calls), the
decoding of each call's JSON arguments (`World.decode`), and, for the call at
position `k` of a request, the catalog fetch (`World.fetch(k)`: failed with a
reason, or a decoded object body) and the follow-up completion
(`World.followUp(k)`). A tool message keeps the tool's result as a
`CatalogResult` value; its text in the program is that value serialised with
`json.dumps`.

Products are the decoded JSON values themselves, passed through untouched.
The search reads three fields: a missing field counts as `""`, a field that
is present but not a string (JSON `null` included) makes the join raise, and
for a list element that is not an object the `.get` call raises. A truthy query that is not a
string makes `.lower()` raise. All three faults are caught inside the tool
and come back as an `Unexpected` error result, so a tool message is still
appended. Arguments that do not bind to `get_products_api(**args)` (not an
object, or a key other than `query`) raise in the per-call handler and get an
assistant error message instead.

An empty or all-whitespace line is not an exit command: it is sent to the
model as a user message (`AgentProperties.BlankInputIsNotExit`,
`AgentProperties.SessionUserTexts`).

## Model

| member | source | states |
|---|---|---|
| Text.Lower | class_4_shopping_agent_project/shopping_agent.py:52-59 | Lower-casing keeps the length and maps each character on its own; only ASCII capitals change |
| Text.LowerIdempotent | class_4_shopping_agent_project/shopping_agent.py:52-60 | Lower-casing an already lower-cased string changes nothing |
| Text.TrimStart | class_4_shopping_agent_project/shopping_agent.py:129 | The result is the suffix that starts at the first non-whitespace character; everything dropped is whitespace |
| Text.TrimEnd | class_4_shopping_agent_project/shopping_agent.py:129 | The result is the prefix that ends at the last non-whitespace character; everything dropped is whitespace |
| Text.Strip | class_4_shopping_agent_project/shopping_agent.py:129 | `strip()` returns an infix of the input with only whitespace removed at both ends, and the result neither starts nor ends with whitespace |
| Text.StripCore | class_4_shopping_agent_project/shopping_agent.py:129 | Whitespace, then a core that starts and ends with a non-space, then whitespace, strips to exactly that core |
| Text.ContainsIffOccurs | class_4_shopping_agent_project/shopping_agent.py:60 | The substring test holds exactly when the pattern occurs at some index of the text |
| Text.AbsentCharNotContained | class_4_shopping_agent_project/shopping_agent.py:60 | A pattern with a character the text lacks does not occur in it |
| Catalog.SearchText | class_4_shopping_agent_project/shopping_agent.py:55-59 | The searchable text exists exactly when the product is an object whose three fields are missing or strings; it is then the lower-cased space-joined name, description and category |
| Catalog.FieldOccurrenceMatches | class_4_shopping_agent_project/shopping_agent.py:28-60 | The search runs against the name, the description and the category: a searchable product matches every query that occurs in the lower-cased value of any one of the three fields |
| Catalog.Filter | class_4_shopping_agent_project/shopping_agent.py:53-62 | A successful filter returns no more products than it was given; which products and in what order is stated by `Catalog.FilterIsStableSelection` |
| Catalog.GetProducts | class_4_shopping_agent_project/shopping_agent.py:41-68 | A failed fetch gives the request error with no raw body; a body without a `data` list gives the format error carrying the raw body; only the format error carries a raw body; data comes only from a well-formed body and is never longer than its list |
| Catalog.FilterIsStableSelection | class_4_shopping_agent_project/shopping_agent.py:53-62 | The kept products are the source products at strictly increasing positions, and a position is kept if and only if its product matches the query |
| Catalog.FilterFailsAtFirstFault | class_4_shopping_agent_project/shopping_agent.py:54-59 | The filter fails exactly when some product has no searchable text, and then with the fault of the first such product |
| Catalog.MatchesIffOccurs | class_4_shopping_agent_project/shopping_agent.py:55-60 | A product matches exactly when the lower-cased query occurs somewhere in its lower-cased joined text |
| Catalog.NoQueryReturnsAll | class_4_shopping_agent_project/shopping_agent.py:49-51 | With no query, `None`, `""` or any other falsy value, a well-formed body's list comes back unchanged: same products, same order |
| Catalog.QueryFiltersProducts | class_4_shopping_agent_project/shopping_agent.py:51-68 | With a non-empty text query the result is data exactly when every product is searchable, the data is then the stable selection of matching products, and otherwise it is an unexpected-error result naming the first faulty product's fault, with no raw body |
| Catalog.NonTextQueryIsError | class_4_shopping_agent_project/shopping_agent.py:51-52 | A truthy query that is not a string gives the unexpected-error result for `.lower()` and no raw body |
| Catalog.QueryCaseInsensitive | class_4_shopping_agent_project/shopping_agent.py:52 | A query and its lower-cased form give the same result |
| Agent.BindArgs | class_4_shopping_agent_project/shopping_agent.py:162 | Arguments bind exactly when they are an object with no key but `query`; the bound query is that entry, or `None` when it is missing |
| AgentProperties.NoQueryCallListsAll | class_4_shopping_agent_project/shopping_agent.py:157-162 | Because `query` defaults to `None`, a call whose arguments carry no truthy query (`{}`, a `null` or empty query) reaches the tool, and its tool message carries the whole fetched list |
| Agent.CallSegment | class_4_shopping_agent_project/shopping_agent.py:152-195 | One call appends two messages when it reaches the tool and one otherwise; the last is always an assistant reply; the first is a tool message exactly when the call reaches the tool, and then it carries the call's id and name |
| Agent.FollowUpReply | class_4_shopping_agent_project/shopping_agent.py:177-192 | The message after an executed call's tool message is always an assistant reply; which reply each follow-up outcome gets (its content, the invalid-JSON reply for a JSON decoding error, the tool-error reply for any other exception) is stated by `AgentProperties.CallOutcomes` |
| Agent.Dispatch | class_4_shopping_agent_project/shopping_agent.py:152-195 | Dispatching keeps the transcript as a prefix and appends at least one message per remaining call |
| Agent.Respond | class_4_shopping_agent_project/shopping_agent.py:136-204 | The response to a user message always appends at least one message and keeps everything before it |
| Agent.Turn | class_4_shopping_agent_project/shopping_agent.py:127-204 | A turn ends the session exactly on an exit command and then leaves the transcript unchanged; otherwise the old transcript plus the user message is a proper prefix of the new one |
| Agent.Session | class_4_shopping_agent_project/shopping_agent.py:125-133 | The transcript a session reaches always extends the one it started from |
| AgentProperties.InitialWellFormed | class_4_shopping_agent_project/shopping_agent.py:125 | The starting transcript, the system message alone, is well-formed |
| AgentProperties.DispatchKeepsCorrelation | class_4_shopping_agent_project/shopping_agent.py:151-182 | While a request is being dispatched every tool message answers, by id and name, a call of the request it follows, and the request stays open |
| AgentProperties.DispatchAppendsReplies | class_4_shopping_agent_project/shopping_agent.py:152-195 | Dispatch appends only tool messages and assistant replies |
| AgentProperties.RespondPreservesWellFormed | class_4_shopping_agent_project/shopping_agent.py:136-204 | The apology, the direct answer, or the request with its dispatched calls keep the transcript well-formed |
| AgentProperties.TurnPreservesWellFormed | class_4_shopping_agent_project/shopping_agent.py:125-204 | Every turn keeps the system message first and only there, and every tool message correlated with the request it follows |
| AgentProperties.SessionWellFormed | class_4_shopping_agent_project/shopping_agent.py:125-204 | Every transcript a session reaches from a well-formed one is well-formed |
| AgentProperties.ExitCommandIff | class_4_shopping_agent_project/shopping_agent.py:129 | An input ends the session exactly when it is `exit` or `quit` in any ASCII case with only whitespace around it |
| AgentProperties.BlankInputIsNotExit | class_4_shopping_agent_project/shopping_agent.py:129-133 | An empty or all-whitespace line does not end the session |
| AgentProperties.CallOutcomes | class_4_shopping_agent_project/shopping_agent.py:156-192 | An unknown tool name gets the unknown-tool reply whatever the arguments and the world say; malformed arguments get the invalid-JSON reply; unbindable arguments get the tool-error reply; an executed call's tool message holds the catalog result for the bound query, followed by the follow-up's content, or the invalid-JSON reply when the follow-up raised a JSON decoding error, or the tool-error reply when it raised anything else |
| AgentProperties.SegmentProjections | class_4_shopping_agent_project/shopping_agent.py:156-195 | One call appends its id as a tool message only when it reaches the tool, exactly one reply, and no user message |
| AgentProperties.DispatchAppended | class_4_shopping_agent_project/shopping_agent.py:152-195 | Dispatch appends tool messages whose ids are those of the executed calls in call order, exactly one reply per call, and no user message |
| AgentProperties.DispatchInterleaves | class_4_shopping_agent_project/shopping_agent.py:152-195 | Each call's follow-up runs inside the loop: every tool message dispatch appends is followed at once by an assistant reply, never by the next call's tool message |
| AgentProperties.TurnUserMessage | class_4_shopping_agent_project/shopping_agent.py:129-133 | A turn that does not exit appends the user message first, and it is the only user message the turn adds |
| AgentProperties.TurnWithoutCalls | class_4_shopping_agent_project/shopping_agent.py:133-204 | When the first completion fails the turn appends the user message and the apology; when it requests no tool, the user message and its content |
| AgentProperties.TurnWithCalls | class_4_shopping_agent_project/shopping_agent.py:133-195 | When the first completion requests tools the turn appends the user message, then the request, then the executed calls' tool messages in call order, each followed at once by its reply, and one reply per call |
| AgentProperties.OneToolMessagePerExecutedCall | class_4_shopping_agent_project/shopping_agent.py:151-182 | With distinct call ids, a call that reaches the tool is answered by exactly one tool message with its id, and any other call by none |
| AgentProperties.SessionUserTexts | class_4_shopping_agent_project/shopping_agent.py:127-133 | A session records as user messages exactly the inputs before the first exit command, verbatim and in order |
| Scenarios.QuitExits | class_4_shopping_agent_project/shopping_agent.py:129 | `quit` ends the session |
| Scenarios.PaddedExitExits | class_4_shopping_agent_project/shopping_agent.py:129 | `Exit` with surrounding spaces and a newline ends the session |
| Scenarios.LongerTextContinues | class_4_shopping_agent_project/shopping_agent.py:129 | `exit now` does not end the session |
| Scenarios.QueryExample | class_4_shopping_agent_project/shopping_agent.py:51-64 | On a two-product list, the query `HAT` keeps only the product whose name contains `hat` |
| Scenarios.EmptyQueryExample | class_4_shopping_agent_project/shopping_agent.py:49-51 | The empty query returns both products in their original order |
| Scenarios.QuerySpansFields | class_4_shopping_agent_project/shopping_agent.py:55-60 | The fields are joined with spaces before the search, so the query `d h` matches a product named `red` described as `hat` |

## Left out

- The HTTP request (`requests.get`, `raise_for_status`, `response.json`) is the `FetchOutcome` input; the URL plays no part.
- The chat-completion calls are the `FirstReply` and `FollowUp` inputs. A follow-up that raises `json.JSONDecodeError` is its own outcome (`FollowUpBadJson`), because the handler for malformed arguments comes first and catches it too: the reply after the tool message then blames the call's arguments. Tools are offered only on the first call; any tool calls in a follow-up reply are ignored, because only its content is read.
- `json.loads` of the arguments is the `World.decode` input. The `json.dumps` text of a tool message is represented by the structured `CatalogResult` it serialises.
- Reading `GEMINI_API_KEY`, constructing the client, and the rich console output and panels are process and terminal plumbing. A console call that raises, for example on markup in the printed text, is assumed not to happen.
- `connection.py` holds a configuration record with no behaviour and is not part of this model.
- `Text.Lower`: only ASCII letters are lower-cased, whereas Python's `str.lower` maps all of Unicode. For the `exit`/`quit` comparison this gives the same verdict, because no non-ASCII character lower-cases to one of those letters. For the product search it is an approximation.
- Top-level response bodies that are not JSON objects are left out. On those, `"data" in data` means list membership or substring search.
- JSON numbers are integers in the model; non-integral numbers are left out. The program only asks whether a number is zero.
- The text of Python's exception messages is approximated by fixed strings in `ToolFaultText` and `Catalog.ErrorText`. An error result of the tool keeps its `CatalogError` value; `Catalog.ErrorText` only gives the text its `error` entry would be serialised with, and no other member uses it.
- The system prompt's rules on dollar formatting and on showing at most five products are instructions to the model, not behaviour of the code.
