/**
 * What a turn and a session guarantee about the transcript: it is only ever
 * appended to, every tool message answers a call of the tool-call request it
 * follows, and each call of a request gets its own reply.
 */
module AgentProperties {
  import opened Wrappers
  import opened Text
  import opened Json
  import opened Catalog
  import opened Agent

  // ---------------------------------------------------------------------------
  // Correlation of tool messages with tool-call requests

  /**
   * The calls a tool message appended now would answer: those of the last
   * assistant tool-call request, provided only tool messages and assistant
   * replies follow it.
   */
  function OpenCalls(t: Transcript): Option<seq<ToolCall>>
    decreases |t|
  {
    if |t| == 0 then None
    else
      match t[|t| - 1]
      case AssistantCalls(_, calls) => Some(calls)
      case Tool(_, _, _) => OpenCalls(t[..|t| - 1])
      case Assistant(_) => OpenCalls(t[..|t| - 1])
      case _ => None
  }

  /** Some call of `calls` carries this id and tool name. */
  ghost predicate Answers(calls: seq<ToolCall>, id: string, name: string) {
    exists c :: c in calls && c.id == id && c.name == name
  }

  /** Every tool message answers, by id and name, a call of the request it follows. */
  ghost predicate Correlated(t: Transcript) {
    forall i :: 0 <= i < |t| && t[i].Tool? ==>
      OpenCalls(t[..i]).Some? && Answers(OpenCalls(t[..i]).value, t[i].callId, t[i].toolName)
  }

  /** The shape every reachable transcript has: a system message first and only there, and correlated tool messages. */
  ghost predicate WellFormed(t: Transcript) {
    && |t| > 0
    && t[0].System?
    && (forall i :: 0 < i < |t| ==> !t[i].System?)
    && Correlated(t)
  }

  lemma InitialWellFormed()
    ensures WellFormed(Initial)
  {
  }

  /** A tool message or an assistant reply does not close the open request. */
  lemma OpenCallsSkip(t: Transcript, m: Message)
    requires m.Tool? || m.Assistant?
    ensures OpenCalls(t + [m]) == OpenCalls(t)
  {
    assert (t + [m])[..|t|] == t;
  }

  /** Appending a message that is not a tool message keeps the earlier tool messages correlated. */
  lemma AppendNonTool(t: Transcript, m: Message)
    requires Correlated(t) && !m.Tool?
    ensures Correlated(t + [m])
  {
    forall i | 0 <= i < |t|
      ensures (t + [m])[..i] == t[..i]
    {
    }
  }

  /** The messages of one call keep the transcript correlated and the request open. */
  lemma AppendSegment(t: Transcript, calls: seq<ToolCall>, k: nat, w: World)
    requires Correlated(t) && OpenCalls(t) == Some(calls) && k < |calls|
    ensures Correlated(t + CallSegment(calls[k], k, w))
    ensures OpenCalls(t + CallSegment(calls[k], k, w)) == Some(calls)
  {
    var c := calls[k];
    var seg := CallSegment(c, k, w);
    if |seg| == 1 {
      AppendNonTool(t, seg[0]);
      OpenCallsSkip(t, seg[0]);
    } else {
      var t1 := t + [seg[0]];
      forall i | 0 <= i < |t1| && t1[i].Tool?
        ensures OpenCalls(t1[..i]).Some? && Answers(OpenCalls(t1[..i]).value, t1[i].callId, t1[i].toolName)
      {
        assert t1[..i] == t[..i];
        if i == |t| {
          assert t1[..i] == t;
          assert c in calls;
        }
      }
      OpenCallsSkip(t, seg[0]);
      AppendNonTool(t1, seg[1]);
      OpenCallsSkip(t1, seg[1]);
      assert t + seg == t1 + [seg[1]];
    }
  }

  /** Dispatching the rest of an open request keeps the transcript correlated and the request open. */
  lemma {:induction false} DispatchKeepsCorrelation(t: Transcript, calls: seq<ToolCall>, from: nat, w: World)
    requires Correlated(t) && OpenCalls(t) == Some(calls)
    ensures Correlated(Dispatch(t, calls, from, w))
    ensures OpenCalls(Dispatch(t, calls, from, w)) == Some(calls)
    decreases |calls| - from
  {
    if from < |calls| {
      AppendSegment(t, calls, from, w);
      DispatchKeepsCorrelation(t + CallSegment(calls[from], from, w), calls, from + 1, w);
    }
  }

  /** Dispatch appends only tool messages and assistant replies. */
  lemma {:induction false} DispatchAppendsReplies(t: Transcript, calls: seq<ToolCall>, from: nat, w: World)
    ensures forall i :: |t| <= i < |Dispatch(t, calls, from, w)| ==>
      Dispatch(t, calls, from, w)[i].Tool? || Dispatch(t, calls, from, w)[i].Assistant?
    decreases |calls| - from
  {
    if from < |calls| {
      var seg := CallSegment(calls[from], from, w);
      var t1 := t + seg;
      DispatchAppendsReplies(t1, calls, from + 1, w);
      var r := Dispatch(t, calls, from, w);
      assert r == Dispatch(t1, calls, from + 1, w);
      SegmentReplies(calls[from], from, w);
      forall i | |t| <= i < |t1|
        ensures r[i] == seg[i - |t|]
      {
        assert r[i] == t1[i];
      }
    }
  }

  /** The messages of one call are tool messages and assistant replies. */
  lemma SegmentReplies(c: ToolCall, k: nat, w: World)
    ensures forall j :: 0 <= j < |CallSegment(c, k, w)| ==>
      CallSegment(c, k, w)[j].Tool? || CallSegment(c, k, w)[j].Assistant?
  {
    var seg := CallSegment(c, k, w);
    if |seg| == 1 {
      assert seg[0].Assistant?;
    } else {
      assert seg[0].Tool? && seg[1].Assistant?;
    }
  }

  /** Extending a well-formed transcript by correlated messages other than system messages keeps it well-formed. */
  lemma ExtendWellFormed(t: Transcript, r: Transcript)
    requires WellFormed(t) && t <= r && Correlated(r)
    requires forall i :: |t| <= i < |r| ==> !r[i].System?
    ensures WellFormed(r)
  {
    assert r[0] == t[0];
    forall i | 0 < i < |r|
      ensures !r[i].System?
    {
      if i < |t| {
        assert r[i] == t[i];
      }
    }
  }

  /** Appending one message that is neither a tool message nor a system message keeps the transcript well-formed. */
  lemma AppendReply(t: Transcript, m: Message)
    requires WellFormed(t) && !m.Tool? && !m.System?
    ensures WellFormed(t + [m])
  {
    AppendNonTool(t, m);
    ExtendWellFormed(t, t + [m]);
  }

  /** The response to a user message keeps the transcript well-formed. */
  lemma RespondPreservesWellFormed(t: Transcript, first: FirstReply, w: World)
    requires WellFormed(t)
    ensures WellFormed(Respond(t, first, w))
  {
    if first.FirstFailed? {
      AppendReply(t, Assistant(Some(Apology)));
    } else if |first.toolCalls| == 0 {
      AppendReply(t, Assistant(first.content));
    } else {
      var calls := first.toolCalls;
      var t2 := t + [AssistantCalls(first.content, calls)];
      AppendReply(t, AssistantCalls(first.content, calls));
      assert OpenCalls(t2) == Some(calls);
      DispatchKeepsCorrelation(t2, calls, 0, w);
      DispatchAppendsReplies(t2, calls, 0, w);
      ExtendWellFormed(t2, Dispatch(t2, calls, 0, w));
    }
  }

  /** Every turn keeps the transcript well-formed. */
  lemma TurnPreservesWellFormed(t: Transcript, input: string, first: FirstReply, w: World)
    requires WellFormed(t)
    ensures WellFormed(Turn(t, input, first, w).transcript)
  {
    if !IsExitCommand(input) {
      AppendReply(t, User(input));
      RespondPreservesWellFormed(t + [User(input)], first, w);
    }
  }

  /** Every transcript a session reaches from the initial one is well-formed. */
  lemma {:induction false} SessionWellFormed(t: Transcript, inputs: seq<TurnInput>)
    requires WellFormed(t)
    ensures WellFormed(Session(t, inputs))
    decreases |inputs|
  {
    if |inputs| > 0 {
      var i := inputs[0];
      TurnPreservesWellFormed(t, i.text, i.first, i.world);
      if Turn(t, i.text, i.first, i.world).Continued? {
        SessionWellFormed(Turn(t, i.text, i.first, i.world).transcript, inputs[1..]);
      }
    }
  }

  // ---------------------------------------------------------------------------
  // The exit sentinel and the outcome of one call

  /** `s[i..j]` is `exit` or `quit` in any ASCII letter case, with only whitespace around it. */
  ghost predicate PaddedExitWord(s: string, i: int, j: int) {
    0 <= i <= j <= |s| && AllSpace(s[..i]) && AllSpace(s[j..]) && Lower(s[i..j]) in {"exit", "quit"}
  }

  /**
   * An input ends the session exactly when it is `exit` or `quit`, in any ASCII
   * letter case, surrounded by nothing but whitespace.
   */
  lemma ExitCommandIff(s: string)
    ensures IsExitCommand(s) <==> exists i, j :: PaddedExitWord(s, i, j)
  {
    if exists i, j :: PaddedExitWord(s, i, j) {
      var i, j :| PaddedExitWord(s, i, j);
      PaddedExitWordExits(s, i, j);
    } else if IsExitCommand(s) {
      var r := Strip(s);
      var i :| StrippedAt(s, r, i);
      assert PaddedExitWord(s, i, i + |r|);
    }
  }

  lemma PaddedExitWordExits(s: string, i: int, j: int)
    requires PaddedExitWord(s, i, j)
    ensures IsExitCommand(s)
  {
    var core := s[i..j];
    ExitWordEdges(core);
    assert s == s[..i] + core + s[j..];
    StripCore(s[..i], core, s[j..]);
  }

  /** A word that lower-cases to `exit` or `quit` has four letters and neither starts nor ends with whitespace. */
  lemma ExitWordEdges(core: string)
    requires Lower(core) in {"exit", "quit"}
    ensures |core| == 4 && !IsSpace(core[0]) && !IsSpace(core[3])
  {
    var l := Lower(core);
    assert |l| == 4;
    if l == "exit" {
      assert l[0] == 'e' && l[3] == 't';
    } else {
      assert l[0] == 'q' && l[3] == 't';
    }
    LetterIsNotSpace(core[0]);
    LetterIsNotSpace(core[3]);
  }

  /** An empty line, or one of spaces, is not an exit command: it is sent to the model as a user message. */
  lemma BlankInputIsNotExit(s: string)
    requires AllSpace(s)
    ensures !IsExitCommand(s)
  {
    assert s + [] == s;
    TrimStartDrops(s, []);
  }

  /**
   * How one call ends: a call naming another tool gets the unknown-tool reply
   * whatever its arguments and whatever else the world answers; malformed
   * arguments get the invalid-JSON reply without fetching; an executed call's
   * tool message carries the catalog result for the bound query; a follow-up
   * that raises a JSON decoding error gets the invalid-arguments reply after
   * the tool message, and any other failed follow-up the tool-error reply.
   */
  lemma CallOutcomes(c: ToolCall, k: nat, w: World, w': World)
    ensures c.name != ToolName ==>
      CallSegment(c, k, w) == CallSegment(c, k, w') == [Assistant(Some(UnknownToolText(c.name)))]
    ensures c.name == ToolName && w.decode(c.arguments).Malformed? ==>
      CallSegment(c, k, w) == [Assistant(Some(InvalidArgumentsText(c.name, c.arguments)))]
    ensures c.name == ToolName && w.decode(c.arguments).Decoded? && !Executes(c, w) ==>
      CallSegment(c, k, w) == [Assistant(Some(ToolErrorText(BindArgs(w.decode(c.arguments).value).error)))]
    ensures Executes(c, w) ==>
      CallSegment(c, k, w)[0] ==
        Tool(c.id, c.name, GetProducts(w.fetch(k), BindArgs(w.decode(c.arguments).value).value))
    ensures Executes(c, w) && w.followUp(k).FollowUpBadJson? ==>
      CallSegment(c, k, w)[1] == Assistant(Some(InvalidArgumentsText(c.name, c.arguments)))
    ensures Executes(c, w) && w.followUp(k).FollowUpFailed? ==>
      CallSegment(c, k, w)[1] == Assistant(Some(ToolErrorText(FollowUpError(w.followUp(k).reason))))
    ensures Executes(c, w) && w.followUp(k).FollowUpReplied? ==>
      CallSegment(c, k, w)[1] == Assistant(w.followUp(k).content)
  {
  }

  /**
   * `query` defaults to `None`: a call whose arguments hold no truthy query
   * (`{}`, `{"query": null}`, `{"query": ""}`, ...) reaches the tool and its
   * tool message carries the whole fetched list.
   */
  lemma NoQueryCallListsAll(c: ToolCall, k: nat, w: World)
    requires c.name == ToolName && w.decode(c.arguments).Decoded?
    requires w.decode(c.arguments).value.Obj? && w.decode(c.arguments).value.fields.Keys <= {"query"}
    requires "query" in w.decode(c.arguments).value.fields ==> !Truthy(w.decode(c.arguments).value.fields["query"])
    requires w.fetch(k).Fetched? && HasProductList(w.fetch(k).body)
    ensures Executes(c, w)
    ensures CallSegment(c, k, w)[0] == Tool(c.id, c.name, Data(w.fetch(k).body["data"].items))
  {
    var query := BindArgs(w.decode(c.arguments).value).value;
    assert !Truthy(query);
    NoQueryReturnsAll(w.fetch(k), query);
  }

  // ---------------------------------------------------------------------------
  // Interleaving of tool messages and follow-up replies

  /** Every tool message is followed at once by an assistant reply: its call's follow-up. */
  ghost predicate Interleaved(ms: seq<Message>) {
    forall i :: 0 <= i < |ms| && ms[i].Tool? ==> i + 1 < |ms| && ms[i + 1].Assistant?
  }

  /** Interleaved runs stay interleaved when joined, unless the first ends in a tool message. */
  lemma InterleavedAppend(a: seq<Message>, b: seq<Message>)
    requires Interleaved(a) && Interleaved(b)
    requires |a| == 0 || !a[|a| - 1].Tool?
    ensures Interleaved(a + b)
  {
    var ab := a + b;
    forall i | 0 <= i < |ab| && ab[i].Tool?
      ensures i + 1 < |ab| && ab[i + 1].Assistant?
    {
      if i < |a| {
        assert ab[i] == a[i];
        assert ab[i + 1] == a[i + 1];
      } else {
        assert ab[i] == b[i - |a|];
        assert ab[i + 1] == b[i + 1 - |a|];
      }
    }
  }

  /** One call's messages: a tool message, when there is one, comes first and its reply right after it. */
  lemma SegmentInterleaved(c: ToolCall, k: nat, w: World)
    ensures Interleaved(CallSegment(c, k, w))
  {
    var seg := CallSegment(c, k, w);
    forall i | 0 <= i < |seg| && seg[i].Tool?
      ensures i + 1 < |seg| && seg[i + 1].Assistant?
    {
      assert i != |seg| - 1;
    }
  }

  /**
   * Dispatch runs each call's follow-up inside the loop: every tool message it
   * appends is followed at once by an assistant reply, never by the next
   * call's tool message.
   */
  lemma {:induction false} DispatchInterleaves(t: Transcript, calls: seq<ToolCall>, from: nat, w: World)
    ensures Interleaved(Dispatch(t, calls, from, w)[|t|..])
    decreases |calls| - from
  {
    var r := Dispatch(t, calls, from, w);
    if from >= |calls| {
      assert r[|t|..] == [];
    } else {
      var seg := CallSegment(calls[from], from, w);
      var t1 := t + seg;
      DispatchInterleaves(t1, calls, from + 1, w);
      assert r == Dispatch(t1, calls, from + 1, w);
      SuffixAfter(t, seg, r);
      SegmentInterleaved(calls[from], from, w);
      InterleavedAppend(seg, r[|t1|..]);
    }
  }

  // ---------------------------------------------------------------------------
  // What a turn appends

  /** The ids of the tool messages, in transcript order. */
  function ToolIds(ms: seq<Message>): seq<string> {
    if |ms| == 0 then [] else (if ms[0].Tool? then [ms[0].callId] else []) + ToolIds(ms[1..])
  }

  /** The texts of the user messages, in transcript order. */
  function UserTexts(ms: seq<Message>): seq<string> {
    if |ms| == 0 then [] else (if ms[0].User? then [ms[0].text] else []) + UserTexts(ms[1..])
  }

  /** The number of assistant replies; a tool-call request is not a reply. */
  function Replies(ms: seq<Message>): nat {
    if |ms| == 0 then 0 else (if ms[0].Assistant? then 1 else 0) + Replies(ms[1..])
  }

  /** How often `x` occurs in `xs`. */
  function Occurrences(xs: seq<string>, x: string): nat {
    if |xs| == 0 then 0 else (if xs[0] == x then 1 else 0) + Occurrences(xs[1..], x)
  }

  lemma {:induction false} ProjectionsAppend(a: seq<Message>, b: seq<Message>)
    ensures ToolIds(a + b) == ToolIds(a) + ToolIds(b)
    ensures UserTexts(a + b) == UserTexts(a) + UserTexts(b)
    ensures Replies(a + b) == Replies(a) + Replies(b)
  {
    if |a| > 0 {
      assert (a + b)[1..] == a[1..] + b;
      ProjectionsAppend(a[1..], b);
    } else {
      assert a + b == b;
    }
  }

  lemma ProjectionsOne(m: Message)
    ensures ToolIds([m]) == (if m.Tool? then [m.callId] else [])
    ensures UserTexts([m]) == (if m.User? then [m.text] else [])
    ensures Replies([m]) == (if m.Assistant? then 1 else 0)
  {
    assert [m][1..] == [];
  }

  lemma {:induction false} OccurrencesAppend(xs: seq<string>, ys: seq<string>, x: string)
    ensures Occurrences(xs + ys, x) == Occurrences(xs, x) + Occurrences(ys, x)
  {
    if |xs| > 0 {
      assert (xs + ys)[1..] == xs[1..] + ys;
      OccurrencesAppend(xs[1..], ys, x);
    } else {
      assert xs + ys == ys;
    }
  }

  /** The ids of the calls from `from` on that reach the tool, in call order. */
  function ExecutedIds(calls: seq<ToolCall>, from: nat, w: World): seq<string>
    decreases |calls| - from
  {
    if from >= |calls| then []
    else (if Executes(calls[from], w) then [calls[from].id] else []) + ExecutedIds(calls, from + 1, w)
  }

  /** The messages of a single call: at most one tool message, exactly one reply, no user message. */
  lemma SegmentProjections(c: ToolCall, k: nat, w: World)
    ensures ToolIds(CallSegment(c, k, w)) == (if Executes(c, w) then [c.id] else [])
    ensures Replies(CallSegment(c, k, w)) == 1
    ensures UserTexts(CallSegment(c, k, w)) == []
  {
    var seg := CallSegment(c, k, w);
    ProjectionsOne(seg[0]);
    if |seg| == 2 {
      ProjectionsOne(seg[1]);
      assert seg == [seg[0]] + [seg[1]];
      ProjectionsAppend([seg[0]], [seg[1]]);
    }
  }

  /**
   * Dispatching calls `from..` appends one tool message per executed call, in
   * call order and carrying that call's id, exactly one reply per call, and no
   * user message.
   */
  lemma {:induction false} DispatchAppended(t: Transcript, calls: seq<ToolCall>, from: nat, w: World)
    requires from <= |calls|
    ensures ToolIds(Dispatch(t, calls, from, w)[|t|..]) == ExecutedIds(calls, from, w)
    ensures Replies(Dispatch(t, calls, from, w)[|t|..]) == |calls| - from
    ensures UserTexts(Dispatch(t, calls, from, w)[|t|..]) == []
    decreases |calls| - from
  {
    var r := Dispatch(t, calls, from, w);
    if from == |calls| {
      assert r[|t|..] == [];
    } else {
      var seg := CallSegment(calls[from], from, w);
      var t1 := t + seg;
      DispatchAppended(t1, calls, from + 1, w);
      assert r == Dispatch(t1, calls, from + 1, w);
      SuffixAfter(t, seg, r);
      ProjectionsAppend(seg, r[|t1|..]);
      SegmentProjections(calls[from], from, w);
    }
  }

  /** A turn that does not exit appends the user message and then the response. */
  lemma TurnContinues(t: Transcript, input: string, first: FirstReply, w: World)
    requires !IsExitCommand(input)
    ensures Turn(t, input, first, w) == Continued(Respond(t + [User(input)], first, w))
  {
  }

  /** A turn whose first reply requests tools appends the user message and the request before dispatching. */
  lemma TurnDispatches(t: Transcript, input: string, content: Option<string>, calls: seq<ToolCall>, w: World)
    requires !IsExitCommand(input) && |calls| > 0
    ensures Turn(t, input, Replied(content, calls), w) ==
      Continued(Dispatch(t + [User(input), AssistantCalls(content, calls)], calls, 0, w))
  {
    TurnContinues(t, input, Replied(content, calls), w);
    AppendTwo(t, User(input), AssistantCalls(content, calls));
  }

  /** Appending two messages one after the other is appending the pair. */
  lemma AppendTwo(t: Transcript, a: Message, b: Message)
    ensures t + [a] + [b] == t + [a, b]
  {
  }

  /** The user message and the request, followed by a dispatch, project as the two plus the dispatched replies. */
  lemma RequestAppended(t: Transcript, input: string, content: Option<string>, calls: seq<ToolCall>, w: World)
    ensures var head := [User(input), AssistantCalls(content, calls)];
      var added := Dispatch(t + head, calls, 0, w)[|t|..];
      && added[..2] == head
      && UserTexts(added) == [input]
      && ToolIds(added) == ExecutedIds(calls, 0, w)
      && Replies(added) == |calls|
  {
    var head := [User(input), AssistantCalls(content, calls)];
    var t2 := t + head;
    var r := Dispatch(t2, calls, 0, w);
    var rest := r[|t2|..];
    DispatchAppended(t2, calls, 0, w);
    SuffixAfter(t, head, r);
    RequestProjections(input, content, calls, rest);
  }

  lemma SuffixAfter(t: Transcript, head: seq<Message>, r: Transcript)
    requires t + head <= r
    ensures r[|t|..] == head + r[|t + head|..]
  {
    assert r[|t|..][..|head|] == head;
  }

  /** The user message and the request add the input to the user texts and nothing else to the projections. */
  lemma RequestProjections(input: string, content: Option<string>, calls: seq<ToolCall>, rest: seq<Message>)
    ensures var ms := [User(input), AssistantCalls(content, calls)] + rest;
      && UserTexts(ms) == [input] + UserTexts(rest)
      && ToolIds(ms) == ToolIds(rest)
      && Replies(ms) == Replies(rest)
  {
    var head := [User(input), AssistantCalls(content, calls)];
    ProjectionsAppend(head, rest);
    ProjectionsOne(User(input));
    ProjectionsOne(AssistantCalls(content, calls));
    assert head == [User(input)] + [AssistantCalls(content, calls)];
    ProjectionsAppend([User(input)], [AssistantCalls(content, calls)]);
  }

  /** A turn that does not exit records the input as its first message and as its only user message. */
  lemma TurnUserMessage(t: Transcript, input: string, first: FirstReply, w: World)
    requires !IsExitCommand(input)
    ensures var r := Turn(t, input, first, w).transcript;
      |r| >= |t| + 2 && r[|t|] == User(input) && UserTexts(r[|t|..]) == [input]
  {
    TurnContinues(t, input, first, w);
    if first.Replied? && |first.toolCalls| > 0 {
      TurnWithCalls(t, input, first.content, first.toolCalls, w);
    } else {
      TurnWithoutCalls(t, input, first, w);
      var reply := DirectReply(first);
      var r := Turn(t, input, first, w).transcript;
      assert r[|t|..] == [User(input), reply];
      UserThenReply(input, reply);
    }
  }

  /** The single reply of a turn without tool calls: the apology when the first completion failed, else its content. */
  function DirectReply(first: FirstReply): Message {
    if first.FirstFailed? then Assistant(Some(Apology)) else Assistant(first.content)
  }

  /** A turn whose first completion failed or requested no tool appends the user message and one reply. */
  lemma TurnWithoutCalls(t: Transcript, input: string, first: FirstReply, w: World)
    requires !IsExitCommand(input)
    requires first.FirstFailed? || |first.toolCalls| == 0
    ensures Turn(t, input, first, w).transcript ==
      t + [User(input), DirectReply(first)]
  {
    TurnContinues(t, input, first, w);
    var u := t + [User(input)];
    RespondReplies(u, first, w);
    var reply := DirectReply(first);
    assert u + [reply] == t + [User(input), reply];
  }

  /**
   * A turn whose first completion requests tools appends the user message, then
   * the request before anything is dispatched, then one tool message per
   * executed call in call order and one reply per call.
   */
  lemma TurnWithCalls(t: Transcript, input: string, content: Option<string>, calls: seq<ToolCall>, w: World)
    requires !IsExitCommand(input) && |calls| > 0
    ensures var added := Turn(t, input, Replied(content, calls), w).transcript[|t|..];
      && |added| >= 2
      && added[0] == User(input)
      && added[1] == AssistantCalls(content, calls)
      && UserTexts(added) == [input]
      && ToolIds(added) == ExecutedIds(calls, 0, w)
      && Replies(added) == |calls|
    ensures Interleaved(Turn(t, input, Replied(content, calls), w).transcript[|t|..])
  {
    TurnDispatches(t, input, content, calls, w);
    RequestAppended(t, input, content, calls, w);
    RequestInterleaves(t, input, content, calls, w);
  }

  /** The user message and the request, followed by a dispatch, keep every tool message followed by its reply. */
  lemma RequestInterleaves(t: Transcript, input: string, content: Option<string>, calls: seq<ToolCall>, w: World)
    ensures Interleaved(Dispatch(t + [User(input), AssistantCalls(content, calls)], calls, 0, w)[|t|..])
  {
    var head := [User(input), AssistantCalls(content, calls)];
    var t2 := t + head;
    var r := Dispatch(t2, calls, 0, w);
    DispatchInterleaves(t2, calls, 0, w);
    SuffixAfter(t, head, r);
    InterleavedAppend(head, r[|t2|..]);
  }

  /** Without tool calls the response is a single reply: the apology or the direct answer. */
  lemma RespondReplies(t: Transcript, first: FirstReply, w: World)
    requires first.FirstFailed? || |first.toolCalls| == 0
    ensures Respond(t, first, w) ==
      t + [DirectReply(first)]
  {
  }

  /** A user message followed by a reply records one user text and nothing else. */
  lemma UserThenReply(input: string, reply: Message)
    requires reply.Assistant?
    ensures UserTexts([User(input), reply]) == [input]
  {
    ProjectionsOne(User(input));
    ProjectionsOne(reply);
    ProjectionsAppend([User(input)], [reply]);
    assert [User(input)] + [reply] == [User(input), reply];
  }

  /** With distinct call ids, the executed calls from `from` on mention the id of call `k` once if it executes, else never. */
  lemma {:induction false} ExecutedIdsOccurrences(calls: seq<ToolCall>, from: nat, w: World, k: nat)
    requires k < |calls|
    requires forall i, j :: 0 <= i < j < |calls| ==> calls[i].id != calls[j].id
    ensures Occurrences(ExecutedIds(calls, from, w), calls[k].id) ==
      (if from <= k && Executes(calls[k], w) then 1 else 0)
    decreases |calls| - from
  {
    if from < |calls| {
      var head := if Executes(calls[from], w) then [calls[from].id] else [];
      ExecutedIdsOccurrences(calls, from + 1, w, k);
      OccurrencesAppend(head, ExecutedIds(calls, from + 1, w), calls[k].id);
      if head != [] {
        assert Occurrences(head, calls[k].id) == (if from == k then 1 else 0);
      }
    }
  }

  /**
   * In a tool-call turn whose calls carry distinct ids, each call is answered by
   * exactly one tool message with its id when it reaches the tool, and by none
   * otherwise (unknown tool, malformed or unbindable arguments).
   */
  lemma OneToolMessagePerExecutedCall(t: Transcript, input: string, content: Option<string>,
                                      calls: seq<ToolCall>, w: World, k: nat)
    requires !IsExitCommand(input) && k < |calls|
    requires forall i, j :: 0 <= i < j < |calls| ==> calls[i].id != calls[j].id
    ensures Occurrences(ToolIds(Turn(t, input, Replied(content, calls), w).transcript[|t|..]), calls[k].id) ==
      (if Executes(calls[k], w) then 1 else 0)
  {
    TurnWithCalls(t, input, content, calls, w);
    ExecutedIdsOccurrences(calls, 0, w, k);
  }

  // ---------------------------------------------------------------------------
  // Sessions

  /** The texts of the inputs before the first exit command. */
  function TextsBeforeExit(inputs: seq<TurnInput>): seq<string> {
    if |inputs| == 0 || IsExitCommand(inputs[0].text) then []
    else [inputs[0].text] + TextsBeforeExit(inputs[1..])
  }

  /**
   * A session records as user messages exactly the inputs before the first exit
   * command, in order and verbatim (the empty line included), and nothing after it.
   */
  lemma {:induction false} SessionUserTexts(t: Transcript, inputs: seq<TurnInput>)
    ensures UserTexts(Session(t, inputs)) == UserTexts(t) + TextsBeforeExit(inputs)
    decreases |inputs|
  {
    if |inputs| > 0 && !IsExitCommand(inputs[0].text) {
      var i := inputs[0];
      var next := Turn(t, i.text, i.first, i.world).transcript;
      TurnUserMessage(t, i.text, i.first, i.world);
      assert next == t + next[|t|..];
      ProjectionsAppend(t, next[|t|..]);
      SessionUserTexts(next, inputs[1..]);
    }
  }
}
