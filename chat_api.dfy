/** The Python service's `POST /chat` handler: the request history becomes LangChain
    messages, the agent graph runs on them, and its last message is the reply, sent back
    with the analysis of the whole exchange. The graph is an opaque parameter. */
module ChatApi {
  import opened Wrappers
  import opened PyValues
  import opened Messages
  import Analyzer

  /** One `MessageHistory` entry of the request. */
  datatype HistoryItem = HistoryItem(role: string, content: string)

  datatype ChatRequest = ChatRequest(
    userId: string,
    platform: string,
    message: string,
    history: seq<HistoryItem>,
    knownEntities: map<string, PyValue>)

  /** What the graph is given: `{messages, user_id, platform}`. */
  datatype GraphState = GraphState(messages: seq<Message>, userId: string, platform: string)

  datatype ChatResponse =
    | ChatResponse(userId: string, platform: string, response: string, success: bool, metadata: map<string, PyValue>)
    /** An `HTTPException` with status 500 carrying the text of the exception caught. */
    | ServerError(detail: string)

  /** A `"user"` entry is the user's; any other role is taken as the assistant's. */
  function Converted(item: HistoryItem): (m: Message)
    ensures item.role == "user" ==> m == HumanMessage(item.content)
    ensures item.role != "user" ==> m == AIMessage(item.content)
  {
    if item.role == "user" then HumanMessage(item.content) else AIMessage(item.content)
  }

  /** The conversion loop and the final append of the incoming message. */
  method ToMessages(history: seq<HistoryItem>, message: string) returns (messages: seq<Message>)
    ensures |messages| == |history| + 1
    ensures forall i :: 0 <= i < |history| ==> messages[i] == Converted(history[i])
    ensures messages[|history|] == HumanMessage(message)
  {
    messages := [];
    var i := 0;
    while i < |history|
      invariant 0 <= i <= |history| && |messages| == i
      invariant forall j :: 0 <= j < i ==> messages[j] == Converted(history[j])
    {
      var msg := history[i];
      if msg.role == "user" {
        messages := messages + [HumanMessage(msg.content)];
      } else {
        messages := messages + [AIMessage(msg.content)];
      }
      i := i + 1;
    }
    messages := messages + [HumanMessage(message)];
  }

  /** The contents of the `"user"` entries, in order. */
  function UserContents(history: seq<HistoryItem>): seq<string>
  {
    if history == [] then []
    else (if history[0].role == "user" then [history[0].content] else []) + UserContents(history[1..])
  }

  /** The converted history holds a human message exactly for each `"user"` entry, so the
      analyser's transcript of it is built from those entries and the incoming message. */
  lemma {:induction false} ConvertedUserMessages(history: seq<HistoryItem>, messages: seq<Message>)
    requires |messages| == |history|
    requires forall i :: 0 <= i < |history| ==> messages[i] == Converted(history[i])
    ensures Analyzer.UserMessages(messages) == UserContents(history)
  {
    if history != [] {
      ConvertedUserMessages(history[1..], messages[1..]);
      assert messages == [messages[0]] + messages[1..];
      Analyzer.UserMessagesAppend([messages[0]], messages[1..]);
      assert Analyzer.UserMessages([messages[0]]) == if history[0].role == "user" then [history[0].content] else [] by {
        assert [messages[0]][1..] == [];
      }
    }
  }

  /** The text a failed `result["messages"][-1]` raises with. */
  const EmptyResultError: string := "list index out of range"

  /** The handler. `graph` fails with the text of its exception; the analysis sees the
      graph's messages and the request's known entities unchanged. */
  method Chat(request: ChatRequest, graph: GraphState -> Result<seq<Message>, string>, f: Analyzer.Foreign)
    returns (response: ChatResponse, state: GraphState)
    ensures |state.messages| == |request.history| + 1
    ensures forall i :: 0 <= i < |request.history| ==> state.messages[i] == Converted(request.history[i])
    ensures state.messages[|request.history|] == HumanMessage(request.message)
    ensures state.userId == request.userId && state.platform == request.platform
    ensures graph(state).Err? ==> response == ServerError(graph(state).error)
    ensures graph(state).Ok? && graph(state).value == [] ==> response == ServerError(EmptyResultError)
    ensures graph(state).Ok? && graph(state).value != [] ==>
      && response.ChatResponse?
      && response.userId == request.userId && response.platform == request.platform && response.success
      && response.response == graph(state).value[|graph(state).value| - 1].content
      && response.metadata.Keys == Analyzer.AnalysisKeys
      && (Analyzer.UserMessages(graph(state).value) == [] ==> response.metadata == Analyzer.DefaultAnalysis)
      && (Analyzer.UserMessages(graph(state).value) != [] ==>
            response.metadata == Analyzer.Interpret(
              f.llm(Analyzer.Prompt(Analyzer.Transcript(Analyzer.UserMessages(graph(state).value)), request.knownEntities)), f))
  {
    var messages := ToMessages(request.history, request.message);
    state := GraphState(messages, request.userId, request.platform);
    var result := graph(state);
    if result.Err? {
      return ServerError(result.error), state;
    }
    if result.value == [] {
      return ServerError(EmptyResultError), state;
    }
    var lastMessage := result.value[|result.value| - 1];
    var responseText := lastMessage.content;
    var metadata, _ := Analyzer.AnalyzeConversation(result.value, request.knownEntities, f);
    response := ChatResponse(request.userId, request.platform, responseText, true, metadata);
  }
}
