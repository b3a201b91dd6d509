/** `analyze_conversation_with_ai`: everything around the language-model call. The user
    messages are picked out and rendered as a transcript; the model's reply is stripped of
    a Markdown code fence, decoded, and normalised to eight keys; any failure along the way
    gives the fixed fallback. The model, the JSON decoder, `float()` of a string,
    `round(x, 2)` and Python's `repr` are the `Foreign` parameter. */
module Analyzer {
  import opened Wrappers
  import opened PyValues
  import opened Messages
  import Text

  /** What the prompt is built from: the fixed template filled with these two. */
  datatype Prompt = Prompt(transcript: string, knownEntities: map<string, PyValue>)

  /** The calls the analyser makes into code outside the model. `llm` fails with the
      text of the exception it raised; `parseJson` gives `None` where `json.loads` raises. */
  datatype Foreign = Foreign(
    llm: Prompt -> Result<string, string>,
    parseJson: string -> Option<PyValue>,
    parseFloat: string -> Option<real>,
    round2: real -> real,
    repr: PyValue -> string)

  /** The contents of the `HumanMessage`s, in input order. */
  function UserMessages(messages: seq<Message>): (r: seq<string>)
    ensures |r| <= |messages|
    ensures r == [] <==> forall i :: 0 <= i < |messages| ==> !messages[i].HumanMessage?
    ensures forall s :: s in r ==> exists i :: 0 <= i < |messages| && messages[i] == HumanMessage(s)
  {
    if messages == [] then []
    else
      var rest := UserMessages(messages[1..]);
      assert forall i :: 1 <= i < |messages| ==> messages[i] == messages[1..][i - 1];
      if messages[0].HumanMessage? then [messages[0].content] + rest else rest
  }

  /** The filter distributes over concatenation, so order is kept and nothing is invented. */
  lemma {:induction false} UserMessagesAppend(a: seq<Message>, b: seq<Message>)
    ensures UserMessages(a + b) == UserMessages(a) + UserMessages(b)
  {
    if a == [] {
      assert a + b == b;
    } else {
      assert (a + b)[0] == a[0];
      assert (a + b)[1..] == a[1..] + b;
      UserMessagesAppend(a[1..], b);
    }
  }

  /** One `User: ...` line per user message. */
  function TranscriptLines(userMessages: seq<string>): (r: seq<string>)
    ensures |r| == |userMessages|
    ensures forall i :: 0 <= i < |r| ==> r[i] == "User: " + userMessages[i]
  {
    seq(|userMessages|, i requires 0 <= i < |userMessages| => "User: " + userMessages[i])
  }

  /** `"\n".join(f"User: {msg}" for msg in user_messages)`. */
  function Transcript(userMessages: seq<string>): string
  {
    Text.Join(TranscriptLines(userMessages), "\n")
  }

  /** When no message holds a newline, the transcript has exactly one line per user message. */
  lemma TranscriptSplits(userMessages: seq<string>)
    requires |userMessages| >= 1
    requires forall i :: 0 <= i < |userMessages| ==> '\n' !in userMessages[i]
    ensures Text.Split(Transcript(userMessages), '\n') == TranscriptLines(userMessages)
  {
    var lines := TranscriptLines(userMessages);
    forall i | 0 <= i < |lines| ensures '\n' !in lines[i] {
      assert lines[i] == "User: " + userMessages[i];
    }
    Text.SplitJoin(lines, '\n');
  }

  /** The keys of every result. */
  const AnalysisKeys: set<string> :=
    {"new_entities", "intent", "sentiment", "confidence", "lead_score", "urgency",
     "suggested_action", "should_notify_sales"}

  lemma ReasoningNotAKey()
    ensures "reasoning" !in AnalysisKeys
  {
  }

  function Analysis(newEntities: map<string, PyValue>, intent: PyValue, sentiment: PyValue, confidence: real,
                    leadScore: int, urgency: PyValue, suggestedAction: PyValue, notify: bool): (r: map<string, PyValue>)
    ensures r.Keys == AnalysisKeys
    ensures r["new_entities"] == PyDict(newEntities)
  {
    map["new_entities" := PyDict(newEntities), "intent" := intent, "sentiment" := sentiment,
        "confidence" := PyFloat(confidence), "lead_score" := PyInt(leadScore), "urgency" := urgency,
        "suggested_action" := suggestedAction, "should_notify_sales" := PyBool(notify)]
  }

  /** The result when there is no user message, returned without a model call. */
  const DefaultAnalysis: map<string, PyValue> :=
    Analysis(map[], PyStr("general_inquiry"), PyStr("neutral"), 0.5, 0, PyStr("low"),
             PyStr("continue_conversation"), false)

  /** The result after any exception. */
  const FallbackAnalysis: map<string, PyValue> :=
    Analysis(map[], PyStr("general_inquiry"), PyStr("neutral"), 0.3, 10, PyStr("low"),
             PyStr("continue_conversation"), false)

  /** Removes a Markdown code fence: content opening with three backticks and spanning more
      than two lines loses its first and last lines, then a leading `json` and the
      whitespace around the rest. */
  function StripFences(content: string): string
  {
    if Text.StartsWith(content, "```") then
      var lines := Text.Split(content, '\n');
      var inner := if |lines| > 2 then Text.Join(lines[1..|lines| - 1], "\n") else content;
      if Text.StartsWith(inner, "json") then Text.Strip(inner[4..]) else inner
    else content
  }

  lemma StripFencesUnfenced(content: string)
    requires !Text.StartsWith(content, "```")
    ensures StripFences(content) == content
  {
  }

  /** A fenced reply of at most two lines is left as it is. */
  lemma StripFencesShort(content: string)
    requires Text.StartsWith(content, "```") && Text.Occurrences(content, '\n') <= 1
    ensures StripFences(content) == content
  {
    Text.SplitCount(content, '\n');
    assert content[0] == '`';
    assert !Text.StartsWith(content, "json") by {
      if |content| >= 4 {
        assert content[..4][0] == '`';
      }
    }
  }

  /** A fenced reply gives back exactly what lies between its first and its last line. */
  lemma StripFencesFenced(opening: string, body: string, closing: string)
    requires '\n' !in opening && '\n' !in closing
    ensures StripFences("```" + opening + "\n" + body + "\n" + closing)
         == if Text.StartsWith(body, "json") then Text.Strip(body[4..]) else body
  {
    var first := "```" + opening;
    var content := first + "\n" + body + "\n" + closing;
    assert '\n' !in first by {
      assert forall i :: 0 <= i < |first| ==> first[i] == if i < 3 then '`' else opening[i - 3];
    }
    assert Text.StartsWith(content, "```") by {
      assert content[..3] == "```";
    }
    Text.SplitAfterPiece(first, body + "\n" + closing, '\n');
    assert content == first + ['\n'] + (body + ['\n'] + closing);
    Text.SplitBeforePiece(body, closing, '\n');
    var lines := Text.Split(content, '\n');
    var pieces := Text.Split(body, '\n');
    assert lines == [first] + pieces + [closing];
    assert lines[1..|lines| - 1] == pieces;
    Text.JoinSplit(body, '\n');
  }

  /** What `str(value)` makes of an entity value; `None` is kept. */
  function StringValue(v: PyValue, repr: PyValue -> string): (r: PyValue)
    ensures v.PyNone? ==> r == PyNone
    ensures !v.PyNone? ==> r == PyStr(ToStr(v, repr))
  {
    if v.PyNone? then PyNone else PyStr(ToStr(v, repr))
  }

  /** The entity map after the rewriting loop. */
  function Stringified(entities: map<string, PyValue>, repr: PyValue -> string): (r: map<string, PyValue>)
    ensures r.Keys == entities.Keys
    ensures forall k :: k in r ==> r[k] == StringValue(entities[k], repr)
    ensures forall k :: k in r ==> r[k].PyNone? || r[k].PyStr?
  {
    map k | k in entities :: StringValue(entities[k], repr)
  }

  /** The rewriting loop: every non-`None` value is replaced in place by its string form. */
  method StringifyEntities(entities: map<string, PyValue>, repr: PyValue -> string) returns (r: map<string, PyValue>)
    ensures r == Stringified(entities, repr)
    ensures forall k :: k in r ==> r[k].PyNone? || r[k].PyStr?
  {
    r := entities;
    var todo := entities.Keys;
    while todo != {}
      invariant todo <= entities.Keys && r.Keys == entities.Keys
      invariant forall k :: k in todo ==> r[k] == entities[k]
      invariant forall k :: k in entities && k !in todo ==> r[k] == StringValue(entities[k], repr)
      decreases |todo|
    {
      var k :| k in todo;
      var value := r[k];
      if value != PyNone {
        r := r[k := PyStr(ToStr(value, repr))];
      }
      todo := todo - {k};
    }
  }

  /** The normalisation of a decoded object, `None` where it raises: a non-object
      `new_entities`, or a `confidence` or `lead_score` that does not convert. */
  function Normalised(analysis: map<string, PyValue>, f: Foreign): (r: Option<map<string, PyValue>>)
    ensures r.Some? ==> r.value.Keys == AnalysisKeys
    ensures r.Some? ==> && r.value["new_entities"].PyDict?
                        && forall k :: k in r.value["new_entities"].entries ==>
                             r.value["new_entities"].entries[k].PyNone? || r.value["new_entities"].entries[k].PyStr?
    ensures r.None? <==> (|| !Get(analysis, "new_entities", PyDict(map[])).PyDict?
                          || ToFloat(Get(analysis, "confidence", PyFloat(0.5)), f.parseFloat).None?
                          || ToInt(Get(analysis, "lead_score", PyInt(0))).None?)
  {
    var entities := Get(analysis, "new_entities", PyDict(map[]));
    var confidence := ToFloat(Get(analysis, "confidence", PyFloat(0.5)), f.parseFloat);
    var score := ToInt(Get(analysis, "lead_score", PyInt(0)));
    if !entities.PyDict? || confidence.None? || score.None? then None
    else
      Some(Analysis(
        Stringified(entities.entries, f.repr),
        Get(analysis, "intent", PyStr("general_inquiry")),
        Get(analysis, "sentiment", PyStr("neutral")),
        f.round2(confidence.value),
        score.value,
        Get(analysis, "urgency", PyStr("low")),
        Get(analysis, "suggested_action", PyStr("continue_conversation")),
        PyTruthy(Get(analysis, "should_notify_sales", PyBool(false)))))
  }

  /** The result for the model's reply: the reply is stripped, un-fenced and decoded; a
      decoded object loses `reasoning` and is normalised; every failure is the fallback. */
  function Interpret(reply: Result<string, string>, f: Foreign): (r: map<string, PyValue>)
    ensures r.Keys == AnalysisKeys && "reasoning" !in r
    ensures reply.Err? ==> r == FallbackAnalysis
  {
    ReasoningNotAKey();
    if reply.Err? then FallbackAnalysis
    else
      var decoded := f.parseJson(StripFences(Text.Strip(reply.value)));
      if decoded.Some? && decoded.value.PyDict? then
        Normalised(decoded.value.entries - {"reasoning"}, f).GetOr(FallbackAnalysis)
      else FallbackAnalysis
  }

  /** A `reasoning` key, whatever it holds, has no effect on the result. */
  lemma ReasoningIgnored(analysis: map<string, PyValue>, reasoning: PyValue, f: Foreign)
    requires "reasoning" !in analysis
    ensures Normalised(analysis["reasoning" := reasoning] - {"reasoning"}, f) == Normalised(analysis, f)
  {
    assert analysis["reasoning" := reasoning] - {"reasoning"} == analysis;
  }

  /** A decoded empty object gives the no-user-message default, up to the rounding of 0.5. */
  lemma EmptyObjectDefaults(f: Foreign)
    ensures Normalised(map[], f) == Some(Analysis(map[], PyStr("general_inquiry"), PyStr("neutral"), f.round2(0.5), 0,
                                                  PyStr("low"), PyStr("continue_conversation"), false))
  {
    assert Stringified(map[], f.repr) == map[];
  }

  /** Lines 140-155 on a decoded object from which `reasoning` is gone. */
  method Normalise(analysis: map<string, PyValue>, f: Foreign) returns (r: Option<map<string, PyValue>>)
    ensures r == Normalised(analysis, f)
  {
    var newEntities := Get(analysis, "new_entities", PyDict(map[]));
    if !newEntities.PyDict? {
      return None;
    }
    var entities := StringifyEntities(newEntities.entries, f.repr);
    var confidence := ToFloat(Get(analysis, "confidence", PyFloat(0.5)), f.parseFloat);
    var score := ToInt(Get(analysis, "lead_score", PyInt(0)));
    if confidence.None? || score.None? {
      return None;
    }
    r := Some(Analysis(
      entities,
      Get(analysis, "intent", PyStr("general_inquiry")),
      Get(analysis, "sentiment", PyStr("neutral")),
      f.round2(confidence.value),
      score.value,
      Get(analysis, "urgency", PyStr("low")),
      Get(analysis, "suggested_action", PyStr("continue_conversation")),
      PyTruthy(Get(analysis, "should_notify_sales", PyBool(false)))));
  }

  /** The analysis of a conversation: `prompt` is what the model was asked, `None` when
      it was not called. */
  method AnalyzeConversation(messages: seq<Message>, knownEntities: map<string, PyValue>, f: Foreign)
    returns (r: map<string, PyValue>, prompt: Option<Prompt>)
    ensures UserMessages(messages) == [] ==> r == DefaultAnalysis && prompt == None
    ensures UserMessages(messages) != [] ==>
      && prompt == Some(Prompt(Transcript(UserMessages(messages)), knownEntities))
      && r == Interpret(f.llm(prompt.value), f)
    ensures r.Keys == AnalysisKeys && "reasoning" !in r
  {
    ReasoningNotAKey();
    var userMessages := UserMessages(messages);
    if userMessages == [] {
      return DefaultAnalysis, None;
    }
    var conversation := Transcript(userMessages);
    prompt := Some(Prompt(conversation, knownEntities));
    r := InterpretReply(f.llm(prompt.value), f);
  }

  /** Lines 119-169 after the model call: the reply's content is stripped, un-fenced,
      decoded and normalised, and any failure gives the fallback. */
  method InterpretReply(reply: Result<string, string>, f: Foreign) returns (r: map<string, PyValue>)
    ensures r == Interpret(reply, f)
  {
    if reply.Err? {
      return FallbackAnalysis;
    }
    var content := Text.Strip(reply.value);
    content := StripFences(content);
    var decoded := f.parseJson(content);
    if decoded.None? || !decoded.value.PyDict? {
      return FallbackAnalysis;
    }
    var analysis := decoded.value.entries;
    if "reasoning" in analysis {
      analysis := analysis - {"reasoning"};
    }
    assert analysis == decoded.value.entries - {"reasoning"};
    var normalised := Normalise(analysis, f);
    r := normalised.GetOr(FallbackAnalysis);
  }
}
