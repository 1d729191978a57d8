/** The string work of the AI service (services/ai.rs): the provider names,
    the chart-keyword test and query composition of `stream_chat_message`,
    the message lists the `process_*` methods build, how the Custom RAG
    provider folds a message list into one query, and how a fenced JSON
    block is cut out of a structured answer. The HTTP requests themselves,
    the prompt texts and the JSON parsing are not part of this model; the
    prompt texts are parameters. */
module Ai {
  import opened Wrappers
  import Text

  datatype AIProvider = OpenAI | LMStudio | CustomRAG

  /** `provider_name`. */
  function ProviderName(p: AIProvider): (name: string)
    ensures |name| > 0
  {
    match p
    case OpenAI => "OpenAI"
    case LMStudio => "LM Studio"
    case CustomRAG => "Custom RAG API"
  }

  /** Each provider has a name of its own. */
  lemma ProviderNamesDistinct(p: AIProvider, q: AIProvider)
    ensures ProviderName(p) == ProviderName(q) <==> p == q
  {
    if p != q {
      assert ProviderName(p)[0] != ProviderName(q)[0] || |ProviderName(p)| != |ProviderName(q)|;
    }
  }

  // ---------------------------------------------------------------------
  // stream_chat_message

  const ChartKeywords: seq<string> := ["chart", "pie", "bar", "line graph", "visualiz", "graph", "doughnut", "donut"]

  /** The message asks for a chart: its lower-cased text contains one of the
      keywords. */
  predicate WantsChart(message: string) {
    exists k :: k in ChartKeywords && Text.Contains(Text.ToLower(message), k)
  }

  lemma {:induction false} ToLowerIdempotent(s: string)
    ensures Text.ToLower(Text.ToLower(s)) == Text.ToLower(s)
  {
    var t := Text.ToLower(s);
    assert forall i :: 0 <= i < |s| ==> Text.ToLower(t)[i] == t[i];
  }

  /** The keyword test ignores letter case. */
  lemma WantsChartIgnoresCase(message: string)
    ensures WantsChart(Text.ToLower(message)) == WantsChart(message)
  {
    ToLowerIdempotent(message);
  }

  /** The keywords are matched as substrings: any word holding "bar", in
      any letter case, counts. */
  lemma WantsChartMatchesInsideWords(a: string, b: string)
    ensures WantsChart(a + "bar" + b) && WantsChart(a + "BAR" + b)
  {
    var i := |a|;
    var lower := Text.ToLower(a + "bar" + b);
    assert lower[i] == 'b' && lower[i + 1] == 'a' && lower[i + 2] == 'r';
    assert lower[i..i + 3] == "bar";
    assert Text.OccursAt(lower, "bar", i) && Text.Contains(lower, "bar");
    assert ChartKeywords[2] == "bar" && "bar" in ChartKeywords;
    var upper := Text.ToLower(a + "BAR" + b);
    assert upper[i] == 'b' && upper[i + 1] == 'a' && upper[i + 2] == 'r';
    assert upper[i..i + 3] == "bar";
    assert Text.OccursAt(upper, "bar", i) && Text.Contains(upper, "bar");
  }

  /** "line graph" adds nothing to "graph". */
  lemma LineGraphKeywordSubsumed(s: string)
    requires Text.Contains(s, "line graph")
    ensures Text.Contains(s, "graph")
  {
    var i :| 0 <= i <= |s| && Text.OccursAt(s, "line graph", i);
    assert s[i + 5..i + 10] == "line graph"[5..];
    assert Text.OccursAt(s, "graph", i + 5);
  }

  /** The query sent for a streamed answer: the chart instruction first when
      the message asks for a chart, then the context when there is one, and
      the message last. */
  function ComposeStreamQuery(chartInstruction: string, context: Option<string>, message: string): (q: string)
    ensures |message| <= |q| && q[|q| - |message|..] == message
    ensures context.None? && !WantsChart(message) ==> q == message
    ensures context.Some? ==>
      var tail := "Context:\n" + context.value + "\n\nQuery: " + message;
      |tail| <= |q| && q[|q| - |tail|..] == tail
    ensures context.None? && WantsChart(message) ==>
      var tail := "\n\nQuery: " + message;
      |tail| <= |q| && q[|q| - |tail|..] == tail
    ensures WantsChart(message) ==> |chartInstruction| <= |q| && q[..|chartInstruction|] == chartInstruction
    ensures !WantsChart(message) && context.Some? ==> q == "Context:\n" + context.value + "\n\nQuery: " + message
  {
    match (context, WantsChart(message))
    case (Some(ctx), true) => chartInstruction + "\n\n" + ("Context:\n" + ctx + "\n\nQuery: " + message)
    case (Some(ctx), false) => "Context:\n" + ctx + "\n\nQuery: " + message
    case (None, true) => chartInstruction + ("\n\nQuery: " + message)
    case (None, false) => message
  }

  // ---------------------------------------------------------------------
  // Message lists and the Custom RAG query

  /** In chart mode the query is exactly the instruction, a blank line, the
      context block when there is one, and the query line. */
  lemma ChartQueryExact(chartInstruction: string, context: Option<string>, message: string)
    requires WantsChart(message)
    ensures ComposeStreamQuery(chartInstruction, context, message)
         == chartInstruction + "\n\n" + (if context.Some? then "Context:\n" + context.value + "\n\n" else "") + "Query: " + message
  {
    if context.Some? {
      assert "Context:\n" + context.value + "\n\nQuery: " + message
          == "Context:\n" + context.value + "\n\n" + "Query: " + message;
    } else {
      assert "\n\nQuery: " + message == "\n\n" + "" + "Query: " + message;
    }
  }

  datatype Message = Message(role: string, content: string)

  /** The list `process_analytics_query` sends: the system prompt, the
      context as an assistant message when there is one, the query. */
  function AnalyticsMessageList(system: string, query: string, context: Option<string>): seq<Message> {
    [Message("system", system)]
    + (if context.Some? then [Message("assistant", "Context: " + context.value)] else [])
    + [Message("user", query)]
  }

  /** The list `process_chat_message` and `process_chat_message_structured`
      send: the system prompt, the earlier conversation as a second system
      message when there is one, the message. */
  function ChatMessageList(system: string, message: string, context: Option<string>): seq<Message> {
    [Message("system", system)]
    + (if context.Some? then [Message("system", "Previous conversation:\n" + context.value)] else [])
    + [Message("user", message)]
  }

  /** One system message first, at most one context message, the user's
      text last and nowhere else. */
  predicate Framed(messages: seq<Message>, system: string, user: string) {
    2 <= |messages| <= 3
    && messages[0] == Message("system", system)
    && messages[|messages| - 1] == Message("user", user)
    && forall i :: 0 <= i < |messages| - 1 ==> messages[i].role != "user"
  }

  /** `process_analytics_query`'s list, built by successive pushes. */
  method BuildAnalyticsMessages(system: string, query: string, context: Option<string>) returns (messages: seq<Message>)
    ensures messages == AnalyticsMessageList(system, query, context)
    ensures Framed(messages, system, query)
    ensures |messages| == if context.Some? then 3 else 2
  {
    messages := [Message("system", system)];
    if context.Some? {
      messages := messages + [Message("assistant", "Context: " + context.value)];
    }
    messages := messages + [Message("user", query)];
  }

  /** The chat methods' list, built by successive pushes. */
  method BuildChatMessages(system: string, message: string, context: Option<string>) returns (messages: seq<Message>)
    ensures messages == ChatMessageList(system, message, context)
    ensures Framed(messages, system, message)
    ensures |messages| == if context.Some? then 3 else 2
  {
    messages := [Message("system", system)];
    if context.Some? {
      messages := messages + [Message("system", "Previous conversation:\n" + context.value)];
    }
    messages := messages + [Message("user", message)];
  }

  /** The index of the last "user" message, if any. */
  function LastUser(messages: seq<Message>): (r: Option<nat>)
    ensures r.None? ==> forall i :: 0 <= i < |messages| ==> messages[i].role != "user"
    ensures r.Some? ==>
      (r.value < |messages| && messages[r.value].role == "user"
       && forall j :: r.value < j < |messages| ==> messages[j].role != "user")
  {
    if messages == [] then None
    else if messages[|messages| - 1].role == "user" then Some(|messages| - 1)
    else LastUser(messages[..|messages| - 1])
  }

  /** `filter(role == "user").last()`, its content, or "". */
  function LastUserContent(messages: seq<Message>): string {
    match LastUser(messages)
    case None => ""
    case Some(i) => messages[i].content
  }

  /** The contents of the system and assistant messages, in order. */
  function RagContext(messages: seq<Message>): (ctx: seq<string>)
    ensures |ctx| <= |messages|
    ensures forall c :: c in ctx ==>
      exists i :: 0 <= i < |messages| && (messages[i].role == "system" || messages[i].role == "assistant")
        && messages[i].content == c
  {
    if messages == [] then []
    else
      var rest := RagContext(messages[1..]);
      assert forall c :: c in rest ==>
        exists i :: 1 <= i < |messages| && (messages[i].role == "system" || messages[i].role == "assistant")
          && messages[i].content == c;
      if messages[0].role == "system" || messages[0].role == "assistant" then [messages[0].content] + rest
      else rest
  }

  /** The context of a concatenation is the concatenation of the contexts:
      the messages are taken one at a time, in order. */
  lemma {:induction false} RagContextAppend(a: seq<Message>, b: seq<Message>)
    ensures RagContext(a + b) == RagContext(a) + RagContext(b)
  {
    if a == [] {
      assert a + b == b;
    } else {
      assert (a + b)[1..] == a[1..] + b;
      RagContextAppend(a[1..], b);
    }
  }

  /** One message contributes its content exactly when it is a system or
      an assistant message; with `RagContextAppend` this fixes the context
      of every list. */
  lemma RagContextOne(m: Message)
    ensures RagContext([m]) == if m.role == "system" || m.role == "assistant" then [m.content] else []
  {
    assert [m][1..] == [];
  }

  /** The single query the Custom RAG provider is sent for a message list. */
  function RagQuery(messages: seq<Message>): string {
    var query := LastUserContent(messages);
    var context := RagContext(messages);
    if |context| == 0 then query else "Context:\n" + Text.Join(context, "\n") + "\n\nQuery: " + query
  }

  lemma {:induction false} RagContextEmpty(messages: seq<Message>)
    requires forall i :: 0 <= i < |messages| ==> messages[i].role != "system" && messages[i].role != "assistant"
    ensures RagContext(messages) == []
  {
    if messages != [] {
      RagContextEmpty(messages[1..]);
    }
  }

  /** With no system or assistant message the query is the last user text. */
  lemma RagQueryWithoutContext(messages: seq<Message>)
    requires forall i :: 0 <= i < |messages| ==> messages[i].role != "system" && messages[i].role != "assistant"
    ensures RagQuery(messages) == LastUserContent(messages)
  {
    RagContextEmpty(messages);
  }

  /** The system and assistant contents of a framed list of three. */
  lemma RagContextOfThree(first: Message, middle: Message, last: Message)
    requires first.role == "system" && (middle.role == "system" || middle.role == "assistant") && last.role == "user"
    ensures RagContext([first, middle, last]) == [first.content, middle.content]
    ensures LastUserContent([first, middle, last]) == last.content
  {
    RagContextOfTwo(middle, last);
    assert [first, middle, last][1..] == [middle, last];
    assert LastUser([first, middle, last]) == Some(2);
  }

  lemma RagContextOfTwo(first: Message, last: Message)
    requires (first.role == "system" || first.role == "assistant") && last.role == "user"
    ensures RagContext([first, last]) == [first.content]
    ensures LastUserContent([first, last]) == last.content
  {
    assert [first, last][1..] == [last] && [last][1..] == [];
    assert RagContext([last]) == [];
    assert LastUser([first, last]) == Some(1);
  }

  /** What the Custom RAG provider is asked for a chat message: the system
      prompt and the earlier conversation as context, the message as query. */
  lemma RagQueryOfChat(system: string, message: string, context: Option<string>)
    ensures RagQuery(ChatMessageList(system, message, context))
         == "Context:\n" + system
            + (if context.Some? then "\n" + "Previous conversation:\n" + context.value else "")
            + "\n\nQuery: " + message
  {
    var first, last := Message("system", system), Message("user", message);
    if context.Some? {
      var middle := Message("system", "Previous conversation:\n" + context.value);
      assert ChatMessageList(system, message, context) == [first, middle, last];
      RagContextOfThree(first, middle, last);
      assert Text.Join([system, middle.content], "\n") == system + "\n" + middle.content;
    } else {
      assert ChatMessageList(system, message, context) == [first, last];
      RagContextOfTwo(first, last);
    }
  }

  /** The same for an analytics query, whose context is an assistant message. */
  lemma RagQueryOfAnalytics(system: string, query: string, context: Option<string>)
    ensures RagQuery(AnalyticsMessageList(system, query, context))
         == "Context:\n" + system
            + (if context.Some? then "\n" + "Context: " + context.value else "")
            + "\n\nQuery: " + query
  {
    var first, last := Message("system", system), Message("user", query);
    if context.Some? {
      var middle := Message("assistant", "Context: " + context.value);
      assert AnalyticsMessageList(system, query, context) == [first, middle, last];
      RagContextOfThree(first, middle, last);
      assert Text.Join([system, middle.content], "\n") == system + "\n" + middle.content;
    } else {
      assert AnalyticsMessageList(system, query, context) == [first, last];
      RagContextOfTwo(first, last);
    }
  }

  // ---------------------------------------------------------------------
  // parse_and_validate_structured_response: the fenced block

  /** `split(pat).next()`: the text before the first occurrence of `pat`. */
  function UpTo(s: string, pat: string): (r: string)
    requires |pat| > 0
    ensures |r| <= |s| && r == s[..|r|]
    ensures !Text.Contains(r, pat)
    ensures Text.Contains(s, pat) ==> Text.OccursAt(s, pat, |r|)
    ensures !Text.Contains(s, pat) ==> r == s
  {
    match Text.IndexOf(s, pat)
    case None => s
    case Some(i) =>
      var r := s[..i];
      assert forall j :: 0 <= j <= |r| && Text.OccursAt(r, pat, j) ==> Text.OccursAt(s, pat, j) by {
        forall j | 0 <= j <= |r| && Text.OccursAt(r, pat, j) ensures Text.OccursAt(s, pat, j) {
          assert s[j..j + |pat|] == r[j..j + |pat|];
        }
      }
      r
  }

  /** The text after the first occurrence of `pat`; `split(pat).nth(1)` is
      its part before the next occurrence. */
  function After(s: string, pat: string): (r: string)
    requires Text.Contains(s, pat)
    ensures |r| + |pat| <= |s| && r == s[|s| - |r|..]
    ensures Text.OccursAt(s, pat, |s| - |r| - |pat|)
    ensures forall j :: 0 <= j < |s| - |r| - |pat| ==> !Text.OccursAt(s, pat, j)
  {
    var i := Text.IndexOf(s, pat).value;
    s[i + |pat|..]
  }

  const JsonFence := "```json"
  const Fence := "```"

  /** The JSON text of a structured answer: the trimmed inside of the first
      "```json" block; failing that, of the first plain fence; failing that,
      the whole answer trimmed. */
  function ExtractJson(content: string): (json: string)
    ensures json == [] || (!Text.IsWhitespace(json[0]) && !Text.IsWhitespace(json[|json| - 1]))
  {
    if Text.Contains(content, JsonFence) then
      Text.Trim(UpTo(After(content, JsonFence), Fence))
    else if Text.Contains(content, Fence) then Text.Trim(UpTo(After(content, Fence), Fence))
    else Text.Trim(content)
  }

  /** An answer without any fence is only trimmed. */
  lemma NoFenceOnlyTrims(content: string)
    requires !Text.Contains(content, Fence)
    ensures ExtractJson(content) == Text.Trim(content)
  {
    if Text.Contains(content, JsonFence) {
      var i :| 0 <= i <= |content| && Text.OccursAt(content, JsonFence, i);
      assert content[i..i + 3] == JsonFence[..3];
      assert Text.OccursAt(content, Fence, i);
      assert false;
    }
  }

  /** A pattern first found at the end of `a + pat` is first found there
      whatever follows it. */
  lemma FirstOccurrence(a: string, pat: string, b: string)
    requires Text.IndexOf(a + pat, pat) == Some(|a|)
    ensures Text.Contains(a + pat + b, pat)
    ensures Text.IndexOf(a + pat + b, pat) == Some(|a|)
  {
    var s := a + pat + b;
    assert s[|a|..|a| + |pat|] == pat;
    assert Text.OccursAt(s, pat, |a|);
    forall j | 0 <= j < |a| ensures !Text.OccursAt(s, pat, j) {
      assert !Text.OccursAt(a + pat, pat, j);
      assert s[j..j + |pat|] == (a + pat)[j..j + |pat|];
    }
  }

  /** A pattern whose first character does not appear in `a` is first
      found right after `a`. */
  lemma FirstCharAbsent(a: string, pat: string)
    requires |pat| > 0 && pat[0] !in a
    ensures Text.IndexOf(a + pat, pat) == Some(|a|)
  {
    var s := a + pat;
    assert s[|a|..] == pat;
    assert Text.OccursAt(s, pat, |a|);
    forall j | 0 <= j < |a| ensures !Text.OccursAt(s, pat, j) {
      assert s[j] == a[j] && a[j] != pat[0];
    }
  }

  /** Cutting at a first occurrence. */
  lemma UpToAt(a: string, pat: string, b: string)
    requires |pat| > 0 && Text.IndexOf(a + pat, pat) == Some(|a|)
    ensures UpTo(a + pat + b, pat) == a
  {
    FirstOccurrence(a, pat, b);
  }

  lemma AfterAt(a: string, pat: string, b: string)
    requires Text.IndexOf(a + pat, pat) == Some(|a|)
    ensures Text.Contains(a + pat + b, pat)
    ensures After(a + pat + b, pat) == b
  {
    FirstOccurrence(a, pat, b);
    assert (a + pat + b)[|a| + |pat|..] == b;
  }

  /** An answer holding `pre`, a "```json" block and anything after it,
      where `pre` holds no earlier "```json" and the block no "```", yields
      the block's inside, trimmed; plain fences in `pre` do not matter. */
  lemma JsonFenceRoundTrip(pre: string, body: string, post: string)
    requires Text.IndexOf(pre + JsonFence, JsonFence) == Some(|pre|)
    requires Text.IndexOf(body + Fence, Fence) == Some(|body|)
    ensures ExtractJson(pre + JsonFence + body + Fence + post) == Text.Trim(body)
  {
    var rest := body + Fence + post;
    var c := pre + JsonFence + rest;
    assert pre + JsonFence + body + Fence + post == c;
    AfterAt(pre, JsonFence, rest);
    UpToAt(body, Fence, post);
    assert UpTo(rest, Fence) == body;
  }

  /** A plain block before the "```json" block holds no "```json". */
  lemma PlainBlockBeforeJsonFence()
    ensures Text.IndexOf("```\nx\n```\n" + JsonFence, JsonFence) == Some(10)
  {
    var s := "```\nx\n```\n" + JsonFence;
    assert s[10..] == JsonFence;
    assert Text.OccursAt(s, JsonFence, 10);
    forall j | 0 <= j < 10 ensures !Text.OccursAt(s, JsonFence, j) {
      assert s[j + 3] != 'j';
      assert s[j..j + 7][3] == s[j + 3];
    }
  }

  /** A "```json" block wins over a plain block written before it. */
  lemma JsonFenceTakesPrecedence(post: string)
    ensures ExtractJson("```\nx\n```\n" + JsonFence + "\n{}\n" + Fence + post) == Text.Trim("\n{}\n")
  {
    PlainBlockBeforeJsonFence();
    FirstCharAbsent("\n{}\n", Fence);
    JsonFenceRoundTrip("```\nx\n```\n", "\n{}\n", post);
  }

  /** With no "```json" anywhere, the first plain fenced block is taken. */
  lemma PlainFenceRoundTrip(pre: string, body: string, post: string)
    requires Text.IndexOf(pre + Fence, Fence) == Some(|pre|)
    requires Text.IndexOf(body + Fence, Fence) == Some(|body|)
    requires !Text.Contains(pre + Fence + body + Fence + post, JsonFence)
    ensures ExtractJson(pre + Fence + body + Fence + post) == Text.Trim(body)
  {
    var rest := body + Fence + post;
    var c := pre + Fence + rest;
    assert pre + Fence + body + Fence + post == c;
    AfterAt(pre, Fence, rest);
    UpToAt(body, Fence, post);
  }
}
