/**
 * Content generation: the provider adapters (`_generate_with_openai`,
 * `_generate_with_anthropic`, `_generate_with_deepseek`), the agent wrapper
 * (`_generate_with_agent`), the `max`-by-length choice among candidates, and
 * the prompt texts sent to the providers.
 */
module Generation {
  import opened Common
  import opened PyStr
  import opened WebSearch

  // ---------------------------------------------------------------------
  // Provider outcomes and candidates
  // ---------------------------------------------------------------------

  /**
   * What one chat request did: raised, or answered after `latency` seconds.
   * `message` is the reply text; `None` is an OpenAI-style reply whose
   * content is null, or an Anthropic reply with no content blocks.
   */
  datatype Reply = Raised | Replied(message: Option<string>, latency: real)

  /** A generated version: `{"content", "provider", "latency"}`, plus `agent_name` for agent output. */
  datatype Candidate = Candidate(text: Option<string>, provider: string, latency: real, agentName: Option<string>)

  /** The model every OpenAI request of the system names. */
  const DefaultModel: string := "gpt-4-turbo"

  /** `_generate_with_openai`: a reply becomes a candidate; a raise becomes `None` and a notice. */
  function OpenAIResult(reply: Reply, model: string): (r: (Option<Candidate>, seq<Diagnostic>))
    ensures r.0.Some? <==> reply.Replied?
    ensures r.0.Some? ==> r.0.value.text == reply.message && r.0.value.provider == "OpenAI-" + model
    ensures r.1 == (if reply.Raised? then [OpenAIGenerationError] else [])
  {
    match reply
    case Raised => (None, [OpenAIGenerationError])
    case Replied(m, t) => (Some(Candidate(m, "OpenAI-" + model, t, None)), [])
  }

  /**
   * `_generate_with_anthropic`: no request without a client; a reply without
   * content blocks gives the empty text, so the text is never `None`.
   */
  function AnthropicResult(configured: bool, ask: string -> Reply, prompt: string): (r: (Option<Candidate>, seq<Diagnostic>))
    ensures r.0.Some? <==> configured && ask(prompt).Replied?
    ensures r.0.Some? ==> r.0.value.text == Some(ask(prompt).message.GetOr("")) && r.0.value.provider == "Claude-3.5-Sonnet"
    ensures r.1 == (if configured && ask(prompt).Raised? then [AnthropicGenerationError] else [])
  {
    if !configured then (None, [])
    else match ask(prompt)
      case Raised => (None, [AnthropicGenerationError])
      case Replied(m, t) => (Some(Candidate(Some(m.GetOr("")), "Claude-3.5-Sonnet", t, None)), [])
  }

  /** `_generate_with_deepseek`: no request without a client; otherwise like OpenAI. */
  function DeepSeekResult(configured: bool, ask: string -> Reply, prompt: string): (r: (Option<Candidate>, seq<Diagnostic>))
    ensures r.0.Some? <==> configured && ask(prompt).Replied?
    ensures r.0.Some? ==> r.0.value.text == ask(prompt).message && r.0.value.provider == "DeepSeek-Chat"
    ensures r.1 == (if configured && ask(prompt).Raised? then [DeepSeekGenerationError] else [])
  {
    if !configured then (None, [])
    else match ask(prompt)
      case Raised => (None, [DeepSeekGenerationError])
      case Replied(m, t) => (Some(Candidate(m, "DeepSeek-Chat", t, None)), [])
  }

  // ---------------------------------------------------------------------
  // Agents
  // ---------------------------------------------------------------------

  datatype Agent = Agent(name: string, instructions: string, model: string)

  /** `" " * n`. */
  function Spaces(n: nat): (r: string)
    ensures |r| == n && forall k :: 0 <= k < n ==> r[k] == ' '
  {
    seq(n, _ => ' ')
  }

  function Indented(indent: nat, lines: seq<string>): (r: seq<string>)
    ensures |r| == |lines|
    ensures forall k :: 0 <= k < |lines| ==> r[k] == Spaces(indent) + lines[k]
  {
    if lines == [] then [] else [Spaces(indent) + lines[0]] + Indented(indent, lines[1..])
  }

  /**
   * A triple-quoted literal written as `"""` at the end of a line, the
   * given lines each indented, and the closing `"""` on a line of its own:
   * a newline, the indented lines separated by newlines, a newline and the
   * closing indentation.
   */
  function Block(indent: nat, lines: seq<string>): string {
    "\n" + Join("\n", Indented(indent, lines)) + "\n" + Spaces(indent)
  }

  /** The part of a block before the line `x`. */
  function BlockLead(indent: nat, before: seq<string>): string {
    "\n" + (if before == [] then "" else Join("\n", Indented(indent, before)) + "\n") + Spaces(indent)
  }

  /** The part of a block after the line `x`. */
  function BlockTrail(indent: nat, after: seq<string>): string {
    (if after == [] then "" else "\n" + Join("\n", Indented(indent, after))) + "\n" + Spaces(indent)
  }

  /** A line of a block is framed by text that depends only on the other lines. */
  lemma BlockFrame(indent: nat, before: seq<string>, x: string, after: seq<string>)
    ensures Block(indent, before + [x] + after) == BlockLead(indent, before) + x + BlockTrail(indent, after)
  {
    var I := Spaces(indent);
    var pb, pa := Indented(indent, before), Indented(indent, after);
    IndentedAround(indent, before, x, after);
    JoinAround("\n", pb, I + x, pa);
    var lead := if pb == [] then "" else Join("\n", pb) + "\n";
    var trail := if pa == [] then "" else "\n" + Join("\n", pa);
    assert Join("\n", Indented(indent, before + [x] + after)) == lead + (I + x) + trail;
    assert BlockLead(indent, before) == "\n" + lead + I;
    assert BlockTrail(indent, after) == trail + "\n" + I;
    Regroup("\n", lead, I, x, trail);
  }

  lemma Regroup(n: string, lead: string, i: string, x: string, trail: string)
    ensures n + (lead + (i + x) + trail) + n + i == (n + lead + i) + x + (trail + n + i)
  {
  }

  lemma {:induction false} IndentedConcat(indent: nat, a: seq<string>, b: seq<string>)
    ensures Indented(indent, a + b) == Indented(indent, a) + Indented(indent, b)
  {
    if a == [] {
      assert a + b == b;
    } else {
      assert (a + b)[0] == a[0];
      assert (a + b)[1..] == a[1..] + b;
      IndentedConcat(indent, a[1..], b);
    }
  }

  lemma IndentedAround(indent: nat, before: seq<string>, x: string, after: seq<string>)
    ensures Indented(indent, before + [x] + after) == Indented(indent, before) + [Spaces(indent) + x] + Indented(indent, after)
  {
    IndentedConcat(indent, before + [x], after);
    IndentedConcat(indent, before, [x]);
    assert [x][1..] == [];
  }

  /** The indentation of the agents' instruction literals. */
  const Indent16: string := "                "

  /** The three agents' instructions, as the triple-quoted literals give them. */
  const ResearchInstructions: string := "\n"
    + Indent16 + "You are an expert research assistant. Your role is to:\n"
    + Indent16 + "1. Conduct comprehensive research on given topics\n"
    + Indent16 + "2. Synthesize information from multiple sources\n"
    + Indent16 + "3. Generate well-structured, accurate documentation\n"
    + Indent16 + "4. Cite sources appropriately\n"
    + Indent16 + "5. Identify key insights and trends\n"
    + Indent16 + "\n"
    + Indent16 + "Always provide thorough, well-organized research outputs.\n"
    + Indent16

  const ContentInstructions: string := "\n"
    + Indent16 + "You are a professional content writer. Your role is to:\n"
    + Indent16 + "1. Transform research into engaging, well-structured content\n"
    + Indent16 + "2. Ensure clarity and readability\n"
    + Indent16 + "3. Maintain accuracy while improving presentation\n"
    + Indent16 + "4. Add appropriate formatting and structure\n"
    + Indent16 + "5. Create comprehensive summaries and analyses\n"
    + Indent16 + "\n"
    + Indent16 + "Always produce high-quality, publication-ready content.\n"
    + Indent16

  const AnalysisInstructions: string := "\n"
    + Indent16 + "You are a strategic analyst. Your role is to:\n"
    + Indent16 + "1. Analyze research findings for key insights\n"
    + Indent16 + "2. Identify patterns and trends\n"
    + Indent16 + "3. Provide critical evaluation\n"
    + Indent16 + "4. Suggest implications and applications\n"
    + Indent16 + "5. Highlight important considerations\n"
    + Indent16 + "\n"
    + Indent16 + "Always provide thoughtful, actionable analysis.\n"
    + Indent16

  const ResearchAgent: Agent := Agent("research_agent", ResearchInstructions, DefaultModel)
  const ContentAgent: Agent := Agent("content_agent", ContentInstructions, DefaultModel)
  const AnalysisAgent: Agent := Agent("analysis_agent", AnalysisInstructions, DefaultModel)

  /** The agents of the agentic mode, by role. */
  datatype Team = Team(research: Agent, content: Agent, analysis: Agent)

  /** The team `_initialize_agents` builds. */
  const Agents: Team := Team(ResearchAgent, ContentAgent, AnalysisAgent)

  /** `f"{context}\n\n{prompt}" if context else prompt`. */
  function FullPrompt(context: string, prompt: string): (r: string)
    ensures context == "" ==> r == prompt
    ensures context != "" ==> context <= r && |r| == |context| + 2 + |prompt|
    ensures context != "" ==> r[|context|..|context| + 2] == "\n\n" && r[|context| + 2..] == prompt
  {
    if context != "" then context + "\n\n" + prompt else prompt
  }

  const RequestLead: string := "\n\nUser request: "
  const RequestTrail: string := "\n\nPlease provide a comprehensive response following your role and instructions."

  /** The request sent for an agent: its instructions, the user request, and a closing instruction. */
  function AgentPrompt(instructions: string, request: string): string {
    instructions + RequestLead + request + RequestTrail
  }

  /** Text between a fixed lead and a fixed trail can be read back. */
  lemma FramedInjective(lead: string, trail: string, a: string, b: string)
    requires lead + a + trail == lead + b + trail
    ensures a == b
  {
    var s := lead + a + trail;
    assert |a| == |b|;
    assert a == s[|lead|..|lead| + |a|];
    assert b == (lead + b + trail)[|lead|..|lead| + |b|];
  }

  /** Different requests to the same agent are different prompts. */
  lemma AgentPromptInjective(instructions: string, a: string, b: string)
    requires AgentPrompt(instructions, a) == AgentPrompt(instructions, b)
    ensures a == b
  {
    assert AgentPrompt(instructions, a) == (instructions + RequestLead) + a + RequestTrail;
    assert AgentPrompt(instructions, b) == (instructions + RequestLead) + b + RequestTrail;
    FramedInjective(instructions + RequestLead, RequestTrail, a, b);
  }

  /**
   * `_generate_with_agent`: without the SDK or the agent there is no
   * request; otherwise the agent's instructions wrap the request, OpenAI
   * answers with the agent's model, and a success is relabelled as the
   * agent's. `ask` is the OpenAI backend, given the model and the prompt.
   */
  function AgentResult(sdkAvailable: bool, agent: Option<Agent>, prompt: string, context: string,
                       ask: (string, string) -> Reply): (r: (Option<Candidate>, seq<Diagnostic>))
  {
    if !sdkAvailable || agent.None? then (None, [])
    else
      var a := agent.value;
      var request := AgentPrompt(a.instructions, FullPrompt(context, prompt));
      var (c, log) := OpenAIResult(ask(a.model, request), a.model);
      (if c.Some? then Some(c.value.(provider := "Agent-" + a.name, agentName := Some(a.name))) else None, log)
  }

  /** An agent result exists exactly when the request was made and answered, and it is labelled with the agent. */
  lemma AgentResultFacts(sdkAvailable: bool, agent: Option<Agent>, prompt: string, context: string,
                         ask: (string, string) -> Reply)
    ensures var r := AgentResult(sdkAvailable, agent, prompt, context, ask);
      && (!sdkAvailable || agent.None? ==> r == (None, []))
      && (sdkAvailable && agent.Some? ==>
            var reply := ask(agent.value.model, AgentPrompt(agent.value.instructions, FullPrompt(context, prompt)));
            && (r.0.Some? <==> reply.Replied?)
            && (r.0.Some? ==> r.0.value == Candidate(reply.message, "Agent-" + agent.value.name, reply.latency, Some(agent.value.name)))
            && r.1 == (if reply.Raised? then [OpenAIGenerationError] else []))
  {
  }

  // ---------------------------------------------------------------------
  // Choosing among candidates
  // ---------------------------------------------------------------------

  /** The candidates a provider list yields: the successes, in order. */
  function Present(results: seq<Option<Candidate>>): (r: seq<Candidate>)
    ensures |r| <= |results|
    ensures forall c :: c in r <==> Some(c) in results
  {
    if results == [] then []
    else
      assert forall x :: x in results <==> x == results[0] || x in results[1..];
      (if results[0].Some? then [results[0].value] else []) + Present(results[1..])
  }

  /** A success appended to the provider list is appended to the candidates. */
  lemma {:induction false} PresentSnoc(results: seq<Option<Candidate>>, x: Option<Candidate>)
    ensures Present(results + [x]) == Present(results) + (if x.Some? then [x.value] else [])
  {
    var tail := if x.Some? then [x.value] else [];
    if results == [] {
      assert results + [x] == [x];
      assert [x][1..] == [];
      assert Present([x]) == tail + Present([]);
    } else {
      var s := results + [x];
      assert s[0] == results[0];
      assert s[1..] == results[1..] + [x];
      PresentSnoc(results[1..], x);
      var h := if results[0].Some? then [results[0].value] else [];
      assert Present(s) == h + Present(results[1..] + [x]);
      assert Present(results) == h + Present(results[1..]);
    }
  }

  /** The candidate an outcome contributes: its success, or nothing. */
  function Success(x: Option<Candidate>): (r: seq<Candidate>)
  {
    if x.Some? then [x.value] else []
  }

  /** The candidates of three outcomes, in order. */
  lemma PresentOfThree(o: Option<Candidate>, a: Option<Candidate>, d: Option<Candidate>)
    ensures Present([o, a, d]) == Success(o) + Success(a) + Success(d)
  {
    var s := [o, a, d];
    assert s[1..] == [a, d] && s[1..][1..] == [d] && s[1..][1..][1..] == [];
    assert Present([d]) == Success(d);
    assert Present([a, d]) == Success(a) + Success(d);
  }

  predicate AllText(cs: seq<Candidate>) {
    forall k :: 0 <= k < |cs| ==> cs[k].text.Some?
  }

  /** `len(x.get("content", ""))` for a candidate with text. */
  function Size(c: Candidate): nat
    requires c.text.Some?
  {
    |c.text.value|
  }

  /** The index `max(..., key=len)` returns: the first candidate of greatest length. */
  function LongestIndex(cs: seq<Candidate>): (i: nat)
    requires cs != [] && AllText(cs)
    ensures i < |cs|
    ensures forall k :: 0 <= k < |cs| ==> Size(cs[k]) <= Size(cs[i])
    ensures forall k :: 0 <= k < i ==> Size(cs[k]) < Size(cs[i])
  {
    if |cs| == 1 then 0
    else
      var j := LongestIndex(cs[..|cs| - 1]);
      if Size(cs[|cs| - 1]) > Size(cs[j]) then |cs| - 1 else j
  }

  /** The first-longest index is the only index with both of its properties. */
  lemma LongestIndexUnique(cs: seq<Candidate>, i: nat)
    requires cs != [] && AllText(cs) && i < |cs|
    requires forall k :: 0 <= k < |cs| ==> Size(cs[k]) <= Size(cs[i])
    requires forall k :: 0 <= k < i ==> Size(cs[k]) < Size(cs[i])
    ensures LongestIndex(cs) == i
  {
  }

  /**
   * What `max(versions, key=lambda x: len(x.get("content", "")))` does:
   * nothing to choose from, a choice, or a `TypeError` because some
   * candidate's text is `None`.
   */
  datatype Pick = NoCandidates | Picked(choice: Candidate) | KeyFailed

  function Select(versions: seq<Candidate>): (p: Pick)
    ensures p.NoCandidates? <==> versions == []
    ensures p.KeyFailed? <==> versions != [] && !AllText(versions)
    ensures p.Picked? ==> AllText(versions) && p.choice == versions[LongestIndex(versions)]
  {
    if versions == [] then NoCandidates
    else if !AllText(versions) then KeyFailed
    else Picked(versions[LongestIndex(versions)])
  }

  /** A pick is a candidate no other is longer than, and strictly longer than every one before it. */
  lemma SelectFirstLongest(versions: seq<Candidate>)
    requires Select(versions).Picked?
    ensures exists i :: (&& 0 <= i < |versions| && versions[i] == Select(versions).choice
                         && (forall k :: 0 <= k < |versions| ==> Size(versions[k]) <= Size(versions[i]))
                         && (forall k :: 0 <= k < i ==> Size(versions[k]) < Size(versions[i])))
  {
    var i := LongestIndex(versions);
    assert versions[i] == Select(versions).choice;
  }

  // ---------------------------------------------------------------------
  // Prompts
  // ---------------------------------------------------------------------

  /** `f"- {r['title']}: {r.get('snippet', '')[:n]}"`. */
  function ContextLine(r: WebRef, n: int): (line: string)
    ensures |line| >= 2 && line[..2] == "- "
  {
    "- " + r.title + ": " + Prefix(r.snippet, n)
  }

  function ContextLines(web: seq<WebRef>, n: int): (r: seq<string>)
    ensures |r| == |web|
    ensures forall k :: 0 <= k < |web| ==> r[k] == ContextLine(web[k], n)
  {
    if web == [] then [] else [ContextLine(web[0], n)] + ContextLines(web[1..], n)
  }

  /** The context block: the first five web hits, one line each, snippets cut to `n`. */
  function WebContext(web: seq<WebRef>, n: int): (ctx: string)
    ensures ctx == "" <==> web == []
  {
    var lines := ContextLines(Prefix(web, 5), n);
    assert lines != [] ==> |lines[0]| >= 2;
    Join("\n", lines)
  }

  /** Hits after the fifth never reach a prompt. */
  lemma WebContextFirstFive(web: seq<WebRef>, more: seq<WebRef>, n: int)
    requires |web| >= 5
    ensures WebContext(web + more, n) == WebContext(web, n)
  {
    assert Prefix(web + more, 5) == Prefix(web, 5);
  }

  /** Only the first `n` characters of a snippet reach a prompt. */
  lemma ContextLineCutsSnippet(r: WebRef, n: nat)
    requires n <= |r.snippet|
    ensures ContextLine(r, n) == ContextLine(r.(snippet := r.snippet[..n]), n)
  {
  }

  const StandardLead: string := "Create a comprehensive, well-structured research document about: "
  const ContextHeading: string := "\n\nRelevant information from web search (Tavily & Serper):\n"

  /** The standard-mode prompt: the request, and the context only when there is some. */
  function StandardPrompt(topic: string, web: seq<WebRef>): string {
    var ctx := if web != [] then WebContext(web, 150) else "";
    StandardLead + topic + (if ctx != "" then ContextHeading + ctx else "")
  }

  /** The standard prompt is the bare request exactly when no web hit was found. */
  lemma StandardPromptBare(topic: string, web: seq<WebRef>)
    ensures StandardPrompt(topic, web) == StandardLead + topic <==> web == []
  {
    if web != [] {
      assert |StandardPrompt(topic, web)| > |StandardLead + topic|;
    }
  }

  const ResearchHead: string := "Conduct comprehensive research on: "

  /** The lines of the research request after the topic line. */
  function ResearchTail(ctx: string): seq<string> {
    ["", "Available resources:", ctx, "",
     "Provide a detailed, well-structured research document covering:",
     "1. Overview and key concepts",
     "2. Current state and developments",
     "3. Important findings and insights",
     "4. Applications and use cases",
     "5. Future trends and considerations"]
  }

  /** The research agent's request: the topic and the context. */
  function ResearchPrompt(topic: string, ctx: string): string {
    Block(20, [ResearchHead + topic] + ResearchTail(ctx))
  }

  const PolishBefore: seq<string> := ["Transform this research into polished, publication-ready content:", ""]
  const PolishAfter: seq<string> := ["", "Make it engaging, well-formatted, and comprehensive."]

  /** The content agent's request around the research text. */
  function PolishPrompt(research: string): string {
    Block(28, PolishBefore + [research] + PolishAfter)
  }

  /** The research text reaches the content agent verbatim: different texts give different requests. */
  lemma PolishPromptInjective(a: string, b: string)
    requires PolishPrompt(a) == PolishPrompt(b)
    ensures a == b
  {
    BlockFrame(28, PolishBefore, a, PolishAfter);
    BlockFrame(28, PolishBefore, b, PolishAfter);
    FramedInjective(BlockLead(28, PolishBefore), BlockTrail(28, PolishAfter), a, b);
  }

  /** The research agent's request names the topic: different topics give different requests. */
  lemma ResearchPromptInjective(a: string, b: string, ctx: string)
    requires ResearchPrompt(a, ctx) == ResearchPrompt(b, ctx)
    ensures a == b
  {
    var after := ResearchTail(ctx);
    var lead, trail := BlockLead(20, []), BlockTrail(20, after);
    assert [] + [ResearchHead + a] + after == [ResearchHead + a] + after;
    assert [] + [ResearchHead + b] + after == [ResearchHead + b] + after;
    BlockFrame(20, [], ResearchHead + a, after);
    BlockFrame(20, [], ResearchHead + b, after);
    Regroup3(lead, ResearchHead, a, trail);
    Regroup3(lead, ResearchHead, b, trail);
    FramedInjective(lead + ResearchHead, trail, a, b);
  }

  lemma Regroup3(l: string, m: string, x: string, t: string)
    ensures l + (m + x) + t == (l + m) + x + t
  {
  }

  const AnalysisBefore: seq<string> := ["Analyze this research and provide key insights:", ""]
  const AnalysisAfter: seq<string> := ["", "Focus on:", "- Key takeaways", "- Important implications",
                                       "- Critical considerations", "- Potential applications"]

  /** The analysis agent's request around the chosen content. */
  function AnalysisPrompt(content: string): string {
    Block(28, AnalysisBefore + [content] + AnalysisAfter)
  }

  /** The chosen content reaches the analysis agent verbatim: different texts give different requests. */
  lemma AnalysisPromptInjective(a: string, b: string)
    requires AnalysisPrompt(a) == AnalysisPrompt(b)
    ensures a == b
  {
    BlockFrame(28, AnalysisBefore, a, AnalysisAfter);
    BlockFrame(28, AnalysisBefore, b, AnalysisAfter);
    FramedInjective(BlockLead(28, AnalysisBefore), BlockTrail(28, AnalysisAfter), a, b);
  }
}
