/**
 * `process_query_agentic`: search the web and YouTube, then generate the
 * content either with the three agents in turn or with every configured
 * provider, keeping the longest answer. The result dictionary is filled in
 * field by field, as in the source.
 */
module Pipeline {
  import opened Common
  import opened Config
  import opened Generation
  import WebSearch
  import VideoSearch

  /** The outcomes of the backends for one query; the chat backends answer a prompt. */
  datatype Backends = Backends(
    tavily: WebSearch.TavilyReply,
    serper: WebSearch.SerperReply,
    youtube: VideoSearch.VideoReply,
    openai: (string, string) -> Reply,
    anthropic: string -> Reply,
    deepseek: string -> Reply)

  datatype Metadata = Metadata(timestamp: string, topic: string, mode: string, tavilyUsed: bool, serperUsed: bool)

  /** The result dictionary: content, references, analysis, metadata. */
  datatype ResearchResult = ResearchResult(
    content: Option<Candidate>,
    web: seq<WebSearch.WebRef>,
    videos: seq<VideoSearch.VideoRef>,
    analysis: Option<Candidate>,
    metadata: Metadata)

  /** `"agentic" if use_agents and self.agents_initialized else "standard"`. */
  function Method(useAgents: bool, cfg: SystemConfig): (m: string)
    ensures m == "agentic" <==> useAgents && cfg.agentsInitialized
    ensures m == "standard" <==> !(useAgents && cfg.agentsInitialized)
  {
    if useAgents && cfg.agentsInitialized then "agentic" else "standard"
  }

  /** What a generation mode leaves in `content` and `analysis`, and the notices it shows. */
  datatype Generated = Generated(content: Option<Candidate>, analysis: Option<Candidate>, log: seq<Diagnostic>)

  /** The standard mode's candidates, in the order OpenAI, Anthropic, DeepSeek, and its notices. */
  function StandardVersions(cfg: SystemConfig, topic: string, web: seq<WebSearch.WebRef>, b: Backends): (seq<Candidate>, seq<Diagnostic>) {
    var prompt := StandardPrompt(topic, web);
    var (o, l1) := OpenAIResult(b.openai(DefaultModel, prompt), DefaultModel);
    var (a, l2) := AnthropicResult(cfg.anthropicConfigured, b.anthropic, prompt);
    var (d, l3) := DeepSeekResult(cfg.deepseekConfigured, b.deepseek, prompt);
    (Present([o, a, d]), l1 + l2 + l3)
  }

  /** The standard mode: the first longest candidate, or nothing, or a processing error. */
  function StandardGeneration(cfg: SystemConfig, topic: string, web: seq<WebSearch.WebRef>, b: Backends): Generated {
    var (versions, log) := StandardVersions(cfg, topic, web, b);
    match Select(versions)
    case NoCandidates => Generated(None, None, log)
    case Picked(c) => Generated(Some(c), None, log)
    case KeyFailed => Generated(None, None, log + [ProcessingError])
  }

  /**
   * The agentic mode: research, then polish falling back to the research,
   * then analysis of the content; nothing after a failed research. The agents
   * exist whenever this mode runs, and so does the SDK.
   */
  function AgenticGeneration(team: Team, topic: string, web: seq<WebSearch.WebRef>, b: Backends): Generated {
    var (research, l1) := AgentResult(true, Some(team.research), ResearchPrompt(topic, WebContext(web, 200)), "", b.openai);
    if research.None? then Generated(None, None, l1)
    else
      var (polish, l2) := AgentResult(true, Some(team.content), PolishPrompt(Format(research.value.text)), "", b.openai);
      var content := if polish.Some? then polish.value else research.value;
      var (analysis, l3) := AgentResult(true, Some(team.analysis), AnalysisPrompt(Format(content.text)), "", b.openai);
      Generated(Some(content), analysis, l1 + l2 + l3)
  }

  function Generate(cfg: SystemConfig, topic: string, useAgents: bool, web: seq<WebSearch.WebRef>, b: Backends): Generated {
    if useAgents && cfg.agentsInitialized then AgenticGeneration(Agents, topic, web, b)
    else StandardGeneration(cfg, topic, web, b)
  }

  /** The web references of a query: the deduplicated collection, at most ten. */
  function WebOf(cfg: SystemConfig, b: Backends): seq<WebSearch.WebRef> {
    Prefix(WebSearch.Dedup(WebSearch.Collected(cfg.tavilyAvailable, b.tavily, cfg.serperAvailable, b.serper)), 10)
  }

  /** The video references of a query: the five most viewed, or none when YouTube failed. */
  function VideosOf(b: Backends): seq<VideoSearch.VideoRef> {
    match b.youtube
    case YoutubeRaised => []
    case YoutubeReturned(hits) => VideoSearch.ProjectAll(Prefix(VideoSearch.SortByViews(VideoSearch.Videos(hits)), 5))
  }

  function VideoLog(b: Backends): seq<Diagnostic> {
    if b.youtube.YoutubeRaised? then [VideoSearchError] else []
  }

  /** The provider labels of a candidate list, in order. */
  function Providers(vs: seq<Candidate>): (ps: seq<string>)
    ensures |ps| == |vs| && forall k :: 0 <= k < |vs| ==> ps[k] == vs[k].provider
  {
    if vs == [] then [] else [vs[0].provider] + Providers(vs[1..])
  }

  lemma {:induction false} ProvidersConcat(a: seq<Candidate>, b: seq<Candidate>)
    ensures Providers(a + b) == Providers(a) + Providers(b)
  {
    if a == [] {
      assert a + b == b;
    } else {
      assert (a + b)[0] == a[0];
      assert (a + b)[1..] == a[1..] + b;
      ProvidersConcat(a[1..], b);
    }
  }

  /** The labels of three provider outcomes' successes, in order. */
  lemma ProvidersOfThree(o: Option<Candidate>, a: Option<Candidate>, d: Option<Candidate>)
    ensures Providers(Present([o, a, d]))
         == (if o.Some? then [o.value.provider] else [])
          + (if a.Some? then [a.value.provider] else [])
          + (if d.Some? then [d.value.provider] else [])
  {
    PresentOfThree(o, a, d);
    ProvidersConcat(Success(o) + Success(a), Success(d));
    ProvidersConcat(Success(o), Success(a));
  }

  /**
   * The standard candidates come in the order OpenAI, Anthropic, DeepSeek,
   * one for each provider that was asked and answered, and no others.
   */
  lemma StandardOrder(cfg: SystemConfig, topic: string, web: seq<WebSearch.WebRef>, b: Backends)
    ensures var prompt := StandardPrompt(topic, web);
      Providers(StandardVersions(cfg, topic, web, b).0)
        == (if b.openai(DefaultModel, prompt).Replied? then ["OpenAI-" + DefaultModel] else [])
         + (if cfg.anthropicConfigured && b.anthropic(prompt).Replied? then ["Claude-3.5-Sonnet"] else [])
         + (if cfg.deepseekConfigured && b.deepseek(prompt).Replied? then ["DeepSeek-Chat"] else [])
  {
    var prompt := StandardPrompt(topic, web);
    var (o, l1) := OpenAIResult(b.openai(DefaultModel, prompt), DefaultModel);
    var (a, l2) := AnthropicResult(cfg.anthropicConfigured, b.anthropic, prompt);
    var (d, l3) := DeepSeekResult(cfg.deepseekConfigured, b.deepseek, prompt);
    assert StandardVersions(cfg, topic, web, b).0 == Present([o, a, d]);
    ProvidersOfThree(o, a, d);
  }

  /**
   * Standard content is missing exactly when no provider answered or some
   * answer's text is null; otherwise it is the first longest candidate.
   */
  lemma StandardChoice(cfg: SystemConfig, topic: string, web: seq<WebSearch.WebRef>, b: Backends)
    ensures var vs := StandardVersions(cfg, topic, web, b).0;
      var g := StandardGeneration(cfg, topic, web, b);
      && (g.content.None? <==> vs == [] || !AllText(vs))
      && (g.content.Some? ==> AllText(vs) && g.content.value == vs[LongestIndex(vs)])
      && g.analysis.None?
      && (ProcessingError in g.log <==> vs != [] && !AllText(vs))
  {
    var (vs, log) := StandardVersions(cfg, topic, web, b);
    var prompt := StandardPrompt(topic, web);
    var (o, l1) := OpenAIResult(b.openai(DefaultModel, prompt), DefaultModel);
    var (a, l2) := AnthropicResult(cfg.anthropicConfigured, b.anthropic, prompt);
    var (d, l3) := DeepSeekResult(cfg.deepseekConfigured, b.deepseek, prompt);
    assert ProcessingError !in l1 && ProcessingError !in l2 && ProcessingError !in l3;
    assert log == l1 + l2 + l3;
  }

  /**
   * A null OpenAI text discards the whole standard generation: the `max`
   * key raises, so no content is kept even when other providers answered.
   */
  lemma NullTextDiscardsAll(cfg: SystemConfig, topic: string, web: seq<WebSearch.WebRef>, b: Backends, t: real)
    requires b.openai(DefaultModel, StandardPrompt(topic, web)) == Replied(None, t)
    ensures StandardGeneration(cfg, topic, web, b).content.None?
    ensures ProcessingError in StandardGeneration(cfg, topic, web, b).log
  {
    var vs := StandardVersions(cfg, topic, web, b).0;
    var (o, l1) := OpenAIResult(b.openai(DefaultModel, StandardPrompt(topic, web)), DefaultModel);
    assert vs != [] && vs[0] == o.value && vs[0].text.None?;
    StandardChoice(cfg, topic, web, b);
  }

  /** The research agent's request and result for a query. */
  function Research(team: Team, topic: string, web: seq<WebSearch.WebRef>, b: Backends): Option<Candidate> {
    AgentResult(true, Some(team.research), ResearchPrompt(topic, WebContext(web, 200)), "", b.openai).0
  }

  /** The content agent's result on a research text. */
  function Polish(team: Team, research: Candidate, b: Backends): Option<Candidate> {
    AgentResult(true, Some(team.content), PolishPrompt(Format(research.text)), "", b.openai).0
  }

  /**
   * Agentic content: none without research; otherwise the polished text
   * when there is one, else the research; and analysis only with content.
   */
  lemma AgenticContent(team: Team, topic: string, web: seq<WebSearch.WebRef>, b: Backends)
    ensures var g := AgenticGeneration(team, topic, web, b);
      var research := Research(team, topic, web, b);
      && (research.None? ==> g.content.None? && g.analysis.None?)
      && (research.Some? ==> g.content == Some(if Polish(team, research.value, b).Some? then Polish(team, research.value, b).value else research.value))
      && (g.analysis.Some? ==> g.content.Some?)
  {
    var (research, l1) := AgentResult(true, Some(team.research), ResearchPrompt(topic, WebContext(web, 200)), "", b.openai);
    if research.Some? {
      var (polish, l2) := AgentResult(true, Some(team.content), PolishPrompt(Format(research.value.text)), "", b.openai);
      var content := if polish.Some? then polish.value else research.value;
      var (analysis, l3) := AgentResult(true, Some(team.analysis), AnalysisPrompt(Format(content.text)), "", b.openai);
      assert AgenticGeneration(team, topic, web, b) == Generated(Some(content), analysis, l1 + l2 + l3);
    } else {
      assert AgenticGeneration(team, topic, web, b) == Generated(None, None, l1);
    }
  }

  /** Every agentic result carries the label of the agent that made it. */
  lemma AgenticLabels(team: Team, topic: string, web: seq<WebSearch.WebRef>, b: Backends)
    ensures var g := AgenticGeneration(team, topic, web, b);
      && (g.content.Some? ==> g.content.value.provider == "Agent-" + team.research.name || g.content.value.provider == "Agent-" + team.content.name)
      && (g.analysis.Some? ==> g.analysis.value.provider == "Agent-" + team.analysis.name)
  {
    var (research, l1) := AgentResult(true, Some(team.research), ResearchPrompt(topic, WebContext(web, 200)), "", b.openai);
    AgentResultFacts(true, Some(team.research), ResearchPrompt(topic, WebContext(web, 200)), "", b.openai);
    if research.Some? {
      var (polish, l2) := AgentResult(true, Some(team.content), PolishPrompt(Format(research.value.text)), "", b.openai);
      AgentResultFacts(true, Some(team.content), PolishPrompt(Format(research.value.text)), "", b.openai);
      var content := if polish.Some? then polish.value else research.value;
      var (analysis, l3) := AgentResult(true, Some(team.analysis), AnalysisPrompt(Format(content.text)), "", b.openai);
      AgentResultFacts(true, Some(team.analysis), AnalysisPrompt(Format(content.text)), "", b.openai);
      assert AgenticGeneration(team, topic, web, b) == Generated(Some(content), analysis, l1 + l2 + l3);
    } else {
      assert AgenticGeneration(team, topic, web, b) == Generated(None, None, l1);
    }
  }

  /** The agentic mode never raises the processing error: its only notices are generation errors. */
  lemma AgenticNotices(team: Team, topic: string, web: seq<WebSearch.WebRef>, b: Backends)
    ensures forall d :: d in AgenticGeneration(team, topic, web, b).log ==> d == OpenAIGenerationError
  {
    var (research, l1) := AgentResult(true, Some(team.research), ResearchPrompt(topic, WebContext(web, 200)), "", b.openai);
    AgentNotices(true, Some(team.research), ResearchPrompt(topic, WebContext(web, 200)), "", b.openai);
    if research.Some? {
      var (polish, l2) := AgentResult(true, Some(team.content), PolishPrompt(Format(research.value.text)), "", b.openai);
      AgentNotices(true, Some(team.content), PolishPrompt(Format(research.value.text)), "", b.openai);
      var content := if polish.Some? then polish.value else research.value;
      var (analysis, l3) := AgentResult(true, Some(team.analysis), AnalysisPrompt(Format(content.text)), "", b.openai);
      AgentNotices(true, Some(team.analysis), AnalysisPrompt(Format(content.text)), "", b.openai);
      assert AgenticGeneration(team, topic, web, b).log == l1 + l2 + l3;
    } else {
      assert AgenticGeneration(team, topic, web, b).log == l1;
    }
  }

  lemma AgentNotices(sdkAvailable: bool, agent: Option<Agent>, prompt: string, context: string,
                     ask: (string, string) -> Reply)
    ensures forall d :: d in AgentResult(sdkAvailable, agent, prompt, context, ask).1 ==> d == OpenAIGenerationError
  {
  }

  /** The web references of every query have distinct URLs and number at most ten. */
  lemma WebOfFacts(cfg: SystemConfig, b: Backends)
    ensures WebSearch.UniqueUrls(WebOf(cfg, b)) && |WebOf(cfg, b)| <= 10
  {
    var all := WebSearch.Collected(cfg.tavilyAvailable, b.tavily, cfg.serperAvailable, b.serper);
    WebSearch.DedupUnique(all);
    var d := WebSearch.Dedup(all);
    var p := Prefix(d, 10);
    forall i, j | 0 <= i < j < |p| ensures p[i].url != p[j].url {
      assert p[i] == d[i] && p[j] == d[j];
    }
  }

  /**
   * `process_query_agentic(topic, use_agents)` on a system built from `cfg`;
   * `timestamp` is `datetime.now().isoformat()`.
   */
  method ProcessQuery(cfg: SystemConfig, topic: string, useAgents: bool, timestamp: string, b: Backends)
    returns (result: ResearchResult, log: seq<Diagnostic>)
    ensures result.metadata == Metadata(timestamp, topic, Method(useAgents, cfg), cfg.tavilyAvailable, cfg.serperAvailable)
    ensures result.web == WebOf(cfg, b)
    ensures result.videos == VideosOf(b)
    ensures var g := Generate(cfg, topic, useAgents, result.web, b);
      && result.content == g.content && result.analysis == g.analysis
      && log == WebSearch.SearchLog(cfg.tavilyAvailable, b.tavily, cfg.serperAvailable, b.serper) + VideoLog(b) + g.log
  {
    result := ResearchResult(None, [], [], None, Metadata(timestamp, topic, Method(useAgents, cfg), false, false));

    // Step 1: web search, and which engines were used
    var web, webLog := WebSearch.Search(cfg.tavilyAvailable, b.tavily, cfg.serperAvailable, b.serper, 10);
    result := result.(web := web, metadata := result.metadata.(tavilyUsed := cfg.tavilyAvailable, serperUsed := cfg.serperAvailable));

    // Step 2: video search
    var videos, videoLog := VideoSearch.Search(b.youtube, 5);
    result := result.(videos := videos);

    // Step 3: generation
    var content, analysis, genLog := RunGeneration(cfg, topic, useAgents, web, b);
    result := result.(content := content, analysis := analysis);
    log := webLog + videoLog + genLog;
  }

  /** Generation in the mode the query runs in. */
  method RunGeneration(cfg: SystemConfig, topic: string, useAgents: bool, web: seq<WebSearch.WebRef>, b: Backends)
    returns (content: Option<Candidate>, analysis: Option<Candidate>, log: seq<Diagnostic>)
    ensures Generated(content, analysis, log) == Generate(cfg, topic, useAgents, web, b)
  {
    if useAgents && cfg.agentsInitialized {
      content, analysis, log := RunAgents(Agents, topic, web, b);
    } else {
      content, log := RunProviders(cfg, topic, web, b);
      analysis := None;
    }
  }

  /** The agentic branch: research, polish, analysis. */
  method RunAgents(team: Team, topic: string, web: seq<WebSearch.WebRef>, b: Backends)
    returns (content: Option<Candidate>, analysis: Option<Candidate>, log: seq<Diagnostic>)
    ensures Generated(content, analysis, log) == AgenticGeneration(team, topic, web, b)
  {
    content, analysis := None, None;
    var (research, l1) := AgentResult(true, Some(team.research), ResearchPrompt(topic, WebContext(web, 200)), "", b.openai);
    log := l1;
    if research.Some? {
      var (polish, l2) := AgentResult(true, Some(team.content), PolishPrompt(Format(research.value.text)), "", b.openai);
      log := log + l2;
      content := if polish.Some? then polish else research;
      var (a, l3) := AgentResult(true, Some(team.analysis), AnalysisPrompt(Format(content.value.text)), "", b.openai);
      log := log + l3;
      analysis := a;
    }
  }

  /** The standard branch: ask every provider, keep the successes, choose the longest. */
  method RunProviders(cfg: SystemConfig, topic: string, web: seq<WebSearch.WebRef>, b: Backends)
    returns (content: Option<Candidate>, log: seq<Diagnostic>)
    ensures Generated(content, None, log) == StandardGeneration(cfg, topic, web, b)
  {
    content := None;
    var versions: seq<Candidate> := [];
    var prompt := StandardPrompt(topic, web);
    var (openai, l1) := OpenAIResult(b.openai(DefaultModel, prompt), DefaultModel);
    log := l1;
    if openai.Some? {
      versions := versions + [openai.value];
    }
    assert versions == Success(openai);
    var (anthropic, l2) := AnthropicResult(cfg.anthropicConfigured, b.anthropic, prompt);
    log := log + l2;
    if anthropic.Some? {
      versions := versions + [anthropic.value];
    }
    assert versions == Success(openai) + Success(anthropic);
    var (deepseek, l3) := DeepSeekResult(cfg.deepseekConfigured, b.deepseek, prompt);
    log := log + l3;
    if deepseek.Some? {
      versions := versions + [deepseek.value];
    }
    assert versions == Success(openai) + Success(anthropic) + Success(deepseek);
    PresentOfThree(openai, anthropic, deepseek);
    if versions != [] {
      match Select(versions)
      case Picked(c) =>
        content := Some(c);
      case KeyFailed =>
        log := log + [ProcessingError];
      case NoCandidates =>
    }
  }
}
