/**
 * The earlier `SageLensSystem` (sage-lens.py): two providers tried in turn,
 * the longest answer kept, and the web and video search run only once an
 * answer exists. The content defaults to the empty string and the videos
 * keep YouTube's order.
 */
module Draft {
  import opened Common
  import opened WebSearch
  import opened VideoSearch
  import opened Generation
  import Pipeline

  /**
   * The outcomes of the backends for one query. `gathered` is the list the
   * web search collects before deduplicating, or `None` when collecting it
   * raised; the code that collects it is not part of this model.
   */
  datatype DraftBackends = DraftBackends(
    gathered: Option<seq<WebRef>>,
    youtube: VideoReply,
    openai: (string, string) -> Reply,
    anthropic: string -> Reply)

  /** `result["content"]`: the initial `""`, or the chosen version. */
  datatype DraftContent = Blank | Chosen(version: Candidate)

  datatype DraftResult = DraftResult(content: DraftContent, web: seq<WebRef>, videos: seq<VideoRef>)

  // ---------------------------------------------------------------------
  // Search
  // ---------------------------------------------------------------------

  /** `_search_web`: the first entry per URL, at most ten; a raise gives nothing and a notice. */
  function WebResult(gathered: Option<seq<WebRef>>): (seq<WebRef>, seq<Diagnostic>) {
    match gathered
    case None => ([], [WebSearchError])
    case Some(all) => (Prefix(Dedup(all), 10), [])
  }

  /** `_search_web` with its seen-set comprehension. */
  method SearchWeb(gathered: Option<seq<WebRef>>) returns (r: seq<WebRef>, log: seq<Diagnostic>)
    ensures (r, log) == WebResult(gathered)
    ensures UniqueUrls(r) && |r| <= 10
    ensures gathered.Some? ==> forall k :: 0 <= k < |r| ==> r[k] in gathered.value
  {
    match gathered
    case None =>
      r, log := [], [WebSearchError];
    case Some(all) =>
      var d := DedupByUrl(all);
      r := Prefix(d, 10);
      log := [];
      DedupSubset(all);
      forall i, j | 0 <= i < j < |r| ensures r[i].url != r[j].url {
        assert r[i] == d[i] && r[j] == d[j];
      }
  }

  /** One entry of `_search_videos`: views default to "N/A", and nothing is parsed. */
  function DraftVideo(h: VideoHit): VideoRef
    requires h.id.Some?
  {
    VideoRef(h.title.GetOr("Untitled Video"), WatchUrl + h.id.value, h.views.GetOr("N/A"))
  }

  /** The comprehension over the hits: those with an `id`, in YouTube's order. */
  function DraftVideos(hits: seq<VideoHit>): seq<VideoRef> {
    if hits == [] then []
    else (if hits[0].id.Some? then [DraftVideo(hits[0])] else []) + DraftVideos(hits[1..])
  }

  /** The hits that have an `id`, in order. */
  function WithId(hits: seq<VideoHit>): (r: seq<VideoHit>)
    ensures |r| <= |hits|
    ensures forall k :: 0 <= k < |r| ==> r[k].id.Some? && r[k] in hits
    ensures forall h :: h in hits && h.id.Some? ==> h in r
  {
    if hits == [] then []
    else
      assert forall h :: h in hits <==> h == hits[0] || h in hits[1..];
      (if hits[0].id.Some? then [hits[0]] else []) + WithId(hits[1..])
  }

  /** Filtering a concatenation filters each part and keeps the parts in order. */
  lemma {:induction false} WithIdConcat(a: seq<VideoHit>, b: seq<VideoHit>)
    ensures WithId(a + b) == WithId(a) + WithId(b)
  {
    if a != [] {
      assert (a + b)[0] == a[0];
      assert (a + b)[1..] == a[1..] + b;
      WithIdConcat(a[1..], b);
    } else {
      assert a + b == b;
    }
  }

  /**
   * The draft keeps the hits with an `id` in their own order: the `k`-th
   * entry is made from the `k`-th such hit.
   */
  lemma {:induction false} DraftVideosInOrder(hits: seq<VideoHit>)
    ensures |DraftVideos(hits)| == |WithId(hits)|
    ensures forall k :: 0 <= k < |WithId(hits)| ==> DraftVideos(hits)[k] == DraftVideo(WithId(hits)[k])
  {
    if hits != [] {
      DraftVideosInOrder(hits[1..]);
    }
  }

  /**
   * Against the later version: the same entries before its sort, except
   * that a missing view count reads "N/A" there rather than "0".
   */
  lemma {:induction false} DraftMatchesUnsorted(hits: seq<VideoHit>)
    ensures |DraftVideos(hits)| == |Videos(hits)|
    ensures forall k :: 0 <= k < |Videos(hits)| ==>
      && DraftVideos(hits)[k].title == Videos(hits)[k].title
      && DraftVideos(hits)[k].url == Videos(hits)[k].url
  {
    if hits != [] {
      var p := hits[..|hits| - 1];
      var x := hits[|hits| - 1];
      DraftMatchesUnsorted(p);
      DraftVideosSnoc(p, x);
      assert hits == p + [x];
    }
  }

  lemma {:induction false} DraftVideosSnoc(hits: seq<VideoHit>, x: VideoHit)
    ensures DraftVideos(hits + [x]) == DraftVideos(hits) + (if x.id.Some? then [DraftVideo(x)] else [])
  {
    var tail := if x.id.Some? then [DraftVideo(x)] else [];
    if hits == [] {
      assert [] + [x] == [x];
      assert [x][1..] == [];
      assert DraftVideos([x]) == tail + DraftVideos([]);
    } else {
      var s := hits + [x];
      assert s[0] == hits[0];
      assert s[1..] == hits[1..] + [x];
      DraftVideosSnoc(hits[1..], x);
      var h := if hits[0].id.Some? then [DraftVideo(hits[0])] else [];
      assert DraftVideos(s) == h + DraftVideos(hits[1..] + [x]);
      assert DraftVideos(hits) == h + DraftVideos(hits[1..]);
    }
  }

  /** `_search_videos`: the first five hits with an `id`; a raise gives nothing and a notice. */
  function VideoResult(reply: VideoReply): (r: (seq<VideoRef>, seq<Diagnostic>))
    ensures |r.0| <= 5
    ensures reply.YoutubeRaised? ==> r == ([], [VideoSearchError])
    ensures reply.YoutubeReturned? ==>
      && r.1 == [] && |r.0| <= |DraftVideos(reply.hits)| && r.0 == DraftVideos(reply.hits)[..|r.0|]
      && (|DraftVideos(reply.hits)| >= 5 ==> |r.0| == 5)
      && (|DraftVideos(reply.hits)| < 5 ==> r.0 == DraftVideos(reply.hits))
  {
    match reply
    case YoutubeRaised => ([], [VideoSearchError])
    case YoutubeReturned(hits) => (Prefix(DraftVideos(hits), 5), [])
  }

  // ---------------------------------------------------------------------
  // Generation and the query
  // ---------------------------------------------------------------------

  const DraftModel: string := "gpt-4-turbo"
  const DocumentationLead: string := "Create detailed documentation about: "

  /**
   * `_generate_content`: "anthropic" asks Anthropic, any other provider asks
   * OpenAI for documentation about the topic; a raise gives `None`.
   */
  function GenerateContent(provider: string, topic: string, b: DraftBackends): (r: Option<Candidate>)
    ensures provider == "anthropic" ==> (r.Some? <==> b.anthropic(topic).Replied?)
    ensures provider != "anthropic" ==> (r.Some? <==> b.openai(DraftModel, DocumentationLead + topic).Replied?)
    ensures r.Some? ==> r.value.provider == (if provider == "anthropic" then "Claude-3.5-Sonnet" else "OpenAI-GPT4")
    ensures r.Some? ==>
      var reply := if provider == "anthropic" then b.anthropic(topic) else b.openai(DraftModel, DocumentationLead + topic);
      r.value.text == reply.message && r.value.latency == reply.latency && r.value.agentName.None?
  {
    var reply := if provider == "anthropic" then b.anthropic(topic) else b.openai(DraftModel, DocumentationLead + topic);
    match reply
    case Raised => None
    case Replied(m, t) => Some(Candidate(m, if provider == "anthropic" then "Claude-3.5-Sonnet" else "OpenAI-GPT4", t, None))
  }

  const ProviderNames: seq<string> := ["openai", "anthropic"]

  /** What asking each provider in turn gives. */
  function Attempts(topic: string, b: DraftBackends): (r: seq<Option<Candidate>>)
    ensures |r| == |ProviderNames|
    ensures forall k :: 0 <= k < |r| ==> r[k] == GenerateContent(ProviderNames[k], topic, b)
  {
    [GenerateContent(ProviderNames[0], topic, b), GenerateContent(ProviderNames[1], topic, b)]
  }

  /**
   * `process_query`: the longest version, then the references; with no
   * version nothing is searched, and a failing `max` leaves the initial
   * result and a notice.
   */
  function Outcome(topic: string, b: DraftBackends): (DraftResult, seq<Diagnostic>) {
    var versions := Present(Attempts(topic, b));
    if versions == [] then (DraftResult(Blank, [], []), [])
    else match Select(versions)
      case Picked(c) =>
        var (web, l1) := WebResult(b.gathered);
        var (videos, l2) := VideoResult(b.youtube);
        (DraftResult(Chosen(c), web, videos), l1 + l2)
      case _ => (DraftResult(Blank, [], []), [ProcessingError])
  }

  method ProcessQuery(topic: string, b: DraftBackends) returns (result: DraftResult, log: seq<Diagnostic>)
    ensures (result, log) == Outcome(topic, b)
  {
    result := DraftResult(Blank, [], []);
    log := [];
    var attempts := Attempts(topic, b);
    var versions: seq<Candidate> := [];
    for i := 0 to |ProviderNames|
      invariant versions == Present(attempts[..i])
    {
      var content := GenerateContent(ProviderNames[i], topic, b);
      assert content == attempts[i];
      PresentSnoc(attempts[..i], content);
      assert attempts[..i + 1] == attempts[..i] + [content];
      if content.Some? {
        versions := versions + [content.value];
      }
    }
    assert attempts[..|ProviderNames|] == attempts;
    if versions != [] {
      match Select(versions)
      case Picked(c) =>
        result := result.(content := Chosen(c));
        var web, l1 := SearchWeb(b.gathered);
        result := result.(web := web);
        var (videos, l2) := VideoResult(b.youtube);
        result := result.(videos := videos);
        log := l1 + l2;
      case KeyFailed =>
        log := [ProcessingError];
      case NoCandidates =>
    }
  }

  // ---------------------------------------------------------------------
  // Properties
  // ---------------------------------------------------------------------

  /** The versions come in the order OpenAI, Anthropic: one per provider that answered. */
  lemma DraftOrder(topic: string, b: DraftBackends)
    ensures Pipeline.Providers(Present(Attempts(topic, b)))
         == (if b.openai(DraftModel, DocumentationLead + topic).Replied? then ["OpenAI-GPT4"] else [])
          + (if b.anthropic(topic).Replied? then ["Claude-3.5-Sonnet"] else [])
  {
    var o := GenerateContent(ProviderNames[0], topic, b);
    var a := GenerateContent(ProviderNames[1], topic, b);
    assert ProviderNames[0] != "anthropic" && ProviderNames[1] == "anthropic";
    PresentSnoc([o], a);
    PresentSnoc([], o);
    assert [] + [o] == [o] && [o] + [a] == [o, a];
    var po := if o.Some? then [o.value] else [];
    var pa := if a.Some? then [a.value] else [];
    assert Present([o, a]) == po + pa;
    Pipeline.ProvidersConcat(po, pa);
  }

  /**
   * The references are searched only when content was chosen: a blank
   * result has no web and no video references.
   */
  lemma SearchOnlyAfterContent(topic: string, b: DraftBackends)
    ensures var (r, _) := Outcome(topic, b);
      r.content.Blank? ==> r.web == [] && r.videos == []
  {
  }

  /** With no provider answering, the result is blank and no notice is shown. */
  lemma NoAnswerIsBlank(topic: string, b: DraftBackends)
    requires b.openai(DraftModel, DocumentationLead + topic).Raised? && b.anthropic(topic).Raised?
    ensures Outcome(topic, b) == (DraftResult(Blank, [], []), [])
  {
    assert ProviderNames[0] != "anthropic" && ProviderNames[1] == "anthropic";
    var none: seq<Option<Candidate>> := [None, None];
    assert Attempts(topic, b) == none;
    assert none[1..] == [None] && none[1..][1..] == [];
    assert Present(none) == [];
  }

  /** Chosen content is the first version of greatest length, and it has a text. */
  lemma ChosenIsFirstLongest(topic: string, b: DraftBackends)
    ensures var (r, _) := Outcome(topic, b);
      var versions := Present(Attempts(topic, b));
      r.content.Chosen? ==>
        && versions != [] && AllText(versions)
        && r.content.version == versions[LongestIndex(versions)]
  {
  }

  /**
   * A `None` text from OpenAI makes `len` raise inside `max`: the initial
   * result comes back, with no content and no references, whatever
   * Anthropic answered.
   */
  lemma NullTextKeepsInitial(topic: string, b: DraftBackends, t: real)
    requires b.openai(DraftModel, DocumentationLead + topic) == Replied(None, t)
    ensures Outcome(topic, b) == (DraftResult(Blank, [], []), [ProcessingError])
  {
    var o := GenerateContent(ProviderNames[0], topic, b);
    var a := GenerateContent(ProviderNames[1], topic, b);
    assert ProviderNames[0] != "anthropic";
    assert o == Some(Candidate(None, "OpenAI-GPT4", t, None));
    PresentSnoc([o], a);
    PresentSnoc([], o);
    assert [] + [o] == [o] && [o] + [a] == [o, a];
    var versions := Present(Attempts(topic, b));
    assert versions[0] == o.value;
  }
}
