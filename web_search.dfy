/**
 * Web result aggregation, `WebSearchTool.search`: the Tavily hits, then the
 * Serper knowledge-graph entry, then the Serper organic hits, deduplicated
 * by exact URL (first seen wins) and cut to `max_results`.
 */
module WebSearch {
  import opened Common

  /** A normalised web reference `{title, url, snippet}`. */
  datatype WebRef = WebRef(title: string, url: string, snippet: string)

  /** One entry of Tavily's `results` list; `None` is a key the entry lacks. */
  datatype TavilyHit = TavilyHit(title: Option<string>, url: Option<string>, content: Option<string>)

  /** What `self.tavily.search(...)` did: raised, or returned a reply whose `results` key may be missing. */
  datatype TavilyReply = TavilyRaised | TavilyReturned(results: Option<seq<TavilyHit>>)

  datatype KnowledgeGraph = KnowledgeGraph(title: Option<string>, websiteUrl: Option<string>, description: Option<string>)

  datatype OrganicHit = OrganicHit(title: Option<string>, link: Option<string>, snippet: Option<string>)

  /** The decoded JSON of a Serper reply; `None` is a key the reply lacks. */
  datatype SerperBody = SerperBody(organic: Option<seq<OrganicHit>>, knowledgeGraph: Option<KnowledgeGraph>)

  /**
   * What the Serper POST did: an HTTP reply with its status and decoded body,
   * a `requests.exceptions.RequestException`, or any other exception.
   */
  datatype SerperReply =
    | SerperHttp(status: int, body: SerperBody)
    | SerperRequestFailed
    | SerperFailed

  // ---------------------------------------------------------------------
  // Normalisation of each backend's hits
  // ---------------------------------------------------------------------

  function TavilyRef(h: TavilyHit): WebRef
    requires h.url.Some?
  {
    WebRef(h.title.GetOr("Untitled"), h.url.value, h.content.GetOr(""))
  }

  /** The Tavily hits that carry a `url` key, in their own order. */
  function WithUrl(hits: seq<TavilyHit>): (r: seq<TavilyHit>)
    ensures |r| <= |hits|
    ensures forall k :: 0 <= k < |r| ==> r[k].url.Some? && r[k] in hits
    ensures forall h :: h in hits && h.url.Some? ==> h in r
  {
    if hits == [] then []
    else
      assert forall h :: h in hits <==> h == hits[0] || h in hits[1..];
      (if hits[0].url.Some? then [hits[0]] else []) + WithUrl(hits[1..])
  }

  /** Filtering a concatenation filters each part and keeps the parts in order. */
  lemma {:induction false} WithUrlConcat(a: seq<TavilyHit>, b: seq<TavilyHit>)
    ensures WithUrl(a + b) == WithUrl(a) + WithUrl(b)
  {
    if a != [] {
      assert (a + b)[0] == a[0];
      assert (a + b)[1..] == a[1..] + b;
      WithUrlConcat(a[1..], b);
    } else {
      assert a + b == b;
    }
  }

  /**
   * Tavily hits without a `url` key are dropped; the others are normalised
   * in order: the `k`-th reference is made from the `k`-th hit with a `url`.
   */
  function TavilyRefs(hits: seq<TavilyHit>): (r: seq<WebRef>)
    ensures |r| <= |hits|
    ensures forall w :: w in r <==> exists h :: h in hits && h.url.Some? && w == TavilyRef(h)
    ensures |r| == |WithUrl(hits)|
    ensures forall k :: 0 <= k < |r| ==> r[k] == TavilyRef(WithUrl(hits)[k])
  {
    if hits == [] then []
    else
      var rest := TavilyRefs(hits[1..]);
      assert forall h :: h in hits <==> h == hits[0] || h in hits[1..];
      (if hits[0].url.Some? then [TavilyRef(hits[0])] else []) + rest
  }

  function TavilyPart(reply: TavilyReply): seq<WebRef> {
    match reply
    case TavilyRaised => []
    case TavilyReturned(results) => TavilyRefs(results.GetOr([]))
  }

  /** The knowledge-graph entry, present only when the graph has a truthy `websiteUrl`. */
  function KnowledgeGraphRefs(kg: Option<KnowledgeGraph>): seq<WebRef> {
    if kg.Some? && Truthy(kg.value.websiteUrl) then
      [WebRef(kg.value.title.GetOr("Knowledge Graph"), kg.value.websiteUrl.value, kg.value.description.GetOr(""))]
    else []
  }

  function OrganicRef(h: OrganicHit): WebRef
    requires Truthy(h.link)
  {
    WebRef(h.title.GetOr("Untitled"), h.link.value, h.snippet.GetOr(""))
  }

  /** The organic hits whose `link` is truthy, in their own order. */
  function WithLink(hits: seq<OrganicHit>): (r: seq<OrganicHit>)
    ensures |r| <= |hits|
    ensures forall k :: 0 <= k < |r| ==> Truthy(r[k].link) && r[k] in hits
    ensures forall h :: h in hits && Truthy(h.link) ==> h in r
  {
    if hits == [] then []
    else
      assert forall h :: h in hits <==> h == hits[0] || h in hits[1..];
      (if Truthy(hits[0].link) then [hits[0]] else []) + WithLink(hits[1..])
  }

  /** Filtering a concatenation filters each part and keeps the parts in order. */
  lemma {:induction false} WithLinkConcat(a: seq<OrganicHit>, b: seq<OrganicHit>)
    ensures WithLink(a + b) == WithLink(a) + WithLink(b)
  {
    if a != [] {
      assert (a + b)[0] == a[0];
      assert (a + b)[1..] == a[1..] + b;
      WithLinkConcat(a[1..], b);
    } else {
      assert a + b == b;
    }
  }

  /**
   * Organic hits with a missing or empty `link` are dropped; the others are
   * normalised in order: the `k`-th reference is made from the `k`-th hit
   * with a truthy `link`.
   */
  function OrganicRefs(hits: seq<OrganicHit>): (r: seq<WebRef>)
    ensures |r| <= |hits|
    ensures forall k :: 0 <= k < |r| ==> r[k].url != ""
    ensures forall w :: w in r <==> exists h :: h in hits && Truthy(h.link) && w == OrganicRef(h)
    ensures |r| == |WithLink(hits)|
    ensures forall k :: 0 <= k < |r| ==> r[k] == OrganicRef(WithLink(hits)[k])
  {
    if hits == [] then []
    else
      var rest := OrganicRefs(hits[1..]);
      assert forall h :: h in hits <==> h == hits[0] || h in hits[1..];
      (if Truthy(hits[0].link) then [OrganicRef(hits[0])] else []) + rest
  }

  /** Serper contributes only on status 200: its knowledge-graph entry, then its organic hits. */
  function SerperPart(reply: SerperReply): seq<WebRef> {
    if reply.SerperHttp? && reply.status == 200 then
      KnowledgeGraphRefs(reply.body.knowledgeGraph) + OrganicRefs(reply.body.organic.GetOr([]))
    else []
  }

  /** `all_results` once both backends have run; an unconfigured backend is skipped. */
  function Collected(tavilyOn: bool, tavily: TavilyReply, serperOn: bool, serper: SerperReply): seq<WebRef> {
    (if tavilyOn then TavilyPart(tavily) else []) + (if serperOn then SerperPart(serper) else [])
  }

  /** The notice for a Serper reply: none on 200 and, silently, none on 403. */
  function SerperLog(reply: SerperReply): seq<Diagnostic> {
    match reply
    case SerperHttp(status, _) => if status == 200 || status == 403 then [] else [SerperApiError(status)]
    case SerperRequestFailed => [SerperConnectionError]
    case SerperFailed => [SerperSearchError]
  }

  function SearchLog(tavilyOn: bool, tavily: TavilyReply, serperOn: bool, serper: SerperReply): (log: seq<Diagnostic>)
    ensures forall d :: d in log ==> d.IsSearchNotice()
  {
    (if tavilyOn && tavily.TavilyRaised? then [TavilySearchError] else [])
    + (if serperOn then SerperLog(serper) else [])
  }

  // ---------------------------------------------------------------------
  // Deduplication by URL
  // ---------------------------------------------------------------------

  /** The URLs occurring in `s`. */
  function Urls(s: seq<WebRef>): set<string> {
    if s == [] then {} else Urls(s[..|s| - 1]) + {s[|s| - 1].url}
  }

  lemma {:induction false} UrlsMembership(s: seq<WebRef>)
    ensures forall i :: 0 <= i < |s| ==> s[i].url in Urls(s)
    ensures forall u :: u in Urls(s) ==> exists i :: 0 <= i < |s| && s[i].url == u
  {
    if s != [] {
      var p := s[..|s| - 1];
      UrlsMembership(p);
      assert forall i :: 0 <= i < |p| ==> p[i] == s[i];
    }
  }

  lemma {:induction false} UrlsConcat(a: seq<WebRef>, b: seq<WebRef>)
    ensures Urls(a + b) == Urls(a) + Urls(b)
  {
    if b != [] {
      assert (a + b)[..|a + b| - 1] == a + b[..|b| - 1];
      UrlsConcat(a, b[..|b| - 1]);
    } else {
      assert a + b == a;
    }
  }

  /** Position `i` holds the first occurrence of its URL. */
  predicate FirstOccurrence(s: seq<WebRef>, i: nat)
    requires i < |s|
  {
    s[i].url !in Urls(s[..i])
  }

  /** No two entries share a URL. */
  predicate UniqueUrls(s: seq<WebRef>) {
    forall i, j :: 0 <= i < j < |s| ==> s[i].url != s[j].url
  }

  /** The entries of `s` that are first occurrences of their URL, in order. */
  function Dedup(s: seq<WebRef>): seq<WebRef> {
    if s == [] then []
    else if s[|s| - 1].url in Urls(s[..|s| - 1]) then Dedup(s[..|s| - 1])
    else Dedup(s[..|s| - 1]) + [s[|s| - 1]]
  }

  /**
   * The indices of the first occurrences in `s`: strictly increasing, and
   * holding exactly the positions at which a URL is seen first.
   */
  function FirstIndices(s: seq<WebRef>): (ix: seq<nat>)
    ensures forall k :: 0 <= k < |ix| ==> ix[k] < |s|
    ensures forall k1, k2 :: 0 <= k1 < k2 < |ix| ==> ix[k1] < ix[k2]
    ensures forall i :: 0 <= i < |s| ==> (i in ix <==> FirstOccurrence(s, i))
  {
    if s == [] then []
    else
      var p := s[..|s| - 1];
      var rest := FirstIndices(p);
      assert forall i :: 0 <= i < |p| ==> s[..i] == p[..i] && s[i] == p[i];
      if s[|s| - 1].url in Urls(p) then rest else rest + [|s| - 1]
  }

  /** `Dedup(s)` is `s` restricted to `FirstIndices(s)`: an order-preserving subsequence of first occurrences. */
  lemma {:induction false} DedupIsFirstOccurrences(s: seq<WebRef>)
    ensures |Dedup(s)| == |FirstIndices(s)|
    ensures forall k :: 0 <= k < |Dedup(s)| ==> Dedup(s)[k] == s[FirstIndices(s)[k]]
  {
    if s != [] {
      var p := s[..|s| - 1];
      DedupIsFirstOccurrences(p);
      assert forall i :: 0 <= i < |p| ==> s[i] == p[i];
    }
  }

  /** Deduplication keeps every URL. */
  lemma {:induction false} DedupKeepsUrls(s: seq<WebRef>)
    ensures Urls(Dedup(s)) == Urls(s)
  {
    if s != [] {
      var p := s[..|s| - 1];
      DedupKeepsUrls(p);
      var d := Dedup(p);
      assert (d + [s[|s| - 1]])[..|d|] == d;
    }
  }

  /** Deduplication leaves no two entries with the same URL. */
  lemma {:induction false} DedupUnique(s: seq<WebRef>)
    ensures UniqueUrls(Dedup(s))
  {
    if s != [] {
      var p, x := s[..|s| - 1], s[|s| - 1];
      DedupUnique(p);
      if x.url !in Urls(p) {
        var d := Dedup(p);
        DedupKeepsUrls(p);
        UrlsMembership(d);
        assert Dedup(s) == d + [x];
        forall i, j | 0 <= i < j < |d| + 1 ensures (d + [x])[i].url != (d + [x])[j].url {
          if j == |d| {
            assert d[i].url in Urls(d);
          }
        }
      }
    }
  }

  /** Deduplication keeps one entry per distinct URL. */
  lemma {:induction false} DedupLength(s: seq<WebRef>)
    ensures |Dedup(s)| == |Urls(s)|
  {
    if s != [] {
      var p, x := s[..|s| - 1], s[|s| - 1];
      DedupLength(p);
      if x.url in Urls(p) {
        assert Urls(s) == Urls(p);
        assert Dedup(s) == Dedup(p);
      } else {
        assert Urls(s) == Urls(p) + {x.url};
        assert Dedup(s) == Dedup(p) + [x];
      }
    }
  }

  /** Every kept entry is an entry of the input. */
  lemma DedupSubset(s: seq<WebRef>)
    ensures forall k :: 0 <= k < |Dedup(s)| ==> Dedup(s)[k] in s
  {
    DedupIsFirstOccurrences(s);
  }

  /**
   * Two sources merged: one entry per URL of either source. With six
   * distinct Tavily URLs and four Serper URLs of which two repeat Tavily's,
   * eight entries remain.
   */
  lemma DedupOfTwoSources(a: seq<WebRef>, b: seq<WebRef>)
    ensures |Dedup(a + b)| == |Urls(a) + Urls(b)|
  {
    DedupLength(a + b);
    UrlsConcat(a, b);
  }

  /** The seen-set comprehension: keep an entry when its URL was not seen, then mark it seen. */
  method DedupByUrl(s: seq<WebRef>) returns (r: seq<WebRef>)
    ensures r == Dedup(s)
    ensures UniqueUrls(r)
  {
    var seen: set<string> := {};
    r := [];
    var i := 0;
    while i < |s|
      invariant 0 <= i <= |s|
      invariant seen == Urls(s[..i])
      invariant r == Dedup(s[..i])
    {
      assert s[..i + 1][..i] == s[..i];
      if s[i].url !in seen {
        r := r + [s[i]];
        seen := seen + {s[i].url};
      }
      i := i + 1;
    }
    assert s[..i] == s;
    DedupUnique(s);
  }

  // ---------------------------------------------------------------------
  // The search
  // ---------------------------------------------------------------------

  /** The Tavily block: a raised search contributes nothing and leaves a notice. */
  method AskTavily(tavily: TavilyReply) returns (hits: seq<WebRef>, log: seq<Diagnostic>)
    ensures hits == TavilyPart(tavily)
    ensures log == if tavily.TavilyRaised? then [TavilySearchError] else []
  {
    match tavily
    case TavilyRaised =>
      hits, log := [], [TavilySearchError];
    case TavilyReturned(results) =>
      hits, log := TavilyRefs(results.GetOr([])), [];
  }

  /** The Serper block: the knowledge-graph entry is appended before the organic hits, on status 200 only. */
  method AskSerper(serper: SerperReply) returns (hits: seq<WebRef>, log: seq<Diagnostic>)
    ensures hits == SerperPart(serper)
    ensures log == SerperLog(serper)
  {
    hits, log := [], [];
    match serper
    case SerperHttp(status, body) =>
      if status == 200 {
        var kg := body.knowledgeGraph;
        if kg.Some? && Truthy(kg.value.websiteUrl) {
          hits := hits + [WebRef(kg.value.title.GetOr("Knowledge Graph"), kg.value.websiteUrl.value, kg.value.description.GetOr(""))];
        }
        hits := hits + OrganicRefs(body.organic.GetOr([]));
      } else if status == 403 {
        // Serper is skipped without a notice; Tavily's hits still count.
      } else {
        log := [SerperApiError(status)];
      }
    case SerperRequestFailed =>
      log := [SerperConnectionError];
    case SerperFailed =>
      log := [SerperSearchError];
  }

  /**
   * The collection phase of `WebSearchTool.search`: each configured backend
   * is asked in turn, Tavily first, and its failure stays within its own
   * contribution.
   */
  method CollectAll(tavilyOn: bool, tavily: TavilyReply, serperOn: bool, serper: SerperReply)
    returns (all: seq<WebRef>, log: seq<Diagnostic>)
    ensures all == Collected(tavilyOn, tavily, serperOn, serper)
    ensures log == SearchLog(tavilyOn, tavily, serperOn, serper)
  {
    var fromTavily, fromSerper: seq<WebRef> := [], [];
    var tavilyLog, serperLog: seq<Diagnostic> := [], [];
    if tavilyOn {
      fromTavily, tavilyLog := AskTavily(tavily);
    }
    if serperOn {
      fromSerper, serperLog := AskSerper(serper);
    }
    all := fromTavily + fromSerper;
    log := tavilyLog + serperLog;
  }

  /**
   * `WebSearchTool.search`: collect from each configured backend, then
   * deduplicate by URL and truncate.
   */
  method Search(tavilyOn: bool, tavily: TavilyReply, serperOn: bool, serper: SerperReply, maxResults: int)
    returns (r: seq<WebRef>, log: seq<Diagnostic>)
    ensures r == Prefix(Dedup(Collected(tavilyOn, tavily, serperOn, serper)), maxResults)
    ensures log == SearchLog(tavilyOn, tavily, serperOn, serper)
    ensures UniqueUrls(r)
    ensures maxResults >= 0 ==> |r| <= maxResults
    ensures 0 <= maxResults <= |Dedup(Collected(tavilyOn, tavily, serperOn, serper))| ==> |r| == maxResults
    ensures forall k :: 0 <= k < |r| ==> r[k] in Collected(tavilyOn, tavily, serperOn, serper)
  {
    var all;
    all, log := CollectAll(tavilyOn, tavily, serperOn, serper);
    var unique := DedupByUrl(all);
    r := Prefix(unique, maxResults);
    DedupSubset(all);
  }

  // ---------------------------------------------------------------------
  // Failure isolation
  // ---------------------------------------------------------------------

  /** A Serper reply other than 200 contributes nothing; Tavily's hits are all that remain. */
  lemma SerperFailureIsolated(tavilyOn: bool, tavily: TavilyReply, serper: SerperReply)
    requires !(serper.SerperHttp? && serper.status == 200)
    ensures Collected(tavilyOn, tavily, true, serper) == Collected(tavilyOn, tavily, false, serper)
    ensures Collected(tavilyOn, tavily, true, serper) == if tavilyOn then TavilyPart(tavily) else []
  {
  }

  /** A 403 from Serper is silent; any other failure leaves exactly one notice. */
  lemma SerperNotices(serper: SerperReply)
    ensures serper.SerperHttp? && serper.status in {200, 403} ==> SerperLog(serper) == []
    ensures !(serper.SerperHttp? && serper.status in {200, 403}) ==> |SerperLog(serper)| == 1
  {
  }

  /** On status 200 with a truthy `websiteUrl`, the knowledge-graph entry comes before the organic hits. */
  lemma KnowledgeGraphFirst(serper: SerperReply)
    requires serper.SerperHttp? && serper.status == 200
    requires serper.body.knowledgeGraph.Some? && Truthy(serper.body.knowledgeGraph.value.websiteUrl)
    ensures |SerperPart(serper)| >= 1
    ensures SerperPart(serper)[0].url == serper.body.knowledgeGraph.value.websiteUrl.value
    ensures SerperPart(serper)[1..] == OrganicRefs(serper.body.organic.GetOr([]))
  {
  }
}
