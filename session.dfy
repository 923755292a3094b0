/**
 * The session state `main` keeps between reruns: the history of results,
 * the result on display and the number of queries, with the updates the
 * "Generate", "Clear History" and "Load Version" buttons make.
 */
module Session {
  import opened Common
  import opened PyStr
  import opened Config
  import Pipeline
  import WebSearch

  /** Python's `s[-n:]` for `n >= 0`: the last `n` elements, or all of them. */
  function Last<T>(s: seq<T>, n: nat): (r: seq<T>)
    ensures |r| == if |s| < n then |s| else n
    ensures r == s[|s| - |r|..]
  {
    if |s| < n then s else s[|s| - n..]
  }

  function Reversed<T>(s: seq<T>): (r: seq<T>)
    ensures |r| == |s|
  {
    if s == [] then [] else Reversed(s[1..]) + [s[0]]
  }

  lemma {:induction false} ReversedAt<T>(s: seq<T>, k: nat)
    requires k < |s|
    ensures Reversed(s)[k] == s[|s| - 1 - k]
  {
    if k < |s| - 1 {
      ReversedAt(s[1..], k);
    }
  }

  /**
   * `enumerate(rs, i)` with each position `i` shown as the version number
   * `total - i + 1`.
   */
  function Numbered(rs: seq<Pipeline.ResearchResult>, total: int, i: int): (r: seq<(int, Pipeline.ResearchResult)>)
    ensures |r| == |rs|
  {
    if rs == [] then [] else [(total - i + 1, rs[0])] + Numbered(rs[1..], total, i + 1)
  }

  lemma {:induction false} NumberedAt(rs: seq<Pipeline.ResearchResult>, total: int, i: int, k: nat)
    requires k < |rs|
    ensures Numbered(rs, total, i)[k] == (total - (i + k) + 1, rs[k])
  {
    if k > 0 {
      NumberedAt(rs[1..], total, i + 1, k - 1);
    }
  }

  /**
   * The version list: with more than one result in the history, the last
   * five, newest first, numbered `len(history) - i + 1` for `i` from 1;
   * otherwise nothing.
   */
  function Versions(history: seq<Pipeline.ResearchResult>): seq<(int, Pipeline.ResearchResult)> {
    if |history| > 1 then Numbered(Reversed(Last(history, 5)), |history|, 1) else []
  }

  /**
   * Each listed version's number is its 1-based position in the history and
   * the entry shown is that history entry: newest first, at most five, and
   * none when the history holds fewer than two results.
   */
  lemma VersionsAt(history: seq<Pipeline.ResearchResult>, k: nat)
    requires k < |Versions(history)|
    ensures |history| > 1 && k < 5
    ensures Versions(history)[k] == (|history| - k, history[|history| - 1 - k])
  {
    var last := Last(history, 5);
    ReversedAt(last, k);
    NumberedAt(Reversed(last), |history|, 1, k);
  }

  /** How many versions are listed. */
  lemma VersionsLength(history: seq<Pipeline.ResearchResult>)
    ensures |Versions(history)| == if |history| <= 1 then 0 else if |history| < 5 then |history| else 5
  {
  }

  /** What `process_query_agentic` gives for one query: its result and its notices. */
  predicate Ran(cfg: SystemConfig, topic: string, useAgents: bool, timestamp: string, b: Pipeline.Backends,
                result: Pipeline.ResearchResult, log: seq<Diagnostic>)
  {
    var g := Pipeline.Generate(cfg, topic, useAgents, Pipeline.WebOf(cfg, b), b);
    && result.metadata == Pipeline.Metadata(timestamp, topic, Pipeline.Method(useAgents, cfg), cfg.tavilyAvailable, cfg.serperAvailable)
    && result.web == Pipeline.WebOf(cfg, b)
    && result.videos == Pipeline.VideosOf(b)
    && result.content == g.content && result.analysis == g.analysis
    && log == WebSearch.SearchLog(cfg.tavilyAvailable, b.tavily, cfg.serperAvailable, b.serper) + Pipeline.VideoLog(b) + g.log
  }

  class Session {
    var history: seq<Pipeline.ResearchResult>
    var current: Option<Pipeline.ResearchResult>
    var queryCount: nat

    /**
     * Every stored result has content, the counter counts the stored
     * results, and the result on display is one of them.
     */
    predicate Valid()
      reads this
    {
      && queryCount == |history|
      && (forall k :: 0 <= k < |history| ==> history[k].content.Some?)
      && (current.Some? ==> current.value in history)
    }

    /** The first run of the script: nothing stored, nothing shown. */
    constructor ()
      ensures Valid()
      ensures history == [] && current == None && queryCount == 0
    {
      history := [];
      current := None;
      queryCount := 0;
    }

    /** A result with content is shown, stored and counted; any other is dropped. */
    method Record(result: Pipeline.ResearchResult)
      requires Valid()
      modifies this
      ensures Valid()
      ensures result.content.Some? ==> history == old(history) + [result] && current == Some(result) && queryCount == old(queryCount) + 1
      ensures result.content.None? ==> history == old(history) && current == old(current) && queryCount == old(queryCount)
    {
      if result.content.Some? {
        current := Some(result);
        history := history + [result];
        queryCount := queryCount + 1;
      }
    }

    /** "Clear History": everything is reset. */
    method Clear()
      modifies this
      ensures Valid()
      ensures history == [] && current == None && queryCount == 0
    {
      history := [];
      current := None;
      queryCount := 0;
    }

    /** The versions the history section lists. */
    function Listed(): (vs: seq<(int, Pipeline.ResearchResult)>)
      reads this
      ensures |vs| <= 5 && |vs| <= |history| && (|history| <= 1 ==> vs == [])
      ensures forall k :: 0 <= k < |vs| ==> vs[k] == (|history| - k, history[|history| - 1 - k])
    {
      var vs := Versions(history);
      forall k | 0 <= k < |vs| ensures vs[k] == (|history| - k, history[|history| - 1 - k]) {
        VersionsAt(history, k);
      }
      VersionsLength(history);
      vs
    }

    /**
     * "Load Version" on the `i`-th listed version (counting from 1): that
     * entry becomes the result on display; the history is untouched. A
     * position that is not listed has no button and changes nothing.
     */
    method LoadVersion(i: int)
      requires Valid()
      modifies this`current
      ensures Valid()
      ensures 1 <= i <= |Listed()| ==> current == Some(history[|history| - i])
      ensures !(1 <= i <= |Listed()|) ==> current == old(current)
    {
      var vs := Listed();
      if 1 <= i <= |vs| {
        current := Some(vs[i - 1].1);
      }
    }

    /**
     * The "Generate" button: with a non-blank topic, the system is built from
     * the keys and runs the query, and the result is recorded. A failed build
     * stops the script before anything changes. `built` is what building the
     * system gave: `LoadConfig` on the secrets and the environment.
     */
    method Submit(pressed: bool, topic: string, useAgents: bool, built: Result<SystemConfig>,
                  timestamp: string, b: Pipeline.Backends)
      returns (ran: bool, result: Pipeline.ResearchResult, log: seq<Diagnostic>)
      requires Valid()
      modifies this
      ensures Valid()
      ensures ran <==> pressed && Strip(topic, Whitespace) != "" && built.Ok?
      ensures ran ==> Ran(built.value, topic, useAgents, timestamp, b, result, log)
      ensures ran && result.content.Some? ==> history == old(history) + [result] && current == Some(result) && queryCount == old(queryCount) + 1
      ensures !ran || result.content.None? ==> history == old(history) && current == old(current) && queryCount == old(queryCount)
      ensures !ran ==> log == []
    {
      ran := pressed && Strip(topic, Whitespace) != "" && built.Ok?;
      log := [];
      result := Pipeline.ResearchResult(None, [], [], None, Pipeline.Metadata(timestamp, topic, "", false, false));
      if ran {
        result, log := Pipeline.ProcessQuery(built.value, topic, useAgents, timestamp, b);
        Record(result);
      }
    }
  }
}
