/** Values shared by every component of the research pipeline. */
module Common {

  /** A value that may be missing: a JSON key that is absent, or a Python `None`. */
  datatype Option<+T> = None | Some(value: T) {

    /** Python's `d.get(key, default)` on a key that is present or absent. */
    function GetOr(default: T): T {
      match this
      case Some(v) => v
      case None => default
    }
  }

  /** Python truthiness of an optional string: present and non-empty. */
  predicate Truthy(o: Option<string>) {
    o.Some? && o.value != ""
  }

  /** The text an f-string gives for an optional string: Python formats `None` as "None". */
  function Format(o: Option<string>): (r: string)
    ensures o.Some? ==> r == o.value
    ensures o.None? ==> r == "None"
  {
    match o
    case Some(s) => s
    case None => "None"
  }

  /** Python's slice `s[:n]`: a negative `n` counts from the end. */
  function Prefix<T>(s: seq<T>, n: int): (r: seq<T>)
    ensures |r| <= |s| && r == s[..|r|]
    ensures 0 <= n <= |s| ==> |r| == n
    ensures n > |s| ==> r == s
    ensures n < 0 ==> |r| == if |s| + n > 0 then |s| + n else 0
  {
    if n >= 0 then (if n < |s| then s[..n] else s)
    else if |s| + n > 0 then s[..|s| + n]
    else []
  }

  /**
   * Non-fatal notices the pipeline shows to the operator (`st.warning` and
   * `st.error` calls that do not stop the script).
   */
  datatype Diagnostic =
    | TavilySearchError
    | WebSearchError
    | SerperApiError(status: int)
    | SerperConnectionError
    | SerperSearchError
    | VideoSearchError
    | OpenAIGenerationError
    | AnthropicGenerationError
    | DeepSeekGenerationError
    | ProcessingError
  {
    /** The notices the search tools can emit. */
    predicate IsSearchNotice() {
      TavilySearchError? || WebSearchError? || SerperApiError? || SerperConnectionError? || SerperSearchError? || VideoSearchError?
    }
  }
}
