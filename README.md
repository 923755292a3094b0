# Sage-Lens research pipeline in Dafny

Sage-Lens is a Streamlit research assistant. The user types a topic and
presses "Generate". The system collects web references from Tavily and from
Google Serper and video references from YouTube. It then writes a research
document, in one of two ways:

- in agentic mode, three agents run in turn (research, content, analysis),
  and each one is a GPT-4-turbo request wrapped in that agent's
  instructions;
- in standard mode, OpenAI, Anthropic and DeepSeek are each asked, and the
  longest answer is kept.

Each result with content goes into a per-session history. The last five
entries of that history can be loaded again.

This project models that core as Dafny code and proves properties of it:

- `Common`: optional values, Python's `s[:n]` slice, and the operator
  notices (`st.warning` and `st.error` calls that do not stop the script).
- `PyStr`: the Python string methods the code relies on: `strip()`,
  `strip(c)`, `replace`, `isdigit` and `join`.
- `WebSearch`: `WebSearchTool.search`. Each backend's hits are normalised,
  the two lists are merged in a fixed order, duplicates are dropped by
  exact URL (the first one seen is kept), and the list is cut to
  `max_results`.
- `VideoSearch`: `VideoSearchTool.search`. View strings are read as
  numbers, hits are sorted stably from most to least viewed, the list is
  cut, and the number is dropped again.
- `Config`: `get_secret` and the configuration the system is built from.
- `Generation`: the three provider adapters, the agent wrapper, the
  `max`-by-length choice, and the exact prompt texts.
- `Pipeline`: `process_query_agentic` as a method that fills the result
  record step by step, proved against the specification functions
  `WebOf`, `VideosOf` and `Generate`.
- `Session`: the session state as a class, with the fields `history`,
  `current` and `queryCount`. Its methods model the "Generate",
  "Clear History" and "Load Version" buttons, and it keeps a class
  invariant.
- `Draft`: the earlier `SageLensSystem` in `sage-lens.py`.

Networks, SDKs and clocks are not modelled. They become inputs instead:

- Every backend's outcome is a value: a search reply, or a raise.
- Each chat backend is a total function from the request sent to the reply
  it gives, so the prompts the code builds are part of the model.
- The timestamp is a parameter.

Some behaviours of the source are easy to miss, and the model keeps them
as the code has them:

- Stored content can be empty. An Anthropic reply with no content blocks
  gives the text `""`. That candidate is still a truthy dictionary, so it
  can be chosen and stored in the history. `Session.Session.Valid` states
  what the code does guarantee: every entry of the history has a content
  dictionary, but its text may be empty.
- When an OpenAI or DeepSeek reply has a null content, `max(versions,
  key=len(...))` raises. The `except` handler then leaves the whole
  standard generation without content, even if other providers answered
  (`Pipeline.NullTextDiscardsAll`).
- A view string that is a decimal without a unit, such as "1.5", reads as
  0. Only all-digit strings are read without a unit.
- The Serper key is cleaned twice. The cleaning is not idempotent, so the
  key in the request header can differ from the key that was read
  (`Config.CleanNotIdempotent`, `Config.SerperKeyCleanedTwice`).

## Model

| member | source | states |
|---|---|---|
| Common.Prefix | sage_lens_enhanced.py:132 | Python's `s[:n]`: always a prefix of `s`; exactly `n` elements when `0 <= n <= len(s)`; all of `s` when `n` is larger; `n` counts from the end when negative |
| Common.Format | sage_lens_enhanced.py:508 | an f-string shows a present text as itself and a `None` text as "None" |
| PyStr.StripLeft | sage_lens_enhanced.py:189 | `lstrip`: a suffix of `s`; every character dropped is removable; the first character kept is not |
| PyStr.StripRight | sage_lens_enhanced.py:189 | `rstrip`: a prefix of `s`; every character dropped is removable; the last character kept is not |
| PyStr.Strip | sage_lens_enhanced.py:189 | `strip`: an infix of `s`; everything dropped at either end is removable; neither end of the result is removable |
| PyStr.StripIdempotent | sage_lens_enhanced.py:189 | stripping twice with the same set removes nothing more |
| PyStr.StripNothing | sage_lens_enhanced.py:152 | a string whose two ends are not removable is unchanged by `strip` |
| PyStr.StripLeftPad | sage_lens_enhanced.py:189 | left-stripping removes removable padding in front of a text that starts with a kept character, and nothing more |
| PyStr.StripRightPad | sage_lens_enhanced.py:189 | right-stripping removes removable padding after a text that ends with a kept character, and nothing more |
| PyStr.StripAround | sage_lens_enhanced.py:189 | `strip` applied to padding + text + padding gives the text back |
| PyStr.StripLeading | sage_lens_enhanced.py:189 | `strip` applied to padding + text gives the text back |
| PyStr.Replace | sage_lens_enhanced.py:152 | `replace(pat, "")` never lengthens the text, and a one-character `pat` no longer occurs in the result |
| PyStr.ReplaceAbsent | sage_lens_enhanced.py:152 | a text in which `pat` cannot start is left unchanged by `replace` |
| PyStr.ReplaceSkip | sage_lens_enhanced.py:152 | a first character that does not start `pat` is kept, and the scan continues after it |
| PyStr.ReplaceSuffix | sage_lens_enhanced.py:152 | removing a trailing `pat` (the " views" suffix, the `M` or `K` unit) gives the text that came before it |
| PyStr.Join | sage_lens_enhanced.py:481-484 | `sep.join`: the empty list gives "", one part gives that part, and the result is never shorter than its first part |
| PyStr.JoinConcat | sage_lens_enhanced.py:481-484 | joining two non-empty lists gives the two joins with one separator between them |
| PyStr.JoinAround | sage_lens_enhanced.py:481-484 | the joined text around one part is what the parts before and after it contribute, plus that part |
| WebSearch.WithUrl | sage_lens_enhanced.py:67-70 | the Tavily hits with a `url`: every such hit is kept and no other |
| WebSearch.WithUrlConcat | sage_lens_enhanced.py:67-70 | the filter keeps the hits' order: filtering `a + b` gives the filtered `a` followed by the filtered `b` |
| WebSearch.TavilyRefs | sage_lens_enhanced.py:67-70 | a Tavily hit gives a reference exactly when it has a `url`, and the `k`-th reference is made from the `k`-th such hit; titles default to "Untitled" and snippets to "" |
| WebSearch.WithLink | sage_lens_enhanced.py:106-113 | the organic hits with a truthy `link`: every such hit is kept and no other |
| WebSearch.WithLinkConcat | sage_lens_enhanced.py:106-113 | the filter keeps the hits' order: filtering `a + b` gives the filtered `a` followed by the filtered `b` |
| WebSearch.OrganicRefs | sage_lens_enhanced.py:106-113 | an organic hit gives a reference exactly when its `link` is truthy, and the `k`-th reference is made from the `k`-th such hit, so no reference has an empty URL |
| WebSearch.SearchLog | sage_lens_enhanced.py:71-72 | the search emits only search notices: Tavily's when Tavily raised, and Serper's on failure |
| WebSearch.UrlsMembership | sage_lens_enhanced.py:127-131 | the URL set of a list holds exactly the URLs of its entries |
| WebSearch.UrlsConcat | sage_lens_enhanced.py:127-131 | the URLs of two merged lists are the union of their URLs |
| WebSearch.FirstIndices | sage_lens_enhanced.py:127-131 | the positions at which a URL is seen for the first time, in increasing order |
| WebSearch.DedupIsFirstOccurrences | sage_lens_enhanced.py:127-131 | deduplication keeps exactly the first occurrences, in their original order |
| WebSearch.DedupKeepsUrls | sage_lens_enhanced.py:127-131 | deduplication loses no URL |
| WebSearch.DedupUnique | sage_lens_enhanced.py:127-131 | after deduplication no two entries share a URL |
| WebSearch.DedupLength | sage_lens_enhanced.py:127-131 | after deduplication there is one entry per distinct URL |
| WebSearch.DedupSubset | sage_lens_enhanced.py:127-131 | every kept entry is an entry of the input |
| WebSearch.DedupOfTwoSources | sage_lens_enhanced.py:61-131 | merging Tavily's and Serper's lists keeps one entry per URL of either list |
| WebSearch.DedupByUrl | sage_lens_enhanced.py:127-131 | the seen-set comprehension computes the first-occurrence list, whose URLs are unique |
| WebSearch.AskTavily | sage_lens_enhanced.py:64-72 | the Tavily block adds Tavily's normalised hits; a raise adds nothing and one notice |
| WebSearch.AskSerper | sage_lens_enhanced.py:75-124 | the Serper block: on 200, the knowledge-graph entry and then the organic hits; on 403, nothing and no notice; on any other status, a connection error or another failure, nothing and the matching notice |
| WebSearch.CollectAll | sage_lens_enhanced.py:61-124 | `all_results` holds Tavily's contribution followed by Serper's; an unconfigured backend is skipped; notices follow the same order |
| WebSearch.Search | sage_lens_enhanced.py:59-135 | the result is the first-seen deduplication of the collected list, cut to `max_results`. Its URLs are unique. It has exactly `max_results` entries when that many distinct URLs exist, and never more. Every entry was collected |
| WebSearch.SerperFailureIsolated | sage_lens_enhanced.py:114-124 | a Serper reply other than 200 leaves the result as if Serper were not configured, so Tavily's hits are all that remain |
| WebSearch.SerperNotices | sage_lens_enhanced.py:114-124 | a 403 is silent; every other Serper failure leaves exactly one notice |
| WebSearch.KnowledgeGraphFirst | sage_lens_enhanced.py:99-113 | on 200 with a truthy `websiteUrl`, the knowledge-graph entry comes first and the organic hits follow |
| VideoSearch.Decimal | sage_lens_enhanced.py:154-158 | a digit string reads as its exact value; a result is never negative, since no sign is read |
| VideoSearch.FloatOrZero | sage_lens_enhanced.py:149-160 | `float` inside the `try`: never negative, since a signed number reads as 0 like any other unread form, and a failure reads as 0 |
| VideoSearch.CleanViews | sage_lens_enhanced.py:152 | dropping " views" and "," and then stripping never lengthens the string |
| VideoSearch.CleanNumber | sage_lens_enhanced.py:153-158 | never negative, since no sign is read; a string with no `M`, no `K` and not all digits reads as 0 |
| VideoSearch.ParseViews | sage_lens_enhanced.py:148-160 | `views_num`: never negative, since no sign is read, and "" and "N/A" read as 0 |
| VideoSearch.CleanBare | sage_lens_enhanced.py:152 | a bare number with or without the " views" suffix cleans to the number |
| VideoSearch.ReadMillions | sage_lens_enhanced.py:153-154 | a number followed by `M` reads as that number times 1,000,000 |
| VideoSearch.ReadThousands | sage_lens_enhanced.py:155-156 | a number followed by `K`, with no `M`, reads as that number times 1,000 |
| VideoSearch.ReadDigits | sage_lens_enhanced.py:157-158 | an all-digit count, with or without " views", reads as its value |
| VideoSearch.ReadSeparated | sage_lens_enhanced.py:152-158 | a count written "d,ddd views" reads as its digits with the separator dropped |
| VideoSearch.NotUnknown | sage_lens_enhanced.py:151 | a view string that starts with a digit is neither "" nor "N/A", so it is cleaned and read |
| VideoSearch.ViewsInMillions | sage_lens_enhanced.py:148-160 | "1.2M views" reads as 1,200,000 |
| VideoSearch.ViewsInThousands | sage_lens_enhanced.py:148-160 | "340K" reads as 340,000 |
| VideoSearch.ViewsWithSeparator | sage_lens_enhanced.py:148-160 | "1,234 views" reads as 1,234 |
| VideoSearch.ViewsPlain | sage_lens_enhanced.py:148-160 | "500" reads as 500 |
| VideoSearch.ViewsZero | sage_lens_enhanced.py:148-160 | "0" reads as 0 |
| VideoSearch.ViewsNotDigits | sage_lens_enhanced.py:157-158 | a plain decimal such as "1.5" is not all digits and reads as 0 |
| VideoSearch.ViewsUnreadable | sage_lens_enhanced.py:153-160 | "M views" has no number before its unit and reads as 0 |
| VideoSearch.MissingViews | sage_lens_enhanced.py:148-167 | a hit without `views` is listed with "0" views and counts as 0 |
| VideoSearch.VideosFromHits | sage_lens_enhanced.py:146-167 | every entry comes from a hit with an `id`, and carries the number its view string reads as |
| VideoSearch.Insert | sage_lens_enhanced.py:169 | one insertion step of the sort: the entries so far plus the new one, as a multiset |
| VideoSearch.InsertSorted | sage_lens_enhanced.py:169 | an insertion keeps the list ordered by views, most first |
| VideoSearch.SortSorted | sage_lens_enhanced.py:169 | `sorted(..., reverse=True)` orders by views, most first |
| VideoSearch.SortPermutes | sage_lens_enhanced.py:169 | the sort is a permutation of its input |
| VideoSearch.InsertWithViews | sage_lens_enhanced.py:169 | an insertion puts the new entry in front of the entries with the same views |
| VideoSearch.SortStable | sage_lens_enhanced.py:169 | the sort is stable: entries with equal views keep their original order, so unreadable counts come last in hit order |
| VideoSearch.SortMembers | sage_lens_enhanced.py:169 | every sorted entry is an entry of the input |
| VideoSearch.ProjectAll | sage_lens_enhanced.py:170 | the projection keeps the length and drops `views_num` from each entry |
| VideoSearch.TopVideosFacts | sage_lens_enhanced.py:146-170 | the top entries are ordered by the number their view string reads as, and each one's URL is the watch URL of a hit with an `id` |
| VideoSearch.TopVideosSorted | sage_lens_enhanced.py:169-170 | the top entries are ordered by the number their view string reads as |
| VideoSearch.TopVideosFromHits | sage_lens_enhanced.py:146-170 | each top entry's URL is `https://youtube.com/watch?v=` followed by the `id` of a hit |
| VideoSearch.CollectVideos | sage_lens_enhanced.py:145-167 | the loop builds one entry per hit with an `id`, in order |
| VideoSearch.Rank | sage_lens_enhanced.py:145-170 | the most viewed `max_results` entries, most viewed first. There are exactly that many when enough hits have an `id`, and never more. Each comes from a hit |
| VideoSearch.Search | sage_lens_enhanced.py:141-173 | a failing backend gives no videos and one notice; otherwise the ranking and no notice |
| Config.Clean | sage_lens_enhanced.py:189 | cleaning never lengthens a value and leaves no single quote at either end |
| Config.GetSecret | sage_lens_enhanced.py:182-204 | a non-empty deployment secret wins; otherwise the environment variable; otherwise the default; always cleaned |
| Config.SecretPrecedence | sage_lens_enhanced.py:185-197 | with a non-empty secret, the environment does not matter |
| Config.EmptySecretIgnored | sage_lens_enhanced.py:185-203 | an empty secret counts as no secret: the environment decides |
| Config.CleanUnquotes | sage_lens_enhanced.py:189 | `  "sk-1"  ` cleans to `sk-1`: whitespace is removed first, then the double quotes |
| Config.CleanQuotedPadding | sage_lens_enhanced.py:189 | `' key'` cleans to ` key`: padding inside single quotes survives one clean |
| Config.CleanPadded | sage_lens_enhanced.py:258 | ` key` cleans to `key` |
| Config.CleanNotIdempotent | sage_lens_enhanced.py:256-258 | cleaning twice can differ from cleaning once |
| Config.LoadConfig | sage_lens_enhanced.py:206-279 | the system fails exactly when the OpenAI key is empty, and reports that key as missing. Each optional backend is available exactly when its key is non-empty. Agents exist exactly when the SDK is available and building them succeeded |
| Config.SerperKeyCleanedTwice | sage_lens_enhanced.py:256-262 | the Serper header carries the raw key cleaned twice |
| Generation.OpenAIResult | sage_lens_enhanced.py:387-404 | a reply becomes a candidate with its text (possibly null) labelled `OpenAI-<model>`; a raise gives no candidate and one notice |
| Generation.AnthropicResult | sage_lens_enhanced.py:406-427 | no request without a client. A reply becomes a candidate labelled "Claude-3.5-Sonnet", whose text is "" when the reply has no content. A raise gives one notice |
| Generation.DeepSeekResult | sage_lens_enhanced.py:429-448 | no request without a client; a reply becomes a candidate labelled "DeepSeek-Chat"; a raise gives one notice |
| Generation.Indented | sage_lens_enhanced.py:486-498 | each line of a triple-quoted literal carries the literal's indentation |
| Generation.IndentedConcat | sage_lens_enhanced.py:486-498 | indenting two lists of lines is indenting each one |
| Generation.IndentedAround | sage_lens_enhanced.py:486-498 | indenting `before + [x] + after` gives the indented `before`, the indented `x`, then the indented `after` |
| Generation.BlockFrame | sage_lens_enhanced.py:505-511 | a line of a prompt literal is framed by text that depends only on the other lines |
| Generation.FullPrompt | sage_lens_enhanced.py:359 | without context the prompt is unchanged; with context, the context comes first, then two newlines, then the prompt itself |
| Generation.FramedInjective | sage_lens_enhanced.py:365 | text between a fixed lead and a fixed trail can be read back |
| Generation.AgentPromptInjective | sage_lens_enhanced.py:365 | different requests to the same agent give different prompts |
| Generation.AgentResultFacts | sage_lens_enhanced.py:352-375 | no request without the SDK or the agent. Otherwise one OpenAI request with the agent's model and instructions. A success is relabelled `Agent-<name>` and carries the agent's name. A failure gives only OpenAI's notice |
| Generation.Present | sage_lens_enhanced.py:545-558 | the candidates are exactly the successes of the provider list, never more than the list |
| Generation.PresentSnoc | sage_lens_enhanced.py:547-548 | a success appended to the outcomes is appended to the candidates |
| Generation.PresentOfThree | sage_lens_enhanced.py:545-558 | the candidates of three outcomes are their successes, in order |
| Generation.LongestIndex | sage_lens_enhanced.py:562 | `max(..., key=len)`: an index no candidate is longer than, and strictly longer than every candidate before it |
| Generation.LongestIndexUnique | sage_lens_enhanced.py:562 | that index is the only one with both properties |
| Generation.Select | sage_lens_enhanced.py:560-565 | nothing is chosen from no candidates. The key raises exactly when some text is null. Otherwise the first longest candidate is chosen |
| Generation.SelectFirstLongest | sage_lens_enhanced.py:562 | a choice is a candidate no other is longer than, and strictly longer than every one before it |
| Generation.ContextLine | sage_lens_enhanced.py:481-484 | every context line starts with "- " |
| Generation.ContextLines | sage_lens_enhanced.py:481-484 | one context line per hit, in order |
| Generation.WebContext | sage_lens_enhanced.py:536-539 | the context is empty exactly when there are no web hits |
| Generation.WebContextFirstFive | sage_lens_enhanced.py:536-539 | hits after the fifth never reach a prompt |
| Generation.ContextLineCutsSnippet | sage_lens_enhanced.py:481-484 | only the first `n` characters of a snippet reach a prompt |
| Generation.StandardPromptBare | sage_lens_enhanced.py:541-543 | the standard prompt is the bare request exactly when no web hit was found |
| Generation.ResearchPromptInjective | sage_lens_enhanced.py:486-498 | the research request names the topic: different topics give different requests |
| Generation.PolishPromptInjective | sage_lens_enhanced.py:505-511 | the research text reaches the content agent verbatim |
| Generation.AnalysisPromptInjective | sage_lens_enhanced.py:517-527 | the chosen content reaches the analysis agent verbatim |
| Pipeline.Method | sage_lens_enhanced.py:459 | the mode is "agentic" exactly when agents were asked for and exist, and "standard" otherwise |
| Pipeline.Providers | sage_lens_enhanced.py:397-443 | the provider labels of the candidates, position by position |
| Pipeline.ProvidersConcat | sage_lens_enhanced.py:545-558 | the labels of two merged candidate lists are the two label lists merged |
| Pipeline.ProvidersOfThree | sage_lens_enhanced.py:545-558 | the labels of three outcomes' successes, in order |
| Pipeline.StandardOrder | sage_lens_enhanced.py:541-558 | the standard candidates come in the order OpenAI, Anthropic, DeepSeek: one for each provider that was asked and answered, and no others |
| Pipeline.StandardChoice | sage_lens_enhanced.py:531-565 | standard content is missing exactly when no provider answered or some text is null. Otherwise it is the first longest candidate. There is never an analysis. The processing notice appears exactly when the key raised |
| Pipeline.NullTextDiscardsAll | sage_lens_enhanced.py:546-565 | a null OpenAI text discards the whole standard generation, with a processing notice |
| Pipeline.AgenticContent | sage_lens_enhanced.py:477-529 | no content without research. Otherwise the polished text when there is one, else the research itself. There is an analysis only with content |
| Pipeline.AgenticLabels | sage_lens_enhanced.py:500-529 | agentic content is labelled by the research or the content agent, and analysis by the analysis agent |
| Pipeline.AgenticNotices | sage_lens_enhanced.py:477-529 | the agentic mode's only notices are OpenAI generation errors, so the processing notice never appears |
| Pipeline.AgentNotices | sage_lens_enhanced.py:352-375 | an agent request's only notices are OpenAI generation errors |
| Pipeline.WebOfFacts | sage_lens_enhanced.py:466-467 | a query's web references have unique URLs and number at most ten |
| Pipeline.ProcessQuery | sage_lens_enhanced.py:450-567 | the metadata records the timestamp, the topic, the mode and which search engines were used. The web references come from a search cut to ten, and the videos are the five most viewed. Content and analysis come from the mode's generation. The notices come in order: search, video, generation |
| Pipeline.RunGeneration | sage_lens_enhanced.py:477-562 | generation runs in the agentic mode exactly when agents were asked for and exist, and in the standard mode otherwise |
| Pipeline.RunAgents | sage_lens_enhanced.py:477-529 | research, then polish falling back to the research, then analysis of the content; nothing after a failed research |
| Pipeline.RunProviders | sage_lens_enhanced.py:531-562 | every provider is asked in turn, the successes are kept, and the longest is chosen |
| Session.Last | sage_lens_enhanced.py:939 | `history[-5:]`: the last five entries, or all of them |
| Session.ReversedAt | sage_lens_enhanced.py:939 | `reversed` puts the `k`-th element from the end at position `k` |
| Session.NumberedAt | sage_lens_enhanced.py:939-941 | `enumerate(..., 1)` gives position `k` the version number `len(history) - (k + 1) + 1` |
| Session.VersionsAt | sage_lens_enhanced.py:938-947 | versions are listed only when the history holds at least two results. At most five are listed, newest first. Position `k` shows version `len(history) - k`, which is that history entry |
| Session.VersionsLength | sage_lens_enhanced.py:938-941 | none are listed for a history of at most one result, otherwise the smaller of its length and five |
| Session.Session.constructor | sage_lens_enhanced.py:642-647 | the first run: an empty history, nothing on display, a count of zero |
| Session.Session.Record | sage_lens_enhanced.py:706-712 | a result with content is shown, stored and counted. Any other result changes nothing. The invariant is kept |
| Session.Session.Clear | sage_lens_enhanced.py:677-681 | "Clear History" resets all three fields |
| Session.Session.Listed | sage_lens_enhanced.py:938-947 | the listed versions, each with its history position, newest first, at most five |
| Session.Session.LoadVersion | sage_lens_enhanced.py:947-949 | "Load Version" shows the chosen listed entry; the history and the count are unchanged |
| Session.Session.Submit | sage_lens_enhanced.py:701-712 | the query runs exactly when the button was pressed, the topic is not blank and the system was built. A run is `process_query_agentic`, and its result is recorded. A failed build stops the script before any change |
| Draft.SearchWeb | sage-lens.py:17-27 | first-seen deduplication cut to ten: URLs unique and every entry collected; a raise gives nothing and a notice |
| Draft.VideoResult | sage-lens.py:29-39 | the first five hits with an `id`, in YouTube's order, or all of them when there are fewer than five; a raise gives nothing and a notice |
| Draft.WithId | sage-lens.py:36 | the hits with an `id`: every such hit is kept and no other |
| Draft.WithIdConcat | sage-lens.py:36 | the filter keeps the hits' order: filtering `a + b` gives the filtered `a` followed by the filtered `b` |
| Draft.DraftVideosInOrder | sage-lens.py:32-36 | the `k`-th entry is made from the `k`-th hit with an `id`: no sort |
| Draft.DraftVideosSnoc | sage-lens.py:32-36 | a hit appended to the list adds its entry at the end |
| Draft.DraftMatchesUnsorted | sage-lens.py:32-36 | the same titles and URLs as the later version's list before its sort |
| Draft.GenerateContent | sage-lens.py:41-64 | "anthropic" asks Anthropic and any other name asks OpenAI for documentation about the topic; a raise gives `None`; each success carries the reply's text (possibly null) and latency, labelled with its provider |
| Draft.Attempts | sage-lens.py:70-72 | one outcome per provider name: the `k`-th is what asking the `k`-th provider ("openai", then "anthropic") gives |
| Draft.ProcessQuery | sage-lens.py:66-79 | the loop over the providers collects the successes. The longest is chosen, and only then are the references searched. A raising `max` leaves the initial result and a notice |
| Draft.DraftOrder | sage-lens.py:70-72 | versions come in the order OpenAI, Anthropic: one per provider that answered |
| Draft.SearchOnlyAfterContent | sage-lens.py:73-76 | a blank result has no web and no video references |
| Draft.NoAnswerIsBlank | sage-lens.py:67-73 | with no provider answering, the result is the initial one and no notice is shown |
| Draft.ChosenIsFirstLongest | sage-lens.py:74 | chosen content is the first version of greatest length, and it has a text |
| Draft.NullTextKeepsInitial | sage-lens.py:73-78 | a null OpenAI text makes `max` raise: the initial result comes back with a notice, whatever Anthropic answered |

## Left out

- The Streamlit page: layout, styling, spinners, the display of results, the metrics and the averages shown beside the history. These are presentation with no effect on the stored state.
- The text of notices and error messages. A notice is modelled by its kind (`Common.Diagnostic`), and the HTTP error body Serper returns is not modelled.
- Networks, SDK clients, `time.time()` and `datetime.now()`. Each backend's outcome and the timestamp are inputs. Latency is whatever the reply carries.
- The Tavily request parameters and the Serper payload, headers and timeout. The model has only the reply, not how it was requested.
- JSON `null` values and non-string values in the search and video replies. A key is either present with a string or absent.
- VideoSearch.FloatOrZero: reads only `digits` and `digits.digits` exactly. The other forms Python's `float` accepts ("1e3", "+5", ".5", "5.", "1_000", "inf") read as 0 here, and so does a signed count such as "-5": the source reads "-5K" as `float("-5") * 1000` = -5000 (sage_lens_enhanced.py:155-156). The model's view counts are never negative because it refuses the sign, not because the source's are. Floating-point rounding is not modelled.
- VideoSearch.CleanNumber: reads `isdigit` as the ASCII digits 0-9 only. Python's `isdigit`, and `float` after it, also accept the other Unicode decimal digits, so a count such as "٣٤٠" (Arabic-Indic 340) reads as 340 in the source but as 0 here.
- The fallback path of `_generate_with_agent` (sage_lens_enhanced.py:377-385). Nothing in its `try` block can raise once the OpenAI adapter has caught its own errors, so the path is unreachable in the model.
- The outer `except` of `WebSearchTool.search` (sage_lens_enhanced.py:133-135). Every key it reads is guaranteed by the filters before it, so it cannot fire in the model.
- Probing for the agents SDK and building the agents (sage_lens_enhanced.py:290-350). The SDK's availability and whether construction succeeded are booleans passed to `Config.LoadConfig`, and the agents are constants.
- Config.LoadConfig: models only the missing-key error. The "Initialization failed" path (sage_lens_enhanced.py:284-288), for a client constructor that raises, is not modelled.
- The "Failed to generate content" error the page shows when a run returns no content (sage_lens_enhanced.py:711-712). It has no `Common.Diagnostic` kind, and `Session.Session.Submit` records it only as a run whose result has no content, which leaves the state unchanged.
- The page's `st.stop()` after a failed build is modelled as `Session.Session.Submit` changing nothing. The rest of the page's rerun behaviour is not modelled.
- Session.Session.Listed: lists the versions regardless of what is on display. The page shows them only while a result with content is on display (sage_lens_enhanced.py:715-718).
- Session.Session.LoadVersion: finds a version by its position in the listed versions. The button key `load_{i}` and Streamlit's rerun are not modelled.
- test_setup.py, a command-line check of the installed packages, is not part of this model.
- The draft's constructor and the Tavily part of its web search are missing from sage-lens.py (lines 14-16 and 20-21). The list its search collects is therefore an input of `Draft.SearchWeb`.
- Draft.GenerateContent: the draft's Anthropic request is cut off in the file (sage-lens.py:45-51). The model sends the topic as the prompt and uses the reply's text as the content.
