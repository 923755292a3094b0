/**
 * Video ranking, `VideoSearchTool.search`: keep the YouTube hits that have
 * an `id`, read each human view string as a number, sort by that number
 * from most to least viewed (ties keep their order), cut to `max_results`
 * and drop the number again.
 */
module VideoSearch {
  import opened Common
  import opened PyStr

  // ---------------------------------------------------------------------
  // Reading a view string
  // ---------------------------------------------------------------------

  function Pow10(n: nat): (p: nat)
    ensures p >= 1
  {
    if n == 0 then 1 else 10 * Pow10(n - 1)
  }

  /** The index of the first '.' in `t`. */
  function DotIndex(t: string): (i: nat)
    requires '.' in t
    ensures i < |t| && t[i] == '.' && '.' !in t[..i]
  {
    if t[0] == '.' then 0 else 1 + DotIndex(t[1..])
  }

  /**
   * The number denoted by `digits` or `digits.digits`, exactly; every other
   * text is refused (the part of Python's `float` the view strings need).
   */
  function Decimal(t: string): (r: Option<real>)
    ensures r.Some? ==> r.value >= 0.0
    ensures IsDigits(t) ==> r == Some(DigitsValue(t) as real)
  {
    if IsDigits(t) then Some(DigitsValue(t) as real)
    else if '.' in t then
      var i := DotIndex(t);
      if IsDigits(t[..i]) && IsDigits(t[i + 1..]) then
        Some(DigitsValue(t[..i]) as real + DigitsValue(t[i + 1..]) as real / Pow10(|t| - i - 1) as real)
      else None
    else None
  }

  /** Python's `float(t)` inside the `try`: surrounding whitespace is ignored, and a failure reads as 0. */
  function FloatOrZero(t: string): (x: real)
    ensures x >= 0.0
  {
    match Decimal(Strip(t, Whitespace))
    case Some(x) => x
    case None => 0.0
  }

  /** The view string with every " views" and "," dropped, then stripped. */
  function CleanViews(views: string): (c: string)
    ensures |c| <= |views|
  {
    Strip(Replace(Replace(views, " views", ""), ",", ""), Whitespace)
  }

  /**
   * The number a cleaned view string reads as: an `M` scales by a million,
   * else a `K` by a thousand, else an all-digit string is its own value,
   * and anything else is 0.
   */
  function CleanNumber(clean: string): (n: real)
    ensures n >= 0.0
    ensures 'M' !in clean && 'K' !in clean && !IsDigits(clean) ==> n == 0.0
  {
    if 'M' in clean then FloatOrZero(Replace(clean, "M", "")) * 1000000.0
    else if 'K' in clean then FloatOrZero(Replace(clean, "K", "")) * 1000.0
    else if IsDigits(clean) then DigitsValue(clean) as real
    else 0.0
  }

  /** `views_num` for a view string: "" and "N/A" give 0; otherwise the cleaned string's number. */
  function ParseViews(views: string): (n: real)
    ensures n >= 0.0
    ensures views == "" || views == "N/A" ==> n == 0.0
  {
    if views == "" || views == "N/A" then 0.0 else CleanNumber(CleanViews(views))
  }

  /** A view string made only of the number, its unit and no separators. */
  predicate Bare(body: string) {
    body != [] && ',' !in body && ' ' !in body && !IsSpace(body[0]) && !IsSpace(body[|body| - 1])
  }

  /** Cleaning a bare string, with or without the " views" suffix, gives the string back. */
  lemma CleanBare(body: string)
    requires Bare(body)
    ensures CleanViews(body) == body
    ensures CleanViews(body + " views") == body
  {
    ReplaceAbsent(body, " views", "");
    ReplaceSuffix(body, " views");
    ReplaceAbsent(body, ",", "");
    StripNothing(body, Whitespace);
  }

  /** A bare number followed by `M` is that number of millions. */
  lemma ReadMillions(body: string)
    requires Bare(body) && 'M' !in body
    ensures CleanNumber(body + "M") == FloatOrZero(body) * 1000000.0
  {
    ReplaceSuffix(body, "M");
  }

  /** A bare number followed by `K` is that number of thousands. */
  lemma ReadThousands(body: string)
    requires Bare(body) && 'M' !in body && 'K' !in body
    ensures CleanNumber(body + "K") == FloatOrZero(body) * 1000.0
  {
    ReplaceSuffix(body, "K");
  }

  /** A bare string of digits is its own value. */
  lemma ReadDigits(body: string)
    requires IsDigits(body)
    ensures ParseViews(body) == DigitsValue(body) as real
    ensures ParseViews(body + " views") == DigitsValue(body) as real
  {
    BareDigits(body);
    NotUnknown(body);
    ReadCleanDigits(body);
    var v := body + " views";
    assert v[0] == body[0];
    NotUnknown(v);
  }

  lemma BareDigits(body: string)
    requires IsDigits(body)
    ensures CleanViews(body) == body && CleanViews(body + " views") == body
  {
    assert forall k :: 0 <= k < |body| ==> IsDigit(body[k]);
    assert ',' !in body && ' ' !in body;
    CleanBare(body);
  }

  /** The value of a three-digit string, digit by digit. */
  lemma ThreeDigits(s: string)
    requires |s| == 3 && forall k :: 0 <= k < |s| ==> IsDigit(s[k])
    ensures DigitsValue(s) == (s[0] as int - '0' as int) * 100 + (s[1] as int - '0' as int) * 10 + (s[2] as int - '0' as int)
  {
    var one, two := s[..1], s[..2];
    assert one[..0] == [] && one[0] == s[0];
    assert DigitsValue(one) == s[0] as int - '0' as int;
    assert two[..1] == one && two[1] == s[1];
    assert DigitsValue(two) == DigitsValue(one) * 10 + (s[1] as int - '0' as int);
    assert s[..2] == two;
  }

  /** The value of a four-digit string, digit by digit. */
  lemma FourDigits(s: string)
    requires |s| == 4 && forall k :: 0 <= k < |s| ==> IsDigit(s[k])
    ensures DigitsValue(s) == (s[0] as int - '0' as int) * 1000 + (s[1] as int - '0' as int) * 100 + (s[2] as int - '0' as int) * 10 + (s[3] as int - '0' as int)
  {
    ThreeDigits(s[..3]);
  }

  /** `float` of a string of digits is its value. */
  lemma FloatOfDigits(t: string)
    requires IsDigits(t)
    ensures FloatOrZero(t) == DigitsValue(t) as real
  {
    StripNothing(t, Whitespace);
  }

  lemma DecimalOneTwo(t: string)
    requires t == "1.2"
    ensures FloatOrZero(t) == 1.2
  {
    StripNothing(t, Whitespace);
    assert t[1] == '.' && !IsDigit(t[1]);
    assert DotIndex(t) == 1;
    assert t[..1] == "1" && t[2..] == "2";
    assert "1"[..0] == "" && "2"[..0] == "";
  }

  /** "1.2M views" reads as 1,200,000. */
  lemma ViewsInMillions(v: string)
    requires v == "1.2M views"
    ensures ParseViews(v) == 1200000.0
  {
    var a, b := v[..4], v[..3];
    assert v == a + " views" && a == b + "M";
    assert b == "1.2";
    assert Bare(a) && Bare(b) && 'M' !in b;
    CleanBare(a);
    ReadMillions(b);
    DecimalOneTwo(b);
  }

  /** "340K" reads as 340,000. */
  lemma ViewsInThousands(v: string)
    requires v == "340K"
    ensures ParseViews(v) == 340000.0
  {
    var b := v[..3];
    assert Bare(v);
    assert Bare(b) && 'M' !in b && 'K' !in b && v == b + "K";
    assert IsDigits(b);
    ThreeDigits(b);
    CleanBare(v);
    ReadThousands(b);
    FloatOfDigits(b);
  }

  /** Dropping " views" and "," from "x,c views" leaves "xc". */
  lemma DropSeparator(x: char, c: string)
    requires x != ',' && x != ' ' && ',' !in c && ' ' !in c
    ensures Replace(Replace([x] + [','] + c + " views", " views", ""), ",", "") == [x] + c
  {
    var a := [x] + [','] + c;
    assert ' ' !in a;
    ReplaceSuffix(a, " views");
    ReplaceSkip(a, ",", "");
    var t := a[1..];
    assert t == [','] + c && t[..1] == [','] && t[1..] == c;
    ReplaceAbsent(c, ",", "");
    assert Replace(t, ",", "") == c;
    assert a[0] == x;
  }

  /** A thousands separator after the first digit is dropped with the suffix. */
  lemma CleanSeparated(x: char, c: string)
    requires IsDigit(x) && IsDigits(c)
    ensures CleanViews([x] + [','] + c + " views") == [x] + c
  {
    assert forall ch :: ch in c ==> IsDigit(ch);
    DropSeparator(x, c);
    var d := [x] + c;
    assert d[0] == x && d[|d| - 1] == c[|c| - 1];
    StripNothing(d, Whitespace);
  }

  /** A cleaned string of digits reads as its value. */
  lemma ReadCleanDigits(d: string)
    requires IsDigits(d)
    ensures CleanNumber(d) == DigitsValue(d) as real
  {
    assert forall ch :: ch in d ==> IsDigit(ch);
  }

  /** A count written with a thousands separator, "d,ddd views", reads as its digits. */
  lemma ReadSeparated(x: char, c: string)
    requires IsDigit(x) && IsDigits(c)
    ensures ParseViews([x] + [','] + c + " views") == DigitsValue([x] + c) as real
  {
    var v := [x] + [','] + c + " views";
    var d := [x] + c;
    assert v[0] == x;
    NotUnknown(v);
    CleanSeparated(x, c);
    forall k | 0 <= k < |d| ensures IsDigit(d[k]) {
      if k > 0 {
        assert d[k] == c[k - 1];
      }
    }
    ReadCleanDigits(d);
  }

  /** A view string starting with a digit is neither "" nor "N/A". */
  lemma NotUnknown(v: string)
    requires v != [] && IsDigit(v[0])
    ensures ParseViews(v) == CleanNumber(CleanViews(v))
  {
    var na := "N/A";
    assert na[0] == 'N';
    assert v != na;
  }

  /** "1,234 views" reads as 1234: the separator is dropped. */
  lemma ViewsWithSeparator(v: string)
    requires v == "1,234 views"
    ensures ParseViews(v) == 1234.0
  {
    var c := v[2..5];
    assert v == [v[0]] + [','] + c + " views";
    assert IsDigit(v[0]) && IsDigits(c);
    ReadSeparated(v[0], c);
    FourDigits([v[0]] + c);
  }

  /** "500" reads as 500. */
  lemma ViewsPlain(v: string)
    requires v == "500"
    ensures ParseViews(v) == 500.0
  {
    assert IsDigits(v);
    ReadDigits(v);
    ThreeDigits(v);
  }

  /** A plain string that is not all digits reads as 0, even when it denotes a number. */
  lemma ViewsNotDigits(v: string)
    requires v == "1.5"
    ensures ParseViews(v) == 0.0
  {
    assert Bare(v) && 'M' !in v && 'K' !in v;
    CleanBare(v);
    assert !IsDigit(v[1]);
  }

  /** Text that cannot be read after the suffix is removed reads as 0. */
  lemma ViewsUnreadable()
    ensures ParseViews("M views") == 0.0
  {
    assert Replace("M views", " views", "") == "M";
    assert Replace("M", ",", "") == "M";
    assert Strip("M", Whitespace) == "M";
    assert Replace("M", "M", "") == "";
    assert Decimal("") == None;
  }

  // ---------------------------------------------------------------------
  // Hits and the stable sort
  // ---------------------------------------------------------------------

  /** One YouTube hit; `None` is a key the hit lacks. */
  datatype VideoHit = VideoHit(id: Option<string>, title: Option<string>, views: Option<string>)

  /** What `YoutubeSearch(...).to_dict()` did: raised, or returned its hits. */
  datatype VideoReply = YoutubeRaised | YoutubeReturned(hits: seq<VideoHit>)

  /** An entry of `videos`, with its `views_num`. */
  datatype Video = Video(title: string, url: string, views: string, viewsNum: real)

  /** An entry of the result: `views_num` projected away. */
  datatype VideoRef = VideoRef(title: string, url: string, views: string)

  const WatchUrl: string := "https://youtube.com/watch?v="

  function VideoOf(h: VideoHit): Video
    requires h.id.Some?
  {
    var views := h.views.GetOr("0");
    Video(h.title.GetOr("Untitled Video"), WatchUrl + h.id.value, views, ParseViews(views))
  }

  /** The `videos` list the loop builds: one entry per hit with an `id`, in order. */
  function Videos(hits: seq<VideoHit>): seq<Video> {
    if hits == [] then []
    else Videos(hits[..|hits| - 1]) + (if hits[|hits| - 1].id.Some? then [VideoOf(hits[|hits| - 1])] else [])
  }

  /** Every entry of `videos` comes from a hit with an `id`, and carries the number its view string reads as. */
  lemma {:induction false} VideosFromHits(hits: seq<VideoHit>)
    ensures forall v :: v in Videos(hits) ==> v.viewsNum == ParseViews(v.views)
    ensures forall v :: v in Videos(hits) ==> exists h :: h in hits && h.id.Some? && v == VideoOf(h)
  {
    if hits != [] {
      var p := hits[..|hits| - 1];
      VideosFromHits(p);
      assert forall h :: h in p ==> h in hits;
    }
  }

  /** "0" reads as 0. */
  lemma ViewsZero(v: string)
    requires v == "0"
    ensures ParseViews(v) == 0.0
  {
    assert IsDigits(v);
    ReadDigits(v);
    assert v[..0] == [];
  }

  /** A hit without a view count is listed with "0" views and counts as 0. */
  lemma MissingViews(h: VideoHit)
    requires h.id.Some? && h.views.None?
    ensures VideoOf(h).views == "0" && VideoOf(h).viewsNum == 0.0
  {
    ViewsZero(VideoOf(h).views);
  }

  predicate SortedByViews(s: seq<Video>) {
    forall i, j :: 0 <= i < j < |s| ==> s[i].viewsNum >= s[j].viewsNum
  }

  /** Insert `v` in front of the first entry with no more views than `v`. */
  function Insert(v: Video, s: seq<Video>): (r: seq<Video>)
    ensures multiset(r) == multiset(s) + multiset{v}
    ensures |r| == |s| + 1
    ensures r[0] == v || (s != [] && r[0] == s[0])
  {
    if s == [] then [v]
    else if s[0].viewsNum <= v.viewsNum then [v] + s
    else
      assert s == [s[0]] + s[1..];
      [s[0]] + Insert(v, s[1..])
  }

  /**
   * `sorted(videos, key=views_num, reverse=True)`: a stable sort from most
   * to least viewed.
   */
  function SortByViews(s: seq<Video>): seq<Video> {
    if s == [] then [] else Insert(s[0], SortByViews(s[1..]))
  }

  lemma {:induction false} InsertSorted(v: Video, s: seq<Video>)
    requires SortedByViews(s)
    ensures SortedByViews(Insert(v, s))
  {
    if s != [] && s[0].viewsNum > v.viewsNum {
      var t := s[1..];
      assert SortedByViews(t);
      InsertSorted(v, t);
      var r := Insert(v, t);
      assert s[0].viewsNum >= r[0].viewsNum;
      assert Insert(v, s) == [s[0]] + r;
      forall i, j | 0 <= i < j < |r| + 1
        ensures ([s[0]] + r)[i].viewsNum >= ([s[0]] + r)[j].viewsNum
      {
        if i == 0 && j > 1 {
          assert r[0].viewsNum >= r[j - 1].viewsNum;
        }
      }
    }
  }

  /** The sort orders by views, most viewed first. */
  lemma {:induction false} SortSorted(s: seq<Video>)
    ensures SortedByViews(SortByViews(s))
  {
    if s != [] {
      SortSorted(s[1..]);
      InsertSorted(s[0], SortByViews(s[1..]));
    }
  }

  /** The sort is a permutation. */
  lemma {:induction false} SortPermutes(s: seq<Video>)
    ensures multiset(SortByViews(s)) == multiset(s)
  {
    if s != [] {
      SortPermutes(s[1..]);
      assert s == [s[0]] + s[1..];
    }
  }

  /** The entries of `s` with exactly `k` views, in order. */
  function WithViews(s: seq<Video>, k: real): seq<Video> {
    if s == [] then []
    else (if s[0].viewsNum == k then [s[0]] else []) + WithViews(s[1..], k)
  }

  lemma {:induction false} InsertWithViews(v: Video, s: seq<Video>, k: real)
    ensures WithViews(Insert(v, s), k) == if v.viewsNum == k then [v] + WithViews(s, k) else WithViews(s, k)
  {
    if s != [] && s[0].viewsNum > v.viewsNum {
      InsertWithViews(v, s[1..], k);
      assert ([s[0]] + Insert(v, s[1..]))[1..] == Insert(v, s[1..]);
    }
  }

  /** The sort is stable: entries with equal views keep their original order. */
  lemma {:induction false} SortStable(s: seq<Video>, k: real)
    ensures WithViews(SortByViews(s), k) == WithViews(s, k)
  {
    if s != [] {
      var t := SortByViews(s[1..]);
      SortStable(s[1..], k);
      assert WithViews(t, k) == WithViews(s[1..], k);
      InsertWithViews(s[0], t, k);
      assert SortByViews(s) == Insert(s[0], t);
      assert WithViews(s, k) == (if s[0].viewsNum == k then [s[0]] else []) + WithViews(s[1..], k);
    }
  }

  /** Every entry of the sorted list is an entry of the input. */
  lemma SortMembers(s: seq<Video>)
    ensures forall v :: v in SortByViews(s) ==> v in s
  {
    SortPermutes(s);
    forall v | v in SortByViews(s) ensures v in s {
      assert v in multiset(SortByViews(s));
    }
  }

  function Project(v: Video): VideoRef {
    VideoRef(v.title, v.url, v.views)
  }

  function ProjectAll(s: seq<Video>): (r: seq<VideoRef>)
    ensures |r| == |s|
    ensures forall k :: 0 <= k < |s| ==> r[k] == Project(s[k])
  {
    if s == [] then [] else [Project(s[0])] + ProjectAll(s[1..])
  }

  /**
   * The most viewed `n` entries: ordered by the number their view string
   * reads as, and each the watch URL of a hit with an `id`.
   */
  lemma TopVideosFacts(hits: seq<VideoHit>, n: int)
    ensures var r := ProjectAll(Prefix(SortByViews(Videos(hits)), n));
      && (forall i, j :: 0 <= i < j < |r| ==> ParseViews(r[i].views) >= ParseViews(r[j].views))
      && (forall v :: v in r ==> exists h :: h in hits && h.id.Some? && v.url == WatchUrl + h.id.value)
  {
    TopVideosSorted(hits, n);
    TopVideosFromHits(hits, n);
  }

  lemma TopVideosSorted(hits: seq<VideoHit>, n: int)
    ensures var r := ProjectAll(Prefix(SortByViews(Videos(hits)), n));
      forall i, j :: 0 <= i < j < |r| ==> ParseViews(r[i].views) >= ParseViews(r[j].views)
  {
    var videos := Videos(hits);
    var sorted := SortByViews(videos);
    var top := Prefix(sorted, n);
    var r := ProjectAll(top);
    VideosFromHits(hits);
    SortSorted(videos);
    SortMembers(videos);
    forall i, j | 0 <= i < j < |r|
      ensures ParseViews(r[i].views) >= ParseViews(r[j].views)
    {
      assert top[i] == sorted[i] && top[j] == sorted[j];
      assert sorted[i] in videos && sorted[j] in videos;
    }
  }

  lemma TopVideosFromHits(hits: seq<VideoHit>, n: int)
    ensures var r := ProjectAll(Prefix(SortByViews(Videos(hits)), n));
      forall v :: v in r ==> exists h :: h in hits && h.id.Some? && v.url == WatchUrl + h.id.value
  {
    var videos := Videos(hits);
    var sorted := SortByViews(videos);
    var top := Prefix(sorted, n);
    var r := ProjectAll(top);
    VideosFromHits(hits);
    SortMembers(videos);
    forall v | v in r
      ensures exists h :: h in hits && h.id.Some? && v.url == WatchUrl + h.id.value
    {
      var k :| 0 <= k < |r| && r[k] == v;
      assert top[k] == sorted[k];
      assert sorted[k] in videos;
    }
  }

  // ---------------------------------------------------------------------
  // The search
  // ---------------------------------------------------------------------

  /** The loop over the hits: each hit with an `id` is read and appended. */
  method CollectVideos(hits: seq<VideoHit>) returns (videos: seq<Video>)
    ensures videos == Videos(hits)
  {
    videos := [];
    var i := 0;
    while i < |hits|
      invariant 0 <= i <= |hits|
      invariant videos == Videos(hits[..i])
    {
      assert hits[..i + 1][..i] == hits[..i];
      if hits[i].id.Some? {
        var views := hits[i].views.GetOr("0");
        videos := videos + [Video(hits[i].title.GetOr("Untitled Video"), WatchUrl + hits[i].id.value, views, ParseViews(views))];
      }
      i := i + 1;
    }
    assert hits[..i] == hits;
  }

  /**
   * The ranking of the returned hits: the most viewed `maxResults` entries,
   * most viewed first, each the watch URL of a hit with an `id`.
   */
  method Rank(hits: seq<VideoHit>, maxResults: int) returns (r: seq<VideoRef>)
    ensures r == ProjectAll(Prefix(SortByViews(Videos(hits)), maxResults))
    ensures 0 <= maxResults <= |Videos(hits)| ==> |r| == maxResults
    ensures maxResults >= 0 ==> |r| <= maxResults
    ensures forall i, j :: 0 <= i < j < |r| ==> ParseViews(r[i].views) >= ParseViews(r[j].views)
    ensures forall v :: v in r ==> exists h :: h in hits && h.id.Some? && v.url == WatchUrl + h.id.value
  {
    var videos := CollectVideos(hits);
    var sorted := SortByViews(videos);
    var top := Prefix(sorted, maxResults);
    SortPermutes(videos);
    assert |sorted| == |videos| by {
      assert |multiset(sorted)| == |multiset(videos)|;
    }
    r := ProjectAll(top);
    TopVideosFacts(hits, maxResults);
  }

  /**
   * `VideoSearchTool.search`: a failing backend gives no videos and a
   * notice; otherwise the ranking of its hits and no notice.
   */
  method Search(reply: VideoReply, maxResults: int) returns (r: seq<VideoRef>, log: seq<Diagnostic>)
    ensures reply.YoutubeRaised? ==> r == [] && log == [VideoSearchError]
    ensures reply.YoutubeReturned? ==> log == [] && r == ProjectAll(Prefix(SortByViews(Videos(reply.hits)), maxResults))
  {
    match reply
    case YoutubeRaised =>
      r, log := [], [VideoSearchError];
    case YoutubeReturned(hits) =>
      r := Rank(hits, maxResults);
      log := [];
  }
}
