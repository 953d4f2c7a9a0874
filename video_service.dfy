/**
 * The video service: the raw API record, the view model derived from it,
 * the keyword style classifier, and the list-then-details loader.
 * Network responses are inputs here; `Math.random()` draws are inputs
 * restricted to the ranges the source's arithmetic can produce.
 */
module VideoService {
  import opened Text

  /** A video record as the API returns it (`VideoData`). */
  datatype VideoData = VideoData(
    id: string,
    generationPrompt: string,
    scheduledTime: string,
    videoUrl: string,
    hashtags: seq<string>,
    caption: string,
    status: string,
    instaAccId: string,
    userId: string,
    createdAt: string)

  datatype Creator = Creator(username: string, avatar: string)

  /** The view model the feed renders (`TransformedVideo`). */
  datatype TransformedVideo = TransformedVideo(
    id: string,
    videoUrl: string,
    thumbnail: string,
    prompt: string,
    creator: Creator,
    likes: int,
    comments: int,
    style: string,
    duration: int,
    isLiked: bool,
    status: string,
    hashtags: seq<string>,
    caption: string,
    createdAt: string)

  const PlaceholderThumbnail := "https://images.unsplash.com/photo-1506744038136-46273834b3fb?w=500"
  const AvatarPrefix := "https://images.unsplash.com/photo-1472099645785-5658abf4ff4e?w=100&v="
  const DefaultDuration := 30

  // ------------------------------------------------------------ style

  /** One keyword group of the classifier: either keyword selects `style`. */
  datatype StyleRule = StyleRule(first: string, second: string, style: string)

  /** The keyword groups in the order the classifier tries them. */
  const StyleRules: seq<StyleRule> := [
    StyleRule("cinematic", "movie", "Cinematic"),
    StyleRule("animation", "cartoon", "Animation"),
    StyleRule("whiteboard", "drawing", "Whiteboard"),
    StyleRule("documentary", "real", "Documentary"),
    StyleRule("abstract", "artistic", "Abstract"),
    StyleRule("retro", "vintage", "Retro")
  ]

  const DefaultStyle := "Creative"

  predicate RuleMatches(lowered: string, rule: StyleRule)
  {
    Contains(lowered, rule.first) || Contains(lowered, rule.second)
  }

  /** `extractStyleFromPrompt`: the if-chain over `includes` on the lower-cased prompt. */
  function ExtractStyleFromPrompt(prompt: string): (style: string)
    ensures style in {"Cinematic", "Animation", "Whiteboard", "Documentary", "Abstract", "Retro", "Creative"}
  {
    var p := Lower(prompt);
    if Contains(p, "cinematic") || Contains(p, "movie") then "Cinematic"
    else if Contains(p, "animation") || Contains(p, "cartoon") then "Animation"
    else if Contains(p, "whiteboard") || Contains(p, "drawing") then "Whiteboard"
    else if Contains(p, "documentary") || Contains(p, "real") then "Documentary"
    else if Contains(p, "abstract") || Contains(p, "artistic") then "Abstract"
    else if Contains(p, "retro") || Contains(p, "vintage") then "Retro"
    else "Creative"
  }

  /** An ordered-rule classifier: the style of the first rule that matches, else the default. */
  function Classify(lowered: string, rules: seq<StyleRule>): string
  {
    if rules == [] then DefaultStyle
    else if RuleMatches(lowered, rules[0]) then rules[0].style
    else Classify(lowered, rules[1..])
  }

  /** The first matching rule decides; later matches are ignored. */
  lemma {:induction false} ClassifyFirstMatch(lowered: string, rules: seq<StyleRule>, k: nat)
    requires k < |rules|
    requires RuleMatches(lowered, rules[k])
    requires forall j :: 0 <= j < k ==> !RuleMatches(lowered, rules[j])
    ensures Classify(lowered, rules) == rules[k].style
  {
    if k > 0 {
      assert !RuleMatches(lowered, rules[0]);
      ClassifyFirstMatch(lowered, rules[1..], k - 1);
    }
  }

  /** With no matching rule the default label is returned. */
  lemma {:induction false} ClassifyNoMatch(lowered: string, rules: seq<StyleRule>)
    requires forall j :: 0 <= j < |rules| ==> !RuleMatches(lowered, rules[j])
    ensures Classify(lowered, rules) == DefaultStyle
  {
    if rules != [] {
      assert !RuleMatches(lowered, rules[0]);
      ClassifyNoMatch(lowered, rules[1..]);
    }
  }

  /** The if-chain is the ordered-rule classifier over `StyleRules`. */
  lemma ExtractStyleIsClassify(prompt: string)
    ensures ExtractStyleFromPrompt(prompt) == Classify(Lower(prompt), StyleRules)
  {
    var p := Lower(prompt);
    var r1 := StyleRules[1..];
    var r2 := r1[1..];
    var r3 := r2[1..];
    var r4 := r3[1..];
    var r5 := r4[1..];
    var r6 := r5[1..];
    assert r6 == [];
    assert Classify(p, r5) == if RuleMatches(p, r5[0]) then "Retro" else Classify(p, r6);
    assert Classify(p, r4) == if RuleMatches(p, r4[0]) then "Abstract" else Classify(p, r5);
    assert Classify(p, r3) == if RuleMatches(p, r3[0]) then "Documentary" else Classify(p, r4);
    assert Classify(p, r2) == if RuleMatches(p, r2[0]) then "Whiteboard" else Classify(p, r3);
    assert Classify(p, r1) == if RuleMatches(p, r1[0]) then "Animation" else Classify(p, r2);
  }

  /** Rule `k` wins exactly when it matches and no earlier group does. */
  lemma ExtractStyleRule(prompt: string, k: nat)
    requires k < |StyleRules|
    ensures ExtractStyleFromPrompt(prompt) == StyleRules[k].style
        <==> RuleMatches(Lower(prompt), StyleRules[k])
             && forall j :: 0 <= j < k ==> !RuleMatches(Lower(prompt), StyleRules[j])
  {
    ExtractStyleIsClassify(prompt);
    var p := Lower(prompt);
    if RuleMatches(p, StyleRules[k]) && forall j :: 0 <= j < k ==> !RuleMatches(p, StyleRules[j]) {
      ClassifyFirstMatch(p, StyleRules, k);
    }
  }

  /** "Creative" comes back exactly when no keyword of any group occurs. */
  lemma ExtractStyleDefault(prompt: string)
    ensures ExtractStyleFromPrompt(prompt) == DefaultStyle
        <==> forall j :: 0 <= j < |StyleRules| ==> !RuleMatches(Lower(prompt), StyleRules[j])
  {
    ExtractStyleIsClassify(prompt);
    if forall j :: 0 <= j < |StyleRules| ==> !RuleMatches(Lower(prompt), StyleRules[j]) {
      ClassifyNoMatch(Lower(prompt), StyleRules);
    }
  }

  /** Matching ignores letter case: a lower-cased prompt gets the same style. */
  lemma ExtractStyleIgnoresCase(prompt: string)
    ensures ExtractStyleFromPrompt(Lower(prompt)) == ExtractStyleFromPrompt(prompt)
  {
    LowerIdempotent(prompt);
  }

  /** A prompt naming both "cinematic" and "retro" is Cinematic: the earlier group wins. */
  lemma CinematicBeatsRetro()
    ensures ExtractStyleFromPrompt("Retro cinematic") == "Cinematic"
  {
    var p := Lower("Retro cinematic");
    assert p == "retro cinematic";
    assert OccursAt(p, "cinematic", 6);
  }

  /** Plain substring matching: "surreal" contains "real" and is Documentary. */
  lemma SurrealIsDocumentary()
    ensures ExtractStyleFromPrompt("surreal") == "Documentary"
  {
    var p := "surreal";
    LowerOfLowerCase(p);
    NotContainsMissingChar(p, "cinematic", 'c');
    NotContainsMissingChar(p, "movie", 'm');
    NotContainsMissingChar(p, "animation", 'n');
    NotContainsMissingChar(p, "cartoon", 'c');
    NotContainsMissingChar(p, "whiteboard", 'w');
    NotContainsMissingChar(p, "drawing", 'd');
    NotContainsMissingChar(p, "documentary", 'd');
    assert OccursAt(p, "real", 3);
  }

  /** A prompt with no keyword of any group gets the default style. */
  lemma NoKeywordIsCreative()
    ensures ExtractStyleFromPrompt("A dog in a field") == "Creative"
  {
    var p := Lower("A dog in a field");
    assert p == "a dog in a field";
    NoKeywordInFirstGroups(p);
    NoKeywordInLastGroups(p);
  }

  lemma NoKeywordInFirstGroups(p: string)
    requires p == "a dog in a field"
    ensures !Contains(p, "cinematic") && !Contains(p, "movie")
    ensures !Contains(p, "animation") && !Contains(p, "cartoon")
    ensures !Contains(p, "whiteboard") && !Contains(p, "drawing")
  {
    NotContainsMissingChar(p, "cinematic", 'c');
    NotContainsMissingChar(p, "movie", 'm');
    NotContainsMissingChar(p, "animation", 'm');
    NotContainsMissingChar(p, "cartoon", 'c');
    NotContainsMissingChar(p, "whiteboard", 'w');
    NotContainsMissingChar(p, "drawing", 'r');
  }

  lemma NoKeywordInLastGroups(p: string)
    requires p == "a dog in a field"
    ensures !Contains(p, "documentary") && !Contains(p, "real")
    ensures !Contains(p, "abstract") && !Contains(p, "artistic")
    ensures !Contains(p, "retro") && !Contains(p, "vintage")
  {
    NotContainsMissingChar(p, "documentary", 'c');
    NotContainsMissingChar(p, "real", 'r');
    NotContainsMissingChar(p, "abstract", 'b');
    NotContainsMissingChar(p, "artistic", 'r');
    NotContainsMissingChar(p, "retro", 'r');
    NotContainsMissingChar(p, "vintage", 'v');
  }

  // ------------------------------------------------------------ transform

  /** `Math.floor(Math.random() * 500)`: an integer in [0, 499]. */
  type LikesDraw = n: nat | n < 500
  /** `Math.floor(Math.random() * 100)`: an integer in [0, 99]. */
  type CommentsDraw = n: nat | n < 100

  /** The two random draws one call of `transformVideoData` makes. */
  datatype Draws = Draws(likes: LikesDraw, comments: CommentsDraw)

  /** The mock creator name: `"user_"` and the last six characters of the user id. */
  function MockUsername(userId: string): (name: string)
    ensures |name| == 5 + (if |userId| < 6 then |userId| else 6)
    ensures name[..5] == "user_" && name[5..] == userId[|userId| - (|name| - 5)..]
  {
    "user_" + SliceLast(userId, 6)
  }

  /**
   * What `transformVideoData` promises about a view `t` of the record `v`,
   * whatever the random draws: copied fields, derived fields and the
   * ranges of the mock counters.
   */
  ghost predicate IsViewOf(t: TransformedVideo, v: VideoData)
  {
    && t.id == v.id && t.videoUrl == v.videoUrl && t.prompt == v.generationPrompt
    && t.status == v.status && t.hashtags == v.hashtags && t.caption == v.caption
    && t.createdAt == v.createdAt
    && t.thumbnail == (if v.videoUrl != "" then v.videoUrl else PlaceholderThumbnail)
    && t.creator == Creator(MockUsername(v.userId), AvatarPrefix + v.userId)
    && t.style == ExtractStyleFromPrompt(v.generationPrompt)
    && 50 <= t.likes <= 549 && 10 <= t.comments <= 109
    && t.duration == DefaultDuration && !t.isLiked
  }

  /** `transformVideoData` with its two `Math.random()` draws given. */
  function TransformVideoData(v: VideoData, draws: Draws): (t: TransformedVideo)
    ensures IsViewOf(t, v)
    ensures t.likes == 50 + draws.likes && t.comments == 10 + draws.comments
    ensures t.thumbnail != ""
  {
    TransformedVideo(
      id := v.id,
      videoUrl := v.videoUrl,
      thumbnail := if v.videoUrl != "" then v.videoUrl else PlaceholderThumbnail,
      prompt := v.generationPrompt,
      creator := Creator(MockUsername(v.userId), AvatarPrefix + v.userId),
      likes := draws.likes + 50,
      comments := draws.comments + 10,
      style := ExtractStyleFromPrompt(v.generationPrompt),
      duration := DefaultDuration,
      isLiked := false,
      status := v.status,
      hashtags := v.hashtags,
      caption := v.caption,
      createdAt := v.createdAt)
  }

  /** Two views of one record differ at most in the two mock counters. */
  lemma ViewDeterminedUpToCounters(t1: TransformedVideo, t2: TransformedVideo, v: VideoData)
    requires IsViewOf(t1, v) && IsViewOf(t2, v)
    ensures t1.(likes := 0, comments := 0) == t2.(likes := 0, comments := 0)
  {
  }

  // ------------------------------------------------------------ fetching

  /** What `response.json()` yields for the list endpoint. */
  datatype ListBody = ListArray(items: seq<VideoData>) | ListNotArray | ListUnparseable

  /** The list request: a transport failure or timeout, or a response with its `ok` flag. */
  datatype ListResponse = ListTransportError | ListReceived(ok: bool, body: ListBody)

  /** `fetchVideos`: every failure, and any body that is not an array, becomes `[]`. */
  function FetchVideos(response: ListResponse): (list: seq<VideoData>)
    ensures list != [] ==> response == ListReceived(true, ListArray(list))
    ensures response.ListReceived? && response.ok && response.body.ListArray? ==> list == response.body.items
  {
    match response
    case ListTransportError => []
    case ListReceived(ok, body) =>
      if !ok then []
      else match body
        case ListArray(items) => items
        case ListNotArray => []
        case ListUnparseable => []
  }

  /**
   * One settled detail request as the loader sees it: a record, `null`
   * (a failed request or a `null` body), or some other JSON value that
   * `transformVideoData` cannot read and that makes it throw.
   */
  datatype Detail = Fetched(record: VideoData) | Missing | Malformed

  /** What `response.json()` yields for the detail endpoint. */
  datatype DetailBody = RecordBody(record: VideoData) | NullBody | OtherBody | DetailUnparseable

  datatype DetailResponse = DetailTransportError | DetailReceived(ok: bool, body: DetailBody)

  /** `fetchVideoDetails`: failures become `null`; a successful body is passed on unchecked. */
  function FetchVideoDetails(response: DetailResponse): (d: Detail)
    ensures d.Fetched? <==> response.DetailReceived? && response.ok && response.body.RecordBody?
    ensures d.Fetched? ==> d.record == response.body.record
    ensures d.Malformed? <==> response.DetailReceived? && response.ok && response.body.OtherBody?
  {
    match response
    case DetailTransportError => Missing
    case DetailReceived(ok, body) =>
      if !ok then Missing
      else match body
        case RecordBody(v) => Fetched(v)
        case NullBody => Missing
        case OtherBody => Malformed
        case DetailUnparseable => Missing
  }

  // ------------------------------------------------------------ loading

  /** The records among the settled details, in list order (the `filter` step). */
  function Present(details: seq<Detail>): (r: seq<VideoData>)
    ensures |r| <= |details|
  {
    if details == [] then []
    else if details[0].Fetched? then [details[0].record] + Present(details[1..])
    else Present(details[1..])
  }

  /** One detail contributes its record when it was fetched, and nothing otherwise. */
  lemma PresentSingleton(d: Detail)
    ensures Present([d]) == if d.Fetched? then [d.record] else []
  {
    assert [d][1..] == [];
  }

  /** `Present` works detail by detail: the survivors of a concatenation are concatenated survivors, in order. */
  lemma {:induction false} PresentAppend(x: seq<Detail>, y: seq<Detail>)
    ensures Present(x + y) == Present(x) + Present(y)
    decreases |x|
  {
    if x == [] {
      assert x + y == y;
    } else {
      assert (x + y)[1..] == x[1..] + y;
      PresentAppend(x[1..], y);
    }
  }

  /** The number of detail requests that came back `null`. */
  function Failures(details: seq<Detail>): nat
  {
    if details == [] then 0
    else (if details[0].Missing? then 1 else 0) + Failures(details[1..])
  }

  predicate AnyMalformed(details: seq<Detail>)
  {
    exists i | 0 <= i < |details| :: details[i].Malformed?
  }

  /** Without malformed details, every request either failed or yielded one record. */
  lemma {:induction false} PresentCount(details: seq<Detail>)
    requires !AnyMalformed(details)
    ensures |Present(details)| + Failures(details) == |details|
  {
    if details != [] {
      assert !AnyMalformed(details[1..]) by {
        forall i | 0 <= i < |details[1..]|
          ensures !details[1..][i].Malformed?
        {
          assert details[1..][i] == details[i + 1];
        }
      }
      PresentCount(details[1..]);
    }
  }

  /** Every record among the details, and only those, appears in `Present`. */
  lemma {:induction false} PresentMembers(details: seq<Detail>, v: VideoData)
    ensures v in Present(details) <==> Fetched(v) in details
  {
    if details != [] {
      PresentMembers(details[1..], v);
      assert details == [details[0]] + details[1..];
    }
  }

  /** The `map` step: the `k`-th surviving record transformed with the `k`-th pair of draws. */
  function TransformAll(records: seq<VideoData>, draws: seq<Draws>): (r: seq<TransformedVideo>)
    requires |draws| == |records|
    ensures |r| == |records|
    ensures forall k :: 0 <= k < |r| ==> IsViewOf(r[k], records[k])
  {
    seq(|records|, k requires 0 <= k < |records| => TransformVideoData(records[k], draws[k]))
  }

  /**
   * `loadAllVideos`, given the list `fetchVideos` returned, the settled
   * detail request made for each list element (the same order, as
   * `Promise.all` keeps it) and the random draws: the `k`-th surviving
   * record uses `draws[k]`.
   * A malformed detail makes `transformVideoData` throw, and the outer
   * `catch` then returns `[]`.
   */
  function LoadAllVideos(list: seq<VideoData>, details: seq<Detail>, draws: seq<Draws>): (r: seq<TransformedVideo>)
    requires |details| == |list| && |draws| == |list|
    ensures list == [] ==> r == []
    ensures AnyMalformed(details) ==> r == []
    ensures !AnyMalformed(details) ==> |r| == |list| - Failures(details) && |r| == |Present(details)|
    ensures |r| <= |Present(details)|
    ensures forall k :: 0 <= k < |r| ==> IsViewOf(r[k], Present(details)[k])
  {
    if |list| == 0 then []
    else if AnyMalformed(details) then []
    else
      PresentCount(details);
      TransformAll(Present(details), draws[..|Present(details)|])
  }

  /** Each loaded video's id is the id of a record some detail request returned. */
  lemma LoadedIdsComeFromDetails(list: seq<VideoData>, details: seq<Detail>, draws: seq<Draws>, k: nat)
    requires |details| == |list| && |draws| == |list|
    requires k < |LoadAllVideos(list, details, draws)|
    ensures exists v :: Fetched(v) in details && v.id == LoadAllVideos(list, details, draws)[k].id
  {
    var r := LoadAllVideos(list, details, draws);
    var v := Present(details)[k];
    PresentMembers(details, v);
  }
}
