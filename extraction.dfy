/**
 * The content script's record builders and the arithmetic around them
 * (content.js:24-171): how many links are visited, one record per visited
 * link in link order, the placeholder record when building one fails, and
 * how many times the page is scrolled beforehand.
 */
module Extraction {
  import opened JsText
  import opened Selection
  import opened FieldExtraction

  /** The limit the popup sends: "all", an integer, or the NaN of an unreadable option. */
  datatype Limit = All | Items(n: int) | NotANumber

  /**
   * A link the builders visit: its `href`; the container
   * `closest("article") || closest("div")` gives, `None` when both are null;
   * and whether building its record raises outside the extractors' own
   * `try` blocks, which sends the builder to its `catch` branch.
   */
  datatype Link = Link(href: string, container: Option<Container>, raises: bool)

  datatype PostRecord = PostRecord(url: string, createDate: DateField, likes: Metric, comments: Metric, caption: string)

  datatype ReelRecord = ReelRecord(url: string, views: Metric, likes: Metric, comments: Metric)

  // ---------------------------------------------------------------------------
  // How many links are visited (content.js:91-94, 137-140)
  // ---------------------------------------------------------------------------

  /** `limit === "all" ? links.length : Math.min(limit, links.length)`; `None` is NaN. */
  function ActualLimit(limit: Limit, links: nat): (a: Option<int>)
    ensures limit.NotANumber? <==> a.None?
    ensures a.Some? ==> a.value <= links
  {
    match limit
    case All => Some(links)
    case Items(n) => Some(Min(n, links))
    case NotANumber => None
  }

  /** `i < bound` with `bound` possibly NaN, where every comparison is false. */
  predicate Below(i: int, bound: Option<int>)
  {
    bound.Some? && i < bound.value
  }

  /** How many times `for (let i = 0; i < actualLimit; i++)` runs. */
  function RecordCount(limit: Limit, links: nat): (k: nat)
  {
    match ActualLimit(limit, links)
    case Some(a) => Max(a, 0)
    case None => 0
  }

  /**
   * The number of records is the number of links for "all", and otherwise
   * the smaller of the limit and the number of links (nothing for a limit
   * that is not positive or not a number); it never exceeds either.
   */
  lemma RecordCountBounds(limit: Limit, links: nat)
    ensures RecordCount(limit, links) <= links
    ensures limit.All? ==> RecordCount(limit, links) == links
    ensures limit.Items? && limit.n >= 0 ==> RecordCount(limit, links) == Min(limit.n, links)
    ensures limit.Items? ==> RecordCount(limit, links) <= Max(limit.n, 0)
    ensures (limit.Items? && limit.n <= 0) || limit.NotANumber? ==> RecordCount(limit, links) == 0
  {
  }

  // ---------------------------------------------------------------------------
  // One record per link (content.js:84-171)
  // ---------------------------------------------------------------------------

  /** The record a post builder pushes when building the real one raises. */
  function PostPlaceholder(url: string): PostRecord
  {
    PostRecord(url, DateText("Unknown"), Count(0), Count(0), "")
  }

  function ReelPlaceholder(url: string): ReelRecord
  {
    ReelRecord(url, Count(0), Count(0), Count(0))
  }

  /** The record pushed for one post link. */
  function PostOf(link: Link, engine: SelectorEngine): (p: PostRecord)
    ensures p.url == link.href
    ensures link.raises ==> p == PostPlaceholder(link.href)
    ensures !link.raises ==> p.likes != Count(0) && p.createDate == DateOf(link.container)
  {
    if link.raises then PostPlaceholder(link.href)
    else
      LikesArePositive(link.container, engine);
      PostRecord(link.href, DateOf(link.container), LikesOf(link.container, engine),
                 CommentsOf(link.container, engine), CaptionOf(link.container))
  }

  /** The record pushed for one reel link. */
  function ReelOf(link: Link, engine: SelectorEngine): (r: ReelRecord)
    ensures r.url == link.href
    ensures link.raises ==> r == ReelPlaceholder(link.href)
    ensures !link.raises ==> r.likes != Count(0)
  {
    if link.raises then ReelPlaceholder(link.href)
    else
      LikesArePositive(link.container, engine);
      ReelRecord(link.href, ViewsOf(link.container, engine), LikesOf(link.container, engine),
                 CommentsOf(link.container, engine))
  }

  /** `extractPostsData`: one record per visited link, in link order. */
  method ExtractPostsData(links: seq<Link>, limit: Limit, engine: SelectorEngine) returns (posts: seq<PostRecord>)
    ensures |posts| == RecordCount(limit, |links|)
    ensures forall i :: 0 <= i < |posts| ==> posts[i] == PostOf(links[i], engine)
  {
    var actualLimit := ActualLimit(limit, |links|);
    posts := [];
    var i := 0;
    while Below(i, actualLimit)
      invariant 0 <= i <= RecordCount(limit, |links|)
      invariant |posts| == i
      invariant forall j :: 0 <= j < i ==> posts[j] == PostOf(links[j], engine)
      decreases RecordCount(limit, |links|) - i
    {
      var link := links[i];
      if link.raises {
        posts := posts + [PostPlaceholder(link.href)];
      } else {
        var createDate := ExtractCreateDate(link.container);
        var likes := ExtractLikes(link.container, engine);
        var comments := ExtractComments(link.container, engine);
        var caption := ExtractCaption(link.container);
        LikesArePositive(link.container, engine);
        posts := posts + [PostRecord(link.href, createDate, likes, comments, caption)];
      }
      i := i + 1;
    }
  }

  /** `extractReelsData`: one record per visited link, in link order. */
  method ExtractReelsData(links: seq<Link>, limit: Limit, engine: SelectorEngine) returns (reels: seq<ReelRecord>)
    ensures |reels| == RecordCount(limit, |links|)
    ensures forall i :: 0 <= i < |reels| ==> reels[i] == ReelOf(links[i], engine)
  {
    var actualLimit := ActualLimit(limit, |links|);
    reels := [];
    var i := 0;
    while Below(i, actualLimit)
      invariant 0 <= i <= RecordCount(limit, |links|)
      invariant |reels| == i
      invariant forall j :: 0 <= j < i ==> reels[j] == ReelOf(links[j], engine)
      decreases RecordCount(limit, |links|) - i
    {
      var link := links[i];
      if link.raises {
        reels := reels + [ReelPlaceholder(link.href)];
      } else {
        var views := ExtractViews(link.container, engine);
        var likes := ExtractLikes(link.container, engine);
        var comments := ExtractComments(link.container, engine);
        LikesArePositive(link.container, engine);
        reels := reels + [ReelRecord(link.href, views, likes, comments)];
      }
      i := i + 1;
    }
  }

  /**
   * The urls of the records are the hrefs of the first links, in order and
   * with repetitions kept: nothing is deduplicated or reordered.
   */
  lemma PostUrlsAreLinkHrefs(links: seq<Link>, limit: Limit, engine: SelectorEngine, posts: seq<PostRecord>)
    requires |posts| == RecordCount(limit, |links|)
    requires forall i :: 0 <= i < |posts| ==> posts[i] == PostOf(links[i], engine)
    ensures forall i, j :: 0 <= i < j < |posts| && links[i].href == links[j].href ==> posts[i].url == posts[j].url
    ensures forall i :: 0 <= i < |posts| ==> posts[i].url == links[i].href
  {
  }

  // ---------------------------------------------------------------------------
  // Scrolling before extraction (content.js:65-82)
  // ---------------------------------------------------------------------------

  /** `limit === "all" || limit > 50`. */
  predicate ShouldScroll(limit: Limit)
  {
    limit.All? || (limit.Items? && limit.n > 50)
  }

  /** `Math.ceil(n / 12)` for positive `n`. */
  function CeilTwelfth(n: nat): (q: nat)
    ensures 12 * q >= n && (q == 0 || 12 * (q - 1) < n)
  {
    (n + 11) / 12
  }

  /** How many times the page is scrolled to the bottom. */
  function ScrollCount(limit: Limit): (k: nat)
    ensures k <= 20
    ensures k == 0 <==> !ShouldScroll(limit)
    ensures limit.All? ==> k == 20
    ensures limit.Items? && limit.n > 50 ==>
              (k == 20 <==> limit.n > 12 * 19) && (k < 20 ==> 12 * (k - 1) < limit.n <= 12 * k)
  {
    if limit.All? then 20
    else if ShouldScroll(limit) then Min(CeilTwelfth(limit.n), 20)
    else 0
  }

  datatype ScrollStep = ScrollToBottom | ScrollToTop | Wait(ms: nat)

  /** `k` rounds of scrolling to the bottom and waiting a second. */
  function Rounds(k: nat): seq<ScrollStep>
  {
    if k == 0 then [] else Rounds(k - 1) + [ScrollToBottom, Wait(1000)]
  }

  /** What `scrollToLoadContent` does, in order. */
  function ScrollPlan(limit: Limit): seq<ScrollStep>
  {
    if ShouldScroll(limit) then Rounds(ScrollCount(limit)) + [ScrollToTop, Wait(500)] else []
  }

  method ScrollToLoadContent(limit: Limit) returns (steps: seq<ScrollStep>)
    ensures steps == ScrollPlan(limit)
  {
    steps := [];
    if ShouldScroll(limit) {
      var scrollAmount := ScrollCount(limit);
      var i := 0;
      while i < scrollAmount
        invariant 0 <= i <= scrollAmount
        invariant steps == Rounds(i)
      {
        steps := steps + [ScrollToBottom, Wait(1000)];
        i := i + 1;
      }
      steps := steps + [ScrollToTop, Wait(500)];
    }
  }

  function Bottoms(steps: seq<ScrollStep>): nat
  {
    if steps == [] then 0 else Bottoms(steps[..|steps| - 1]) + (if steps[|steps| - 1] == ScrollToBottom then 1 else 0)
  }

  function TotalWait(steps: seq<ScrollStep>): nat
  {
    if steps == [] then 0
    else TotalWait(steps[..|steps| - 1]) + (if steps[|steps| - 1].Wait? then steps[|steps| - 1].ms else 0)
  }

  lemma {:induction false} BottomsAndWaitAppend(a: seq<ScrollStep>, b: seq<ScrollStep>)
    ensures Bottoms(a + b) == Bottoms(a) + Bottoms(b)
    ensures TotalWait(a + b) == TotalWait(a) + TotalWait(b)
    decreases |b|
  {
    if b == [] {
      assert a + b == a;
    } else {
      var b' := b[..|b| - 1];
      assert (a + b)[..|a + b| - 1] == a + b';
      assert (a + b)[|a + b| - 1] == b[|b| - 1];
      BottomsAndWaitAppend(a, b');
    }
  }

  lemma {:induction false} RoundsCount(k: nat)
    ensures Bottoms(Rounds(k)) == k && TotalWait(Rounds(k)) == 1000 * k
  {
    if k > 0 {
      RoundsCount(k - 1);
      BottomsAndWaitAppend(Rounds(k - 1), [ScrollToBottom, Wait(1000)]);
      assert [ScrollToBottom, Wait(1000)][..1] == [ScrollToBottom];
      assert [ScrollToBottom][..0] == [];
    }
  }

  /**
   * The plan scrolls to the bottom exactly `ScrollCount` times, and the
   * page waits one second per round plus half a second at the end: at most
   * 20.5 seconds, and not at all when the limit is at most 50.
   */
  lemma ScrollPlanCosts(limit: Limit)
    ensures Bottoms(ScrollPlan(limit)) == ScrollCount(limit)
    ensures TotalWait(ScrollPlan(limit)) == (if ShouldScroll(limit) then 1000 * ScrollCount(limit) + 500 else 0)
    ensures TotalWait(ScrollPlan(limit)) <= 20500
  {
    if ShouldScroll(limit) {
      var k := ScrollCount(limit);
      RoundsCount(k);
      BottomsAndWaitAppend(Rounds(k), [ScrollToTop, Wait(500)]);
      assert [ScrollToTop, Wait(500)][..1] == [ScrollToTop];
      assert [ScrollToTop][..0] == [];
    }
  }

  // ---------------------------------------------------------------------------
  // The message handler's entry point (content.js:19-46)
  // ---------------------------------------------------------------------------

  /** What the page offers: the post links and the reel links, in document order. */
  datatype Page = Page(postLinks: seq<Link>, reelLinks: seq<Link>)

  datatype Extracted = Posts(posts: seq<PostRecord>) | Reels(reels: seq<ReelRecord>) | UnsupportedPlatform

  /** `detectPlatform`: the page is Instagram when the host name mentions it. */
  predicate OnInstagram(hostname: string)
  {
    Contains(hostname, "instagram.com")
  }

  /**
   * `extractData`, with the content wait left out: off Instagram it throws,
   * otherwise it scrolls as planned and builds reels for "Reels" and posts
   * for any other content type.
   */
  method ExtractData(hostname: string, contentType: string, limit: Limit, page: Page, engine: SelectorEngine)
    returns (result: Extracted, scrolled: seq<ScrollStep>)
    ensures !OnInstagram(hostname) <==> result.UnsupportedPlatform?
    ensures !OnInstagram(hostname) ==> scrolled == []
    ensures OnInstagram(hostname) ==> scrolled == ScrollPlan(limit)
    ensures result.Reels? <==> OnInstagram(hostname) && contentType == "Reels"
    ensures result.Reels? ==> |result.reels| == RecordCount(limit, |page.reelLinks|)
                              && forall i :: 0 <= i < |result.reels| ==> result.reels[i] == ReelOf(page.reelLinks[i], engine)
    ensures result.Posts? ==> |result.posts| == RecordCount(limit, |page.postLinks|)
                              && forall i :: 0 <= i < |result.posts| ==> result.posts[i] == PostOf(page.postLinks[i], engine)
  {
    if !OnInstagram(hostname) {
      return UnsupportedPlatform, [];
    }
    scrolled := ScrollToLoadContent(limit);
    if contentType == "Reels" {
      var reels := ExtractReelsData(page.reelLinks, limit, engine);
      result := Reels(reels);
    } else {
      var posts := ExtractPostsData(page.postLinks, limit, engine);
      result := Posts(posts);
    }
  }
}
