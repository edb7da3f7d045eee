/**
 * The five field extractors of the content script (content.js:174-329):
 * which candidate each one accepts, in which order it looks, and what it
 * falls back to.
 *
 * Every extractor runs inside its own `try`; an exception, including the
 * `TypeError` of a missing container and the `SyntaxError` a browser raises
 * for `:contains`, ends it in the `catch` branch. The `Math.random`
 * fallbacks are kept as the outcome `Random(bound)`: some integer in
 * `[0, bound)`, not a value read from the page.
 */
module FieldExtraction {
  import opened JsText
  import opened NumberText
  import opened Selection

  /** A counter as the extractors return it: read from the page, or a random stand-in below `below`. */
  datatype Metric = Count(n: nat) | Random(below: nat)

  /** `el.textContent || el.getAttribute("aria-label") || ""`. */
  function CandidateText(el: Element): (t: string)
    ensures t == el.text || (el.text == [] && t == el.ariaLabel)
  {
    if el.text != [] then el.text else el.ariaLabel
  }

  /** The `number > 0` test: NaN and 0 are both turned down. */
  function Positive(n: Option<nat>): (r: Option<nat>)
    ensures r.Some? <==> n.Some? && n.value > 0
    ensures r.Some? ==> r == n
  {
    if n.Some? && n.value > 0 then n else None
  }

  // ---------------------------------------------------------------------------
  // Likes (content.js:206-243)
  // ---------------------------------------------------------------------------

  const LikeCss: seq<string> := [
    "[aria-label*=\"like\"]",
    "button[aria-label*=\"like\"] span",
    "span[aria-label*=\"like\"]",
    "[data-testid=\"like\"] span"
  ]

  const LikeContains: seq<Selector> := [ContainsText("button span", "like"), ContainsText("span", "like")]

  const LikeSelectors: seq<Selector> := AsCss(LikeCss) + LikeContains

  /** A like candidate counts when its text parses to a positive number. */
  function LikeValue(el: Element): (r: Option<nat>)
    ensures r.Some? ==> r.value > 0 && ParseNumber(CandidateText(el)) == r
  {
    Positive(ParseNumber(CandidateText(el)))
  }

  /** The button pass: an `aria-label` mentioning "like" in any case, read as a positive number. */
  function ButtonLikeValue(el: Element): (r: Option<nat>)
    ensures r.Some? ==> r.value > 0 && Contains(LowerString(el.ariaLabel), "like") && ParseNumber(el.ariaLabel) == r
  {
    if Contains(LowerString(el.ariaLabel), "like") then Positive(ParseNumber(el.ariaLabel)) else None
  }

  function LikesOf(container: Option<Container>, engine: SelectorEngine): (m: Metric)
    ensures m.Random? ==> m.below == 1000
  {
    match container
    case None => Random(1000)
    case Some(c) =>
      match ScanSelectors(c, LikeSelectors, engine, LikeValue)
      case Accepted(n) => Count(n)
      case Raised => Random(1000)
      case Exhausted =>
        match FirstAccepted(Select(c, "button"), ButtonLikeValue)
        case Some(n) => Count(n)
        case None => Random(1000)
  }

  /**
   * As written, in a browser: only the four plain CSS selectors are ever
   * scanned. The first candidate among their matches with a positive count
   * wins; otherwise the `:contains` selector throws, and the button pass is
   * never reached.
   */
  lemma StandardLikesSkipButtons(c: Container)
    ensures Reached(c, LikeSelectors, Standard) == SelectAll(c, LikeCss)
    ensures LikesOf(Some(c), Standard)
         == match FirstAccepted(SelectAll(c, LikeCss), LikeValue)
            case Some(n) => Count(n)
            case None => Random(1000)
  {
    ReachedThroughCss(c, LikeCss, LikeContains, Standard);
    assert Reached(c, LikeContains, Standard) == [];
    assert SelectAll(c, LikeCss) + [] == SelectAll(c, LikeCss);
    assert !AllParse(LikeContains, Standard) by {
      assert !Parses(LikeContains[0], Standard);
    }
    ScanIsFirstOverReached(c, LikeSelectors, Standard, LikeValue);
  }

  /**
   * As intended, with an engine that understands `:contains`: all six
   * selectors are scanned, then the buttons, and only then the fallback.
   */
  lemma IntendedLikesScanEverySelector(c: Container)
    ensures Reached(c, LikeSelectors, JQueryLike)
         == SelectAll(c, LikeCss) + WithText(Select(c, "button span"), "like") + WithText(Select(c, "span"), "like")
    ensures LikesOf(Some(c), JQueryLike)
         == match FirstAccepted(Reached(c, LikeSelectors, JQueryLike), LikeValue)
            case Some(n) => Count(n)
            case None =>
              match FirstAccepted(Select(c, "button"), ButtonLikeValue)
              case Some(n) => Count(n)
              case None => Random(1000)
  {
    LikeChainReach(c);
    ScanIsFirstOverReached(c, LikeSelectors, JQueryLike, LikeValue);
  }

  lemma LikeChainReach(c: Container)
    ensures Reached(c, LikeSelectors, JQueryLike)
         == SelectAll(c, LikeCss) + WithText(Select(c, "button span"), "like") + WithText(Select(c, "span"), "like")
    ensures AllParse(LikeSelectors, JQueryLike)
  {
    ReachedThroughCss(c, LikeCss, LikeContains, JQueryLike);
    var a, b := WithText(Select(c, "button span"), "like"), WithText(Select(c, "span"), "like");
    assert LikeContains[1..][1..] == [];
    assert Reached(c, LikeContains, JQueryLike) == a + (b + []);
    ConcatAssociates(SelectAll(c, LikeCss), a, b);
    assert b + [] == b;
    assert AllParse(LikeContains, JQueryLike);
  }

  /** Every counted like is positive and read from a reached candidate or a button label. */
  lemma LikesArePositive(container: Option<Container>, engine: SelectorEngine)
    ensures LikesOf(container, engine).Count? ==> LikesOf(container, engine).n > 0
  {
    if container.Some? {
      var c := container.value;
      ScanIsFirstOverReached(c, LikeSelectors, engine, LikeValue);
    }
  }

  /**
   * A label the button pass reads: 1 234 000 through the 'k' of "Likes".
   * Attribute substring selectors are case-sensitive, so none of the
   * `[aria-label*="like"]` selectors match this button in a browser.
   */
  const LabelledButtonOnly := Container(map["button" := [Element("", "1,234 Likes", "")]])

  /**
   * The button pass is dead in a browser: a page whose only like count is on
   * a button's label yields a random number, where the intended scan reads it.
   */
  lemma ContainsSelectorHidesButtonLikes()
    ensures LikesOf(Some(LabelledButtonOnly), Standard) == Random(1000)
    ensures LikesOf(Some(LabelledButtonOnly), JQueryLike) == Count(1234000)
  {
    var c := LabelledButtonOnly;
    SelectAllAbsent(c, LikeCss);
    StandardLikesSkipButtons(c);
    IntendedLikesScanEverySelector(c);
    assert Select(c, "button span") == [] && Select(c, "span") == [];
    ButtonLabelReadsThousands();
  }

  lemma ButtonLabelReadsThousands()
    ensures FirstAccepted(Select(LabelledButtonOnly, "button"), ButtonLikeValue) == Some(1234000)
  {
    LabelledButtonMatches();
    LikesLabelMentionsLike();
    LabelReadsThousands();
    ButtonReads(Element("", "1,234 Likes", ""), 1234000);
  }

  lemma LabelledButtonMatches() ensures Select(LabelledButtonOnly, "button") == [Element("", "1,234 Likes", "")] {}

  lemma LabelReadsThousands() ensures ParseNumber("1,234 Likes") == Some(1234000) {
    GroupedLikesReadAsThousands(" Likes");
    LikesLabelSplits();
  }

  /** A single button whose label mentions "like" and reads as a positive count decides the button pass. */
  lemma ButtonReads(el: Element, n: nat)
    requires n > 0 && Contains(LowerString(el.ariaLabel), "like") && ParseNumber(el.ariaLabel) == Some(n)
    ensures FirstAccepted([el], ButtonLikeValue) == Some(n)
  {
    OnlyCandidate(el, ButtonLikeValue, n);
  }

  /**
   * The label says "like" only once lower-cased, as the button pass does;
   * the case-sensitive attribute match of the CSS selectors misses it.
   */
  lemma LikesLabelMentionsLike()
    ensures Contains(LowerString("1,234 Likes"), "like")
    ensures !Contains("1,234 Likes", "like")
  {
    LowerLabelMentionsLike();
    LabelMissesLike();
  }

  lemma LowerLabelMentionsLike() ensures Contains(LowerString("1,234 Likes"), "like") {
    LikesLabelIsLowerCase();
    LikesLabelAround();
    OccursBetween("1,234 ", "like", "s");
  }

  lemma LabelMissesLike() ensures !Contains("1,234 Likes", "like") {
    assert 'l' !in "1,234 Likes";
    MissingInitialNotContained("1,234 Likes", "like");
  }

  lemma LikesLabelAround() ensures "1,234 likes" == "1,234 " + "like" + "s" {}

  lemma LikesLabelIsLowerCase() ensures LowerString("1,234 Likes") == "1,234 likes" {
    LikesLabelSplits();
    LowerStringConcat("1,234", " Likes");
    LikesLabelPieces();
  }

  lemma LikesLabelSplits() ensures "1,234 Likes" == "1,234" + " Likes" && "1,234 likes" == "1,234" + " likes" {}

  lemma LikesLabelPieces() ensures LowerString("1,234") == "1,234" && LowerString(" Likes") == " likes" {
    LowerGroupedDigits();
    LowerLikesWord();
  }

  lemma LowerGroupedDigits() ensures LowerString("1,234") == "1,234" {
    assert "1,234" == "1," + "234";
    LowerStringConcat("1,", "234");
  }

  lemma LowerLikesWord() ensures LowerString(" Likes") == " likes" {
    LikesWordSplits();
    LowerStringConcat(" Li", "kes");
    LowerLi();
  }

  lemma LikesWordSplits() ensures " Likes" == " Li" + "kes" && " likes" == " li" + "kes" {}

  lemma LowerLi() ensures LowerString(" Li") == " li" {
    assert LowerChar('L') == 'l';
  }

  /** A single candidate the scan accepts decides it. */
  lemma OnlyCandidate<T>(el: Element, accept: Element -> Option<T>, v: T)
    requires accept(el) == Some(v)
    ensures FirstAccepted([el], accept) == Some(v)
  {
  }

  // ---------------------------------------------------------------------------
  // Comments (content.js:245-272)
  // ---------------------------------------------------------------------------

  const CommentCss: seq<string> := [
    "[aria-label*=\"comment\"]",
    "button[aria-label*=\"comment\"] span",
    "span[aria-label*=\"comment\"]",
    "[data-testid=\"comment\"] span",
    "a[href*=\"/comments/\"] span"
  ]

  const CommentSelectors: seq<Selector> := AsCss(CommentCss) + [ContainsText("button span", "comment")]

  /**
   * The `number >= 0` test: every parsed count, 0 included; only NaN is
   * turned down, and NaN needs a suffix letter. So a candidate with neither
   * text nor label is taken, as 0.
   */
  function CommentValue(el: Element): (r: Option<nat>)
    ensures r == ParseNumber(CandidateText(el))
    ensures r.None? ==> exists letter :: letter in "kmb" && letter in Clean(CandidateText(el))
    ensures el.text == [] && el.ariaLabel == [] ==> r == Some(0)
  {
    ParseNumber(CandidateText(el))
  }

  function CommentsOf(container: Option<Container>, engine: SelectorEngine): (m: Metric)
    ensures m.Random? ==> m.below == 100
  {
    match container
    case None => Random(100)
    case Some(c) =>
      match ScanSelectors(c, CommentSelectors, engine, CommentValue)
      case Accepted(n) => Count(n)
      case _ => Random(100)
  }

  /**
   * A candidate with an empty text and no label reads as 0 and is taken:
   * the first reached candidate that does not parse to NaN decides, in
   * either engine; in a browser the last selector is never reached.
   */
  lemma CommentsFirstParsed(c: Container, engine: SelectorEngine)
    ensures Reached(c, CommentSelectors, engine)
         == SelectAll(c, CommentCss) + (if engine == Standard then [] else WithText(Select(c, "button span"), "comment"))
    ensures CommentsOf(Some(c), engine)
         == match FirstAccepted(Reached(c, CommentSelectors, engine), CommentValue)
            case Some(n) => Count(n)
            case None => Random(100)
  {
    CommentChainReach(c, engine);
    ScanIsFirstOverReached(c, CommentSelectors, engine, CommentValue);
  }

  lemma CommentChainReach(c: Container, engine: SelectorEngine)
    ensures Reached(c, CommentSelectors, engine)
         == SelectAll(c, CommentCss) + (if engine == Standard then [] else WithText(Select(c, "button span"), "comment"))
  {
    var tail := [ContainsText("button span", "comment")];
    ReachedThroughCss(c, CommentCss, tail, engine);
    assert tail[1..] == [];
    assert Reached(c, tail, engine) == (if engine == Standard then [] else WithText(Select(c, "button span"), "comment") + []);
  }

  const CommentsInButtonSpan := Container(map["button span" := [Element("12 comments", "", "")]])

  /** Text only the `:contains` selector matches is read by the intended scan and ignored in a browser. */
  lemma ContainsSelectorHidesComments()
    ensures CommentsOf(Some(CommentsInButtonSpan), Standard) == Random(100)
    ensures CommentsOf(Some(CommentsInButtonSpan), JQueryLike) == Count(12000000)
  {
    var c := CommentsInButtonSpan;
    var el := Element("12 comments", "", "");
    SelectAllAbsent(c, CommentCss);
    assert Select(c, "button span") == [el];
    CommentsTextMentionsComment();
    CommentsWordReadsAsMillions();
    CommentsOnlyInButtonSpan(c, el, 12000000);
  }

  /**
   * Whenever the only comment count is in a button span mentioning "comment",
   * a browser falls back to a random count while the intended scan reads it.
   */
  lemma CommentsOnlyInButtonSpan(c: Container, el: Element, n: nat)
    requires SelectAll(c, CommentCss) == [] && Select(c, "button span") == [el]
    requires Contains(el.text, "comment") && CommentValue(el) == Some(n)
    ensures CommentsOf(Some(c), Standard) == Random(100)
    ensures CommentsOf(Some(c), JQueryLike) == Count(n)
  {
    CommentsFirstParsed(c, Standard);
    CommentsFirstParsed(c, JQueryLike);
    assert WithText([el], "comment") == [el];
    assert [] + [el] == [el];
    OnlyCandidate(el, CommentValue, n);
  }

  lemma CommentsTextMentionsComment() ensures Contains("12 comments", "comment") {
    assert "12 comments" == "12 " + "comment" + "s";
    OccursBetween("12 ", "comment", "s");
  }

  // ---------------------------------------------------------------------------
  // Views (content.js:274-298)
  // ---------------------------------------------------------------------------

  const ViewSelectors: seq<Selector> := [
    Css("[aria-label*=\"view\"]"),
    ContainsText("span", "views"),
    Css("[data-testid=\"views\"] span")
  ]

  /** A view candidate counts when its text mentions "view" in any case and parses to a positive number. */
  function ViewValue(el: Element): (r: Option<nat>)
    ensures r.Some? ==> r.value > 0 && Contains(LowerString(CandidateText(el)), "view")
                        && ParseNumber(CandidateText(el)) == r
  {
    var t := CandidateText(el);
    if Contains(LowerString(t), "view") then Positive(ParseNumber(t)) else None
  }

  function ViewsOf(container: Option<Container>, engine: SelectorEngine): (m: Metric)
    ensures m.Random? ==> m.below == 10000
  {
    match container
    case None => Random(10000)
    case Some(c) =>
      match ScanSelectors(c, ViewSelectors, engine, ViewValue)
      case Accepted(n) => Count(n)
      case _ => Random(10000)
  }

  /** As written, in a browser: only the `aria-label` selector is scanned before the `:contains` one throws. */
  lemma StandardViewsScanFirstSelectorOnly(c: Container)
    ensures ViewsOf(Some(c), Standard)
         == match FirstAccepted(Select(c, "[aria-label*=\"view\"]"), ViewValue)
            case Some(n) => Count(n)
            case None => Random(10000)
  {
  }

  /** As intended: the three selectors in order, `:contains` narrowing spans to those saying "views". */
  lemma IntendedViewsScanEverySelector(c: Container)
    ensures Reached(c, ViewSelectors, JQueryLike)
         == Select(c, "[aria-label*=\"view\"]") + WithText(Select(c, "span"), "views")
          + Select(c, "[data-testid=\"views\"] span")
    ensures ViewsOf(Some(c), JQueryLike)
         == match FirstAccepted(Reached(c, ViewSelectors, JQueryLike), ViewValue)
            case Some(n) => Count(n)
            case None => Random(10000)
  {
    ViewChainReach(c);
    assert AllParse(ViewSelectors, JQueryLike);
    ScanIsFirstOverReached(c, ViewSelectors, JQueryLike, ViewValue);
  }

  lemma ViewChainReach(c: Container)
    ensures Reached(c, ViewSelectors, JQueryLike)
         == Select(c, "[aria-label*=\"view\"]") + WithText(Select(c, "span"), "views")
          + Select(c, "[data-testid=\"views\"] span")
  {
    ReachedOfThree(c, ViewSelectors[0], ViewSelectors[1], ViewSelectors[2], JQueryLike);
    assert ViewSelectors == [ViewSelectors[0], ViewSelectors[1], ViewSelectors[2]];
  }

  /**
   * A view counter that is a span under the test id, as a browser reports it
   * to both the `span` and the test-id selector. Its text says "Views", so
   * the case-sensitive `:contains("views")` passes it over.
   */
  const ViewsUnderTestId := Container(map[
    "span" := [Element("5 Views", "", "")],
    "[data-testid=\"views\"] span" := [Element("5 Views", "", "")]
  ])

  /** The third view selector is dead in a browser. */
  lemma ContainsSelectorHidesViews()
    ensures ViewsOf(Some(ViewsUnderTestId), Standard) == Random(10000)
    ensures ViewsOf(Some(ViewsUnderTestId), JQueryLike) == Count(5)
  {
    var el := Element("5 Views", "", "");
    ViewsUnderTestIdMatches();
    ViewsTextSaysViewsCapitalised();
    FiveViewsElement();
    OneSpanUnderTestId(ViewsUnderTestId, el, 5);
  }

  lemma ViewsUnderTestIdMatches()
    ensures Select(ViewsUnderTestId, "[aria-label*=\"view\"]") == []
    ensures Select(ViewsUnderTestId, "span") == [Element("5 Views", "", "")]
    ensures Select(ViewsUnderTestId, "[data-testid=\"views\"] span") == [Element("5 Views", "", "")]
  {
  }

  /** One span under the test id, which does not say "views", holding the count. */
  lemma OneSpanUnderTestId(c: Container, el: Element, n: nat)
    requires Select(c, "[aria-label*=\"view\"]") == []
    requires Select(c, "span") == [el] && Select(c, "[data-testid=\"views\"] span") == [el]
    requires !Contains(el.text, "views") && ViewValue(el) == Some(n)
    ensures ViewsOf(Some(c), Standard) == Random(10000)
    ensures ViewsOf(Some(c), JQueryLike) == Count(n)
  {
    OnlyCandidate(el, ViewValue, n);
    WithTextNone([el], "views");
    ViewsOnlyUnderTestId(c, n);
  }

  /**
   * Whenever no element with a view label and no span saying "views" is
   * accepted, but a test-id span is, a browser never reaches that span and
   * falls back to a random count, while the intended scan reads it.
   */
  lemma ViewsOnlyUnderTestId(c: Container, n: nat)
    requires FirstAccepted(Select(c, "[aria-label*=\"view\"]"), ViewValue) == None
    requires FirstAccepted(WithText(Select(c, "span"), "views"), ViewValue) == None
    requires FirstAccepted(Select(c, "[data-testid=\"views\"] span"), ViewValue) == Some(n)
    ensures ViewsOf(Some(c), Standard) == Random(10000)
    ensures ViewsOf(Some(c), JQueryLike) == Count(n)
  {
    StandardViewsScanFirstSelectorOnly(c);
    IntendedViewsScanEverySelector(c);
    var labelled, spans := Select(c, "[aria-label*=\"view\"]"), WithText(Select(c, "span"), "views");
    FirstAcceptedConcat(labelled, spans, ViewValue);
    FirstAcceptedConcat(labelled + spans, Select(c, "[data-testid=\"views\"] span"), ViewValue);
  }

  lemma FiveViewsElement() ensures ViewValue(Element("5 Views", "", "")) == Some(5) {
    ViewsTextMentionsView();
    FiveViews();
  }

  /** `:contains` compares case-sensitively: "5 Views" does not contain "views". */
  lemma ViewsTextSaysViewsCapitalised() ensures !Contains("5 Views", "views") {
    assert 'v' !in "5 Views";
    MissingInitialNotContained("5 Views", "views");
  }

  lemma ViewsTextMentionsView() ensures Contains(LowerString("5 Views"), "view") {
    ViewsTextIsLowerCase();
    ViewsTextAround();
    OccursBetween("5 ", "view", "s");
  }

  lemma ViewsTextAround() ensures "5 views" == "5 " + "view" + "s" {}

  lemma ViewsTextIsLowerCase() ensures LowerString("5 Views") == "5 views" {
    ViewsTextSplits();
    LowerStringConcat("5 ", "Views");
    LowerViewsWord();
  }

  lemma ViewsTextSplits() ensures "5 Views" == "5 " + "Views" && "5 views" == "5 " + "views" {}

  lemma LowerViewsWord() ensures LowerString("Views") == "views" {
    assert LowerChar('V') == 'v';
  }

  lemma FiveViews() ensures ParseNumber("5 Views") == Some(5) {
    CleanFiveViews();
    assert "5" + [] == "5";
    ReadsPlain("5 Views", "5", []);
    assert DigitsValue("5") == 5;
  }

  lemma CleanFiveViews() ensures Clean("5 Views") == "5" {
    CleanConcat("5", " Views");
    assert LowerChar('V') == 'v';
    assert Clean(" Views") == [];
    assert "5" + " Views" == "5 Views";
  }

  // ---------------------------------------------------------------------------
  // Caption (content.js:300-329)
  // ---------------------------------------------------------------------------

  const CaptionCss: seq<string> := [
    "[data-testid=\"post-caption\"]",
    "span:not([aria-label]):not([role])",
    "div[data-testid] span",
    "article span"
  ]

  const CaptionSelectors: seq<Selector> := AsCss(CaptionCss)

  /** `^\d+[smhdwy]?$`: a bare number, or a number with one time-unit letter. */
  predicate NumberWithOptionalUnit(t: string)
  {
    (|t| >= 1 && AllDigits(t)) || (|t| >= 2 && AllDigits(t[..|t| - 1]) && IsAgeUnit(t[|t| - 1]))
  }

  /** The unit letters of a compact age: seconds, minutes, hours, days, weeks, years. */
  predicate IsAgeUnit(c: char)
  {
    c == 's' || c == 'm' || c == 'h' || c == 'd' || c == 'w' || c == 'y'
  }

  /** `t` equals `word` up to ASCII case (`word` in lower case). */
  predicate EqualsIgnoringCase(t: string, word: string)
  {
    |t| == |word| && StartsWithIgnoringCase(t, word)
  }

  /** `^(like|comment|share|save)$` with the `i` flag. */
  predicate IsUiLabel(t: string)
  {
    EqualsIgnoringCase(t, "like") || EqualsIgnoringCase(t, "comment")
    || EqualsIgnoringCase(t, "share") || EqualsIgnoringCase(t, "save")
  }

  /** The caption filter on trimmed text. */
  predicate CaptionWorthy(t: string)
  {
    |t| > 10 && !NumberWithOptionalUnit(t) && !IsUiLabel(t)
  }

  /** The label test never decides anything: every label is shorter than the length bound. */
  lemma UiLabelTestIsRedundant(t: string)
    ensures CaptionWorthy(t) <==> |t| > 10 && !NumberWithOptionalUnit(t)
  {
  }

  /** A caption candidate: its trimmed text, cut to 200 characters, if it passes the filter. */
  function CaptionValue(el: Element): (r: Option<string>)
    ensures r.Some? <==> CaptionWorthy(Trim(el.text))
    ensures r.Some? ==> |r.value| == Min(200, |Trim(el.text)|) && r.value == Trim(el.text)[..|r.value|]
  {
    var t := Trim(el.text);
    if CaptionWorthy(t) then Some(t[..Min(200, |t|)]) else None
  }

  /** All four caption selectors are plain CSS, so the engine does not matter (`CssChainIgnoresEngine`). */
  function CaptionOf(container: Option<Container>): (caption: string)
  {
    match container
    case None => ""
    case Some(c) =>
      match ScanSelectors(c, CaptionSelectors, Standard, CaptionValue)
      case Accepted(t) => t
      case _ => ""
  }

  /** The caption chain is the first caption candidate among the reached elements, or "". */
  lemma CaptionOfReached(c: Container)
    ensures CaptionOf(Some(c))
         == match FirstAccepted(Reached(c, CaptionSelectors, Standard), CaptionValue)
            case Some(t) => t
            case None => ""
  {
    ScanIsFirstOverReached(c, CaptionSelectors, Standard, CaptionValue);
  }

  /** The caption is "" exactly when no reached candidate's trimmed text passes the filter. */
  lemma CaptionEmptyIffNoneWorthy(c: Container)
    ensures var els := Reached(c, CaptionSelectors, Standard);
      CaptionOf(Some(c)) == [] <==> forall i :: 0 <= i < |els| ==> !CaptionWorthy(Trim(els[i].text))
  {
    CaptionOfReached(c);
    NoCaptionIffNoneWorthy(Reached(c, CaptionSelectors, Standard));
  }

  lemma NoCaptionIffNoneWorthy(els: seq<Element>)
    ensures FirstAccepted(els, CaptionValue).None? || FirstAccepted(els, CaptionValue).value != []
    ensures FirstAccepted(els, CaptionValue).None? <==> forall i :: 0 <= i < |els| ==> !CaptionWorthy(Trim(els[i].text))
  {
    assert forall i :: 0 <= i < |els| ==> (CaptionValue(els[i]).None? <==> !CaptionWorthy(Trim(els[i].text)));
    if FirstAccepted(els, CaptionValue).Some? {
      var i := FirstAcceptedIndex(els, CaptionValue);
    }
  }

  /**
   * A non-empty caption is the first 200 characters of the trimmed text of
   * the first reached candidate that passes the filter.
   */
  lemma CaptionIsFirstWorthy(c: Container)
    ensures var els := Reached(c, CaptionSelectors, Standard);
      var caption := CaptionOf(Some(c));
      caption != [] ==>
        exists i :: 0 <= i < |els| && CaptionWorthy(Trim(els[i].text)) && Rejected(els, CaptionValue, i)
                    && |caption| == Min(200, |Trim(els[i].text)|) && caption == Trim(els[i].text)[..|caption|]
  {
    ScanIsFirstOverReached(c, CaptionSelectors, Standard, CaptionValue);
  }

  /** A caption never exceeds 200 characters. */
  lemma CaptionBounded(container: Option<Container>)
    ensures |CaptionOf(container)| <= 200
  {
    if container.Some? {
      var c := container.value;
      CaptionOfReached(c);
      FirstCaptionBounded(Reached(c, CaptionSelectors, Standard));
    }
  }

  lemma FirstCaptionBounded(els: seq<Element>)
    ensures FirstAccepted(els, CaptionValue).Some? ==> |FirstAccepted(els, CaptionValue).value| <= 200
  {
    if FirstAccepted(els, CaptionValue).Some? {
      var i := FirstAcceptedIndex(els, CaptionValue);
    }
  }

  /** The reached caption candidates are exactly the four selectors' matches, in selector order. */
  lemma CaptionReach(c: Container)
    ensures Reached(c, CaptionSelectors, Standard) == SelectAll(c, CaptionCss)
  {
    ReachedThroughCss(c, CaptionCss, [], Standard);
    assert AsCss(CaptionCss) + [] == CaptionSelectors;
    assert SelectAll(c, CaptionCss) + [] == SelectAll(c, CaptionCss);
  }

  // ---------------------------------------------------------------------------
  // Create date (content.js:174-204)
  // ---------------------------------------------------------------------------

  /**
   * What `extractCreateDate` returns: text from the page, the locale
   * rendering of a `datetime` attribute, or the locale rendering of today
   * (both renderings depend on the clock and locale and are left symbolic).
   */
  datatype DateField = DateText(s: string) | LocaleDate(datetime: string) | Today

  /** `\d+[dwmy]` found anywhere: a digit directly followed by d, w, m or y. */
  predicate HasDayCount(t: string)
  {
    exists i :: 0 <= i < |t| - 1 && DayCountAt(t, i)
  }

  predicate DayCountAt(t: string, i: nat)
    requires i + 1 < |t|
  {
    IsDigit(t[i]) && (t[i + 1] == 'd' || t[i + 1] == 'w' || t[i + 1] == 'm' || t[i + 1] == 'y')
  }

  /** `^\d+[smhdwy]$`: digits and exactly one unit letter. */
  predicate CompactAge(t: string)
  {
    |t| >= 2 && AllDigits(t[..|t| - 1]) && IsAgeUnit(t[|t| - 1])
  }

  /** The first index at or after `i` that is not white space (`\s*` taken greedily). */
  function SkipSpaces(t: string, i: nat): (j: nat)
    requires i <= |t|
    ensures i <= j <= |t| && (j == |t| || !IsJsSpace(t[j]))
    ensures forall k :: i <= k < j ==> IsJsSpace(t[k])
    decreases |t| - i
  {
    if i < |t| && IsJsSpace(t[i]) then SkipSpaces(t, i + 1) else i
  }

  /** The length of the time unit of `(second|minute|hour|day|week|month|year)` at `j`, in any case; 0 if none. */
  function UnitLengthAt(t: string, j: nat): (n: nat)
    requires j <= |t|
    ensures j + n <= |t|
  {
    var r := t[j..];
    if StartsWithIgnoringCase(r, "second") then 6
    else if StartsWithIgnoringCase(r, "minute") then 6
    else if StartsWithIgnoringCase(r, "hour") then 4
    else if StartsWithIgnoringCase(r, "day") then 3
    else if StartsWithIgnoringCase(r, "week") then 4
    else if StartsWithIgnoringCase(r, "month") then 5
    else if StartsWithIgnoringCase(r, "year") then 4
    else 0
  }

  /** "ago", in any case, at `k`. */
  predicate AgoAt(t: string, k: nat)
    requires k <= |t|
  {
    StartsWithIgnoringCase(t[k..], "ago")
  }

  /**
   * `\d+\s*(second|minute|hour|day|week|month|year)s?\s*ago` with the `i`
   * flag, matched with its last digit at `i`.
   */
  predicate AgoPhraseAt(t: string, i: nat)
    requires i < |t|
  {
    IsDigit(t[i]) &&
    var j := SkipSpaces(t, i + 1);
    var u := UnitLengthAt(t, j);
    u > 0 &&
    (AgoAt(t, SkipSpaces(t, j + u))
     || (j + u < |t| && AsciiLower(t[j + u]) == 's' && AgoAt(t, SkipSpaces(t, j + u + 1))))
  }

  predicate AgoPhrase(t: string)
  {
    exists i :: 0 <= i < |t| && AgoPhraseAt(t, i)
  }

  /** A `time` or `[datetime]` element: its attribute first, then a day count in its text. */
  function TimeValue(el: Element): (r: Option<DateField>)
    ensures r.Some? <==> el.datetime != [] || HasDayCount(el.text)
    ensures r.Some? ==> r.value == (if el.datetime != [] then LocaleDate(el.datetime) else DateText(Trim(el.text)))
  {
    if el.datetime != [] then Some(LocaleDate(el.datetime))
    else if HasDayCount(el.text) then Some(DateText(Trim(el.text)))
    else None
  }

  /** A `span` or `div` whose trimmed text is a compact age or an "… ago" phrase. */
  function RelativeAgeValue(el: Element): (r: Option<DateField>)
    ensures r.Some? <==> CompactAge(Trim(el.text)) || AgoPhrase(Trim(el.text))
    ensures r.Some? ==> r.value == DateText(Trim(el.text))
  {
    var t := Trim(el.text);
    if CompactAge(t) || AgoPhrase(t) then Some(DateText(t)) else None
  }

  function DateOf(container: Option<Container>): (d: DateField)
  {
    match container
    case None => DateText("Unknown")
    case Some(c) =>
      match FirstAccepted(Select(c, "time, [datetime]"), TimeValue)
      case Some(d) => d
      case None =>
        match FirstAccepted(Select(c, "span, div"), RelativeAgeValue)
        case Some(d) => d
        case None => Today
  }

  /**
   * A date from a container is never "Unknown" unless the page says so: it
   * is a `datetime` attribute, the trimmed text of a time element with a day
   * count, the trimmed text of a relative age, or today.
   */
  lemma DateComesFromPage(c: Container)
    ensures var d := DateOf(Some(c));
      var times := Select(c, "time, [datetime]");
      var texts := Select(c, "span, div");
      d == Today
      || (exists i :: 0 <= i < |times| && times[i].datetime != [] && d == LocaleDate(times[i].datetime))
      || (exists i :: 0 <= i < |times| && HasDayCount(times[i].text) && d == DateText(Trim(times[i].text)))
      || (exists i :: 0 <= i < |texts| && (CompactAge(Trim(texts[i].text)) || AgoPhrase(Trim(texts[i].text)))
                                    && d == DateText(Trim(texts[i].text)))
    ensures DateOf(Some(c)) == Today
        <==> (forall i :: 0 <= i < |Select(c, "time, [datetime]")| ==> TimeValue(Select(c, "time, [datetime]")[i]).None?)
             && (forall i :: 0 <= i < |Select(c, "span, div")| ==> RelativeAgeValue(Select(c, "span, div")[i]).None?)
  {
  }

  /** A compact age is never taken for a caption, whatever its length. */
  lemma CompactAgeIsNoCaption(t: string)
    requires CompactAge(t)
    ensures !CaptionWorthy(t)
  {
  }

  lemma TwoDaysIsCompactAge() ensures CompactAge("2d") && !CompactAge("2 d") && !CompactAge("d") {
    assert "2 d"[..2] == "2 ";
    assert !IsDigit("2 "[1]);
  }

  const ThreeDaysText := "3 Days ago"

  lemma ThreeDaysAgo() ensures AgoPhrase(ThreeDaysText) {
    var t := ThreeDaysText;
    ThreeDaysSpaces();
    ThreeDaysUnit();
    ThreeDaysAgoWord();
    assert AgoPhraseAt(t, 0);
  }

  lemma ThreeDaysSpaces()
    ensures SkipSpaces(ThreeDaysText, 1) == 2 && SkipSpaces(ThreeDaysText, 6) == 7
    ensures AsciiLower(ThreeDaysText[5]) == 's' && IsDigit(ThreeDaysText[0])
  {
    assert SkipSpaces(ThreeDaysText, 2) == 2;
    assert SkipSpaces(ThreeDaysText, 7) == 7;
  }

  lemma ThreeDaysUnit() ensures UnitLengthAt(ThreeDaysText, 2) == 3 {
    var r := ThreeDaysText[2..];
    assert r == "Days ago";
    assert AsciiLower(r[0]) == 'd';
    assert "second"[0] == 's' && "minute"[0] == 'm' && "hour"[0] == 'h';
    assert !StartsWithIgnoringCase(r, "second") && !StartsWithIgnoringCase(r, "minute");
    assert !StartsWithIgnoringCase(r, "hour");
    assert StartsWithIgnoringCase(r, "day");
  }

  lemma ThreeDaysAgoWord() ensures AgoAt(ThreeDaysText, 7) {
    assert ThreeDaysText[7..] == "ago";
  }

  // ---------------------------------------------------------------------------
  // The extractors as loops
  // ---------------------------------------------------------------------------

  method ExtractLikes(container: Option<Container>, engine: SelectorEngine) returns (m: Metric)
    ensures m == LikesOf(container, engine)
  {
    if container.None? {
      return Random(1000);
    }
    var c := container.value;
    var s := ScanChain(c, LikeSelectors, engine, LikeValue);
    match s {
      case Accepted(n) => return Count(n);
      case Raised => return Random(1000);
      case Exhausted =>
        var b := FindFirst(Select(c, "button"), ButtonLikeValue);
        if b.Some? {
          return Count(b.value);
        }
        return Random(1000);
    }
  }

  method ExtractComments(container: Option<Container>, engine: SelectorEngine) returns (m: Metric)
    ensures m == CommentsOf(container, engine)
  {
    if container.None? {
      return Random(100);
    }
    var s := ScanChain(container.value, CommentSelectors, engine, CommentValue);
    if s.Accepted? {
      return Count(s.value);
    }
    return Random(100);
  }

  method ExtractViews(container: Option<Container>, engine: SelectorEngine) returns (m: Metric)
    ensures m == ViewsOf(container, engine)
  {
    if container.None? {
      return Random(10000);
    }
    var s := ScanChain(container.value, ViewSelectors, engine, ViewValue);
    if s.Accepted? {
      return Count(s.value);
    }
    return Random(10000);
  }

  method ExtractCaption(container: Option<Container>) returns (caption: string)
    ensures caption == CaptionOf(container)
  {
    if container.None? {
      return "";
    }
    var s := ScanChain(container.value, CaptionSelectors, Standard, CaptionValue);
    if s.Accepted? {
      return s.value;
    }
    return "";
  }

  method ExtractCreateDate(container: Option<Container>) returns (d: DateField)
    ensures d == DateOf(container)
  {
    if container.None? {
      return DateText("Unknown");
    }
    var c := container.value;
    var t := FindFirst(Select(c, "time, [datetime]"), TimeValue);
    if t.Some? {
      return t.value;
    }
    var r := FindFirst(Select(c, "span, div"), RelativeAgeValue);
    if r.Some? {
      return r.value;
    }
    return Today;
  }
}
