/**
 * The part of the DOM the content script's extractors look at, and the
 * "first success wins" scan they all perform: selector after selector, and
 * within one selector element after element in document order, the first
 * element whose text is acceptable decides the result.
 *
 * A container is abstracted to what `querySelectorAll` returns for each
 * selector text. The jQuery-only pseudo-class `:contains("word")` is kept
 * apart from plain CSS, because a browser's `querySelectorAll` rejects it
 * with a `SyntaxError` while a jQuery-like engine filters on the text.
 */
module Selection {
  import opened JsText

  /**
   * One element as the extractors read it: its `textContent`, and its
   * `aria-label` and `datetime` attributes, where "" stands for an absent
   * attribute (both are falsy in the code).
   */
  datatype Element = Element(text: string, ariaLabel: string, datetime: string)

  /** A selector of the code: plain CSS, or CSS narrowed by `:contains(word)`. */
  datatype Selector = Css(css: string) | ContainsText(base: string, word: string)

  /** For every CSS selector text, the elements it matches, in document order. */
  datatype Container = Container(matches: map<string, seq<Element>>)

  /** A browser's selector engine, or one that understands `:contains` as jQuery does. */
  datatype SelectorEngine = Standard | JQueryLike

  datatype QueryResult = Matches(elements: seq<Element>) | SyntaxError

  /** `container.querySelectorAll(css)` for valid CSS. */
  function Select(c: Container, css: string): seq<Element>
  {
    if css in c.matches then c.matches[css] else []
  }

  /** The elements of `els` whose text contains `word`, in order (jQuery's `:contains`). */
  function WithText(els: seq<Element>, word: string): (r: seq<Element>)
    ensures |r| <= |els|
    ensures forall e :: e in r <==> e in els && Contains(e.text, word)
  {
    if els == [] then []
    else Keep(els[0], word) + WithText(els[1..], word)
  }

  /**
   * Filtering decides element by element and keeps document order: it splits
   * over concatenation, and a single element is kept exactly when its text
   * contains the word.
   */
  lemma {:induction false} WithTextConcat(a: seq<Element>, b: seq<Element>, word: string)
    ensures WithText(a + b, word) == WithText(a, word) + WithText(b, word)
    ensures |a| == 1 ==> WithText(a, word) == if Contains(a[0].text, word) then a else []
  {
    if a == [] {
      assert a + b == b;
    } else {
      assert (a + b)[1..] == a[1..] + b;
      WithTextConcat(a[1..], b, word);
      ConcatAssociates(Keep(a[0], word), WithText(a[1..], word), WithText(b, word));
      if |a| == 1 {
        assert a[1..] == [] && [a[0]] == a;
      }
    }
  }

  /** Nothing is kept when no element's text contains the word. */
  lemma {:induction false} WithTextNone(els: seq<Element>, word: string)
    requires forall e :: e in els ==> !Contains(e.text, word)
    ensures WithText(els, word) == []
  {
    if els != [] {
      assert els[0] in els;
      WithTextNone(els[1..], word);
    }
  }

  /** What the filter keeps of one element. */
  function Keep(e: Element, word: string): seq<Element>
  {
    if Contains(e.text, word) then [e] else []
  }

  /** `container.querySelectorAll(selector)`: it throws exactly on `:contains` in a browser. */
  function Query(c: Container, sel: Selector, engine: SelectorEngine): (r: QueryResult)
    ensures r.SyntaxError? <==> sel.ContainsText? && engine == Standard
    ensures sel.Css? ==> r == Matches(Select(c, sel.css))
  {
    match sel
    case Css(css) => Matches(Select(c, css))
    case ContainsText(base, word) =>
      if engine == Standard then SyntaxError else Matches(WithText(Select(c, base), word))
  }

  /** Every matched element of a list of CSS selectors, selector by selector. */
  function SelectAll(c: Container, css: seq<string>): seq<Element>
  {
    if css == [] then [] else Select(c, css[0]) + SelectAll(c, css[1..])
  }

  /** A list of CSS selector texts as selectors. */
  function AsCss(css: seq<string>): (sels: seq<Selector>)
    ensures |sels| == |css| && forall i :: 0 <= i < |css| ==> sels[i] == Css(css[i])
  {
    if css == [] then [] else [Css(css[0])] + AsCss(css[1..])
  }

  /** A selector the engine can parse. */
  predicate Parses(sel: Selector, engine: SelectorEngine)
  {
    !(sel.ContainsText? && engine == Standard)
  }

  // ---------------------------------------------------------------------------
  // First success wins
  // ---------------------------------------------------------------------------

  /**
   * The value of the first element `accept` takes, scanning in order; `None`
   * when every element is turned down.
   */
  function FirstAccepted<T>(els: seq<Element>, accept: Element -> Option<T>): (r: Option<T>)
    ensures r.None? <==> forall i :: 0 <= i < |els| ==> accept(els[i]).None?
    ensures r.Some? ==> exists i :: 0 <= i < |els| && accept(els[i]) == r && Rejected(els, accept, i)
  {
    if els == [] then None
    else if accept(els[0]).Some? then
      assert Rejected(els, accept, 0);
      accept(els[0])
    else
      var r := FirstAccepted(els[1..], accept);
      assert forall i :: 0 <= i < |els| - 1 ==> els[1..][i] == els[i + 1];
      assert forall i :: 0 <= i < |els| - 1 && Rejected(els[1..], accept, i) ==> Rejected(els, accept, i + 1);
      r
  }

  /** Every element before index `i` is turned down. */
  predicate Rejected<T>(els: seq<Element>, accept: Element -> Option<T>, i: nat)
    requires i <= |els|
  {
    forall j :: 0 <= j < i ==> accept(els[j]).None?
  }

  /** Where the scan stops: the index of the first accepted element. */
  lemma FirstAcceptedIndex<T>(els: seq<Element>, accept: Element -> Option<T>) returns (i: nat)
    requires FirstAccepted(els, accept).Some?
    ensures i < |els| && accept(els[i]) == FirstAccepted(els, accept) && Rejected(els, accept, i)
  {
    i :| 0 <= i < |els| && accept(els[i]) == FirstAccepted(els, accept) && Rejected(els, accept, i);
  }

  /** Scanning two runs of elements one after the other is scanning their concatenation. */
  lemma {:induction false} FirstAcceptedConcat<T>(a: seq<Element>, b: seq<Element>, accept: Element -> Option<T>)
    ensures FirstAccepted(a + b, accept)
         == if FirstAccepted(a, accept).Some? then FirstAccepted(a, accept) else FirstAccepted(b, accept)
  {
    if a == [] {
      assert a + b == b;
    } else {
      assert (a + b)[0] == a[0] && (a + b)[1..] == a[1..] + b;
      FirstAcceptedConcat(a[1..], b, accept);
    }
  }

  /** What a selector chain ends in: an accepted value, an exception, or nothing found. */
  datatype Scan<T> = Accepted(value: T) | Raised | Exhausted

  /**
   * The `for (const selector of selectors) for (const el of elements)` search
   * of the extractors, with the early `return` and the `querySelectorAll`
   * exception that leaves the loop.
   */
  function ScanSelectors<T>(c: Container, sels: seq<Selector>, engine: SelectorEngine,
                            accept: Element -> Option<T>): Scan<T>
    decreases |sels|
  {
    if sels == [] then Exhausted
    else
      match Query(c, sels[0], engine)
      case SyntaxError => Raised
      case Matches(els) =>
        match FirstAccepted(els, accept)
        case Some(v) => Accepted(v)
        case None => ScanSelectors(c, sels[1..], engine, accept)
  }

  /** The elements the chain can reach: those of the selectors before the first one that fails to parse. */
  function Reached(c: Container, sels: seq<Selector>, engine: SelectorEngine): seq<Element>
    decreases |sels|
  {
    if sels == [] || !Parses(sels[0], engine) then []
    else Query(c, sels[0], engine).elements + Reached(c, sels[1..], engine)
  }

  predicate AllParse(sels: seq<Selector>, engine: SelectorEngine)
  {
    forall i :: 0 <= i < |sels| ==> Parses(sels[i], engine)
  }

  /**
   * The chain returns the first accepted value among the elements it can
   * reach; with none, it raises exactly when some selector does not parse.
   */
  lemma {:induction false} ScanIsFirstOverReached<T>(c: Container, sels: seq<Selector>, engine: SelectorEngine,
                                                     accept: Element -> Option<T>)
    ensures var first := FirstAccepted(Reached(c, sels, engine), accept);
      ScanSelectors(c, sels, engine, accept)
      == if first.Some? then Accepted(first.value)
         else if AllParse(sels, engine) then Exhausted
         else Raised
  {
    if sels != [] {
      assert !Parses(sels[0], engine) ==> !AllParse(sels, engine);
      if Parses(sels[0], engine) {
        var els := Query(c, sels[0], engine).elements;
        FirstAcceptedConcat(els, Reached(c, sels[1..], engine), accept);
        ScanIsFirstOverReached(c, sels[1..], engine, accept);
        AllParseTail(sels, engine);
      }
    }
  }

  /** A chain of plain CSS selectors never raises, and it scans the same elements under either engine. */
  lemma {:induction false} CssChainIgnoresEngine<T>(c: Container, sels: seq<Selector>, accept: Element -> Option<T>)
    requires forall i :: 0 <= i < |sels| ==> sels[i].Css?
    ensures ScanSelectors(c, sels, Standard, accept) == ScanSelectors(c, sels, JQueryLike, accept)
    ensures !ScanSelectors(c, sels, Standard, accept).Raised?
  {
    if sels != [] {
      CssChainIgnoresEngine(c, sels[1..], accept);
    }
  }

  /** A run of plain CSS selectors is always reached, whatever follows it. */
  lemma {:induction false} ReachedThroughCss(c: Container, css: seq<string>, rest: seq<Selector>, engine: SelectorEngine)
    ensures Reached(c, AsCss(css) + rest, engine) == SelectAll(c, css) + Reached(c, rest, engine)
    ensures AllParse(AsCss(css) + rest, engine) <==> AllParse(rest, engine)
  {
    var sels := AsCss(css) + rest;
    if css == [] {
      assert sels == rest;
    } else {
      assert sels[0] == Css(css[0]) && sels[1..] == AsCss(css[1..]) + rest;
      ReachedThroughCss(c, css[1..], rest, engine);
      ConcatAssociates(Select(c, css[0]), SelectAll(c, css[1..]), Reached(c, rest, engine));
      AllParseTail(sels, engine);
    }
  }

  /** A chain whose first selector parses parses throughout exactly when its tail does. */
  lemma AllParseTail(sels: seq<Selector>, engine: SelectorEngine)
    requires sels != [] && Parses(sels[0], engine)
    ensures AllParse(sels, engine) <==> AllParse(sels[1..], engine)
  {
    assert forall i :: 0 <= i < |sels| - 1 ==> sels[1..][i] == sels[i + 1];
  }

  /** A chain of three selectors that all parse reaches the matches of each, in order. */
  lemma ReachedOfThree(c: Container, a: Selector, b: Selector, d: Selector, engine: SelectorEngine)
    requires Parses(a, engine) && Parses(b, engine) && Parses(d, engine)
    ensures Reached(c, [a, b, d], engine)
         == Query(c, a, engine).elements + Query(c, b, engine).elements + Query(c, d, engine).elements
  {
    var s := [a, b, d];
    assert s[1..] == [b, d] && s[1..][1..] == [d] && [d][1..] == [];
    assert Reached(c, [d], engine) == Query(c, d, engine).elements + [];
  }

  /** Selectors naming nothing in the container match nothing. */
  lemma {:induction false} SelectAllAbsent(c: Container, css: seq<string>)
    requires forall i :: 0 <= i < |css| ==> css[i] !in c.matches
    ensures SelectAll(c, css) == []
  {
    if css != [] {
      SelectAllAbsent(c, css[1..]);
    }
  }

  // ---------------------------------------------------------------------------
  // The loops
  // ---------------------------------------------------------------------------

  /** `for (const el of elements) { ... if (ok) return value; }` */
  method FindFirst<T>(els: seq<Element>, accept: Element -> Option<T>) returns (r: Option<T>)
    ensures r == FirstAccepted(els, accept)
  {
    var i := 0;
    while i < |els|
      invariant 0 <= i <= |els|
      invariant FirstAccepted(els[i..], accept) == FirstAccepted(els, accept)
    {
      var v := accept(els[i]);
      if v.Some? {
        return v;
      }
      assert els[i..][1..] == els[i + 1..];
      i := i + 1;
    }
    return None;
  }

  /** The selector chain: an outer loop over selectors around `FindFirst`. */
  method ScanChain<T>(c: Container, sels: seq<Selector>, engine: SelectorEngine,
                      accept: Element -> Option<T>) returns (s: Scan<T>)
    ensures s == ScanSelectors(c, sels, engine, accept)
  {
    var k := 0;
    while k < |sels|
      invariant 0 <= k <= |sels|
      invariant ScanSelectors(c, sels[k..], engine, accept) == ScanSelectors(c, sels, engine, accept)
    {
      var q := Query(c, sels[k], engine);
      if q.SyntaxError? {
        return Raised;
      }
      var r := FindFirst(q.elements, accept);
      if r.Some? {
        return Accepted(r.value);
      }
      assert sels[k..][1..] == sels[k + 1..];
      k := k + 1;
    }
    return Exhausted;
  }
}
