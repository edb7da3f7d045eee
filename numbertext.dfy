/**
 * `parseNumber` of the content script (content.js:331-347): the one routine
 * that turns the text of a like, comment or view counter into a count.
 *
 * JavaScript evaluates it in floating point; this model uses exact decimal
 * arithmetic, so `None` stands for the NaN that `parseFloat` returns when
 * nothing numeric follows the removed suffix letter.
 */
module NumberText {
  import opened JsText

  /** The characters `/[^0-9kmb.]/g` keeps. */
  predicate IsCleanChar(c: char) { IsDigit(c) || c == '.' || c == 'k' || c == 'm' || c == 'b' }

  predicate IsClean(s: string) { forall i :: 0 <= i < |s| ==> IsCleanChar(s[i]) }

  /** `text.toLowerCase().replace(/[^0-9kmb.]/g, "")`. */
  function Clean(text: string): (r: string)
    ensures IsClean(r)
    ensures |r| <= |text|
  {
    if text == [] then []
    else
      var c := LowerChar(text[0]);
      (if IsCleanChar(c) then [c] else []) + Clean(text[1..])
  }

  /** Cleaning keeps clean text as it is, so it is idempotent. */
  lemma {:induction false} CleanKeepsCleanText(s: string)
    requires IsClean(s)
    ensures Clean(s) == s
  {
    if s != [] {
      CleanKeepsCleanText(s[1..]);
      assert [s[0]] + s[1..] == s;
    }
  }

  /** Cleaning works character by character, so it distributes over concatenation. */
  lemma {:induction false} CleanConcat(a: string, b: string)
    ensures Clean(a + b) == Clean(a) + Clean(b)
  {
    if a == [] {
      assert a + b == b;
    } else {
      var head := if IsCleanChar(LowerChar(a[0])) then [LowerChar(a[0])] else [];
      assert (a + b)[0] == a[0] && (a + b)[1..] == a[1..] + b;
      assert Clean(a + b) == head + Clean(a[1..] + b);
      assert Clean(a) == head + Clean(a[1..]);
      CleanConcat(a[1..], b);
      assert head + (Clean(a[1..]) + Clean(b)) == (head + Clean(a[1..])) + Clean(b);
    }
  }

  /** Cleaning never produces a digit that was not in the text. */
  lemma {:induction false} CleanKeepsDigitFree(text: string)
    requires forall i :: 0 <= i < |text| ==> !IsDigit(text[i])
    ensures forall i :: 0 <= i < |Clean(text)| ==> !IsDigit(Clean(text)[i])
  {
    if text != [] {
      CleanKeepsDigitFree(text[1..]);
    }
  }

  /** The index of the first occurrence of `c`, as `indexOf` finds it. */
  function IndexOf(s: string, c: char): (i: nat)
    requires c in s
    ensures i < |s| && s[i] == c && c !in s[..i]
  {
    if s[0] == c then 0 else 1 + IndexOf(s[1..], c)
  }

  /** `s.replace(c, "")` with a one-character string pattern: only the first occurrence goes. */
  function RemoveFirst(s: string, c: char): string
    requires c in s
  {
    var i := IndexOf(s, c);
    s[..i] + s[i + 1..]
  }

  // ---------------------------------------------------------------------------
  // parseFloat on cleaned text
  // ---------------------------------------------------------------------------

  /**
   * A decimal literal as `parseFloat` reads it from cleaned text (which has no
   * white space, sign, exponent or "Infinity"): integer digits, then the
   * digits after one '.', at least one digit in all.
   */
  datatype Decimal = Decimal(whole: string, frac: string)

  predicate ValidDecimal(d: Decimal)
  {
    AllDigits(d.whole) && AllDigits(d.frac) && (d.whole != [] || d.frac != [])
  }

  /** The characters of `s` the literal spans (a '.' with no digit after it adds nothing). */
  function Literal(d: Decimal): string
  {
    if d.frac == [] then d.whole else d.whole + "." + d.frac
  }

  /** `s` begins with something `parseFloat` can read. */
  predicate StartsNumeric(s: string)
  {
    s != [] && (IsDigit(s[0]) || (s[0] == '.' && |s| > 1 && IsDigit(s[1])))
  }

  /** The longest decimal literal at the start of `s`; `None` is NaN. */
  function LeadingDecimal(s: string): (r: Option<Decimal>)
    ensures r.None? <==> !StartsNumeric(s)
    ensures r.Some? ==> ValidDecimal(r.value) && r.value.whole == LeadingDigits(s)
    ensures r.Some? ==> |Literal(r.value)| <= |s| && s[..|Literal(r.value)|] == Literal(r.value)
  {
    var whole := LeadingDigits(s);
    var rest := s[|whole|..];
    var frac := if rest != [] && rest[0] == '.' then LeadingDigits(rest[1..]) else [];
    if whole == [] && frac == [] then None
    else
      assert frac != [] ==> s[..|whole| + 1 + |frac|] == whole + "." + frac;
      Some(Decimal(whole, frac))
  }

  /** The exact value of a decimal literal: its digits over a power of ten. */
  ghost function DecimalValue(d: Decimal): real
    requires ValidDecimal(d)
  {
    AllDigitsConcat(d.whole, d.frac);
    DigitsValue(d.whole + d.frac) as real / Pow10(|d.frac|) as real
  }

  function Zeros(n: nat): (z: string)
    ensures |z| == n && AllDigits(z)
  {
    if n == 0 then [] else "0" + Zeros(n - 1)
  }

  /** The first `e` fraction digits, padded with zeros. */
  function Pad(frac: string, e: nat): (p: string)
    requires AllDigits(frac)
    ensures |p| == e && AllDigits(p)
  {
    if |frac| >= e then frac[..e] else frac + Zeros(e - |frac|)
  }

  /**
   * `Math.floor(parseFloat(rest) * 10^e)` done on the digits: move the point
   * `e` places right and drop what is behind it.
   */
  function ScaledFloor(d: Decimal, e: nat): nat
    requires ValidDecimal(d)
  {
    AllDigitsConcat(d.whole, Pad(d.frac, e));
    DigitsValue(d.whole + Pad(d.frac, e))
  }

  lemma {:induction false} Pow10Add(a: nat, b: nat)
    ensures Pow10(a + b) == Pow10(a) * Pow10(b)
  {
    if b > 0 {
      Pow10Add(a, b - 1);
      assert Pow10(a + b) == 10 * Pow10(a + b - 1);
    }
  }

  lemma {:induction false} ZerosValue(n: nat)
    ensures DigitsValue(Zeros(n)) == 0
  {
    if n > 0 {
      ZerosValue(n - 1);
      DigitsValueAppend("0", Zeros(n - 1));
      assert "0" + Zeros(n - 1) == Zeros(n);
    }
  }

  /** No digit is dropped: the floor of an integer-valued product. */
  lemma FloorWhenNothingDropped(x: real, n: nat, p: nat, q: nat, e: nat)
    requires p > 0 && x == n as real / p as real && Pow10(e) == p * q
    ensures FloorOfScaled(x, e) == n * q
  {
    var pe := Pow10(e);
    assert pe as real == p as real * q as real;
    assert x * pe as real == n as real * q as real;
  }

  /** Digits are dropped: `r` is what lies behind the point, less than one unit. */
  lemma FloorWhenDigitsDropped(x: real, s: nat, r: nat, q: nat, e: nat, pk: nat)
    requires r < q && pk == q * Pow10(e) && x == (s * q + r) as real / pk as real
    ensures FloorOfScaled(x, e) == s
  {
    var p := Pow10(e);
    CastProduct(q, p);
    ScaleBack(x, (s * q + r) as real, q as real, p as real, pk as real);
    FractionFloor(s, r, q);
  }

  lemma CastProduct(a: int, b: int)
    ensures (a * b) as real == a as real * b as real
  {
  }

  lemma ScaleBack(x: real, y: real, q: real, p: real, pk: real)
    requires q > 0.0 && p > 0.0 && pk == q * p && x == y / pk
    ensures x * p == y / q
  {
  }

  lemma FractionFloor(s: int, r: int, q: int)
    requires 0 <= r < q
    ensures ((s * q + r) as real / q as real).Floor == s
  {
    assert (s * q + r) as real / q as real == s as real + r as real / q as real;
    assert 0.0 <= r as real / q as real < 1.0;
  }

  /** `Math.floor(x * 10^e)` on exact reals. */
  ghost function FloorOfScaled(x: real, e: nat): int
  {
    (x * Pow10(e) as real).Floor
  }

  /**
   * The digit computation is the floor of the exact decimal value times
   * 10^e: it is `Math.floor(parseFloat(rest) * 10^e)` without rounding error.
   */
  lemma ScaledFloorIsFloor(d: Decimal, e: nat)
    requires ValidDecimal(d)
    ensures ScaledFloor(d, e) == FloorOfScaled(DecimalValue(d), e)
  {
    if |d.frac| <= e {
      ExactScaledFloor(d, e);
    } else {
      TruncatedScaledFloor(d, e);
    }
  }

  lemma ExactScaledFloor(d: Decimal, e: nat)
    requires ValidDecimal(d) && |d.frac| <= e
    ensures ScaledFloor(d, e) == FloorOfScaled(DecimalValue(d), e)
  {
    var k := |d.frac|;
    var n := DecimalDigits(d);
    var m := ScaledExactCase(d, e);
    Pow10Add(k, e - k);
    FloorWhenNothingDropped(DecimalValue(d), n, Pow10(k), Pow10(e - k), e);
  }

  /** The value of a decimal's digits, the point taken out. */
  lemma DecimalDigits(d: Decimal) returns (n: nat)
    requires ValidDecimal(d)
    ensures AllDigits(d.whole + d.frac) && n == DigitsValue(d.whole + d.frac)
    ensures DecimalValue(d) == n as real / Pow10(|d.frac|) as real
  {
    AllDigitsConcat(d.whole, d.frac);
    n := DigitsValue(d.whole + d.frac);
  }

  lemma TruncatedScaledFloor(d: Decimal, e: nat)
    requires ValidDecimal(d) && |d.frac| > e
    ensures ScaledFloor(d, e) == FloorOfScaled(DecimalValue(d), e)
  {
    var k := |d.frac|;
    var n := DecimalDigits(d);
    var s, r := ScaledTruncatingCase(d, e);
    Pow10Add(k - e, e);
    FloorWhenDigitsDropped(DecimalValue(d), s, r, Pow10(k - e), e, Pow10(k));
  }

  /** With at most `e` fraction digits, the scaled value is the digits times a power of ten. */
  lemma ScaledExactCase(d: Decimal, e: nat) returns (m: nat)
    requires ValidDecimal(d) && |d.frac| <= e
    ensures AllDigits(d.whole + d.frac)
    ensures m == ScaledFloor(d, e) && m == DigitsValue(d.whole + d.frac) * Pow10(e - |d.frac|)
  {
    var w, f := d.whole, d.frac;
    AllDigitsConcat(w, f);
    var z := Zeros(e - |f|);
    assert w + Pad(f, e) == (w + f) + z;
    DigitsValueAppend(w + f, z);
    ZerosValue(e - |f|);
    m := ScaledFloor(d, e);
  }

  /** With more than `e` fraction digits, the digits split into the kept value and a remainder. */
  lemma ScaledTruncatingCase(d: Decimal, e: nat) returns (s: nat, r: nat)
    requires ValidDecimal(d) && |d.frac| > e
    ensures AllDigits(d.whole + d.frac)
    ensures s == ScaledFloor(d, e) && r < Pow10(|d.frac| - e)
    ensures DigitsValue(d.whole + d.frac) == s * Pow10(|d.frac| - e) + r
  {
    var w, f := d.whole, d.frac;
    AllDigitsConcat(w, f);
    var head, tail := f[..e], f[e..];
    assert w + Pad(f, e) == w + head;
    assert w + f == (w + head) + tail;
    AllDigitsConcat(w, head);
    DigitsValueAppend(w + head, tail);
    s, r := DigitsValue(w + head), DigitsValue(tail);
  }

  // ---------------------------------------------------------------------------
  // parseNumber
  // ---------------------------------------------------------------------------

  /** The power of ten a suffix letter stands for. */
  function SuffixExponent(letter: char): nat
  {
    if letter == 'k' then 3 else if letter == 'm' then 6 else 9
  }

  /** `Math.floor(parseFloat(rest) * 10^e)`, NaN when `rest` starts with no number. */
  function Scaled(rest: string, e: nat): Option<nat>
  {
    match LeadingDecimal(rest)
    case None => None
    case Some(d) => Some(ScaledFloor(d, e))
  }

  /**
   * `parseNumber(text)`: empty text is 0; otherwise the cleaned text is read
   * with the first of 'k', 'm', 'b' it contains removed and the scale applied,
   * or, with none of them, by `parseInt` with NaN turned into 0.
   */
  function ParseNumber(text: string): (r: Option<nat>)
    ensures text == [] ==> r == Some(0)
    ensures r.None? ==> 'k' in Clean(text) || 'm' in Clean(text) || 'b' in Clean(text)
  {
    if text == [] then Some(0)
    else
      var clean := Clean(text);
      if 'k' in clean then Scaled(RemoveFirst(clean, 'k'), 3)
      else if 'm' in clean then Scaled(RemoveFirst(clean, 'm'), 6)
      else if 'b' in clean then Scaled(RemoveFirst(clean, 'b'), 9)
      else Some(DigitsValue(LeadingDigits(clean)))
  }

  /** Text without a digit never yields a positive count: it is 0 or NaN. */
  lemma NoDigitNoCount(text: string)
    requires forall i :: 0 <= i < |text| ==> !IsDigit(text[i])
    ensures ParseNumber(text) == Some(0) || ParseNumber(text) == None
  {
    if text != [] {
      var clean := Clean(text);
      CleanKeepsDigitFree(text);
      forall letter | letter in clean
        ensures var rest := RemoveFirst(clean, letter); !StartsNumeric(rest)
      {
        var i := IndexOf(clean, letter);
        var rest := clean[..i] + clean[i + 1..];
        if rest != [] {
          assert rest[0] == clean[if i == 0 then 1 else 0];
        }
        if |rest| > 1 {
          assert rest[1] == clean[if i <= 1 then 2 else 1];
        }
      }
    }
  }

  /**
   * Without a suffix letter, a cleaned text made of a run of digits and a tail
   * that does not start with a digit is read as the value of that run.
   */
  lemma ReadsPlain(text: string, digits: string, tail: string)
    requires Clean(text) == digits + tail
    requires AllDigits(digits) && (tail == [] || !IsDigit(tail[0]))
    requires 'k' !in Clean(text) && 'm' !in Clean(text) && 'b' !in Clean(text)
    ensures ParseNumber(text) == Some(DigitsValue(digits))
  {
    if tail == [] {
      assert digits + tail == digits;
      LeadingDigitsOfDigits(digits);
    } else {
      LeadingDigitsBeforeStop(digits, tail);
    }
  }

  /** The decimal spelling of a count reads back as that count. */
  lemma ParseNumberReadsNatToString(n: nat)
    ensures ParseNumber(NatToString(n)) == Some(n)
  {
    var s := NatToString(n);
    assert IsClean(s);
    CleanKeepsCleanText(s);
    assert 'k' !in s && 'm' !in s && 'b' !in s;
    LeadingDigitsOfDigits(s);
  }

  /** A whole count followed by a suffix letter is that count times 10^3, 10^6 or 10^9. */
  lemma SuffixScalesWholeCount(n: nat, letter: char)
    requires letter == 'k' || letter == 'm' || letter == 'b'
    ensures ParseNumber(NatToString(n) + [letter]) == Some(n * Pow10(SuffixExponent(letter)))
  {
    var digits := NatToString(n);
    SuffixSelectsLetter(digits, letter);
    WholeCountScaled(digits, SuffixExponent(letter));
  }

  /** The only letter in the text is the suffix applied. */
  lemma SuffixSelectsLetter(digits: string, letter: char)
    requires AllDigits(digits)
    requires letter == 'k' || letter == 'm' || letter == 'b'
    ensures ParseNumber(digits + [letter]) == Scaled(digits, SuffixExponent(letter))
  {
    var text := digits + [letter];
    CleanDigitsWithSuffix(digits, letter);
    if letter != 'k' {
      assert 'k' !in text;
    }
    if letter == 'b' {
      assert 'm' !in text;
    }
  }

  lemma CleanDigitsWithSuffix(digits: string, letter: char)
    requires AllDigits(digits)
    requires letter == 'k' || letter == 'm' || letter == 'b'
    ensures Clean(digits + [letter]) == digits + [letter]
    ensures letter in digits + [letter]
    ensures forall c :: c in digits + [letter] && c != letter ==> IsDigit(c)
    ensures RemoveFirst(digits + [letter], letter) == digits
  {
    var text := digits + [letter];
    assert IsClean(text);
    CleanKeepsCleanText(text);
    assert letter !in digits;
    assert text[..|digits|] == digits;
  }

  lemma WholeCountScaled(digits: string, e: nat)
    requires AllDigits(digits) && digits != []
    ensures Scaled(digits, e) == Some(DigitsValue(digits) * Pow10(e))
  {
    LeadingDigitsOfDigits(digits);
    assert digits[|digits|..] == [];
    var d := Decimal(digits, []);
    assert LeadingDecimal(digits) == Some(d);
    assert Pad([], e) == Zeros(e);
    DigitsValueAppend(digits, Zeros(e));
    ZerosValue(e);
  }

  // ---------------------------------------------------------------------------
  // The behaviour on typical counter texts, quirks included
  // ---------------------------------------------------------------------------

  /**
   * With a suffix letter present (the first of 'k', 'm', 'b' found decides),
   * the count is NaN when no number starts where the letter's first occurrence
   * was removed, and otherwise the exact value of that number times the
   * letter's power of ten, rounded down.
   */
  lemma ReadsSuffix(text: string, letter: char)
    requires text != [] && letter in Clean(text)
    requires letter == 'k' || (letter == 'm' && 'k' !in Clean(text)) || (letter == 'b' && 'k' !in Clean(text) && 'm' !in Clean(text))
    ensures var rest := RemoveFirst(Clean(text), letter);
      ParseNumber(text).None? <==> !StartsNumeric(rest)
    ensures var rest := RemoveFirst(Clean(text), letter);
      StartsNumeric(rest) ==>
        ParseNumber(text).Some? &&
        ParseNumber(text).value == FloorOfScaled(DecimalValue(LeadingDecimal(rest).value), SuffixExponent(letter))
  {
    var rest := RemoveFirst(Clean(text), letter);
    SuffixUnfolds(text, Clean(text), letter);
    if StartsNumeric(rest) {
      ScaledFloorIsFloor(LeadingDecimal(rest).value, SuffixExponent(letter));
    }
  }

  /** Unfolds `ParseNumber` once the cleaned text and the chosen letter are known. */
  lemma SuffixUnfolds(text: string, clean: string, letter: char)
    requires text != [] && Clean(text) == clean && letter in clean
    requires letter == 'k' || (letter == 'm' && 'k' !in clean) || (letter == 'b' && 'k' !in clean && 'm' !in clean)
    ensures ParseNumber(text) == Scaled(RemoveFirst(clean, letter), SuffixExponent(letter))
  {
  }

  lemma Value12() ensures DigitsValue("12") == 12 {
    assert "12"[..1] == "1";
  }

  lemma Value1200() ensures DigitsValue("1200") == 1200 {
    assert "1200"[..3] == "120";
    Value12();
    assert "120"[..2] == "12";
  }

  lemma Value1234() ensures DigitsValue("1234") == 1234 {
    assert "1234"[..3] == "123";
    assert "123"[..2] == "12";
    Value12();
  }

  /** Digits followed by a character `parseFloat` stops at are read as the digits alone. */
  lemma WholeCountBeforeStop(digits: string, tail: string, e: nat)
    requires AllDigits(digits) && digits != []
    requires tail != [] && !IsDigit(tail[0]) && tail[0] != '.'
    ensures Scaled(digits + tail, e) == Scaled(digits, e)
  {
    LeadingDigitsBeforeStop(digits, tail);
    LeadingDigitsOfDigits(digits);
    assert (digits + tail)[|digits|..] == tail;
    assert digits[|digits|..] == [];
  }

  lemma {:induction false} LeadingDigitsBeforeStop(digits: string, tail: string)
    requires AllDigits(digits)
    requires tail != [] && !IsDigit(tail[0])
    ensures LeadingDigits(digits + tail) == digits
  {
    if digits != [] {
      assert (digits + tail)[1..] == digits[1..] + tail;
      LeadingDigitsBeforeStop(digits[1..], tail);
    }
  }

  /** The spellings of the likes word the pages use. */
  predicate LikesWord(word: string) { word == " likes" || word == " Likes" }

  lemma CleanGroupedLikes(word: string)
    requires LikesWord(word)
    ensures Clean("1,234" + word) == "1234k"
  {
    CleanPieces(word);
    CleanThree("1,2", "34", word);
    assert "1,2" + "34" + word == "1,234" + word;
    assert "12" + "34" + "k" == "1234k";
  }

  /** Cleaning three pieces one after another. */
  lemma CleanThree(a: string, b: string, c: string)
    ensures Clean(a + b + c) == Clean(a) + Clean(b) + Clean(c)
  {
    CleanConcat(a + b, c);
    CleanConcat(a, b);
  }

  lemma CleanPieces(word: string)
    requires LikesWord(word)
    ensures Clean("1,2") == "12" && Clean("34") == "34" && Clean(word) == "k"
  {
    CleanKeepsCleanText("34");
    CleanLikesWord(word);
  }

  lemma CleanLikesWord(word: string) requires LikesWord(word) ensures Clean(word) == "k" {
    CleanLowerLikes();
    CleanCapitalLikes();
  }

  lemma CleanLowerLikes() ensures Clean(" likes") == "k" {}

  lemma CleanCapitalLikes() ensures Clean(" Likes") == "k" {
    assert LowerChar('L') == 'l';
    assert Clean(" Likes") == Clean("Likes");
  }

  lemma Scaled1234() ensures Scaled("1234", 3) == Some(1234000) {
    Value1234();
    WholeCountScaled("1234", 3);
    assert Pow10(3) == 1000;
  }

  /**
   * "1,234 likes" (or "1,234 Likes"): the 'k' of the word is taken for
   * thousands, giving 1 234 000.
   */
  lemma GroupedLikesReadAsThousands(word: string)
    requires LikesWord(word)
    ensures ParseNumber("1,234" + word) == Some(1234000)
  {
    CleanGroupedLikes(word);
    DropThousandsLetter();
    SuffixUnfolds("1,234" + word, "1234k", 'k');
    Scaled1234();
  }

  lemma DropThousandsLetter() ensures RemoveFirst("1234k", 'k') == "1234" {
    assert IndexOf("1234k", 'k') == 4;
  }

  lemma CleanCommentsWord() ensures Clean("12 comments") == "12mm" {
    assert "12 comments" == "12 co" + "mments";
    CleanConcat("12 co", "mments");
    CleanCommentsPieces();
  }

  lemma CleanCommentsPieces() ensures Clean("12 co") == "12" && Clean("mments") == "mm" {
    CleanMments();
  }

  lemma CleanMments() ensures Clean("mments") == "mm" {}

  lemma Scaled12Millions() ensures Scaled("12m", 6) == Some(12000000) {
    TwelveBeforeM();
    Value12();
    WholeCountScaled("12", 6);
    Million();
  }

  lemma TwelveBeforeM() ensures Scaled("12m", 6) == Scaled("12", 6) {
    WholeCountBeforeStop("12", "m", 6);
    assert "12" + "m" == "12m";
  }

  lemma Million() ensures Pow10(6) == 1000000 {}

  lemma DropFirstM() ensures RemoveFirst("12mm", 'm') == "12m" {
    assert IndexOf("12mm", 'm') == 2;
  }

  /** "12 comments": the two 'm's of "comments" survive cleaning and one scales by a million. */
  lemma CommentsWordReadsAsMillions()
    ensures ParseNumber("12 comments") == Some(12000000)
  {
    CleanCommentsWord();
    DropFirstM();
    assert 'k' !in "12mm";
    SuffixUnfolds("12 comments", "12mm", 'm');
    Scaled12Millions();
  }

  /** "like": cleaning leaves "k", and nothing numeric is left once it is removed: NaN. */
  lemma LikeWordIsNaN()
    ensures ParseNumber("like") == None
  {
    assert Clean("like") == "k";
    assert RemoveFirst("k", 'k') == "";
    SuffixUnfolds("like", "k", 'k');
  }

  /** "1.2k" is 1 200: the fraction digit is kept by the scaling. */
  lemma DecimalThousands()
    ensures ParseNumber("1.2k") == Some(1200)
  {
    CleanKeepsCleanText("1.2k");
    assert RemoveFirst("1.2k", 'k') == "1.2" by {
      assert IndexOf("1.2k", 'k') == 3;
    }
    SuffixUnfolds("1.2k", "1.2k", 'k');
    ScaledOnePointTwo();
  }

  lemma ScaledOnePointTwo() ensures Scaled("1.2", 3) == Some(1200) {
    ReadOnePointTwo();
    PadTwo();
    assert "1" + "200" == "1200";
    Value1200();
  }

  lemma ReadOnePointTwo() ensures LeadingDecimal("1.2") == Some(Decimal("1", "2")) {
    assert LeadingDigits("1.2") == "1";
    assert "1.2"[1..] == ".2";
    assert ".2"[1..] == "2";
    LeadingDigitsOfDigits("2");
  }

  lemma PadTwo() ensures Pad("2", 3) == "200" {
    assert Zeros(2) == "00";
  }

  /** "1.5" has no suffix letter, so `parseInt` reads only the 1. */
  lemma PlainDecimalIsTruncated()
    ensures ParseNumber("1.5") == Some(1)
  {
    assert Clean("1.5") == "1.5";
    assert LeadingDigits("1.5") == "1";
  }
}
