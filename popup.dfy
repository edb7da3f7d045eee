/**
 * The popup's own logic (popup.js): deciding from the tab's location
 * whether it shows a profile, whose, and whether posts or reels; reading the
 * limit option; and building the CSV file from the extracted records. The
 * popup's globals are the fields of `PopupState`.
 */
module Popup {
  import opened JsText
  import opened Extraction

  // ---------------------------------------------------------------------------
  // Detection (popup.js:70-110)
  // ---------------------------------------------------------------------------

  datatype ContentType = PostsType | ReelsType

  datatype Detection = NotProfile | Profile(profileName: string, contentType: ContentType)

  /** `/^\/[^\/]+\/?$/`: a slash, one or more non-slash characters, and an optional final slash. */
  predicate SingleSegmentPath(p: string)
  {
    |p| >= 2 && p[0] == '/' && p[1] != '/' && forall i :: 1 <= i < |p| - 1 ==> p[i] != '/'
  }

  predicate IsProfilePath(pathname: string)
  {
    SingleSegmentPath(pathname) || Contains(pathname, "/profilecard/")
  }

  /**
   * `pathname.replace(/^\/|\/$/g, "")`: one leading slash and one final
   * slash go; a lone "/" is both and goes once.
   */
  function StripSlashes(p: string): (r: string)
    ensures |r| >= |p| - 2
    ensures |r| <= |p|
  {
    var a := if p != [] && p[0] == '/' then p[1..] else p;
    if a != [] && a[|a| - 1] == '/' then a[..|a| - 1] else a
  }

  /** The name: from the path, else the trimmed heading text, else "unknown". */
  function ProfileName(pathname: string, heading: Option<string>): string
  {
    var fromPath := StripSlashes(pathname);
    if fromPath != [] then fromPath
    else if heading.Some? && Trim(heading.value) != [] then Trim(heading.value)
    else "unknown"
  }

  /**
   * The injected detection function. `heading` is the text of the first of
   * `h2`, `[data-testid="user-name"]`, `header h1` (`None`: none exists);
   * `reelsTab` is the `aria-selected` attribute of the first element whose
   * `href` mentions "reels" (`None`: no such element, "" for no attribute).
   */
  function DetectContent(pathname: string, href: string, heading: Option<string>, reelsTab: Option<string>): (d: Detection)
    ensures d.NotProfile? <==> !IsProfilePath(pathname)
    ensures d.Profile? ==> d.profileName != []
    ensures d.Profile? ==>
              (d.contentType == ReelsType
               <==> Contains(pathname, "/reels/") || Contains(href, "reels") || reelsTab == Some("true"))
  {
    if !IsProfilePath(pathname) then NotProfile
    else
      var contentType :=
        if Contains(pathname, "/reels/") || Contains(href, "reels") then ReelsType
        else if reelsTab == Some("true") then ReelsType
        else PostsType;
      Profile(ProfileName(pathname, heading), contentType)
  }

  /** A single-segment path is the name between its slashes, and that name is non-empty and slash-free. */
  lemma SingleSegmentName(p: string)
    requires SingleSegmentPath(p)
    ensures var name := StripSlashes(p);
      name != [] && (forall i :: 0 <= i < |name| ==> name[i] != '/')
      && (p == "/" + name || p == "/" + name + "/")
  {
    var name := StripSlashes(p);
    if p[|p| - 1] == '/' {
      assert p == "/" + p[1..|p| - 1] + "/";
    } else {
      assert p == "/" + p[1..];
    }
  }

  /** Conversely, a non-empty slash-free name gives single-segment paths from which it is read back. */
  lemma NameRoundTrip(name: string)
    requires name != [] && forall i :: 0 <= i < |name| ==> name[i] != '/'
    ensures SingleSegmentPath("/" + name) && StripSlashes("/" + name) == name
    ensures SingleSegmentPath("/" + name + "/") && StripSlashes("/" + name + "/") == name
  {
    assert ("/" + name)[1..] == name;
    assert ("/" + name + "/")[1..] == name + "/";
    assert (name + "/")[..|name|] == name;
  }

  /** Every profile path names its profile itself: the page heading is never consulted. */
  lemma ProfilePathHasName(pathname: string, heading: Option<string>)
    requires IsProfilePath(pathname)
    ensures StripSlashes(pathname) != []
    ensures ProfileName(pathname, heading) == StripSlashes(pathname)
  {
    if !SingleSegmentPath(pathname) {
      var i :| 0 <= i <= |pathname| - |"/profilecard/"| && OccursAt(pathname, "/profilecard/", i);
      assert |pathname| >= 13;
    }
  }

  /** The reels feed itself passes for the profile of a user named "reels", with reels content. */
  lemma ReelsFeedIsAProfile(href: string, heading: Option<string>, reelsTab: Option<string>)
    ensures DetectContent("/reels/", href, heading, reelsTab) == Profile("reels", ReelsType)
  {
    assert SingleSegmentPath("/reels/");
    assert "" + "/reels/" + "" == "/reels/";
    OccursBetween("", "/reels/", "");
    assert "/reels/"[1..] == "reels/";
    assert "reels/"[..5] == "reels";
    assert StripSlashes("/reels/") == "reels";
  }

  // ---------------------------------------------------------------------------
  // The limit option (popup.js:136-140)
  // ---------------------------------------------------------------------------

  /** `limit === "all" ? "all" : parseInt(limit)`. */
  function ParseLimitOption(value: string): (limit: Limit)
    ensures limit.All? <==> value == "all"
  {
    if value == "all" then All
    else
      match ParseInt(value)
      case Some(n) => Items(n)
      case None => NotANumber
  }

  /** A numeric option reads back as the number it spells. */
  lemma NumericOptionIsItsNumber(n: nat)
    ensures ParseLimitOption(NatToString(n)) == Items(n)
  {
    ParseIntReadsNatToString(n);
    var s := NatToString(n);
    assert s != "all" by {
      assert IsDigit(s[0]);
    }
  }

  // ---------------------------------------------------------------------------
  // CSV export (popup.js:238-263)
  // ---------------------------------------------------------------------------

  /** A record field as the popup receives it: a string, a number, or missing. */
  datatype Value = Str(s: string) | Num(n: int) | Undefined

  /** The record objects of `extractedData`; a post has no `views`, a reel no `createDate` or `caption`. */
  datatype Item = Item(url: Value, createDate: Value, views: Value, likes: Value, comments: Value, caption: Value)

  /** `${v}` in a template literal. */
  function Render(v: Value): string
  {
    match v
    case Str(s) => s
    case Num(n) => if n < 0 then "-" + NatToString(-n) else NatToString(n)
    case Undefined => "undefined"
  }

  /**
   * `(item.caption || "").replace(...)` up to the replacement: the falsy
   * values become the empty string, a string is kept, and a non-zero number
   * has no `replace` method, so the call throws a `TypeError` (`None`).
   */
  function CaptionText(v: Value): (s: Option<string>)
    ensures s.None? <==> v.Num? && v.n != 0
    ensures v.Str? ==> s == Some(v.s)
    ensures v.Undefined? || v == Num(0) ==> s == Some([])
  {
    match v
    case Str(s) => Some(s)
    case Num(n) => if n == 0 then Some([]) else None
    case Undefined => Some([])
  }

  /** In the posts format, this record's caption makes the export throw. */
  predicate ThrowsAt(kind: Option<ContentType>, item: Item)
  {
    kind != Some(ReelsType) && CaptionText(item.caption).None?
  }

  /** In the posts format, some record's caption makes the export throw. */
  predicate CaptionThrows(kind: Option<ContentType>, items: seq<Item>)
  {
    items != [] && (CaptionThrows(kind, items[..|items| - 1]) || ThrowsAt(kind, items[|items| - 1]))
  }

  /** The export throws exactly when some record's caption throws. */
  lemma {:induction false} CaptionThrowsSomewhere(kind: Option<ContentType>, items: seq<Item>)
    ensures CaptionThrows(kind, items) <==> exists i :: 0 <= i < |items| && ThrowsAt(kind, items[i])
  {
    if items != [] {
      var front := items[..|items| - 1];
      CaptionThrowsSomewhere(kind, front);
      if CaptionThrows(kind, front) {
        var i :| 0 <= i < |front| && ThrowsAt(kind, front[i]);
        assert items[i] == front[i];
      }
      if exists i :: 0 <= i < |items| && ThrowsAt(kind, items[i]) {
        var i :| 0 <= i < |items| && ThrowsAt(kind, items[i]);
        if i < |front| {
          assert front[i] == items[i];
        }
      }
    }
  }

  /** One more record throws when it or one before it does. */
  lemma CaptionThrowsSnoc(kind: Option<ContentType>, items: seq<Item>, i: nat)
    requires i < |items|
    ensures CaptionThrows(kind, items[..i + 1]) <==> CaptionThrows(kind, items[..i]) || ThrowsAt(kind, items[i])
  {
    assert items[..i + 1][..i] == items[..i];
  }

  /** `caption.replace(/"/g, '""')`. */
  function EscapeQuotes(s: string): (r: string)
    ensures |r| >= |s|
  {
    if s == [] then []
    else (if s[0] == '"' then "\"\"" else [s[0]]) + EscapeQuotes(s[1..])
  }

  /** The quoted caption field: quotes doubled, the whole in quotes. */
  function QuoteField(s: string): string
  {
    "\"" + EscapeQuotes(s) + "\""
  }

  /**
   * Reads a quoted field's body from just after its opening quote: `""`
   * stands for one quote, a single quote closes the field. Returns the
   * field's text and what follows the closing quote.
   */
  function ReadQuotedBody(s: string): Option<(string, string)>
  {
    if s == [] then None
    else if s[0] == '"' then
      if |s| >= 2 && s[1] == '"' then
        match ReadQuotedBody(s[2..])
        case Some(p) => Some(("\"" + p.0, p.1))
        case None => None
      else Some(([], s[1..]))
    else
      match ReadQuotedBody(s[1..])
      case Some(p) => Some(([s[0]] + p.0, p.1))
      case None => None
  }

  /**
   * Section 2, rule 7 of RFC 4180: a reader of the escaped field gets the
   * caption back, and stops at the closing quote, whatever follows it
   * (unless that is itself a quote, which would be read as an escaped one).
   */
  lemma {:induction false} QuotedCaptionReadsBack(caption: string, rest: string)
    requires rest == [] || rest[0] != '"'
    ensures ReadQuotedBody(EscapeQuotes(caption) + "\"" + rest) == Some((caption, rest))
  {
    if caption == [] {
      assert EscapeQuotes(caption) + "\"" + rest == "\"" + rest;
      assert ("\"" + rest)[1..] == rest;
    } else {
      var tail := EscapeQuotes(caption[1..]) + "\"" + rest;
      QuotedCaptionReadsBack(caption[1..], rest);
      var head := if caption[0] == '"' then "\"\"" else [caption[0]];
      ConcatAssociates(head, EscapeQuotes(caption[1..]), "\"");
      ConcatAssociates(head, EscapeQuotes(caption[1..]) + "\"", rest);
      if caption[0] == '"' {
        ReadEscapedQuote(tail);
      } else {
        ReadPlainChar(caption[0], tail);
      }
      assert [caption[0]] + caption[1..] == caption;
    }
  }

  /** A doubled quote reads as one quote of the field. */
  lemma ReadEscapedQuote(tail: string)
    ensures ReadQuotedBody("\"\"" + tail)
         == match ReadQuotedBody(tail)
            case Some(p) => Some(("\"" + p.0, p.1))
            case None => None
  {
    assert ("\"\"" + tail)[2..] == tail;
  }

  /** Any other character is the field's own. */
  lemma ReadPlainChar(c: char, tail: string)
    requires c != '"'
    ensures ReadQuotedBody([c] + tail)
         == match ReadQuotedBody(tail)
            case Some(p) => Some(([c] + p.0, p.1))
            case None => None
  {
    assert ([c] + tail)[1..] == tail;
  }

  const PostsHeader := "Profile,Post,Create Date,Likes,Comments,Captions\n"

  const ReelsHeader := "Profile,Reel,Views,Likes,Comments\n"

  /** `${currentProfile}`: a profile that was never detected renders as "null". */
  function ProfileText(profile: Option<string>): string
  {
    if profile.Some? then profile.value else "null"
  }

  /**
   * The cells of one CSV line, before they are joined with commas. A caption
   * that throws leaves its cell empty; no such line is ever written, since
   * the export stops there (see `CaptionThrows`).
   */
  function Cells(kind: Option<ContentType>, profile: Option<string>, item: Item): seq<string>
  {
    if kind == Some(ReelsType) then
      [ProfileText(profile), Render(item.url), Render(item.views), Render(item.likes), Render(item.comments)]
    else
      [ProfileText(profile), Render(item.url), Render(item.createDate), Render(item.likes), Render(item.comments),
       match CaptionText(item.caption) case Some(t) => QuoteField(t) case None => []]
  }

  /** Cells joined by commas. */
  function Join(cells: seq<string>): string
  {
    if cells == [] then []
    else if |cells| == 1 then cells[0]
    else cells[0] + "," + Join(cells[1..])
  }

  /** One record's line, ending in a newline. */
  function Line(kind: Option<ContentType>, profile: Option<string>, item: Item): string
  {
    Join(Cells(kind, profile, item)) + "\n"
  }

  function Lines(kind: Option<ContentType>, profile: Option<string>, items: seq<Item>): string
  {
    if items == [] then [] else Lines(kind, profile, items[..|items| - 1]) + Line(kind, profile, items[|items| - 1])
  }

  /** One more record adds its line at the end. */
  lemma LinesSnoc(kind: Option<ContentType>, profile: Option<string>, items: seq<Item>, i: nat)
    requires i < |items|
    ensures Lines(kind, profile, items[..i + 1]) == Lines(kind, profile, items[..i]) + Line(kind, profile, items[i])
  {
    assert items[..i + 1][..i] == items[..i];
  }

  function Header(kind: Option<ContentType>): string
  {
    if kind == Some(ReelsType) then ReelsHeader else PostsHeader
  }

  function CsvContent(kind: Option<ContentType>, profile: Option<string>, items: seq<Item>): string
  {
    Header(kind) + Lines(kind, profile, items)
  }

  /** Records exported one after another give the lines of each, in record order. */
  lemma {:induction false} LinesAppend(kind: Option<ContentType>, profile: Option<string>, a: seq<Item>, b: seq<Item>)
    ensures Lines(kind, profile, a + b) == Lines(kind, profile, a) + Lines(kind, profile, b)
    decreases |b|
  {
    if b == [] {
      assert a + b == a;
    } else {
      var b' := b[..|b| - 1];
      assert (a + b)[..|a + b| - 1] == a + b';
      assert (a + b)[|a + b| - 1] == b[|b| - 1];
      LinesAppend(kind, profile, a, b');
      ConcatAssociates(Lines(kind, profile, a), Lines(kind, profile, b'), Line(kind, profile, b[|b| - 1]));
    }
  }

  /** The export is the header, then the first record's line, then the rest in order. */
  lemma CsvLayout(kind: Option<ContentType>, profile: Option<string>, items: seq<Item>)
    requires items != []
    ensures CsvContent(kind, profile, items)
         == Header(kind) + Line(kind, profile, items[0]) + Lines(kind, profile, items[1..])
  {
    var first, rest := Lines(kind, profile, [items[0]]), Lines(kind, profile, items[1..]);
    assert [items[0]] + items[1..] == items;
    LinesAppend(kind, profile, [items[0]], items[1..]);
    assert [items[0]][..0] == [];
    assert first == Line(kind, profile, items[0]);
    ConcatAssociates(Header(kind), first, rest);
  }

  /** Splits at every comma: the inverse of `Join` for comma-free cells. */
  function SplitCommas(s: string): (cells: seq<string>)
    ensures |cells| >= 1
  {
    if s == [] then [[]]
    else if s[0] == ',' then [[]] + SplitCommas(s[1..])
    else
      var rest := SplitCommas(s[1..]);
      [[s[0]] + rest[0]] + rest[1..]
  }

  predicate CommaFree(s: string)
  {
    forall i :: 0 <= i < |s| ==> s[i] != ','
  }

  lemma {:induction false} SplitCommaFree(a: string, rest: string)
    requires CommaFree(a)
    ensures SplitCommas(a) == [a]
    ensures SplitCommas(a + "," + rest) == [a] + SplitCommas(rest)
  {
    if a == [] {
      assert a + "," + rest == [','] + rest;
      assert ([','] + rest)[1..] == rest;
    } else {
      SplitCommaFree(a[1..], rest);
      assert (a + "," + rest)[1..] == a[1..] + "," + rest;
      assert [a[0]] + a[1..] == a;
    }
  }

  /** Comma-free cells joined by commas split back into the same cells. */
  lemma {:induction false} SplitJoin(cells: seq<string>)
    requires cells != []
    requires forall i :: 0 <= i < |cells| ==> CommaFree(cells[i])
    ensures SplitCommas(Join(cells)) == cells
  {
    if |cells| == 1 {
      SplitCommaFree(cells[0], []);
    } else {
      SplitJoin(cells[1..]);
      SplitCommaFree(cells[0], Join(cells[1..]));
      assert [cells[0]] + cells[1..] == cells;
    }
  }

  /**
   * A reels line whose values hold no comma reads back, cell by cell, as the
   * profile, url, views, likes and comments it was written from.
   */
  lemma ReelsLineReadsBack(profile: Option<string>, item: Item)
    requires forall c :: c in Cells(Some(ReelsType), profile, item) ==> CommaFree(c)
    ensures var line := Line(Some(ReelsType), profile, item);
      line[|line| - 1] == '\n'
      && SplitCommas(line[..|line| - 1])
         == [ProfileText(profile), Render(item.url), Render(item.views), Render(item.likes), Render(item.comments)]
  {
    var cells := Cells(Some(ReelsType), profile, item);
    var line := Line(Some(ReelsType), profile, item);
    assert line[..|line| - 1] == Join(cells);
    SplitJoin(cells);
  }

  /** `new Date().toISOString().split("T")[0]`: the part before the first "T". */
  function IsoDate(iso: string): (d: string)
    ensures |d| <= |iso| && d == iso[..|d|] && 'T' !in d
    ensures |d| == |iso| || iso[|d|] == 'T'
  {
    if iso == [] || iso[0] == 'T' then [] else [iso[0]] + IsoDate(iso[1..])
  }

  function FileName(kind: Option<ContentType>, profile: Option<string>, iso: string): string
  {
    (if kind == Some(ReelsType) then "instagram_reels_" else "instagram_posts_")
    + ProfileText(profile) + "_" + IsoDate(iso) + ".csv"
  }

  /**
   * For a timestamp `date + "T" + time`, the file is named after the content
   * type, the profile and exactly that date.
   */
  lemma FileNameOfTimestamp(kind: Option<ContentType>, profile: Option<string>, date: string, time: string)
    requires 'T' !in date
    ensures FileName(kind, profile, date + "T" + time)
         == (if kind == Some(ReelsType) then "instagram_reels_" else "instagram_posts_")
            + ProfileText(profile) + "_" + date + ".csv"
  {
    IsoDateBeforeT(date, time);
  }

  /** The date part ends at the first "T". */
  lemma {:induction false} IsoDateBeforeT(date: string, time: string)
    requires 'T' !in date
    ensures IsoDate(date + "T" + time) == date
  {
    if date != [] {
      assert (date + "T" + time)[1..] == date[1..] + "T" + time;
      IsoDateBeforeT(date[1..], time);
      assert [date[0]] + date[1..] == date;
    }
  }

  datatype CsvFile = CsvFile(name: string, content: string)

  /**
   * The `forEach` of `exportCSV`: the header, then one line per record, in
   * order; in the posts format a caption that throws ends it (`None`).
   */
  method WriteCsv(kind: Option<ContentType>, profile: Option<string>, items: seq<Item>)
    returns (content: Option<string>)
    ensures content.None? <==> CaptionThrows(kind, items)
    ensures content.Some? ==> content.value == CsvContent(kind, profile, items)
  {
    var csvContent := Header(kind);
    CsvContentStart(kind, profile, items);
    var i := 0;
    while i < |items|
      invariant 0 <= i <= |items|
      invariant csvContent == CsvContent(kind, profile, items[..i])
      invariant !CaptionThrows(kind, items[..i])
    {
      CaptionThrowsSnoc(kind, items, i);
      if ThrowsAt(kind, items[i]) {
        CaptionThrowsGrows(kind, items, i + 1);
        return None;
      }
      csvContent := AppendLine(csvContent, kind, profile, items, i);
      i := i + 1;
    }
    AllLines(kind, profile, items);
    return Some(csvContent);
  }

  /** Before any record, the export is the header alone. */
  lemma CsvContentStart(kind: Option<ContentType>, profile: Option<string>, items: seq<Item>)
    ensures CsvContent(kind, profile, items[..0]) == Header(kind)
  {
    assert items[..0] == [];
    assert Header(kind) + [] == Header(kind);
  }

  /** Records after one whose caption throws do not undo the throw. */
  lemma {:induction false} CaptionThrowsGrows(kind: Option<ContentType>, items: seq<Item>, n: nat)
    requires n <= |items| && CaptionThrows(kind, items[..n])
    ensures CaptionThrows(kind, items)
    decreases |items| - n
  {
    if n < |items| {
      CaptionThrowsSnoc(kind, items, n);
      CaptionThrowsGrows(kind, items, n + 1);
    } else {
      assert items[..n] == items;
    }
  }

  /** All records written: the whole export. */
  lemma AllLines(kind: Option<ContentType>, profile: Option<string>, items: seq<Item>)
    ensures CsvContent(kind, profile, items[..|items|]) == CsvContent(kind, profile, items)
    ensures CaptionThrows(kind, items[..|items|]) == CaptionThrows(kind, items)
  {
    assert items[..|items|] == items;
  }

  /** `csvContent += ...` for the record at `i`. */
  method AppendLine(csvContent: string, kind: Option<ContentType>, profile: Option<string>, items: seq<Item>, i: nat)
    returns (r: string)
    requires i < |items| && csvContent == CsvContent(kind, profile, items[..i])
    ensures r == CsvContent(kind, profile, items[..i + 1])
  {
    r := csvContent + Line(kind, profile, items[i]);
    CsvContentSnoc(kind, profile, items, i);
  }

  /** One more record's line goes at the end of the export. */
  lemma CsvContentSnoc(kind: Option<ContentType>, profile: Option<string>, items: seq<Item>, i: nat)
    requires i < |items|
    ensures CsvContent(kind, profile, items[..i + 1]) == CsvContent(kind, profile, items[..i]) + Line(kind, profile, items[i])
  {
    LinesSnoc(kind, profile, items, i);
    ConcatAssociates(Header(kind), Lines(kind, profile, items[..i]), Line(kind, profile, items[i]));
  }


  // ---------------------------------------------------------------------------
  // The popup's globals (popup.js:3-6)
  // ---------------------------------------------------------------------------

  class PopupState {
    var currentLimit: Limit
    var currentProfile: Option<string>
    var currentContentType: Option<ContentType>
    var extractedData: seq<Item>

    constructor()
      ensures currentLimit == Items(25) && currentProfile == None && currentContentType == None
      ensures extractedData == []
    {
      currentLimit := Items(25);
      currentProfile := None;
      currentContentType := None;
      extractedData := [];
    }

    /** A limit option was clicked. */
    method SelectLimit(value: string)
      modifies this
      ensures currentLimit == ParseLimitOption(value)
      ensures currentProfile == old(currentProfile) && currentContentType == old(currentContentType)
      ensures extractedData == old(extractedData)
    {
      currentLimit := ParseLimitOption(value);
    }

    /** The detection result arrives: a profile sets name and content type, anything else changes nothing. */
    method ApplyDetection(d: Detection)
      modifies this
      ensures d.Profile? ==> currentProfile == Some(d.profileName) && currentContentType == Some(d.contentType)
      ensures d.NotProfile? ==> currentProfile == old(currentProfile) && currentContentType == old(currentContentType)
      ensures currentLimit == old(currentLimit) && extractedData == old(extractedData)
    {
      if d.Profile? {
        currentProfile := Some(d.profileName);
        currentContentType := Some(d.contentType);
      }
    }

    /**
     * The content script answered. Nothing is asked of it unless a non-empty
     * profile and a content type are known; a successful answer replaces the
     * data, a failed one keeps it.
     */
    method ReceiveData(success: bool, data: seq<Item>)
      modifies this
      ensures var asked := currentProfile.Some? && currentProfile.value != [] && currentContentType.Some?;
        extractedData == if asked && success then data else old(extractedData)
      ensures currentLimit == old(currentLimit) && currentProfile == old(currentProfile)
      ensures currentContentType == old(currentContentType)
    {
      if currentProfile.None? || currentProfile.value == [] || currentContentType.None? {
        return;
      }
      if success {
        extractedData := data;
      }
    }

    /**
     * `exportCSV`: nothing without data, nor when a posts caption throws
     * part-way; otherwise the file to download.
     */
    method ExportCsv(isoNow: string) returns (file: Option<CsvFile>)
      ensures file.None? <==> extractedData == [] || CaptionThrows(currentContentType, extractedData)
      ensures file.Some? ==>
                file.value == CsvFile(FileName(currentContentType, currentProfile, isoNow),
                                      CsvContent(currentContentType, currentProfile, extractedData))
    {
      var items, kind, profile := extractedData, currentContentType, currentProfile;
      if |items| == 0 {
        return None;
      }
      var csvContent := WriteCsv(kind, profile, items);
      if csvContent.None? {
        return None;
      }
      var filename := FileName(kind, profile, isoNow);
      return Some(CsvFile(filename, csvContent.value));
    }
  }
}
