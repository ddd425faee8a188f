/**
 * The page analysis of internal/services/url_analyzer_service.go: scheme
 * normalisation, the mapping of the fetch outcome to a result or an error,
 * the four structural extractors and the link classifier.
 *
 * The loops of the source (analyzeHTMLVersion, analyzeHeadings, analyzeLinks,
 * analyzeLoginForm) are methods proved against the functions that AnalyzeUrl
 * assembles its result from.
 */
module UrlAnalyzerService {
  import opened Wrappers
  import opened Text
  import opened Html
  import opened Urls
  import opened Models
  import Errors

  // ---------------------------------------------------------------------------
  // The outside world: the page fetch, the HTML parser and the HEAD probe.

  /** What the GET of the page ends in. */
  datatype FetchOutcome =
    | RequestCreateFailure(cause: Errors.Cause)   // http.NewRequestWithContext failed
    | TransportFailure(cause: Errors.Cause)       // client.Do failed
    | Fetched(statusCode: int, body: seq<bv8>)    // a response arrived

  /** What the HEAD probe of a link ends in: a transport error or a status. */
  datatype ProbeOutcome = ProbeFailure | ProbeResponse(statusCode: int)

  /** The collaborators the service calls but whose code is not modelled. */
  datatype Env<!U> = Env(
    urls: UrlLib<U>,
    fetch: string -> FetchOutcome,
    parseHtml: seq<bv8> -> Result<Document, Errors.Cause>,
    head: string -> ProbeOutcome)

  /** The two kinds of error AnalyzeURL returns. */
  datatype AnalysisError = ServiceError(err: Errors.Error) | StatusError(httpErr: HttpError)

  const StatusOK := 200

  // ---------------------------------------------------------------------------
  // Status descriptions

  const GenericDescription := "An error occurred while processing the request"

  const StatusDescriptions: map<int, string> := map[
    400 := "Bad Request - The server cannot process the request due to a client error",
    401 := "Unauthorized - Authentication is required to access this resource",
    403 := "Forbidden - Access to this resource is denied",
    404 := "Not Found - The requested resource was not found on the server",
    500 := "Internal Server Error - The server encountered an unexpected condition",
    502 := "Bad Gateway - The server received an invalid response from an upstream server",
    503 := "Service Unavailable - The server is temporarily unable to handle the request",
    504 := "Gateway Timeout - The server did not receive a timely response from an upstream server"]

  /** The status codes that have a description of their own. */
  const DescribedCodes: set<int> := {400, 401, 403, 404, 500, 502, 503, 504}

  /** getHTTPStatusDescription */
  function StatusDescription(statusCode: int): (d: string)
    ensures statusCode in DescribedCodes ==> statusCode in StatusDescriptions && d == StatusDescriptions[statusCode]
    ensures d == GenericDescription <==> statusCode !in DescribedCodes
  {
    if statusCode in StatusDescriptions then StatusDescriptions[statusCode] else GenericDescription
  }

  predicate IsDigit(c: char) { '0' <= c <= '9' }

  /** No character of `s` is a decimal digit. */
  predicate NoDigit(s: string)
  {
    forall i :: 0 <= i < |s| ==> !IsDigit(s[i])
  }

  lemma NoDigitConcat(a: string, b: string)
    requires NoDigit(a) && NoDigit(b)
    ensures NoDigit(a + b)
  {
    forall i | 0 <= i < |a + b|
      ensures !IsDigit((a + b)[i])
    {
      if i < |a| {
        assert (a + b)[i] == a[i];
      } else {
        assert (a + b)[i] == b[i - |a|];
      }
    }
  }

  lemma ErrorOccurredNoDigit(a: string)
    requires a == "An error occurred"
    ensures NoDigit(a)
  {
    assert forall i :: 0 <= i < |a| ==> a[i] in "An erocud";
  }

  lemma WhileProcessingNoDigit(b: string)
    requires b == " while processing the request"
    ensures NoDigit(b)
  {
    assert forall i :: 0 <= i < |b| ==> b[i] in " whilepocsngtrqu";
  }

  /** The generic description holds no decimal digit. */
  lemma GenericHasNoDigit()
    ensures NoDigit(GenericDescription)
  {
    var a, b := "An error occurred", " while processing the request";
    assert GenericDescription == a + b;
    ErrorOccurredNoDigit(a);
    WhileProcessingNoDigit(b);
    NoDigitConcat(a, b);
  }

  /** A string without digits contains no text that starts with a digit. */
  lemma {:induction false} NoDigitNoNumber(s: string, code: string)
    requires NoDigit(s)
    requires |code| > 0 && IsDigit(code[0])
    ensures !Contains(s, code)
    decreases |s|
  {
    if |s| > 0 {
      assert !HasPrefix(s, code) by {
        if |code| <= |s| {
          assert s[..|code|][0] == s[0];
        }
      }
      NoDigitNoNumber(s[1..], code);
    }
  }

  /** The generic description does not contain the status code, written in decimal. */
  lemma GenericOmitsCode(code: string)
    requires |code| > 0 && IsDigit(code[0])
    ensures !Contains(GenericDescription, code)
  {
    GenericHasNoDigit();
    NoDigitNoNumber(GenericDescription, code);
  }

  /** An undescribed status code gets a description that does not mention its number. */
  lemma UnknownCodeNotMentioned(statusCode: int, code: string)
    requires statusCode !in DescribedCodes
    requires |code| > 0 && IsDigit(code[0])
    ensures !Contains(StatusDescription(statusCode), code)
  {
    GenericOmitsCode(code);
  }

  /** Distinct described codes get distinct descriptions. */
  lemma DescriptionsDistinct(a: int, b: int)
    requires a in DescribedCodes && b in DescribedCodes && a != b
    ensures StatusDescription(a) != StatusDescription(b)
  {
  }

  // ---------------------------------------------------------------------------
  // HTML version

  const SemanticTags: set<string> := {"header", "nav", "main", "section", "article", "aside", "footer"}

  /** The first `html` element carries a `lang` attribute. */
  predicate RootHasLang(doc: Document)
  {
    var roots := Find(doc, Tag("html"));
    |roots| > 0 && HasAttr(roots[0].attrs, "lang")
  }

  predicate HasSemanticLayout(doc: Document)
  {
    |Find(doc, AnyTag(SemanticTags))| > 0
  }

  predicate HasXmlnsRoot(doc: Document)
  {
    |Find(doc, TagWithAttr("html", "xmlns"))| > 0
  }

  /** The HTML version heuristic: the HTML5 signals are tried before the XHTML one. */
  function HtmlVersion(doc: Document): (v: string)
    ensures v in {"HTML5", "XHTML", "HTML4"}
    ensures v == "HTML5" <==> RootHasLang(doc) || HasSemanticLayout(doc)
    ensures v == "XHTML" <==> !RootHasLang(doc) && !HasSemanticLayout(doc) && HasXmlnsRoot(doc)
  {
    if RootHasLang(doc) then "HTML5"
    else if HasSemanticLayout(doc) then "HTML5"
    else if HasXmlnsRoot(doc) then "XHTML"
    else "HTML4"
  }

  /** analyzeHTMLVersion: scans the first `html` element's attributes, then the layout tags, then `html[xmlns]`. */
  method AnalyzeHtmlVersion(doc: Document) returns (v: string)
    ensures v == HtmlVersion(doc)
  {
    var roots := Find(doc, Tag("html"));
    if |roots| > 0 {
      var attrs := roots[0].attrs;
      var i := 0;
      while i < |attrs|
        invariant 0 <= i <= |attrs|
        invariant forall j :: 0 <= j < i ==> attrs[j].key != "lang"
      {
        if attrs[i].key == "lang" {
          return "HTML5";
        }
        i := i + 1;
      }
    }
    if |Find(doc, AnyTag(SemanticTags))| > 0 {
      return "HTML5";
    }
    if |Find(doc, TagWithAttr("html", "xmlns"))| > 0 {
      return "XHTML";
    }
    return "HTML4";
  }

  // ---------------------------------------------------------------------------
  // Title

  /** analyzeTitle: the trimmed, combined text of every `title` element. */
  function AnalyzeTitle(doc: Document): (title: string)
    ensures title == [] || (!IsSpace(title[0]) && !IsSpace(title[|title| - 1]))
    ensures |Find(doc, Tag("title"))| == 0 ==> title == ""
    ensures title == "" <==> AllSpace(CombinedText(Find(doc, Tag("title"))))
  {
    var titles := Find(doc, Tag("title"));
    var combined := CombinedText(titles);
    assert titles == [] ==> combined == [] && AllSpace(combined);
    TrimSpace(combined)
  }

  /** Whatever text the titles carry, the title is that text without the white space around it. */
  lemma TitleIsTrimmedText(doc: Document, pre: string, mid: string, suf: string)
    requires CombinedText(Find(doc, Tag("title"))) == pre + mid + suf
    requires AllSpace(pre) && AllSpace(suf)
    requires mid == [] || (!IsSpace(mid[0]) && !IsSpace(mid[|mid| - 1]))
    ensures AnalyzeTitle(doc) == mid
  {
    TrimSpacePadded(pre, mid, suf);
  }

  // ---------------------------------------------------------------------------
  // Headings

  const HeadingTags: set<string> := {"h1", "h2", "h3", "h4", "h5", "h6"}

  /** fmt.Sprintf("h%d", level) */
  function HeadingTag(level: int): (tag: string)
    requires 1 <= level <= 6
    ensures tag in HeadingTags
    ensures |tag| == 2 && tag[0] == 'h' && tag[1] as int == 48 + level
  {
    var tag := "h" + [(48 + level) as char];
    assert tag == ['h', "123456"[level - 1]];
    assert "h" + ["123456"[level - 1]] in HeadingTags;
    tag
  }

  /** Every heading tag is the tag of one of the levels 1 to 6. */
  lemma HeadingLevel(tag: string) returns (level: int)
    requires tag in HeadingTags
    ensures 1 <= level <= 6 && HeadingTag(level) == tag
  {
    level := (tag[1] as int) - 48;
  }

  /** The number of elements with the given tag. */
  function CountTag(doc: Document, tag: string): nat
  {
    |Find(doc, Tag(tag))|
  }

  /** The heading histogram: each heading tag that occurs, with its number of occurrences. */
  function HeadingCounts(doc: Document): (headings: map<string, int>)
    ensures headings.Keys <= HeadingTags
    ensures forall tag :: tag in headings ==> headings[tag] == CountTag(doc, tag) > 0
    ensures forall tag :: tag in HeadingTags ==> (tag in headings <==> CountTag(doc, tag) > 0)
  {
    map tag | tag in HeadingTags && CountTag(doc, tag) > 0 :: CountTag(doc, tag)
  }

  /** `headings` records exactly the levels below `next` that occur, with their counts. */
  predicate CountedBelow(doc: Document, headings: map<string, int>, next: int)
  {
    && headings.Keys <= HeadingTags
    && (forall tag :: tag in headings ==> headings[tag] == CountTag(doc, tag) > 0)
    && (forall level :: 1 <= level <= 6 ==> (HeadingTag(level) in headings <==> level < next && CountTag(doc, HeadingTag(level)) > 0))
  }

  /** Recording level `next` when it occurs extends what is counted by one level. */
  lemma CountedStep(doc: Document, headings: map<string, int>, next: int)
    requires 1 <= next <= 6 && CountedBelow(doc, headings, next)
    ensures var tag := HeadingTag(next);
      CountedBelow(doc, if CountTag(doc, tag) > 0 then headings[tag := CountTag(doc, tag)] else headings, next + 1)
  {
    forall level | 1 <= level <= 6 && level != next
      ensures HeadingTag(level) != HeadingTag(next)
    {
      assert HeadingTag(level)[1] != HeadingTag(next)[1];
    }
  }

  /** Once all six levels are counted, the map is the heading histogram. */
  lemma CountedAll(doc: Document, headings: map<string, int>)
    requires CountedBelow(doc, headings, 7)
    ensures forall tag :: tag in HeadingTags ==> (tag in headings <==> CountTag(doc, tag) > 0)
    ensures headings == HeadingCounts(doc)
  {
    forall tag | tag in HeadingTags
      ensures tag in headings <==> CountTag(doc, tag) > 0
    {
      var level := HeadingLevel(tag);
    }
  }

  /** analyzeHeadings: counts h1 .. h6 in turn and records only the levels that occur. */
  method AnalyzeHeadings(doc: Document) returns (headings: map<string, int>)
    ensures headings.Keys <= HeadingTags
    ensures forall tag :: tag in headings ==> headings[tag] == CountTag(doc, tag) > 0
    ensures forall tag :: tag in HeadingTags ==> (tag in headings <==> CountTag(doc, tag) > 0)
    ensures headings == HeadingCounts(doc)
  {
    headings := map[];
    for i := 1 to 7
      invariant CountedBelow(doc, headings, i)
    {
      CountedStep(doc, headings, i);
      var tag := HeadingTag(i);
      var count := |Find(doc, Tag(tag))|;
      if count > 0 {
        headings := headings[tag := count];
      }
    }
    CountedAll(doc, headings);
  }

  // ---------------------------------------------------------------------------
  // Links

  /** What one anchor contributes: nothing, one internal link, or one external link to probe. */
  datatype LinkKind = Skipped | Internal | External(target: string)

  /** The counters analyzeLinks returns. */
  datatype LinkCounts = LinkCounts(internal: nat, external: nat, inaccessible: nat)
  {
    function Plus(other: LinkCounts): LinkCounts
    {
      LinkCounts(internal + other.internal, external + other.external, inaccessible + other.inaccessible)
    }
  }

  const NoLinks := LinkCounts(0, 0, 0)

  /** isLinkAccessible: the HEAD request succeeds with status 200. */
  predicate IsLinkAccessible(head: string -> ProbeOutcome, target: string)
    ensures head(target).ProbeFailure? ==> !IsLinkAccessible(head, target)
    ensures head(target).ProbeResponse? ==> (IsLinkAccessible(head, target) <==> head(target).statusCode == StatusOK)
  {
    head(target) == ProbeResponse(StatusOK)
  }

  /**
   * How one href is classified against the page's parsed URL: script and mail
   * links and unparsable hrefs are skipped, relative ones are resolved against
   * the page, and the host decides between internal and external.
   */
  function ClassifyHref<U>(urls: UrlLib<U>, base: U, href: string): (k: LinkKind)
    ensures HasPrefix(href, "javascript:") || HasPrefix(href, "mailto:") || urls.parse(href).None? ==> k == Skipped
    ensures k.Internal? || k.External? ==> urls.parse(href).Some?
    ensures k.Internal? ==> urls.isAbs(urls.parse(href).value) ==> urls.hostname(urls.parse(href).value) == urls.hostname(base)
    ensures !HasPrefix(href, "javascript:") && !HasPrefix(href, "mailto:") && urls.parse(href).Some? ==>
      var link := urls.parse(href).value;
      var resolved := if urls.isAbs(link) then link else urls.resolve(base, link);
      && k != Skipped
      && (k == Internal <==> urls.hostname(resolved) == urls.hostname(base))
      && (k.External? ==> k.target == urls.render(resolved))
  {
    if HasPrefix(href, "javascript:") || HasPrefix(href, "mailto:") then Skipped
    else
      match urls.parse(href)
      case None => Skipped
      case Some(link) =>
        var resolved := if urls.isAbs(link) then link else urls.resolve(base, link);
        if urls.hostname(resolved) == urls.hostname(base) then Internal
        else External(urls.render(resolved))
  }

  /** The classification of one `a[href]` element by its first href attribute. */
  function ClassifyAnchor<U>(urls: UrlLib<U>, base: U, anchor: Element): (k: LinkKind)
    ensures !HasAttr(anchor.attrs, "href") ==> k == Skipped
    ensures HasAttr(anchor.attrs, "href") ==> k == ClassifyHref(urls, base, AttrValue(anchor.attrs, "href").value)
  {
    match AttrValue(anchor.attrs, "href")
    case None => Skipped
    case Some(href) => ClassifyHref(urls, base, href)
  }

  /** The counters one anchor adds. */
  function AnchorCounts<U>(urls: UrlLib<U>, base: U, head: string -> ProbeOutcome, anchor: Element): (c: LinkCounts)
    ensures c.internal + c.external <= 1 && c.inaccessible <= c.external
    ensures c.internal == 1 <==> ClassifyAnchor(urls, base, anchor) == Internal
    ensures c.internal + c.external == 1 <==> ClassifyAnchor(urls, base, anchor) != Skipped
    ensures c.external == 1 <==> ClassifyAnchor(urls, base, anchor).External?
    ensures c.inaccessible == 1 <==>
      ClassifyAnchor(urls, base, anchor).External? && !IsLinkAccessible(head, ClassifyAnchor(urls, base, anchor).target)
  {
    match ClassifyAnchor(urls, base, anchor)
    case Skipped => NoLinks
    case Internal => LinkCounts(1, 0, 0)
    case External(target) => LinkCounts(0, 1, if IsLinkAccessible(head, target) then 0 else 1)
  }

  /** The counters over a run of anchors, in document order. */
  function Tally<U>(urls: UrlLib<U>, base: U, head: string -> ProbeOutcome, anchors: seq<Element>): (c: LinkCounts)
    ensures c.internal + c.external <= |anchors|
    ensures c.inaccessible <= c.external
  {
    if anchors == [] then NoLinks
    else Tally(urls, base, head, anchors[..|anchors| - 1]).Plus(AnchorCounts(urls, base, head, anchors[|anchors| - 1]))
  }

  /** The anchors analyzeLinks looks at: every `a` element with an href attribute. */
  function Anchors(doc: Document): seq<Element>
  {
    Find(doc, TagWithAttr("a", "href"))
  }

  /** The three counters of analyzeLinks; all zero when the page URL does not parse. */
  function LinkCountsOf<U>(doc: Document, pageUrl: string, urls: UrlLib<U>, head: string -> ProbeOutcome): (c: LinkCounts)
    ensures urls.parse(pageUrl).None? ==> c == NoLinks
    ensures urls.parse(pageUrl).Some? ==> c == Tally(urls, urls.parse(pageUrl).value, head, Anchors(doc))
    ensures c.internal + c.external <= |Anchors(doc)|
    ensures c.inaccessible <= c.external
  {
    match urls.parse(pageUrl)
    case None => NoLinks
    case Some(base) => Tally(urls, base, head, Anchors(doc))
  }

  /** The number of anchors whose first href is counted at all. */
  function CountedAnchors<U>(urls: UrlLib<U>, base: U, anchors: seq<Element>): nat
  {
    if anchors == [] then 0
    else
      var here := if ClassifyAnchor(urls, base, anchors[|anchors| - 1]) != Skipped then 1 else 0;
      CountedAnchors(urls, base, anchors[..|anchors| - 1]) + here
  }

  /** Every counted anchor is counted exactly once, as internal or as external. */
  lemma {:induction false} TallyCountsEachOnce<U>(urls: UrlLib<U>, base: U, head: string -> ProbeOutcome, anchors: seq<Element>)
    ensures Tally(urls, base, head, anchors).internal + Tally(urls, base, head, anchors).external == CountedAnchors(urls, base, anchors)
  {
    if anchors != [] {
      TallyCountsEachOnce(urls, base, head, anchors[..|anchors| - 1]);
    }
  }

  /** Counting splits over concatenation: the counters are sums over the anchors. */
  lemma {:induction false} TallyAppend<U>(urls: UrlLib<U>, base: U, head: string -> ProbeOutcome, xs: seq<Element>, ys: seq<Element>)
    ensures Tally(urls, base, head, xs + ys) == Tally(urls, base, head, xs).Plus(Tally(urls, base, head, ys))
    decreases |ys|
  {
    var a := Tally(urls, base, head, xs);
    if ys == [] {
      assert xs + ys == xs;
      PlusNoLinks(a);
    } else {
      var init, last := ys[..|ys| - 1], ys[|ys| - 1];
      assert xs + ys == (xs + init) + [last] && ys == init + [last];
      var b, c := Tally(urls, base, head, init), AnchorCounts(urls, base, head, last);
      TallyAppend(urls, base, head, xs, init);
      TallySnoc(urls, base, head, xs + init, last);
      TallySnoc(urls, base, head, init, last);
      PlusAssociative(a, b, c);
      assert Tally(urls, base, head, xs + ys) == a.Plus(b).Plus(c);
    }
  }

  lemma TallySnoc<U>(urls: UrlLib<U>, base: U, head: string -> ProbeOutcome, anchors: seq<Element>, last: Element)
    ensures Tally(urls, base, head, anchors + [last]) == Tally(urls, base, head, anchors).Plus(AnchorCounts(urls, base, head, last))
  {
    assert (anchors + [last])[..|anchors|] == anchors;
  }

  lemma PlusNoLinks(a: LinkCounts)
    ensures a.Plus(NoLinks) == a
  {
  }

  lemma PlusAssociative(a: LinkCounts, b: LinkCounts, c: LinkCounts)
    ensures a.Plus(b).Plus(c) == a.Plus(b.Plus(c))
  {
  }

  /** The order in which the anchors are visited does not change the counters. */
  lemma TallyOrderIndependent<U>(urls: UrlLib<U>, base: U, head: string -> ProbeOutcome, xs: seq<Element>, ys: seq<Element>)
    ensures Tally(urls, base, head, xs + ys) == Tally(urls, base, head, ys + xs)
  {
    TallyAppend(urls, base, head, xs, ys);
    TallyAppend(urls, base, head, ys, xs);
  }

  /** The probe decides only the inaccessible counter: internal and external counts do not depend on it. */
  lemma {:induction false} ProbeAffectsOnlyInaccessible<U>(urls: UrlLib<U>, base: U, head1: string -> ProbeOutcome, head2: string -> ProbeOutcome, anchors: seq<Element>)
    ensures Tally(urls, base, head1, anchors).internal == Tally(urls, base, head2, anchors).internal
    ensures Tally(urls, base, head1, anchors).external == Tally(urls, base, head2, anchors).external
  {
    if anchors != [] {
      ProbeAffectsOnlyInaccessible(urls, base, head1, head2, anchors[..|anchors| - 1]);
    }
  }

  /** When every probe answers 200, no link is counted inaccessible. */
  lemma {:induction false} AllReachableNoneInaccessible<U>(urls: UrlLib<U>, base: U, head: string -> ProbeOutcome, anchors: seq<Element>)
    requires forall target :: IsLinkAccessible(head, target)
    ensures Tally(urls, base, head, anchors).inaccessible == 0
  {
    if anchors != [] {
      AllReachableNoneInaccessible(urls, base, head, anchors[..|anchors| - 1]);
    }
  }

  /** When every probe fails, every external link is counted inaccessible. */
  lemma {:induction false} NoneReachableAllInaccessible<U>(urls: UrlLib<U>, base: U, head: string -> ProbeOutcome, anchors: seq<Element>)
    requires forall target :: !IsLinkAccessible(head, target)
    ensures Tally(urls, base, head, anchors).inaccessible == Tally(urls, base, head, anchors).external
  {
    if anchors != [] {
      NoneReachableAllInaccessible(urls, base, head, anchors[..|anchors| - 1]);
    }
  }

  /** The callback analyzeLinks runs on each anchor: it bumps the counter the link belongs to. */
  method CountAnchor<U>(urls: UrlLib<U>, base: U, head: string -> ProbeOutcome, anchor: Element,
                        internalCount: int, externalCount: int, inaccessibleCount: int)
    returns (internal: int, external: int, inaccessible: int)
    ensures var c := AnchorCounts(urls, base, head, anchor);
      internal == internalCount + c.internal && external == externalCount + c.external
      && inaccessible == inaccessibleCount + c.inaccessible
  {
    internal, external, inaccessible := internalCount, externalCount, inaccessibleCount;
    var href := AttrValue(anchor.attrs, "href");
    if href.None? {
      return;
    }
    if HasPrefix(href.value, "javascript:") || HasPrefix(href.value, "mailto:") {
      return;
    }
    var parsed := urls.parse(href.value);
    if parsed.None? {
      return;
    }
    var linkUrl := parsed.value;
    if !urls.isAbs(linkUrl) {
      linkUrl := urls.resolve(base, linkUrl);
    }
    if urls.hostname(linkUrl) == urls.hostname(base) {
      internal := internal + 1;
    } else {
      external := external + 1;
      if !IsLinkAccessible(head, urls.render(linkUrl)) {
        inaccessible := inaccessible + 1;
      }
    }
  }

  /** analyzeLinks: walks the anchors once, skipping, counting and probing as it goes. */
  method AnalyzeLinks<U>(doc: Document, baseUrl: string, urls: UrlLib<U>, head: string -> ProbeOutcome)
    returns (internal: int, external: int, inaccessible: int)
    ensures var c := LinkCountsOf(doc, baseUrl, urls, head);
      internal == c.internal && external == c.external && inaccessible == c.inaccessible
  {
    if urls.parse(baseUrl).None? {
      return 0, 0, 0;
    }
    var base := urls.parse(baseUrl).value;
    var links := Find(doc, TagWithAttr("a", "href"));
    var internalCount, externalCount, inaccessibleCount := 0, 0, 0;
    for i := 0 to |links|
      invariant var c := Tally(urls, base, head, links[..i]);
        internalCount == c.internal && externalCount == c.external && inaccessibleCount == c.inaccessible
    {
      assert links[..i + 1] == links[..i] + [links[i]];
      TallySnoc(urls, base, head, links[..i], links[i]);
      internalCount, externalCount, inaccessibleCount :=
        CountAnchor(urls, base, head, links[i], internalCount, externalCount, inaccessibleCount);
    }
    assert links[..|links|] == links;
    return internalCount, externalCount, inaccessibleCount;
  }

  // ---------------------------------------------------------------------------
  // Login form

  /** input[type='password'] */
  const PasswordInput := AttrEquals("input", "type", "password")

  /** The eight selectors of a user-name field, in the order they are tried. */
  const UsernameSelectors: seq<Selector> := [
    AttrContains("input", "name", "user"),
    AttrContains("input", "name", "email"),
    AttrContains("input", "name", "login"),
    AttrContains("input", "name", "username"),
    AttrContains("input", "id", "user"),
    AttrContains("input", "id", "email"),
    AttrContains("input", "id", "login"),
    AttrContains("input", "id", "username")]

  predicate HasPasswordField(form: Element)
  {
    |Find(form.descendants, PasswordInput)| > 0
  }

  predicate HasUsernameField(form: Element)
  {
    exists j :: 0 <= j < |UsernameSelectors| && |Find(form.descendants, UsernameSelectors[j])| > 0
  }

  /** A form with a password field and a user-name field. */
  predicate IsLoginForm(form: Element)
  {
    HasPasswordField(form) && HasUsernameField(form)
  }

  predicate HasLoginForm(doc: Document)
    ensures HasLoginForm(doc) <==> exists form :: form in doc && form.tag == "form" && IsLoginForm(form)
  {
    FindMembers(doc, Tag("form"));
    exists form :: form in Find(doc, Tag("form")) && IsLoginForm(form)
  }

  /** An input with a `name` or `id` attribute whose value contains `word`. */
  predicate NamedInput(e: Element, word: string)
  {
    e.tag == "input" && exists a :: a in e.attrs && (a.key == "name" || a.key == "id") && Contains(a.val, word)
  }

  /**
   * The user-name test, stated without the selectors: some input's name or id
   * contains "user", "email" or "login" (the "username" selectors add nothing,
   * since a value containing "username" contains "user").
   */
  lemma UsernameFieldMeaning(form: Element)
    ensures HasUsernameField(form) <==>
      exists e :: e in form.descendants && (NamedInput(e, "user") || NamedInput(e, "email") || NamedInput(e, "login"))
  {
    if HasUsernameField(form) {
      UsernameFieldSound(form);
    }
    if exists e :: e in form.descendants && (NamedInput(e, "user") || NamedInput(e, "email") || NamedInput(e, "login")) {
      var e :| e in form.descendants && (NamedInput(e, "user") || NamedInput(e, "email") || NamedInput(e, "login"));
      UsernameFieldComplete(form, e);
    }
  }

  /** A form whose inputs have no user-name-like name or id is no login form, whatever password field it has. */
  lemma PasswordAloneIsNotLogin(form: Element)
    requires forall e :: e in form.descendants ==> !NamedInput(e, "user") && !NamedInput(e, "email") && !NamedInput(e, "login")
    ensures !IsLoginForm(form)
  {
    UsernameFieldMeaning(form);
  }

  lemma UsernameFieldSound(form: Element)
    requires HasUsernameField(form)
    ensures exists e :: e in form.descendants && (NamedInput(e, "user") || NamedInput(e, "email") || NamedInput(e, "login"))
  {
    var j :| 0 <= j < |UsernameSelectors| && |Find(form.descendants, UsernameSelectors[j])| > 0;
    var sel := UsernameSelectors[j];
    var e := Find(form.descendants, sel)[0];
    FindMembers(form.descendants, sel);
    assert e in form.descendants && Matches(sel, e);
    var a :| a in e.attrs && a.key == sel.key && Contains(a.val, sel.sub);
    if sel.sub == "username" {
      assert "username" == "user" + "name";
      ContainsExtended(a.val, "user", "name");
    }
    var word := if sel.sub == "email" then "email" else if sel.sub == "login" then "login" else "user";
    assert NamedInput(e, word);
  }

  lemma UsernameFieldComplete(form: Element, e: Element)
    requires e in form.descendants && (NamedInput(e, "user") || NamedInput(e, "email") || NamedInput(e, "login"))
    ensures HasUsernameField(form)
  {
    var a :| a in e.attrs && (a.key == "name" || a.key == "id")
      && (Contains(a.val, "user") || Contains(a.val, "email") || Contains(a.val, "login"));
    var j := (if a.key == "name" then 0 else 4) + (if Contains(a.val, "user") then 0 else if Contains(a.val, "email") then 1 else 2);
    var sel := UsernameSelectors[j];
    assert Matches(sel, e);
    FindMembers(form.descendants, sel);
    assert e in Find(form.descendants, sel);
  }

  /** analyzeLoginForm: tries each form; in a form with a password field, tries the user-name selectors until one matches. */
  method AnalyzeLoginForm(doc: Document) returns (hasLoginForm: bool)
    ensures hasLoginForm == HasLoginForm(doc)
  {
    var forms := Find(doc, Tag("form"));
    hasLoginForm := false;
    for i := 0 to |forms|
      invariant hasLoginForm == LoginFormBefore(forms, i)
    {
      var form := forms[i];
      LoginFormBeforeStep(forms, i);
      if |Find(form.descendants, PasswordInput)| > 0 {
        ghost var before := hasLoginForm;
        for j := 0 to |UsernameSelectors|
          invariant hasLoginForm == before
          invariant forall m :: 0 <= m < j ==> |Find(form.descendants, UsernameSelectors[m])| == 0
        {
          if |Find(form.descendants, UsernameSelectors[j])| > 0 {
            hasLoginForm := true;
            break;
          }
        }
      }
    }
    LoginFormBeforeAll(forms);
  }

  /** Some form among the first `count` is a login form. */
  predicate LoginFormBefore(forms: seq<Element>, count: int)
  {
    exists k :: 0 <= k < count && k < |forms| && IsLoginForm(forms[k])
  }

  lemma LoginFormBeforeStep(forms: seq<Element>, i: int)
    requires 0 <= i < |forms|
    ensures LoginFormBefore(forms, i + 1) <==> LoginFormBefore(forms, i) || IsLoginForm(forms[i])
  {
  }

  /** Once a login form has been seen, the flag stays set. */
  lemma LoginFormBeforeMonotone(forms: seq<Element>, i: int, j: int)
    requires i <= j && LoginFormBefore(forms, i)
    ensures LoginFormBefore(forms, j)
  {
  }

  lemma LoginFormBeforeAll(forms: seq<Element>)
    ensures LoginFormBefore(forms, |forms|) <==> exists form :: form in forms && IsLoginForm(form)
  {
  }

  // ---------------------------------------------------------------------------
  // AnalyzeURL

  /** The result assembled from a parsed page (AnalysisTime is not modelled). */
  function Analysis<U>(doc: Document, pageUrl: string, urls: UrlLib<U>, head: string -> ProbeOutcome): (r: AnalysisResult)
    ensures r.url == pageUrl
    ensures r.htmlVersion == HtmlVersion(doc) && r.title == AnalyzeTitle(doc)
    ensures r.headings == HeadingCounts(doc) && r.hasLoginForm == HasLoginForm(doc)
    ensures var c := LinkCountsOf(doc, pageUrl, urls, head);
      r.internalLinks == c.internal && r.externalLinks == c.external && r.inaccessibleLinks == c.inaccessible
    ensures r.htmlVersion in {"HTML5", "XHTML", "HTML4"}
    ensures r.headings.Keys <= HeadingTags && forall tag :: tag in r.headings ==> r.headings[tag] > 0
    ensures 0 <= r.inaccessibleLinks <= r.externalLinks
    ensures 0 <= r.internalLinks && r.internalLinks + r.externalLinks <= |Anchors(doc)|
  {
    var links := LinkCountsOf(doc, pageUrl, urls, head);
    AnalysisResult(pageUrl, HtmlVersion(doc), AnalyzeTitle(doc), HeadingCounts(doc),
      links.internal, links.external, links.inaccessible, HasLoginForm(doc))
  }

  /**
   * AnalyzeURL: normalises the scheme, fetches the page, rejects a status
   * other than 200, parses the body and analyses the document.
   */
  function AnalyzeUrl<U>(urlStr: string, env: Env<U>): (r: Result<AnalysisResult, AnalysisError>)
    ensures var page := Normalize(urlStr); var fetched := env.fetch(page);
      && (fetched.RequestCreateFailure? ==>
            r == Err(ServiceError(Errors.Wrap("REQUEST_CREATE_ERROR", "Failed to create request", Some(fetched.cause)))))
      && (fetched.TransportFailure? ==>
            r == Err(ServiceError(Errors.Wrap("URL_FETCH_ERROR", "Failed to fetch URL", Some(fetched.cause)))))
      && (fetched.Fetched? && fetched.statusCode != StatusOK ==>
            r == Err(StatusError(HttpError(fetched.statusCode, StatusDescription(fetched.statusCode)))))
      && (fetched.Fetched? && fetched.statusCode == StatusOK && env.parseHtml(fetched.body).Err? ==>
            r == Err(ServiceError(Errors.Wrap("HTML_PARSE_ERROR", "Failed to parse HTML", Some(env.parseHtml(fetched.body).error)))))
      && (r.Ok? <==> fetched.Fetched? && fetched.statusCode == StatusOK && env.parseHtml(fetched.body).Ok?)
      && (r.Ok? ==> r.value == Analysis(env.parseHtml(fetched.body).value, page, env.urls, env.head))
  {
    var page := Normalize(urlStr);
    match env.fetch(page)
    case RequestCreateFailure(cause) =>
      Err(ServiceError(Errors.Wrap("REQUEST_CREATE_ERROR", "Failed to create request", Some(cause))))
    case TransportFailure(cause) =>
      Err(ServiceError(Errors.Wrap("URL_FETCH_ERROR", "Failed to fetch URL", Some(cause))))
    case Fetched(statusCode, body) =>
      if statusCode != StatusOK then
        Err(StatusError(HttpError(statusCode, StatusDescription(statusCode))))
      else
        match env.parseHtml(body)
        case Err(cause) => Err(ServiceError(Errors.Wrap("HTML_PARSE_ERROR", "Failed to parse HTML", Some(cause))))
        case Ok(doc) => Ok(Analysis(doc, page, env.urls, env.head))
  }

  /** A successful analysis reports the URL with its scheme, and its counters keep their bounds. */
  lemma SuccessfulAnalysis<U>(urlStr: string, env: Env<U>)
    requires AnalyzeUrl(urlStr, env).Ok?
    ensures var r := AnalyzeUrl(urlStr, env).value;
      && HasHttpScheme(r.url)
      && (HasHttpScheme(urlStr) ==> r.url == urlStr)
      && 0 <= r.inaccessibleLinks <= r.externalLinks
  {
  }

  /** A page that does not answer 200 is reported without parsing the body or probing any link. */
  lemma StatusErrorIgnoresBody<U>(urlStr: string, env1: Env<U>, env2: Env<U>)
    requires env1.fetch(Normalize(urlStr)).Fetched? && env1.fetch(Normalize(urlStr)).statusCode != StatusOK
    requires env2.fetch(Normalize(urlStr)).Fetched? && env2.fetch(Normalize(urlStr)).statusCode == env1.fetch(Normalize(urlStr)).statusCode
    ensures AnalyzeUrl(urlStr, env1) == AnalyzeUrl(urlStr, env2)
    ensures AnalyzeUrl(urlStr, env1).Err? && AnalyzeUrl(urlStr, env1).error.StatusError?
  {
  }
}
