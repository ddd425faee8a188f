/** The expectations of internal/services/url_analyzer_service_test.go, stated against the model. */
module UrlAnalyzerExamples {
  import opened Wrappers
  import opened Text
  import opened Html
  import opened Urls
  import opened Models
  import opened UrlAnalyzerService

  // The test page, element by element in document order. Only the title's
  // text is read by the analysis; html, body and form are given empty text.
  const TitleElement := Element("title", [], "Test Page", [])
  const HeadElement := Element("head", [], "Test Page", [TitleElement])
  const H1Element := Element("h1", [], "Header 1", [])
  const H2Element := Element("h2", [], "Header 2", [])
  const InternalAnchor := Element("a", [Attr("href", "/internal")], "Internal Link", [])
  const ExternalAnchor := Element("a", [Attr("href", "https://external.com")], "External Link", [])
  const UserInput := Element("input", [Attr("type", "text"), Attr("name", "username")], "", [])
  const PasswordField := Element("input", [Attr("type", "password"), Attr("name", "password")], "", [])
  const FormElement := Element("form", [], "", [UserInput, PasswordField])
  const BodyElement := Element("body", [], "",
    [H1Element, H2Element, InternalAnchor, ExternalAnchor, FormElement, UserInput, PasswordField])
  const HtmlElement := Element("html", [], "",
    [HeadElement, TitleElement, BodyElement, H1Element, H2Element, InternalAnchor, ExternalAnchor,
     FormElement, UserInput, PasswordField])

  /** The head of the page and the start of its body. */
  const PageStart: Document := [HtmlElement] + [HeadElement] + [TitleElement] + [BodyElement] + [H1Element]

  const TestPage: Document := PageStart + [H2Element] + [InternalAnchor] + [ExternalAnchor] + [FormElement]
    + [UserInput] + [PasswordField]

  /** The singleton selection of `e` when it matches, the empty one otherwise. */
  function Pick(sel: Selector, e: Element): seq<Element>
  {
    if Matches(sel, e) then [e] else []
  }

  lemma FindPageStart(sel: Selector)
    ensures Find(PageStart, sel) == Pick(sel, HtmlElement) + Pick(sel, HeadElement) + Pick(sel, TitleElement)
      + Pick(sel, BodyElement) + Pick(sel, H1Element)
  {
    FindSnoc([], HtmlElement, sel);
    assert [] + [HtmlElement] == [HtmlElement];
    FindSnoc([HtmlElement], HeadElement, sel);
    FindSnoc([HtmlElement] + [HeadElement], TitleElement, sel);
    FindSnoc([HtmlElement] + [HeadElement] + [TitleElement], BodyElement, sel);
    FindSnoc([HtmlElement] + [HeadElement] + [TitleElement] + [BodyElement], H1Element, sel);
  }

  /** Any selection on the test page, element by element. */
  lemma FindTestPage(sel: Selector)
    ensures Find(TestPage, sel) == Pick(sel, HtmlElement) + Pick(sel, HeadElement) + Pick(sel, TitleElement)
      + Pick(sel, BodyElement) + Pick(sel, H1Element) + Pick(sel, H2Element) + Pick(sel, InternalAnchor)
      + Pick(sel, ExternalAnchor) + Pick(sel, FormElement) + Pick(sel, UserInput) + Pick(sel, PasswordField)
  {
    FindPageStart(sel);
    FindSnoc(PageStart, H2Element, sel);
    FindSnoc(PageStart + [H2Element], InternalAnchor, sel);
    FindSnoc(PageStart + [H2Element] + [InternalAnchor], ExternalAnchor, sel);
    FindSnoc(PageStart + [H2Element] + [InternalAnchor] + [ExternalAnchor], FormElement, sel);
    FindSnoc(PageStart + [H2Element] + [InternalAnchor] + [ExternalAnchor] + [FormElement], UserInput, sel);
    FindSnoc(PageStart + [H2Element] + [InternalAnchor] + [ExternalAnchor] + [FormElement] + [UserInput], PasswordField, sel);
  }

  /** An `html` element without lang or xmlns and no layout tags: "HTML4". */
  lemma TestPageVersion()
    ensures HtmlVersion(TestPage) == "HTML4"
  {
    TestPageRoots();
    TestPageNoLayout();
    TestPageNoXmlns();
  }

  lemma TestPageRoots()
    ensures Find(TestPage, Tag("html")) == [HtmlElement]
  {
    FindTestPage(Tag("html"));
  }

  lemma TestPageNoLayout()
    ensures Find(TestPage, AnyTag(SemanticTags)) == []
  {
    var sel := AnyTag(SemanticTags);
    FindTestPage(sel);
    PlainTags(sel, HtmlElement);
    PlainTags(sel, HeadElement);
    PlainTags(sel, TitleElement);
    PlainTags(sel, BodyElement);
    PlainTags(sel, H1Element);
    PlainTags(sel, H2Element);
    PlainTags(sel, InternalAnchor);
    PlainTags(sel, ExternalAnchor);
    PlainTags(sel, FormElement);
    PlainTags(sel, UserInput);
    PlainTags(sel, PasswordField);
  }

  /** None of the test page's tags is a layout tag. */
  lemma PlainTags(sel: Selector, e: Element)
    requires sel == AnyTag(SemanticTags)
    requires e.tag in ["html", "head", "title", "body", "h1", "h2", "a", "form", "input"]
    ensures Pick(sel, e) == []
  {
  }

  lemma TestPageNoXmlns()
    ensures Find(TestPage, TagWithAttr("html", "xmlns")) == []
  {
    FindTestPage(TagWithAttr("html", "xmlns"));
  }

  lemma TestPageTitles()
    ensures Find(TestPage, Tag("title")) == [TitleElement]
  {
    FindTestPage(Tag("title"));
  }

  lemma TestPageTitle()
    ensures AnalyzeTitle(TestPage) == "Test Page"
  {
    TestPageTitles();
    assert CombinedText([TitleElement]) == "Test Page";
    TitleKept(CombinedText([TitleElement]));
  }

  /** A title without surrounding white space comes back unchanged. */
  lemma TitleKept(t: string)
    requires t == "Test Page"
    ensures TrimSpace(t) == t
  {
    TrimSpacePadded("", t, "");
    assert "" + t + "" == t;
  }

  lemma TestPageHeadings()
    ensures HeadingCounts(TestPage) == map["h1" := 1, "h2" := 1]
  {
    TestPageHeadingLevels();
  }

  lemma TestPageHeadingLevels()
    ensures CountTag(TestPage, "h1") == 1 && CountTag(TestPage, "h2") == 1
    ensures CountTag(TestPage, "h3") == 0 && CountTag(TestPage, "h4") == 0
    ensures CountTag(TestPage, "h5") == 0 && CountTag(TestPage, "h6") == 0
  {
    FindTestPage(Tag("h1"));
    FindTestPage(Tag("h2"));
    FindTestPage(Tag("h3"));
    FindTestPage(Tag("h4"));
    FindTestPage(Tag("h5"));
    FindTestPage(Tag("h6"));
  }

  /** The form has a password field and an input named "username". */
  lemma TestPageLoginForm()
    ensures HasLoginForm(TestPage)
  {
    TestPageForms();
    FormIsLogin();
    assert FormElement in Find(TestPage, Tag("form"));
  }

  /** The test form: a password input and an input named "username". */
  lemma FormIsLogin()
    ensures IsLoginForm(FormElement)
  {
    assert HasPasswordField(FormElement) by {
      assert FormElement.descendants == [UserInput] + [PasswordField];
      FindSnoc([UserInput], PasswordField, PasswordInput);
    }
    assert NamedInput(UserInput, "user") by {
      assert UserInput.attrs[1] == Attr("name", "username");
      UsernameContainsUser(UserInput.attrs[1].val);
    }
    UsernameFieldComplete(FormElement, UserInput);
  }

  lemma TestPageForms()
    ensures Find(TestPage, Tag("form")) == [FormElement]
  {
    FindTestPage(Tag("form"));
  }

  lemma UsernameContainsUser(v: string)
    requires v == "username"
    ensures Contains(v, "user")
  {
    assert HasPrefix(v, "user");
  }

  /**
   * What net/url does with the two hrefs, as the test relies on it: "/internal"
   * is relative and resolves onto the page's host, "https://external.com" is
   * absolute with another host.
   */
  predicate TestUrls<U>(urls: UrlLib<U>, pageUrl: string)
  {
    && urls.parse(pageUrl).Some?
    && urls.parse("/internal").Some?
    && !urls.isAbs(urls.parse("/internal").value)
    && urls.hostname(urls.resolve(urls.parse(pageUrl).value, urls.parse("/internal").value))
       == urls.hostname(urls.parse(pageUrl).value)
    && urls.parse("https://external.com").Some?
    && urls.isAbs(urls.parse("https://external.com").value)
    && urls.hostname(urls.parse("https://external.com").value) != urls.hostname(urls.parse(pageUrl).value)
  }

  lemma TestPageAnchors()
    ensures Anchors(TestPage) == [InternalAnchor, ExternalAnchor]
  {
    FindTestPage(TagWithAttr("a", "href"));
    assert InternalAnchor.attrs[0].key == "href" && ExternalAnchor.attrs[0].key == "href";
  }

  lemma TestPageLinks<U>(urls: UrlLib<U>, pageUrl: string, head: string -> ProbeOutcome)
    requires TestUrls(urls, pageUrl)
    ensures LinkCountsOf(TestPage, pageUrl, urls, head).internal == 1
    ensures LinkCountsOf(TestPage, pageUrl, urls, head).external == 1
  {
    var base := urls.parse(pageUrl).value;
    TestPageAnchors();
    InternalAnchorCounts(urls, base, head);
    ExternalAnchorCounts(urls, base, head);
    TwoAnchorLinks(TestPage, urls, pageUrl, head, InternalAnchor, ExternalAnchor);
  }

  /** A page with two anchors, the first internal and the second external. */
  lemma TwoAnchorLinks<U>(doc: Document, urls: UrlLib<U>, pageUrl: string, head: string -> ProbeOutcome, x: Element, y: Element)
    requires Anchors(doc) == [x, y]
    requires urls.parse(pageUrl).Some?
    requires AnchorCounts(urls, urls.parse(pageUrl).value, head, x) == LinkCounts(1, 0, 0)
    requires AnchorCounts(urls, urls.parse(pageUrl).value, head, y).internal == 0
    requires AnchorCounts(urls, urls.parse(pageUrl).value, head, y).external == 1
    ensures LinkCountsOf(doc, pageUrl, urls, head).internal == 1
    ensures LinkCountsOf(doc, pageUrl, urls, head).external == 1
  {
    var base := urls.parse(pageUrl).value;
    assert LinkCountsOf(doc, pageUrl, urls, head) == Tally(urls, base, head, [x, y]);
    TallyPair(urls, base, head, x, y);
    var cx, cy := AnchorCounts(urls, base, head, x), AnchorCounts(urls, base, head, y);
    assert Tally(urls, base, head, [x, y]) == cx.Plus(cy);
  }

  lemma TallyPair<U>(urls: UrlLib<U>, base: U, head: string -> ProbeOutcome, x: Element, y: Element)
    ensures Tally(urls, base, head, [x, y]) == AnchorCounts(urls, base, head, x).Plus(AnchorCounts(urls, base, head, y))
  {
    assert [x, y][..1] == [x];
    assert [x][..0] == [];
  }

  lemma InternalAnchorCounts<U>(urls: UrlLib<U>, base: U, head: string -> ProbeOutcome)
    requires urls.parse("/internal").Some? && !urls.isAbs(urls.parse("/internal").value)
    requires urls.hostname(urls.resolve(base, urls.parse("/internal").value)) == urls.hostname(base)
    ensures AnchorCounts(urls, base, head, InternalAnchor) == LinkCounts(1, 0, 0)
  {
    assert AttrValue(InternalAnchor.attrs, "href") == Some("/internal");
    InternalHref(urls, base, "/internal");
  }

  lemma ExternalAnchorCounts<U>(urls: UrlLib<U>, base: U, head: string -> ProbeOutcome)
    requires urls.parse("https://external.com").Some? && urls.isAbs(urls.parse("https://external.com").value)
    requires urls.hostname(urls.parse("https://external.com").value) != urls.hostname(base)
    ensures AnchorCounts(urls, base, head, ExternalAnchor).internal == 0
    ensures AnchorCounts(urls, base, head, ExternalAnchor).external == 1
  {
    assert AttrValue(ExternalAnchor.attrs, "href") == Some("https://external.com");
    ExternalHref(urls, base, "https://external.com");
  }

  lemma InternalHref<U>(urls: UrlLib<U>, base: U, href: string)
    requires href == "/internal"
    requires urls.parse(href).Some? && !urls.isAbs(urls.parse(href).value)
    requires urls.hostname(urls.resolve(base, urls.parse(href).value)) == urls.hostname(base)
    ensures ClassifyHref(urls, base, href) == Internal
  {
    assert !HasPrefix(href, "javascript:") && !HasPrefix(href, "mailto:") by { assert href[0] == '/'; }
  }

  lemma ExternalHref<U>(urls: UrlLib<U>, base: U, href: string)
    requires href == "https://external.com"
    requires urls.parse(href).Some? && urls.isAbs(urls.parse(href).value)
    requires urls.hostname(urls.parse(href).value) != urls.hostname(base)
    ensures ClassifyHref(urls, base, href).External?
  {
    assert !HasPrefix(href, "javascript:") && !HasPrefix(href, "mailto:") by { assert href[0] == 'h'; }
  }

  /** TestAnalyzeURL: a page served with status 200 yields the expected analysis. */
  lemma TestAnalyzeUrl<U>(pageUrl: string, env: Env<U>, body: seq<bv8>)
    requires HasHttpScheme(pageUrl)
    requires env.fetch(pageUrl) == Fetched(StatusOK, body)
    requires env.parseHtml(body) == Ok(TestPage)
    requires TestUrls(env.urls, pageUrl)
    ensures AnalyzeUrl(pageUrl, env).Ok?
    ensures var r := AnalyzeUrl(pageUrl, env).value;
      && r.title == "Test Page" && r.htmlVersion == "HTML4"
      && r.internalLinks == 1 && r.externalLinks == 1 && r.hasLoginForm
  {
    TestPageVersion();
    TestPageTitle();
    TestPageLoginForm();
    TestPageLinks(env.urls, pageUrl, env.head);
  }
}
