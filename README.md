# Web page analyzer: a Dafny model of its core

The analyzer takes a URL from a form, checks it, fetches the page, parses the
HTML and reports five things about it:

- the HTML version, by a fixed-priority heuristic;
- the title;
- a histogram of heading levels;
- counts of internal, external and unreachable external links;
- whether the page has a login form.

This project models the rules behind that report. Each rule is proved
against a statement of what it promises.

- `errors.dfy` (module `Errors`): the coded error record, its two
  constructors and its `Error()` text.
- `models.dfy` (module `Models`): the result record and the HTTP-status
  error record.
- `urls.dfy` (module `Urls`): the `https://` normalisation shared by the
  service and the validator. It also declares the interface to `net/url`:
  `Parse`, `IsAbs`, `ResolveReference`, `Hostname` and `String`. Those are
  left uninterpreted and passed in as a record of functions (`UrlLib`).
- `text.dfy` (module `Text`): `strings.HasPrefix`, `strings.Contains` and
  `strings.TrimSpace`. White space is the `unicode.IsSpace` set.
- `html.dfy` (module `Html`): the parsed page as goquery is queried.
  - The page is the sequence of its elements in document order. Each element
    keeps its tag, its attributes in order, its text and the elements nested
    in it.
  - Only the selector forms the analyzer uses are modelled: a tag, a group of
    tags, `tag[attr]`, `tag[attr='v']` and `tag[attr*='v']`.
  - `Find` keeps the matching elements in order. `CombinedText` is
    `Selection.Text`.
- `url_validator.dfy` (module `UrlValidator`): `utils.IsValidURL`.
  - The regular expression `^https?://[^\s/$.?#].[^\s]*$` is modelled as a
    small backtracking matcher over a list of atoms.
  - The matcher is proved to accept exactly the strings of a declarative
    shape. `\s` is RE2's `[\t\n\f\r ]`.
- `url_analyzer_service.dfy` (module `UrlAnalyzerService`): `AnalyzeURL`
  and everything it calls.
  - The four loops of the source are methods, each proved equal to a
    specification function: the version scan, the heading count, the link
    walk and the login-form search. `AnalyzeUrl` builds its result from
    those functions.
  - The page fetch, the HTML parser and the HEAD probe are parameters (`Env`).
- `analyze_handler.dfy` (module `Api`): `AnalyzeHandler`. It is a function
  from the form outcome and the environment to a response descriptor:
  plain-text error, JSON status error or JSON result.
- `url_validator_examples.dfy` and `url_analyzer_examples.dfy`: the
  expectations of the repository's two test files, stated against the model.

The model follows what the code does, including where that is not what its
tests or a reader might expect:

- The title is the trimmed text of *all* `title` elements joined together,
  not only the first.
- An unknown status code gets the fixed text "An error occurred while
  processing the request". The code does not include the status number in it.
- The validator's pattern is much looser than a dotted-domain check.
  `MissingProtocolAsWritten`, `WrongProtocolAsWritten` and
  `ScriptTagAsWritten` show how the code really judges three inputs that the
  test file expects to be rejected:
  - `example.com` is judged exactly like `https://example.com`;
  - `ftp://example.com` becomes `https://ftp://example.com`, which passes the
    pattern;
  - `https://example.com/<script>` passes the pattern.

  In each case only the host check done by `net/url` remains.
- Some analysis errors are answered with status 500 "Failed to analyze URL":
  failing to build the request, a transport failure and a parse failure.
  Only an upstream status other than 200 is answered with 400 and a JSON body.

## Model

| member | source | states |
|---|---|---|
| Errors.New | internal/errors/errors.go:18-23 | the record carries the given code and message and no inner error |
| Errors.Wrap | internal/errors/errors.go:25-31 | the record carries the given code, message and inner error unchanged |
| Errors.ErrorString | internal/errors/errors.go:11-16 | the text is exactly the message iff there is no inner error; otherwise it is the message, then ": ", then the inner error's text |
| Errors.WrapNilIsNew | internal/errors/errors.go:11-31 | wrapping a nil error gives the same record as New, and its text is only the message |
| Urls.Normalize | internal/services/url_analyzer_service.go:32-34 | the result always starts with http:// or https://; a string that already does is unchanged; any other string gets "https://" in front |
| Urls.NormalizeIdempotent | internal/utils/url_validator.go:11-13 | normalising twice gives the same string as normalising once |
| Text.TrimLeading | internal/services/url_analyzer_service.go:133 | the result is a suffix of the input; what was removed is all white space; the result does not start with white space |
| Text.TrimTrailing | internal/services/url_analyzer_service.go:133 | the result is a prefix of the input; what was removed is all white space; the result does not end with white space |
| Text.TrimSpace | internal/api/analyze_handler.go:34 | the result neither starts nor ends with white space; it is empty exactly when the input is all white space |
| Text.TrimSpacePadded | internal/api/analyze_handler.go:34 | text with white space only around it is recovered exactly by TrimSpace |
| Text.ContainsExtended | internal/services/url_analyzer_service.go:241-248 | a string that contains a longer needle also contains the needle's prefix |
| Html.AttrValue | internal/services/url_analyzer_service.go:174-177 | the lookup finds a value iff the attribute is present, and the value is that of the first attribute with the key |
| Html.Find | internal/services/url_analyzer_service.go:163 | a selection is no longer than the nodes it is taken from, and every selected element matches the selector |
| Html.FindMembers | internal/services/url_analyzer_service.go:163 | an element is selected iff it is one of the nodes and matches the selector |
| Html.FindNonEmpty | internal/services/url_analyzer_service.go:117 | a selection is non-empty iff some node matches |
| Html.CombinedText | internal/services/url_analyzer_service.go:132 | the text of an empty selection is empty, and every selected element's text fits in the combined text |
| Html.CombinedTextCons | internal/services/url_analyzer_service.go:132 | the combined text is the first element's text followed by the text of the rest |
| Html.CombinedTextAppend | internal/services/url_analyzer_service.go:132 | the text of a selection is the text of its first part followed by that of the rest, in document order |
| UrlValidator.FullMatch | internal/utils/url_validator.go:24-25 | the anchored match of a pattern against the whole string, backtracking over optional and starred atoms; its meaning for the URL pattern is stated by UrlPatternShape |
| UrlValidator.LitsPrefix | internal/utils/url_validator.go:24 | a run of literal atoms matches exactly the inputs that start with those characters, with the rest of the pattern matching the remainder |
| UrlValidator.StarMatchesAll | internal/utils/url_validator.go:24 | a starred character class matches a string iff every character of it is in the class |
| UrlValidator.HostPatternMatches | internal/utils/url_validator.go:24 | the part after "://" matches iff it has at least two characters, the first not white space or one of / $ . ? #, the second not a newline, and no white space after them |
| UrlValidator.UrlPatternShape | internal/utils/url_validator.go:24-25 | the backtracking matcher accepts a string iff it starts with http:// or https:// and what follows has the shape above |
| UrlValidator.IsValidUrl | internal/utils/url_validator.go:10-26 | valid iff the normalised string parses, its host is non-empty and it has the pattern's shape |
| UrlValidator.MissingSchemeMeansHttps | internal/utils/url_validator.go:11-13 | a string without an http or https prefix is judged exactly as the same string with "https://" in front |
| UrlValidator.ShapedUrlValidity | internal/utils/url_validator.go:15-25 | a URL that already has a scheme and the pattern's shape is valid iff url.Parse gives it a non-empty host |
| UrlValidatorExamples.SchemeThenTail | internal/utils/url_validator.go:15-25 | a scheme followed by a tail of the pattern's shape is valid iff url.Parse gives it a host |
| UrlValidatorExamples.EmptyAndBareSchemeRejected | internal/utils/url_validator_test.go:50-59 | "" and "https://" are rejected, whatever url.Parse does |
| UrlValidatorExamples.HttpsUrlAccepted | internal/utils/url_validator_test.go:15-19 | https://example.com passes the pattern, so only the host check can reject it |
| UrlValidatorExamples.HttpUrlAccepted | internal/utils/url_validator_test.go:20-24 | http://example.com passes the pattern, so only the host check can reject it |
| UrlValidatorExamples.UrlWithPathAccepted | internal/utils/url_validator_test.go:25-29 | https://example.com/sample/path/ passes the pattern, so only the host check can reject it |
| UrlValidatorExamples.UrlWithQueryAccepted | internal/utils/url_validator_test.go:30-34 | https://example.com/query?q1=test&q2=1 passes the pattern, so only the host check can reject it |
| UrlValidatorExamples.SubdomainAccepted | internal/utils/url_validator_test.go:35-39 | https://test.example.com passes the pattern, so only the host check can reject it |
| UrlValidatorExamples.MissingProtocolAsWritten | internal/utils/url_validator_test.go:40-44 | example.com is judged exactly like https://example.com |
| UrlValidatorExamples.WrongProtocolAsWritten | internal/utils/url_validator_test.go:45-49 | ftp://example.com is valid iff url.Parse gives https://ftp://example.com a host |
| UrlValidatorExamples.ScriptTagAsWritten | internal/utils/url_validator_test.go:60-64 | https://example.com/<script> passes the pattern, so only the host check can reject it |
| UrlAnalyzerService.StatusDescription | internal/services/url_analyzer_service.go:263-279 | each of 400, 401, 403, 404, 500, 502, 503 and 504 gets its listed text; the generic text is returned exactly for the other codes |
| UrlAnalyzerService.NoDigitConcat | internal/services/url_analyzer_service.go:278 | two digit-free strings joined are digit-free |
| UrlAnalyzerService.ErrorOccurredNoDigit | internal/services/url_analyzer_service.go:278 | the first half of the generic description, "An error occurred", contains no digit |
| UrlAnalyzerService.WhileProcessingNoDigit | internal/services/url_analyzer_service.go:278 | the second half, " while processing the request", contains no digit |
| UrlAnalyzerService.GenericHasNoDigit | internal/services/url_analyzer_service.go:276-278 | the generic description contains no decimal digit |
| UrlAnalyzerService.NoDigitNoNumber | internal/services/url_analyzer_service.go:276-278 | a string without digits contains no text that starts with a digit |
| UrlAnalyzerService.GenericOmitsCode | internal/services/url_analyzer_service.go:276-278 | the generic description does not contain any status code written in decimal |
| UrlAnalyzerService.UnknownCodeNotMentioned | internal/services/url_analyzer_service.go:263-279 | the description of a code without a text of its own never contains that code's number |
| UrlAnalyzerService.DescriptionsDistinct | internal/services/url_analyzer_service.go:264-273 | two different listed codes have different descriptions |
| UrlAnalyzerService.HtmlVersion | internal/services/url_analyzer_service.go:105-128 | the label is HTML5, XHTML or HTML4; HTML5 iff the first html element has lang or a layout tag occurs; XHTML iff neither holds and an html element has xmlns |
| UrlAnalyzerService.AnalyzeHtmlVersion | internal/services/url_analyzer_service.go:105-128 | the attribute scan with early returns gives exactly the heuristic's label |
| UrlAnalyzerService.AnalyzeTitle | internal/services/url_analyzer_service.go:131-134 | the title neither starts nor ends with white space; it is empty when there is no title element, and empty exactly when the titles' text is all white space |
| UrlAnalyzerService.TitleIsTrimmedText | internal/services/url_analyzer_service.go:131-134 | when the joined text of all titles is some text with white space around it, the title is that text |
| UrlAnalyzerService.HeadingTag | internal/services/url_analyzer_service.go:141 | the tag for level n is the two characters 'h' and the digit n, one of h1 .. h6 |
| UrlAnalyzerService.HeadingLevel | internal/services/url_analyzer_service.go:140-141 | every heading tag is the tag of exactly one level from 1 to 6 |
| UrlAnalyzerService.HeadingCounts | internal/services/url_analyzer_service.go:137-149 | the histogram's keys are among h1 .. h6; a tag is present iff it occurs, and then with its positive count |
| UrlAnalyzerService.CountedStep | internal/services/url_analyzer_service.go:140-146 | recording level n only when it occurs extends the levels counted so far by n |
| UrlAnalyzerService.CountedAll | internal/services/url_analyzer_service.go:137-149 | once six levels are counted, the map holds exactly the levels that occur, each with its count |
| UrlAnalyzerService.AnalyzeHeadings | internal/services/url_analyzer_service.go:137-149 | the keys are among h1 .. h6; every value is the level's count and is positive; hN is present iff the page has an hN |
| UrlAnalyzerService.IsLinkAccessible | internal/services/url_analyzer_service.go:217-229 | a probe that fails is never accessible; a probe that answers is accessible iff the status is 200 |
| UrlAnalyzerService.ClassifyHref | internal/services/url_analyzer_service.go:178-199 | javascript: and mailto: links and unparsable hrefs are skipped; every other href is counted; a relative link is resolved against the page URL, and the link is internal iff the resolved host equals the page's host; an external link is probed at the resolved URL's text |
| UrlAnalyzerService.ClassifyAnchor | internal/services/url_analyzer_service.go:174-199 | an anchor without href is skipped; otherwise its first href decides |
| UrlAnalyzerService.AnchorCounts | internal/services/url_analyzer_service.go:173-200 | one anchor adds at most one link; internal iff classified internal; external iff classified external; one link iff not skipped; inaccessible iff external and the probe does not answer 200 |
| UrlAnalyzerService.Tally | internal/services/url_analyzer_service.go:172-200 | internal plus external is at most the number of anchors; inaccessible is at most external |
| UrlAnalyzerService.LinkCountsOf | internal/services/url_analyzer_service.go:152-156 | an unparsable page URL gives (0, 0, 0); otherwise the counts are the fold of the anchor counts over every `a[href]` of the page, in document order, and keep the bounds |
| UrlAnalyzerService.TallyCountsEachOnce | internal/services/url_analyzer_service.go:172-200 | internal plus external is exactly the number of anchors whose href is counted: each is counted once |
| UrlAnalyzerService.TallyAppend | internal/services/url_analyzer_service.go:172-200 | the counters over two runs of anchors are the sums of the counters over each |
| UrlAnalyzerService.TallyOrderIndependent | internal/services/url_analyzer_service.go:172-200 | visiting two runs of anchors in either order gives the same counters |
| UrlAnalyzerService.ProbeAffectsOnlyInaccessible | internal/services/url_analyzer_service.go:190-198 | the internal and external counts do not depend on the probe |
| UrlAnalyzerService.AllReachableNoneInaccessible | internal/services/url_analyzer_service.go:217-229 | when every probe answers 200, no link is inaccessible |
| UrlAnalyzerService.NoneReachableAllInaccessible | internal/services/url_analyzer_service.go:217-229 | when every probe fails, every external link is inaccessible |
| UrlAnalyzerService.CountAnchor | internal/services/url_analyzer_service.go:173-200 | the callback raises the counters by exactly what the anchor contributes |
| UrlAnalyzerService.AnalyzeLinks | internal/services/url_analyzer_service.go:152-214 | the walk over a[href] returns exactly the three counters the fold over the anchors defines |
| UrlAnalyzerService.UsernameFieldMeaning | internal/services/url_analyzer_service.go:240-256 | a form has a user-name field iff one of its inputs has a name or id containing user, email or login; the username selectors add nothing |
| UrlAnalyzerService.UsernameFieldSound | internal/services/url_analyzer_service.go:240-256 | a match of any of the eight selectors gives an input whose name or id contains user, email or login |
| UrlAnalyzerService.UsernameFieldComplete | internal/services/url_analyzer_service.go:240-256 | such an input is matched by one of the eight selectors |
| UrlAnalyzerService.PasswordAloneIsNotLogin | internal/services/url_analyzer_service.go:239-256 | a form without a user-name-like input is not a login form, whatever password field it has |
| UrlAnalyzerService.HasLoginForm | internal/services/url_analyzer_service.go:232-261 | the page has a login form iff one of its form elements has a password input and a user-name input |
| UrlAnalyzerService.AnalyzeLoginForm | internal/services/url_analyzer_service.go:232-261 | the flag is true iff some form has a password input and a user-name input |
| UrlAnalyzerService.LoginFormBeforeStep | internal/services/url_analyzer_service.go:237-258 | after one more form, a login form has been seen iff one had been before or this form is one |
| UrlAnalyzerService.LoginFormBeforeMonotone | internal/services/url_analyzer_service.go:253 | once set, the flag is never cleared by later forms |
| UrlAnalyzerService.LoginFormBeforeAll | internal/services/url_analyzer_service.go:232-261 | after all forms, the flag says whether any form is a login form |
| UrlAnalyzerService.Analysis | internal/services/url_analyzer_service.go:78-101 | the result carries the page URL and, field by field, the version, title, heading histogram, three link counters and login flag the extractors compute; the counters keep their bounds |
| UrlAnalyzerService.AnalyzeUrl | internal/services/url_analyzer_service.go:29-102 | the three failures are wrapped with REQUEST_CREATE_ERROR, URL_FETCH_ERROR and HTML_PARSE_ERROR; a status other than 200 gives an HTTP error with that status and its description; success iff status 200 and the body parses, and then the result is the analysis of the page at the normalised URL |
| UrlAnalyzerService.SuccessfulAnalysis | internal/services/url_analyzer_service.go:32-34 | a successful analysis reports a URL with an http or https scheme, the input itself when it had one, and inaccessible at most external |
| UrlAnalyzerService.StatusErrorIgnoresBody | internal/services/url_analyzer_service.go:58-68 | with a status other than 200 the outcome is a status error that depends only on the status, not on the body, the parser or the probe |
| UrlAnalyzerExamples.TestPageVersion | internal/services/url_analyzer_service_test.go:41 | the test page's version is HTML4 |
| UrlAnalyzerExamples.TestPageTitle | internal/services/url_analyzer_service_test.go:40 | the test page's title is "Test Page" |
| UrlAnalyzerExamples.TestPageHeadings | internal/services/url_analyzer_service_test.go:21-22 | the test page's histogram is h1 once and h2 once |
| UrlAnalyzerExamples.TestPageLoginForm | internal/services/url_analyzer_service_test.go:44 | the test page has a login form |
| UrlAnalyzerExamples.TestPageLinks | internal/services/url_analyzer_service_test.go:42-43 | a page URL onto which "/internal" resolves and that has another host than https://external.com gives one internal and one external link |
| UrlAnalyzerExamples.TestAnalyzeUrl | internal/services/url_analyzer_service_test.go:37-44 | a server answering 200 with the test page yields title "Test Page", HTML4, one internal and one external link and a login form |
| Api.FormValue | internal/api/analyze_handler.go:34 | the first value given for the key, or "" when there is none |
| Api.PlainError | internal/api/analyze_handler.go:30 | a plain-text response with the given status whose body is the message and a newline |
| Api.RequestedUrl | internal/api/analyze_handler.go:34 | the URL the handler works on neither starts nor ends with white space |
| Api.AnalyzeHandler | internal/api/analyze_handler.go:27-69 | status is 200, 400 or 500; a form error gives 400 "Bad Request"; an empty URL gives 400 "URL is required"; an invalid one gives 400 "Invalid URL format"; a JSON status error carries the upstream status and description and the trimmed URL; success iff the URL is valid and the analysis succeeds; 500 iff the analysis fails otherwise, with the text "Failed to analyze URL" |
| Api.RejectedUrlNotFetched | internal/api/analyze_handler.go:40-45 | for a URL the validator rejects, the response is a 400 text that does not depend on the fetch, the parser or the probe |
| Api.UpstreamStatusReported | internal/api/analyze_handler.go:49-61 | a page answering with a status other than 200 is reported as a 400 JSON object with that status, its description and the trimmed URL |
| Api.OnlyTrimmedUrlMatters | internal/api/analyze_handler.go:34-45 | two forms with the same trimmed url value get the same response |
| Api.PaddingIgnored | internal/api/analyze_handler.go:34 | a URL padded with white space is handled exactly like the bare URL |
| Api.SuccessReportsSchemedUrl | internal/api/analyze_handler.go:67-68 | a successful response reports a URL with an http or https scheme, and inaccessible at most external |

## Left out

- Logging (logrus) is left out everywhere. So are the package-level logger and service set by `SetLogger` and `SetURLAnalyzerService`; the handler gets the service's collaborators as a parameter instead.
- The `AnalysisTime` stamp is left out: the clock is not modelled.
- The HTTP client is left out: the timeouts, the context, the User-Agent header and the closing of the body. A fetch is a function from the URL to an outcome.
- The HEAD probe is a deterministic function from the link's text to an outcome. Repeated or timed-out probes are not modelled.
- The goroutine, WaitGroup and channels of analyzeLinks are left out. With its single worker, the link walk is a sequential loop.
- url.Parse, IsAbs, ResolveReference, Hostname and String are uninterpreted.
- The HTML parser is uninterpreted, and so is the selector engine beyond the five selector forms used. The page is given as its elements in document order.
- Response headers and the JSON encoding are left out. A response is a descriptor holding the status and the fields written.
- `HTTPError.Error()` of internal/models/analysis.go:10-12 is not modelled. It turns the status into a single character, not digits. Only the logging, which is left out, formats it.
- Counters are unbounded integers; Go's `int` cannot overflow for page-sized counts.
- Strings are sequences of code points. The body's byte decoding is part of the uninterpreted parser.
- UrlValidatorExamples.HttpsUrlAccepted: does not prove acceptance outright. The host check belongs to the uninterpreted url.Parse, so it reduces validity to that check.
- UrlValidatorExamples.HttpUrlAccepted: does not prove acceptance outright. The host check belongs to the uninterpreted url.Parse, so it reduces validity to that check.
- UrlValidatorExamples.UrlWithPathAccepted: does not prove acceptance outright. The host check belongs to the uninterpreted url.Parse, so it reduces validity to that check.
- UrlValidatorExamples.UrlWithQueryAccepted: does not prove acceptance outright. The host check belongs to the uninterpreted url.Parse, so it reduces validity to that check.
- UrlValidatorExamples.SubdomainAccepted: does not prove acceptance outright. The host check belongs to the uninterpreted url.Parse, so it reduces validity to that check.
