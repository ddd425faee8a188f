/**
 * api.AnalyzeHandler of internal/api/analyze_handler.go: reads the `url` form
 * value, trims it, validates it, runs the analysis and maps its outcome to a
 * response.
 */
module Api {
  import opened Wrappers
  import opened Text
  import opened Urls
  import opened Models
  import Html
  import opened UrlValidator
  import opened UrlAnalyzerService
  import Errors

  /** What Request.ParseForm ends in: an error, or the form values by key. */
  datatype FormOutcome = FormParseFailure(cause: Errors.Cause) | Form(values: map<string, seq<string>>)

  /** Request.FormValue: the first value given for `key`, or "" when there is none. */
  function FormValue(values: map<string, seq<string>>, key: string): (v: string)
    ensures key !in values || values[key] == [] ==> v == ""
    ensures key in values && values[key] != [] ==> v == values[key][0]
  {
    if key in values && values[key] != [] then values[key][0] else ""
  }

  /**
   * What the handler writes: an http.Error text (its body ends in a newline),
   * the JSON object describing an upstream status, or the JSON analysis.
   */
  datatype Response =
    | PlainText(statusCode: int, body: string)
    | JsonHttpError(statusCode: int, error: string, upstreamStatus: int, description: string, url: string)
    | JsonResult(statusCode: int, result: AnalysisResult)

  const StatusBadRequest := 400
  const StatusInternalServerError := 500

  /** http.Error: the message and a newline as plain text. */
  function PlainError(statusCode: int, message: string): (resp: Response)
    ensures resp.PlainText? && resp.statusCode == statusCode
    ensures resp.body == message + "\n"
  {
    PlainText(statusCode, message + "\n")
  }

  /** The trimmed `url` value of a parsed form. */
  function RequestedUrl(values: map<string, seq<string>>): (u: string)
    ensures u == [] || (!IsSpace(u[0]) && !IsSpace(u[|u| - 1]))
  {
    TrimSpace(FormValue(values, "url"))
  }

  /** AnalyzeHandler */
  function AnalyzeHandler<U>(form: FormOutcome, env: Env<U>): (resp: Response)
    ensures resp.statusCode in {200, 400, 500}
    ensures form.FormParseFailure? ==> resp == PlainError(StatusBadRequest, "Bad Request")
    ensures form.Form? && RequestedUrl(form.values) == "" ==> resp == PlainError(StatusBadRequest, "URL is required")
    ensures form.Form? && RequestedUrl(form.values) != "" && !IsValidUrl(RequestedUrl(form.values), env.urls) ==>
      resp == PlainError(StatusBadRequest, "Invalid URL format")
    ensures resp.JsonHttpError? ==>
      && form.Form? && IsValidUrl(resp.url, env.urls) && resp.url == RequestedUrl(form.values)
      && resp.statusCode == StatusBadRequest && resp.error == "Failed to analyze URL"
      && AnalyzeUrl(resp.url, env) == Err(StatusError(Models.HttpError(resp.upstreamStatus, resp.description)))
    ensures resp.JsonResult? <==>
      form.Form? && RequestedUrl(form.values) != "" && IsValidUrl(RequestedUrl(form.values), env.urls)
      && AnalyzeUrl(RequestedUrl(form.values), env).Ok?
    ensures resp.JsonResult? ==> resp.statusCode == 200 && resp.result == AnalyzeUrl(RequestedUrl(form.values), env).value
    ensures resp.statusCode == StatusInternalServerError ==> resp == PlainError(StatusInternalServerError, "Failed to analyze URL")
    ensures resp.statusCode == StatusInternalServerError <==>
      form.Form? && RequestedUrl(form.values) != "" && IsValidUrl(RequestedUrl(form.values), env.urls)
      && AnalyzeUrl(RequestedUrl(form.values), env).Err? && AnalyzeUrl(RequestedUrl(form.values), env).error.ServiceError?
  {
    match form
    case FormParseFailure(_) => PlainError(StatusBadRequest, "Bad Request")
    case Form(values) =>
      var urlStr := RequestedUrl(values);
      if urlStr == "" then PlainError(StatusBadRequest, "URL is required")
      else if !IsValidUrl(urlStr, env.urls) then PlainError(StatusBadRequest, "Invalid URL format")
      else
        match AnalyzeUrl(urlStr, env)
        case Err(StatusError(httpErr)) =>
          JsonHttpError(StatusBadRequest, "Failed to analyze URL", httpErr.statusCode, httpErr.description, urlStr)
        case Err(ServiceError(_)) => PlainError(StatusInternalServerError, "Failed to analyze URL")
        case Ok(result) => JsonResult(200, result)
  }

  /**
   * A URL the validator rejects is never fetched: with the same URL library,
   * the response does not depend on the fetch, the HTML parser or the probe.
   */
  lemma RejectedUrlNotFetched<U>(values: map<string, seq<string>>, urls: UrlLib<U>,
                                 fetch1: string -> FetchOutcome, parse1: seq<bv8> -> Result<Html.Document, Errors.Cause>, head1: string -> ProbeOutcome,
                                 fetch2: string -> FetchOutcome, parse2: seq<bv8> -> Result<Html.Document, Errors.Cause>, head2: string -> ProbeOutcome)
    requires !IsValidUrl(RequestedUrl(values), urls)
    ensures AnalyzeHandler(Form(values), Env(urls, fetch1, parse1, head1)) == AnalyzeHandler(Form(values), Env(urls, fetch2, parse2, head2))
    ensures AnalyzeHandler(Form(values), Env(urls, fetch1, parse1, head1)).PlainText?
    ensures AnalyzeHandler(Form(values), Env(urls, fetch1, parse1, head1)).statusCode == StatusBadRequest
  {
  }

  /**
   * A page that answers with a status other than 200 is reported as a JSON
   * object with status 400 carrying the upstream status and its description.
   */
  lemma UpstreamStatusReported<U>(values: map<string, seq<string>>, env: Env<U>)
    requires RequestedUrl(values) != "" && IsValidUrl(RequestedUrl(values), env.urls)
    requires env.fetch(Normalize(RequestedUrl(values))).Fetched?
    requires env.fetch(Normalize(RequestedUrl(values))).statusCode != StatusOK
    ensures var status := env.fetch(Normalize(RequestedUrl(values))).statusCode;
      AnalyzeHandler(Form(values), env) ==
        JsonHttpError(StatusBadRequest, "Failed to analyze URL", status, StatusDescription(status), RequestedUrl(values))
  {
  }

  /** The handler sees the form only through the trimmed `url` value. */
  lemma OnlyTrimmedUrlMatters<U>(values1: map<string, seq<string>>, values2: map<string, seq<string>>, env: Env<U>)
    requires RequestedUrl(values1) == RequestedUrl(values2)
    ensures AnalyzeHandler(Form(values1), env) == AnalyzeHandler(Form(values2), env)
  {
  }

  /** A URL padded with white space is handled exactly like the bare URL. */
  lemma PaddingIgnored<U>(values: map<string, seq<string>>, pre: string, u: string, suf: string, env: Env<U>)
    requires AllSpace(pre) && AllSpace(suf)
    requires u == [] || (!IsSpace(u[0]) && !IsSpace(u[|u| - 1]))
    ensures AnalyzeHandler(Form(values["url" := [pre + u + suf]]), env) == AnalyzeHandler(Form(values["url" := [u]]), env)
  {
    var padded, bare := values["url" := [pre + u + suf]], values["url" := [u]];
    assert FormValue(padded, "url") == pre + u + suf;
    assert FormValue(bare, "url") == [] + u + [];
    TrimSpacePadded(pre, u, suf);
    TrimSpacePadded([], u, []);
    OnlyTrimmedUrlMatters(padded, bare, env);
  }

  /** A successful response reports the URL with an http or https scheme, and consistent counters. */
  lemma SuccessReportsSchemedUrl<U>(form: FormOutcome, env: Env<U>)
    requires AnalyzeHandler(form, env).JsonResult?
    ensures var r := AnalyzeHandler(form, env).result;
      HasHttpScheme(r.url) && 0 <= r.inaccessibleLinks <= r.externalLinks
  {
    SuccessfulAnalysis(RequestedUrl(form.values), env);
  }
}
