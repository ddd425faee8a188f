/** The result and HTTP-status error records of internal/models/analysis.go. */
module Models {

  /** models.HTTPError: the page answered with a status other than 200. */
  datatype HttpError = HttpError(statusCode: int, description: string)

  /**
   * models.AnalysisResult without its AnalysisTime stamp. `headings` maps a
   * heading tag ("h1" .. "h6") to the number of such elements.
   */
  datatype AnalysisResult = AnalysisResult(
    url: string,
    htmlVersion: string,
    title: string,
    headings: map<string, int>,
    internalLinks: int,
    externalLinks: int,
    inaccessibleLinks: int,
    hasLoginForm: bool)
}
