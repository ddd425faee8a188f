/**
 * The scheme normalisation shared by the service and the validator, and the
 * interface of Go's net/url, which the model leaves uninterpreted.
 */
module Urls {
  import opened Wrappers
  import opened Text

  /**
   * The operations of net/url the analyzer calls, over an abstract parsed-URL
   * type U: url.Parse (None is a parse error), (*URL).IsAbs,
   * (*URL).ResolveReference (receiver first), (*URL).Hostname and (*URL).String.
   */
  datatype UrlLib<!U> = UrlLib(
    parse: string -> Option<U>,
    isAbs: U -> bool,
    resolve: (U, U) -> U,
    hostname: U -> string,
    render: U -> string)

  predicate HasHttpScheme(s: string)
  {
    HasPrefix(s, "http://") || HasPrefix(s, "https://")
  }

  /** A string without an http:// or https:// prefix gets "https://" put in front. */
  function Normalize(s: string): (r: string)
    ensures HasHttpScheme(r)
    ensures HasHttpScheme(s) ==> r == s
    ensures !HasHttpScheme(s) ==> r == "https://" + s
  {
    if !HasPrefix(s, "http://") && !HasPrefix(s, "https://") then "https://" + s else s
  }

  lemma NormalizeIdempotent(s: string)
    ensures Normalize(Normalize(s)) == Normalize(s)
  {
  }
}
