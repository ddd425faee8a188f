/** The expectations of internal/utils/url_validator_test.go, stated against the model. */
module UrlValidatorExamples {
  import opened Text
  import opened Urls
  import opened UrlValidator

  /** An http or https scheme followed by a tail of the pattern's shape: valid exactly when url.Parse gives a host. */
  lemma SchemeThenTail<U>(u: string, scheme: string, rest: string, urls: UrlLib<U>)
    requires scheme == "http://" || scheme == "https://"
    requires u == scheme + rest && TailShape(rest)
    ensures IsValidUrl(u, urls) <==> HostParses(u, urls)
  {
    assert u[..|scheme|] == scheme && u[|scheme|..] == rest;
    assert HasPrefix(u, scheme);
    ShapedUrlValidity(u, urls);
  }


  /** Whatever url.Parse does, "" and "https://" are rejected: the pattern needs two characters after "://". */
  lemma EmptyAndBareSchemeRejected<U>(urls: UrlLib<U>)
    ensures !IsValidUrl("", urls)
    ensures !IsValidUrl("https://", urls)
  {
    assert !HasPrefix("", "http://") && !HasPrefix("", "https://");
    assert Normalize("") == "https://";
    assert HasPrefix("https://", "https://");
    assert Normalize("https://") == "https://";
    assert !HasPrefix("https://", "http://") by {
      assert "https://"[..7] != "http://" by { assert "https://"[4] == 's'; }
    }
  }

  /** Test case "HTTPS URL": https://example.com passes the pattern, so it is valid exactly when url.Parse gives it a host. */
  lemma HttpsUrlAccepted<U>(u: string, rest: string, urls: UrlLib<U>)
    requires rest == "example.com"
    requires u == "https://" + rest
    ensures IsValidUrl(u, urls) <==> HostParses(u, urls)
  {
    assert TailShape(rest);
    SchemeThenTail(u, "https://", rest, urls);
  }

  /** Test case "HTTP URL": http://example.com passes the pattern, so it is valid exactly when url.Parse gives it a host. */
  lemma HttpUrlAccepted<U>(u: string, rest: string, urls: UrlLib<U>)
    requires rest == "example.com"
    requires u == "http://" + rest
    ensures IsValidUrl(u, urls) <==> HostParses(u, urls)
  {
    assert TailShape(rest);
    SchemeThenTail(u, "http://", rest, urls);
  }

  /** Test case "URL with path": https://example.com/sample/path/ passes the pattern, so it is valid exactly when url.Parse gives it a host. */
  lemma UrlWithPathAccepted<U>(u: string, rest: string, urls: UrlLib<U>)
    requires rest == "example.com/sample/path/"
    requires u == "https://" + rest
    ensures IsValidUrl(u, urls) <==> HostParses(u, urls)
  {
    assert TailShape(rest);
    SchemeThenTail(u, "https://", rest, urls);
  }

  /** Test case "URL with query params": https://example.com/query?q1=test&q2=1 passes the pattern, so it is valid exactly when url.Parse gives it a host. */
  lemma UrlWithQueryAccepted<U>(u: string, rest: string, urls: UrlLib<U>)
    requires rest == "example.com/query?q1=test&q2=1"
    requires u == "https://" + rest
    ensures IsValidUrl(u, urls) <==> HostParses(u, urls)
  {
    assert TailShape(rest);
    SchemeThenTail(u, "https://", rest, urls);
  }

  /** Test case "Subdomain": https://test.example.com passes the pattern, so it is valid exactly when url.Parse gives it a host. */
  lemma SubdomainAccepted<U>(u: string, rest: string, urls: UrlLib<U>)
    requires rest == "test.example.com"
    requires u == "https://" + rest
    ensures IsValidUrl(u, urls) <==> HostParses(u, urls)
  {
    assert TailShape(rest);
    SchemeThenTail(u, "https://", rest, urls);
  }

  /** The test expects "example.com" to be rejected, but the code judges it exactly like "https://example.com". */
  lemma MissingProtocolAsWritten<U>(u: string, urls: UrlLib<U>)
    requires u == "example.com"
    ensures IsValidUrl(u, urls) == IsValidUrl("https://example.com", urls)
  {
    assert !HasHttpScheme(u) by {
      assert u[0] == 'e';
    }
    MissingSchemeMeansHttps(u, urls);
    assert "https://" + u == "https://example.com";
  }

  /**
   * The test expects "ftp://example.com" to be rejected, but the code puts
   * "https://" in front of it, and the result passes the pattern: it is
   * accepted whenever url.Parse gives it a host.
   */
  lemma WrongProtocolAsWritten<U>(u: string, urls: UrlLib<U>)
    requires u == "ftp://example.com"
    ensures IsValidUrl(u, urls) <==> HostParses("https://" + u, urls)
  {
    assert !HasHttpScheme(u) by {
      assert u[0] == 'f';
    }
    assert TailShape(u);
    SchemeThenTail("https://" + u, "https://", u, urls);
  }

  /**
   * The test expects "https://example.com/<script>" to be rejected, but the
   * pattern lets any character other than white space follow the host: it is
   * accepted whenever url.Parse gives it a host.
   */
  lemma ScriptTagAsWritten<U>(u: string, rest: string, urls: UrlLib<U>)
    requires rest == "example.com/<script>"
    requires u == "https://" + rest
    ensures IsValidUrl(u, urls) <==> HostParses(u, urls)
  {
    assert TailShape(rest);
    SchemeThenTail(u, "https://", rest, urls);
  }
}
