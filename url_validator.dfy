/**
 * utils.IsValidURL: scheme normalisation, the parsed-host check and the
 * regular expression ^https?://[^\s/$.?#].[^\s]*$ of internal/utils/url_validator.go.
 */
module UrlValidator {
  import opened Wrappers
  import opened Text
  import opened Urls

  /** RE2's `\s`: [\t\n\f\r ]. */
  predicate IsRegexSpace(c: char)
  {
    c == '\t' || c == '\n' || c == '\U{000C}' || c == '\r' || c == ' '
  }

  /** The character classes of the pattern: [^\s/$.?#], `.` and [^\s]. */
  datatype CharClass = HostStart | AnyButNewline | NonSpace

  predicate InClass(k: CharClass, c: char)
  {
    match k
    case HostStart => !IsRegexSpace(c) && c !in "/$.?#"
    case AnyButNewline => c != '\n'
    case NonSpace => !IsRegexSpace(c)
  }

  /** One item of a pattern: a literal, an optional literal, one class character, a class repeated. */
  datatype Atom = Lit(c: char) | Opt(c: char) | One(k: CharClass) | Star(k: CharClass)

  /** Whether the pattern `p`, anchored at both ends, matches the whole of `s` (with backtracking). */
  predicate FullMatch(p: seq<Atom>, s: string)
    decreases |s|, |p|
  {
    if p == [] then s == []
    else
      match p[0]
      case Lit(c) => |s| > 0 && s[0] == c && FullMatch(p[1..], s[1..])
      case Opt(c) => (|s| > 0 && s[0] == c && FullMatch(p[1..], s[1..])) || FullMatch(p[1..], s)
      case One(k) => |s| > 0 && InClass(k, s[0]) && FullMatch(p[1..], s[1..])
      case Star(k) => FullMatch(p[1..], s) || (|s| > 0 && InClass(k, s[0]) && FullMatch(p, s[1..]))
  }

  /** A run of literal characters. */
  function Lits(w: string): (p: seq<Atom>)
    ensures |p| == |w|
  {
    if w == [] then [] else [Lit(w[0])] + Lits(w[1..])
  }

  /** [^\s/$.?#].[^\s]* : what the pattern asks for after the "://". */
  const HostPattern: seq<Atom> := [One(HostStart), One(AnyButNewline), Star(NonSpace)]

  /** ^https?://[^\s/$.?#].[^\s]*$ */
  const UrlPattern: seq<Atom> := Lits("http") + ([Opt('s')] + (Lits("://") + HostPattern))

  /** What must follow the "://": a host-start character, any character but a newline, then no white space. */
  predicate TailShape(t: string)
  {
    |t| >= 2 && InClass(HostStart, t[0]) && t[1] != '\n'
    && forall i :: 2 <= i < |t| ==> !IsRegexSpace(t[i])
  }

  /** The strings the pattern accepts, described without the pattern. */
  predicate UrlShape(s: string)
  {
    (HasPrefix(s, "http://") && TailShape(s[7..])) || (HasPrefix(s, "https://") && TailShape(s[8..]))
  }

  lemma HasPrefixConcat(s: string, a: string, b: string)
    ensures HasPrefix(s, a + b) <==> HasPrefix(s, a) && HasPrefix(s[|a|..], b)
  {
    if HasPrefix(s, a + b) {
      assert s[..|a|] == (a + b)[..|a|];
      assert s[|a|..][..|b|] == s[..|a| + |b|][|a|..];
    }
    if HasPrefix(s, a) && HasPrefix(s[|a|..], b) {
      assert s[..|a| + |b|] == s[..|a|] + s[|a|..][..|b|];
    }
  }

  /** A prefix check, one character at a time. */
  lemma HasPrefixCons(s: string, w: string)
    requires |w| > 0
    ensures HasPrefix(s, w) <==> |s| > 0 && s[0] == w[0] && HasPrefix(s[1..], w[1..])
  {
    if |s| > 0 && |w| <= |s| {
      assert s[..|w|] == [s[0]] + s[1..][..|w| - 1];
      assert w == [w[0]] + w[1..];
    }
  }

  /** A run of literals consumes exactly that prefix of the input. */
  lemma {:induction false} LitsPrefix(w: string, q: seq<Atom>, s: string)
    ensures FullMatch(Lits(w) + q, s) <==> HasPrefix(s, w) && FullMatch(q, s[|w|..])
    decreases |w|
  {
    if w == [] {
      assert Lits(w) + q == q;
      assert HasPrefix(s, w);
    } else {
      var p := Lits(w) + q;
      assert p[0] == Lit(w[0]) && p[1..] == Lits(w[1..]) + q;
      HasPrefixCons(s, w);
      if |s| > 0 {
        LitsPrefix(w[1..], q, s[1..]);
        if |w| <= |s| {
          assert s[1..][|w| - 1..] == s[|w|..];
        }
      }
    }
  }

  lemma {:induction false} StarMatchesAll(k: CharClass, s: string)
    ensures FullMatch([Star(k)], s) <==> forall i :: 0 <= i < |s| ==> InClass(k, s[i])
    decreases |s|
  {
    assert [Star(k)][1..] == [];
    if s != [] {
      StarMatchesAll(k, s[1..]);
      assert forall i :: 1 <= i < |s| ==> s[i] == s[1..][i - 1];
    }
  }

  lemma HostPatternMatches(t: string)
    ensures FullMatch(HostPattern, t) <==> TailShape(t)
  {
    var p := HostPattern;
    assert p[1..] == [One(AnyButNewline), Star(NonSpace)];
    assert p[1..][1..] == [Star(NonSpace)];
    if |t| >= 2 {
      StarMatchesAll(NonSpace, t[2..]);
      assert t[1..][1..] == t[2..];
      assert forall i :: 2 <= i < |t| ==> t[i] == t[2..][i - 2];
    }
  }

  /** The backtracking matcher accepts exactly the strings of the described shape. */
  lemma UrlPatternShape(s: string)
    ensures FullMatch(UrlPattern, s) <==> UrlShape(s)
  {
    var after := Lits("://") + HostPattern;
    var optional := [Opt('s')] + after;
    LitsPrefix("http", optional, s);
    HasPrefixConcat(s, "http", "://");
    HasPrefixConcat(s, "http", "s://");
    assert "http" + "://" == "http://";
    assert "http" + "s://" == "https://";
    if HasPrefix(s, "http") {
      var r := s[4..];
      assert optional[0] == Opt('s') && optional[1..] == after;
      assert FullMatch(optional, r) <==>
        (|r| > 0 && r[0] == 's' && FullMatch(after, r[1..])) || FullMatch(after, r);
      LitsPrefix("://", HostPattern, r);
      HasPrefixConcat(r, "s", "://");
      assert "s" + "://" == "s://";
      if |r| > 0 {
        LitsPrefix("://", HostPattern, r[1..]);
        assert HasPrefix(r, "s") <==> r[0] == 's';
        assert r[1..] == r[|"s"|..];
      }
      if |r| >= 3 {
        assert r[3..] == s[7..];
        HostPatternMatches(s[7..]);
      }
      if |r| >= 4 {
        assert r[1..][3..] == s[8..];
        HostPatternMatches(s[8..]);
      }
    }
  }

  /** IsValidURL: after normalisation, url.Parse succeeds with a non-empty host and the pattern matches. */
  function IsValidUrl<U>(urlStr: string, urls: UrlLib<U>): (valid: bool)
    ensures valid <==> HostParses(Normalize(urlStr), urls) && UrlShape(Normalize(urlStr))
  {
    var u := Normalize(urlStr);
    match urls.parse(u)
    case None => false
    case Some(parsed) =>
      if urls.hostname(parsed) == "" then false
      else UrlPatternShape(u); FullMatch(UrlPattern, u)
  }

  /** url.Parse succeeds on `u` with a non-empty host, the part of the check left to net/url. */
  predicate HostParses<U>(u: string, urls: UrlLib<U>)
  {
    urls.parse(u).Some? && urls.hostname(urls.parse(u).value) != ""
  }

  /** A string without a scheme is judged exactly as the same string with "https://" in front. */
  lemma MissingSchemeMeansHttps<U>(s: string, urls: UrlLib<U>)
    requires !HasHttpScheme(s)
    ensures IsValidUrl(s, urls) == IsValidUrl("https://" + s, urls)
  {
    assert HasPrefix("https://" + s, "https://");
  }

  /** A URL that already has an http or https scheme and the pattern's shape is valid exactly when url.Parse gives it a host. */
  lemma ShapedUrlValidity<U>(u: string, urls: UrlLib<U>)
    requires HasHttpScheme(u) && UrlShape(u)
    ensures IsValidUrl(u, urls) <==> HostParses(u, urls)
  {
  }
}
