/**
 * The pieces of Go's `strings` and `unicode` packages the analyzer relies on,
 * over strings taken as sequences of Unicode code points.
 */
module Text {

  /** unicode.IsSpace: the code points with the Unicode White_Space property. */
  predicate IsSpace(c: char)
  {
    var n := c as int;
    (9 <= n <= 13) || n == 0x20 || n == 0x85 || n == 0xA0 || n == 0x1680
    || (0x2000 <= n <= 0x200A) || n == 0x2028 || n == 0x2029 || n == 0x202F
    || n == 0x205F || n == 0x3000
  }

  predicate AllSpace(s: string)
  {
    forall i :: 0 <= i < |s| ==> IsSpace(s[i])
  }

  /** strings.HasPrefix */
  predicate HasPrefix(s: string, prefix: string)
  {
    |prefix| <= |s| && s[..|prefix|] == prefix
  }

  /** strings.Contains: `sub` occurs in `s` at some position (case-sensitive). */
  predicate Contains(s: string, sub: string)
    decreases |s|
  {
    HasPrefix(s, sub) || (|s| > 0 && Contains(s[1..], sub))
  }

  /** Every occurrence of a longer needle is also an occurrence of its prefix. */
  lemma {:induction false} ContainsExtended(s: string, sub: string, more: string)
    requires Contains(s, sub + more)
    ensures Contains(s, sub)
    decreases |s|
  {
    if HasPrefix(s, sub + more) {
      assert s[..|sub|] == (sub + more)[..|sub|] == sub;
    } else {
      ContainsExtended(s[1..], sub, more);
    }
  }

  /** The leading white space of `s` removed. */
  function TrimLeading(s: string): (r: string)
    ensures |r| <= |s| && r == s[|s| - |r|..]
    ensures AllSpace(s[..|s| - |r|])
    ensures r == [] || !IsSpace(r[0])
    decreases |s|
  {
    if |s| > 0 && IsSpace(s[0]) then
      var r := TrimLeading(s[1..]);
      assert s[1..][|s| - 1 - |r|..] == s[|s| - |r|..];
      assert forall i :: 1 <= i < |s| - |r| ==> s[i] == s[1..][..|s| - 1 - |r|][i - 1];
      r
    else s
  }

  /** The trailing white space of `s` removed. */
  function TrimTrailing(s: string): (r: string)
    ensures |r| <= |s| && r == s[..|r|]
    ensures AllSpace(s[|r|..])
    ensures r == [] || !IsSpace(r[|r| - 1])
    decreases |s|
  {
    if |s| > 0 && IsSpace(s[|s| - 1]) then
      var r := TrimTrailing(s[..|s| - 1]);
      assert s[..|s| - 1][..|r|] == s[..|r|];
      assert forall i :: |r| <= i < |s| - 1 ==> s[i] == s[..|s| - 1][|r|..][i - |r|];
      r
    else s
  }

  /** strings.TrimSpace: leading and trailing white space removed. */
  function TrimSpace(s: string): (r: string)
    ensures |r| <= |s|
    ensures r == [] || (!IsSpace(r[0]) && !IsSpace(r[|r| - 1]))
    ensures r == [] <==> AllSpace(s)
  {
    var left := TrimLeading(s);
    var r := TrimTrailing(left);
    assert r == [] ==> AllSpace(s) by {
      if r == [] {
        assert left == [];
        assert s[..|s| - |left|] == s;
      }
    }
    assert AllSpace(s) ==> left == [] by {
      if left != [] { assert left[0] == s[|s| - |left|]; }
    }
    r
  }

  /** TrimSpace recovers any text that is surrounded by white space only. */
  lemma TrimSpacePadded(pre: string, mid: string, suf: string)
    requires AllSpace(pre) && AllSpace(suf)
    requires mid == [] || (!IsSpace(mid[0]) && !IsSpace(mid[|mid| - 1]))
    ensures TrimSpace(pre + mid + suf) == mid
  {
    var s := pre + mid + suf;
    if mid == [] {
      assert s == pre + suf;
      assert AllSpace(s);
    } else {
      var left := TrimLeading(s);
      assert s[|pre|] == mid[0];
      assert left == mid + suf;
      var r := TrimTrailing(left);
      assert left[|mid| - 1] == mid[|mid| - 1];
      assert r == left[..|mid|] == mid;
    }
  }
}
