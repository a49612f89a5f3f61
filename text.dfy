/** String operations the plugins rely on. */
module Text {

  /** Python's `s.startswith(prefix)`. */
  predicate StartsWith(s: string, prefix: string)
  {
    prefix <= s
  }

  /** Python's `sub in s` on strings: a literal, case-sensitive substring test. */
  predicate IsSubstring(sub: string, s: string)
  {
    exists i :: 0 <= i <= |s| - |sub| && sub <= s[i..]
  }

  /** A string that differs from `prefix` at some position within both lengths
      does not start with `prefix`. */
  lemma DifferAt(s: string, prefix: string, k: nat)
    requires k < |s| && k < |prefix| && s[k] != prefix[k]
    ensures !StartsWith(s, prefix)
  {
  }

  /** A common start cancels: `a + r` starts with `a + p` exactly when `r`
      starts with `p`. */
  lemma PrefixCancel(a: string, r: string, p: string)
    ensures StartsWith(a + r, a + p) <==> StartsWith(r, p)
  {
    if StartsWith(a + r, a + p) {
      assert (a + p)[|a|..] == p;
      assert (a + r)[|a|..][..|p|] == r[..|p|];
    }
  }

  /** A `clean_url` that removes a leading "http://" or "https://", the
      normalisation the tests rely on. The real `clean_url` is not part of
      this model; this one is used to state concrete URL facts. */
  function StripScheme(url: string): (r: string)
    ensures |r| <= |url|
    ensures r == url || "http://" + r == url || "https://" + r == url
  {
    if StartsWith(url, "http://") then url[7..]
    else if StartsWith(url, "https://") then url[8..]
    else url
  }

  /** A URL that does not begin with 'h' has no scheme to strip. */
  lemma NoScheme(url: string)
    requires |url| > 0 && url[0] != 'h'
    ensures StripScheme(url) == url
  {
    DifferAt(url, "http://", 0);
    DifferAt(url, "https://", 0);
  }

  /** StripScheme removes a leading "http://". */
  lemma StripHttp(rest: string)
    ensures StripScheme("http://" + rest) == rest
  {
    assert ("http://" + rest)[7..] == rest;
  }
}
