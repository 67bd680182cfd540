/** URL normalisation (`normalize_url`): every URL is rewritten into an absolute `https://` URL
    by looking at which of three prefixes it starts with. */
module Normalize {

  const Http := "http://"
  const Https := "https://"
  const Www := "www."

  /** Python's `s.startswith(prefix)`. */
  predicate StartsWith(s: string, prefix: string) {
    prefix <= s
  }

  /** Python's `s.replace(pat, rep, 1)`: the leftmost occurrence of `pat` is replaced by `rep`;
      with no occurrence, `s` comes back as it is. */
  function ReplaceFirst(s: string, pat: string, rep: string): string
    decreases |s|
  {
    if StartsWith(s, pat) then rep + s[|pat|..]
    else if s == [] then s
    else [s[0]] + ReplaceFirst(s[1..], pat, rep)
  }

  /** `normalize_url`: the result always carries the `https://` scheme. */
  function NormalizeUrl(url: string): (r: string)
    ensures StartsWith(r, Https)
  {
    if !(StartsWith(url, Http) || StartsWith(url, Https) || StartsWith(url, Www)) then
      "https://www." + url
    else if StartsWith(url, Http) then
      ReplaceFirst(url, Http, Https)
    else if StartsWith(url, Www) then
      Https + url
    else
      url
  }

  /** The three prefixes tested by `normalize_url` exclude one another. */
  lemma PrefixesExclusive(s: string)
    ensures !(StartsWith(s, Http) && StartsWith(s, Https))
    ensures !(StartsWith(s, Http) && StartsWith(s, Www))
    ensures !(StartsWith(s, Https) && StartsWith(s, Www))
  {
    assert StartsWith(s, Http) ==> s[0] == 'h' && s[4] == ':';
    assert StartsWith(s, Https) ==> s[0] == 'h' && s[4] == 's';
    assert StartsWith(s, Www) ==> s[0] == 'w';
  }

  /** With a count of 1, only the leftmost occurrence of the pattern is replaced: whatever follows
      it, later occurrences included, is kept. */
  lemma {:induction false} ReplaceFirstAt(a: string, pat: string, b: string, rep: string)
    requires forall k :: 0 <= k < |a| ==> !StartsWith((a + pat + b)[k..], pat)
    ensures ReplaceFirst(a + pat + b, pat, rep) == a + rep + b
  {
    var s := a + pat + b;
    if a == [] {
      assert s == pat + b;
      assert s[..|pat|] == pat;
      assert s[|pat|..] == b;
    } else {
      assert s[0..] == s;
      assert !StartsWith(s, pat);
      assert s[1..] == a[1..] + pat + b;
      forall k | 0 <= k < |a[1..]|
        ensures !StartsWith((a[1..] + pat + b)[k..], pat)
      {
        assert (a[1..] + pat + b)[k..] == s[k + 1..];
      }
      ReplaceFirstAt(a[1..], pat, b, rep);
      assert [a[0]] + (a[1..] + rep + b) == a + rep + b;
    }
  }

  /** A URL with none of the three prefixes gets `https://www.` in front. */
  lemma NormalizeBare(url: string)
    requires !StartsWith(url, Http) && !StartsWith(url, Https) && !StartsWith(url, Www)
    ensures NormalizeUrl(url) == "https://www." + url
  {
  }

  /** `http://` is upgraded to `https://`; the rest of the URL is kept as it is. */
  lemma NormalizeHttp(rest: string)
    ensures NormalizeUrl(Http + rest) == Https + rest
  {
    var u := Http + rest;
    assert StartsWith(u, Http);
    assert u[|Http|..] == rest;
  }

  /** A `www.` host gets the `https://` scheme in front. */
  lemma NormalizeWww(rest: string)
    ensures NormalizeUrl(Www + rest) == "https://www." + rest
  {
    var u := Www + rest;
    assert StartsWith(u, Www);
    PrefixesExclusive(u);
  }

  /** An `https://` URL is returned unchanged. */
  lemma NormalizeHttps(url: string)
    requires StartsWith(url, Https)
    ensures NormalizeUrl(url) == url
  {
    PrefixesExclusive(url);
  }

  /** Normalising twice gives what normalising once gives. */
  lemma NormalizeIdempotent(url: string)
    ensures NormalizeUrl(NormalizeUrl(url)) == NormalizeUrl(url)
  {
    NormalizeHttps(NormalizeUrl(url));
  }

  /** The URLs that normalisation leaves alone are exactly the `https://` ones. */
  lemma NormalizeFixedPoints(url: string)
    ensures NormalizeUrl(url) == url <==> StartsWith(url, Https)
  {
    if StartsWith(url, Https) {
      NormalizeHttps(url);
    }
  }
}
