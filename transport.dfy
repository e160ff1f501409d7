/**
 * The transport decision behind `PackageManager::useSsl`: secure transport is
 * used exactly when the configured extension site's URL scheme is `https`.
 */
module Transport {
  import opened Wrappers

  /** The position of the first ':' in `s`, if any. */
  function ColonIndex(s: string): (r: Option<nat>)
    ensures r.Some? ==> r.value < |s| && s[r.value] == ':'
    ensures r.Some? ==> forall j :: 0 <= j < r.value ==> s[j] != ':'
    ensures r.None? ==> forall j :: 0 <= j < |s| ==> s[j] != ':'
  {
    if s == [] then None
    else if s[0] == ':' then Some(0)
    else match ColonIndex(s[1..])
      case None => None
      case Some(i) => Some(i + 1)
  }

  /** The URL's scheme: the non-empty text before its first ':'; a URL without one has none. */
  function Scheme(url: string): Option<string> {
    match ColonIndex(url)
    case Some(i) => if i > 0 then Some(url[..i]) else None
    case None => None
  }

  /** Whether the extension site is reached over secure transport. */
  predicate IsSecure(url: string) {
    Scheme(url) == Some("https")
  }

  /** Secure transport is chosen exactly for URLs that start with "https:". */
  lemma SecureIffHttpsPrefix(url: string)
    ensures IsSecure(url) <==> |url| >= 6 && url[..6] == "https:"
  {
    if |url| >= 6 && url[..6] == "https:" {
      assert forall j :: 0 <= j < 5 ==> url[j] == "https"[j] by {
        assert forall j :: 0 <= j < 6 ==> url[j] == url[..6][j];
      }
      assert url[5] == url[..6][5] == ':';
      assert ColonIndex(url) == Some(5);
      assert url[..5] == "https";
    }
    if IsSecure(url) {
      var i := ColonIndex(url).value;
      assert url[..i] == "https";
      assert i == 5;
      assert url[..6] == url[..5] + [url[5]];
    }
  }

  /** The plain site of the transport test is not secure. */
  lemma PlainSiteNotSecure()
    ensures !IsSecure("http://example.com")
  {
    SecureIffHttpsPrefix("http://example.com");
    assert "http://example.com"[4] != "https:"[4];
  }

  /** The https site of the transport test is secure. */
  lemma HttpsSiteSecure()
    ensures IsSecure("https://example.com")
  {
    SecureIffHttpsPrefix("https://example.com");
    assert "https://example.com"[..6] == "https:";
  }

  /** The per-instance cache of the decision: not yet computed, or computed once and kept. */
  datatype SslCell = Unset | Computed(value: bool)
}
