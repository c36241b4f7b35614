/**
 * The agent's discovery base URL: the configured server URL with any path
 * that starts at `/api/` cut off, or, when there is none, with its trailing
 * slashes removed.
 */
module Discovery {
  import opened Wrappers
  import opened Text

  const ApiMarker: string := "/api/"

  /** The default of the `server_url` configuration entry. */
  const DefaultServerUrl: string := "http://localhost:5000"

  /** `config.get('server_url', ...)`: the configured URL, or the default when it is absent. */
  function ServerUrl(configured: Option<string>): (r: string)
    // a configured URL is taken as it is; without one, the default is already a base URL
    ensures configured.Some? ==> r == configured.value
    ensures configured.None? ==> r == DefaultServerUrl && DiscoveryUrl(r) == r
  {
    DefaultIsBase();
    match configured
    case Some(u) => u
    case None => DefaultServerUrl
  }

  /**
   * The discovery URL. With an `/api/` in the URL it is the text before the
   * first `/api/` (Python's `split('/api/')[0]`); otherwise it is the URL
   * with every trailing `/` removed.
   */
  function DiscoveryUrl(serverUrl: string): (r: string)
    // always a prefix of the configured URL, and never containing `/api/`
    ensures r <= serverUrl
    ensures !Contains(r, ApiMarker)
    // with `/api/` present: cut exactly at its first occurrence
    ensures Contains(serverUrl, ApiMarker) ==>
      OccursAt(serverUrl, ApiMarker, |r|) && forall j: nat :: j < |r| ==> !OccursAt(serverUrl, ApiMarker, j)
    // without it: only `/` characters were removed, and none remains at the end
    ensures !Contains(serverUrl, ApiMarker) ==>
      (forall k :: |r| <= k < |serverUrl| ==> serverUrl[k] == '/') && (r == [] || r[|r| - 1] != '/')
  {
    match IndexOf(serverUrl, ApiMarker)
    case Some(i) =>
      var r := serverUrl[..i];
      NoMarkerBeforeFirst(serverUrl, i);
      r
    case None =>
      var r := RStrip(serverUrl, '/');
      assert r == serverUrl[..|r|];
      NoMarkerInPrefix(serverUrl, |r|);
      r
  }

  /** The text before the first occurrence holds no occurrence. */
  lemma NoMarkerBeforeFirst(s: string, i: nat)
    requires i <= |s|
    requires forall j: nat :: j < i ==> !OccursAt(s, ApiMarker, j)
    ensures !Contains(s[..i], ApiMarker)
  {
    forall j: nat | j <= i && OccursAt(s[..i], ApiMarker, j)
      ensures false
    {
      OccursInPrefix(s, ApiMarker, i, j);
    }
  }

  /** A prefix of a string without the marker has no marker either. */
  lemma NoMarkerInPrefix(s: string, n: nat)
    requires n <= |s|
    requires !Contains(s, ApiMarker)
    ensures !Contains(s[..n], ApiMarker)
  {
    forall j: nat | j <= n && OccursAt(s[..n], ApiMarker, j)
      ensures false
    {
      OccursInPrefix(s, ApiMarker, n, j);
    }
  }

  /** Without `/api/` the derivation is idempotent: the result is its own discovery URL. */
  lemma {:induction false} DiscoveryUrlStable(serverUrl: string)
    requires !Contains(serverUrl, ApiMarker)
    ensures DiscoveryUrl(DiscoveryUrl(serverUrl)) == DiscoveryUrl(serverUrl)
  {
    var r := DiscoveryUrl(serverUrl);
    assert RStrip(r, '/') == r;
  }

  /** The default server URL has no `/api/` and no trailing `/`: it is its own discovery URL. */
  lemma DefaultIsBase()
    ensures DiscoveryUrl(DefaultServerUrl) == DefaultServerUrl
  {
    var u := DefaultServerUrl;
    forall j: nat | j + |ApiMarker| <= |u|
      ensures !OccursAt(u, ApiMarker, j)
    {
      assert u[j..j + 5][0] == u[j] && u[j..j + 5][1] == u[j + 1];
      // the only `/` are the two of `//`, and neither is followed by `a`
      if j < 5 { } else if j < 7 { } else { }
    }
    assert RStrip(DefaultServerUrl, '/') == DefaultServerUrl;
  }
}
