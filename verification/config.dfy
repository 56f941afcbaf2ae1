/** The API URL builder of src/config.ts. */
module Config {

  /** `API_BASE_URL`. */
  const ApiBaseUrl: string := "/api"

  predicate StartsWithSlash(path: string)
  {
    |path| > 0 && path[0] == '/'
  }

  /** `getApiUrl(path)`: at most one leading slash stripped, then `/api/` in front. */
  function GetApiUrl(path: string): (url: string)
    ensures ApiBaseUrl + "/" <= url
    ensures |url| == 5 + |path| - (if StartsWithSlash(path) then 1 else 0)
    ensures !StartsWithSlash(path) ==> url[5..] == path
    ensures StartsWithSlash(path) ==> url[5..] == path[1..]
  {
    var cleanPath := if StartsWithSlash(path) then path[1..] else path;
    ApiBaseUrl + "/" + cleanPath
  }

  /** The path a URL built by `GetApiUrl` was built from, leading slash aside. */
  function PathOf(url: string): string
    requires |url| >= 5
  {
    url[5..]
  }

  /** A path with no leading slash is recovered from its URL. */
  lemma PathRoundTrip(path: string)
    requires !StartsWithSlash(path)
    ensures PathOf(GetApiUrl(path)) == path
  {
  }

  /** A leading slash makes no difference. */
  lemma LeadingSlashIgnored(path: string)
    requires !StartsWithSlash(path)
    ensures GetApiUrl("/" + path) == GetApiUrl(path)
  {
    assert ("/" + path)[1..] == path;
  }

  /** Two paths give the same URL exactly when they agree after one leading slash is dropped. */
  lemma SameUrlIffSamePath(p: string, q: string)
    ensures GetApiUrl(p) == GetApiUrl(q) <==>
      (if StartsWithSlash(p) then p[1..] else p) == (if StartsWithSlash(q) then q[1..] else q)
  {
    if GetApiUrl(p) == GetApiUrl(q) {
      assert GetApiUrl(p)[5..] == GetApiUrl(q)[5..];
    }
  }

  /** Only one slash is stripped. */
  lemma OnlyOneSlashStripped()
    ensures GetApiUrl("//x") == "/api//x"
  {
  }
}
