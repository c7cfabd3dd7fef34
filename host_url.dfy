/** The host normalisation that flameKitsuConnector applies to the configured Kitsu host
    before creating a client, in `get_user` and again in `cache_short_loop`. */
module HostUrl {

  /** Python's `s.endswith(suffix)`. */
  predicate EndsWith(s: string, suffix: string) {
    |suffix| <= |s| && s[|s| - |suffix|..] == suffix
  }

  /** The normalisation as written: append `api/` or `/api/` unless the host already ends in
      `/api/`. The second test, for a host ending in `/api`, sits behind the first and is
      never reached. */
  function NormalizeHost(host: string): (r: string)
    ensures EndsWith(r, "/api/")
    ensures |host| <= |r| <= |host| + 5 && r[..|host|] == host
    ensures EndsWith(host, "/api/") <==> r == host
    ensures !EndsWith(host, "/api/") ==> r == host + (if EndsWith(host, "/") then "api/" else "/api/")
  {
    if !EndsWith(host, "/api/") then
      if EndsWith(host, "/") then host + "api/" else host + "/api/"
    else if EndsWith(host, "/api") then
      ApiBranchUnreachable(host);
      assert false;
      host + "/"
    else
      host
  }

  /** No string ends in both `/api/` and `/api`: the `elif` branch is dead code. */
  lemma ApiBranchUnreachable(host: string)
    ensures !(EndsWith(host, "/api/") && EndsWith(host, "/api"))
  {
    if EndsWith(host, "/api/") {
      assert host[|host| - 1] == '/';
    }
  }

  /** Normalising twice is normalising once. */
  lemma NormalizeHostIdempotent(host: string)
    ensures NormalizeHost(NormalizeHost(host)) == NormalizeHost(host)
  {
  }

  /** As written, a host given as `.../api` comes out as `.../api/api/`. */
  lemma ApiSuffixDoubled(prefix: string)
    ensures NormalizeHost(prefix + "/api") == prefix + "/api/api/"
  {
    var h := prefix + "/api";
    assert h[|h| - 1] == 'i';
    assert !EndsWith(h, "/api/") && !EndsWith(h, "/");
    assert h + "/api/" == prefix + "/api/api/";
  }

  /** The normalisation the `elif` branch was meant to give: a host ending in `/api` only
      gains the trailing slash. */
  function NormalizeHostIntended(host: string): (r: string)
    ensures EndsWith(r, "/api/")
    ensures |host| <= |r| <= |host| + 5 && r[..|host|] == host
    ensures EndsWith(host, "/api/") <==> r == host
    ensures EndsWith(host, "/api") ==> r == host + "/"
  {
    if EndsWith(host, "/api/") then
      ApiBranchUnreachable(host);
      host
    else if EndsWith(host, "/api") then
      host + "/"
    else if EndsWith(host, "/") then
      host + "api/"
    else
      host + "/api/"
  }

  /** The intended normalisation differs from the written one only on hosts ending in `/api`. */
  lemma IntendedAgreesElsewhere(host: string)
    ensures !EndsWith(host, "/api") <==> NormalizeHostIntended(host) == NormalizeHost(host)
  {
    if EndsWith(host, "/api") {
      ApiBranchUnreachable(host);
      assert host[|host| - 1] == 'i';
      assert |NormalizeHost(host)| == |host| + 5;
    }
  }

  lemma NormalizeHostIntendedIdempotent(host: string)
    ensures NormalizeHostIntended(NormalizeHostIntended(host)) == NormalizeHostIntended(host)
  {
  }
}
