/** The public site URL (src/utils/siteUrl.ts): the first non-empty of two
    environment values, with one trailing slash removed. The environment is
    passed in; an unset variable is `None`. */
module SiteUrl {
  import opened Outcomes
  import opened Text

  /** `NEXT_PUBLIC_SITE_URL || SITE_URL || ''`. */
  function Chosen(nextPublicSiteUrl: Option<string>, siteUrl: Option<string>): (env: string)
    ensures Truthy(nextPublicSiteUrl) ==> env == nextPublicSiteUrl.value
    ensures !Truthy(nextPublicSiteUrl) && Truthy(siteUrl) ==> env == siteUrl.value
    ensures !Truthy(nextPublicSiteUrl) && !Truthy(siteUrl) ==> env == ""
  {
    Or(nextPublicSiteUrl, Or(siteUrl, ""))
  }

  /** `env.endsWith('/') ? env.slice(0, -1) : env`, after returning `''` for an
      empty `env`. */
  function TrimOneSlash(env: string): (r: string)
    ensures StartsWith(env, r)
    ensures |env| - 1 <= |r| <= |env|
    ensures EndsWith(env, "/") <==> r + "/" == env
    ensures !EndsWith(env, "/") <==> r == env
  {
    if |env| == 0 then ""
    else if EndsWith(env, "/") then env[..|env| - 1]
    else env
  }

  /** `getSiteURL()`. */
  function GetSiteUrl(nextPublicSiteUrl: Option<string>, siteUrl: Option<string>): (r: string)
    ensures !Truthy(nextPublicSiteUrl) && !Truthy(siteUrl) ==> r == ""
    ensures var env := Chosen(nextPublicSiteUrl, siteUrl);
            StartsWith(env, r) && |env| - 1 <= |r| <= |env|
    ensures var env := Chosen(nextPublicSiteUrl, siteUrl);
            if EndsWith(env, "/") then r + "/" == env else r == env
  {
    TrimOneSlash(Chosen(nextPublicSiteUrl, siteUrl))
  }

  /** Only one slash is removed, so trimming is not idempotent: `x//` gives
      `x/`, which still ends with a slash. */
  lemma OnlyOneSlashRemoved()
    ensures GetSiteUrl(Some("x//"), None) == "x/"
    ensures EndsWith(GetSiteUrl(Some("x//"), None), "/")
    ensures GetSiteUrl(None, Some("https://farm.example/")) == "https://farm.example"
    ensures GetSiteUrl(Some(""), Some("a")) == "a"
  {
    assert EndsWith("x//", "/");
    assert "x//"[..2] == "x/";
    assert EndsWith("https://farm.example/", "/");
  }

  /** Trimming a value that does not end in a slash changes nothing, so a
      result without a trailing slash is a fixed point. */
  lemma TrimFixedPoint(env: string)
    requires !EndsWith(TrimOneSlash(env), "/")
    ensures TrimOneSlash(TrimOneSlash(env)) == TrimOneSlash(env)
  {
  }
}
