/** The URL helpers of the email templates (emails/utils/env.ts). The environment variable
    `PUBLIC_SITE_URL` is a parameter: `None` when it is unset. */
module EmailUrls {
  import opened Wrappers
  import opened Text

  const DefaultSiteUrl := "http://localhost:4321"

  /** `getSiteUrl()`: the variable when it is set and non-empty (JavaScript `||` skips the
      empty string), else the local development address. */
  function SiteUrl(env: Option<string>): (r: string)
    ensures r != []
    ensures env.Some? && env.value != "" ==> r == env.value
    ensures env.None? || env.value == "" ==> r == DefaultSiteUrl
  {
    if env.Some? && env.value != "" then env.value else DefaultSiteUrl
  }

  /** `path` with a leading slash added when it has none. */
  function CleanPath(path: string): (r: string)
    ensures StartsWith(r, "/")
    ensures StartsWith(path, "/") ==> r == path
    ensures !StartsWith(path, "/") ==> r == "/" + path
  {
    if StartsWith(path, "/") then path else "/" + path
  }

  /** `createSiteUrl(path = '')`: the base followed by the path, joined by exactly the one
      slash the path may lack. */
  function CreateSiteUrl(env: Option<string>, path: Option<string>): (r: string)
    ensures StartsWith(r, SiteUrl(env))
    ensures |r| > |SiteUrl(env)| && r[|SiteUrl(env)|] == '/'
    ensures StartsWith(path.GetOr(""), "/") ==> r == SiteUrl(env) + path.GetOr("")
    ensures !StartsWith(path.GetOr(""), "/") ==> r == SiteUrl(env) + "/" + path.GetOr("")
  {
    var r := SiteUrl(env) + CleanPath(path.GetOr(""));
    assert r[..|SiteUrl(env)|] == SiteUrl(env);
    r
  }

  /** Adding the slash first changes nothing: `CleanPath` is idempotent. */
  lemma CleanPathIdempotent(env: Option<string>, path: string)
    ensures CreateSiteUrl(env, Some(CleanPath(path))) == CreateSiteUrl(env, Some(path))
  {
  }

  /** The default path gives the site root with its trailing slash. */
  lemma DefaultPathIsRoot(env: Option<string>)
    ensures CreateSiteUrl(env, None) == SiteUrl(env) + "/"
  {
  }

  /** A link that carries a token: the site URL, a path segment that starts with "/", and
      the token. Both token links of the emails have this shape. */
  function TokenUrl(env: Option<string>, segment: string, token: string): (r: string)
    requires StartsWith(segment, "/")
    ensures r == SiteUrl(env) + segment + token
  {
    assert StartsWith(segment + token, "/") by {
      assert (segment + token)[..1] == segment[..1];
    }
    CreateSiteUrl(env, Some(segment + token))
  }

  /** `createUnsubscribeUrl(token)`. */
  function CreateUnsubscribeUrl(env: Option<string>, token: string): (r: string)
    ensures r == SiteUrl(env) + "/unsubscribe/" + token
  {
    TokenUrl(env, "/unsubscribe/", token)
  }

  /** `createConfirmationUrl(token)`. */
  function CreateConfirmationUrl(env: Option<string>, token: string): (r: string)
    ensures r == SiteUrl(env) + "/confirm/" + token
  {
    TokenUrl(env, "/confirm/", token)
  }

  /** `getLogoUrl()`. */
  function LogoUrl(env: Option<string>): (r: string)
    ensures r == SiteUrl(env) + "/logo.svg"
  {
    CreateSiteUrl(env, Some("/logo.svg"))
  }

  /** The token can be read back from a token link, so distinct tokens give distinct
      unsubscribe links and distinct confirmation links. */
  lemma {:induction false} TokenRecoverable(env: Option<string>, segment: string, t1: string, t2: string)
    requires StartsWith(segment, "/")
    ensures TokenUrl(env, segment, t1)[|SiteUrl(env)| + |segment|..] == t1
    ensures TokenUrl(env, segment, t1) == TokenUrl(env, segment, t2) ==> t1 == t2
  {
    SuffixAfter(SiteUrl(env), segment, t1);
    SuffixAfter(SiteUrl(env), segment, t2);
  }

  /** An unsubscribe link is never a confirmation link: they differ right after the slash. */
  lemma UnsubscribeIsNotConfirmation(env: Option<string>, t1: string, t2: string)
    ensures CreateUnsubscribeUrl(env, t1) != CreateConfirmationUrl(env, t2)
  {
    var b := SiteUrl(env);
    assert CreateUnsubscribeUrl(env, t1)[|b| + 1] == 'u';
    assert CreateConfirmationUrl(env, t2)[|b| + 1] == 'c';
  }

  lemma SuffixAfter(b: string, p: string, t: string)
    ensures (b + p + t)[|b| + |p|..] == t
  {
  }
}
