/**
 * The start-page decision, the last-URL slot written on page start, and the
 * hand-off of non-web URL schemes to other apps.
 */
module Navigation {
  import opened Options
  import opened Text

  const BASE_URL: string := "https://pupchat.infy.uk"
  const LOGIN_URL_PATH: string := "/login.php"
  const HOME_URL_PATH: string := "/home.php"

  /** The two pages the app can start on. */
  const LOGIN_URL: string := BASE_URL + LOGIN_URL_PATH
  const HOME_URL: string := BASE_URL + HOME_URL_PATH

  /** A stored URL counts as "logged in" when it names the home page and not the login page. */
  predicate LooksLoggedIn(url: string)
  {
    Contains(url, HOME_URL_PATH) && !Contains(url, LOGIN_URL_PATH)
  }

  /**
   * The page `loadInitialUrl` loads, given the "last_url" preference
   * (`None` when it was never written; it then defaults to the login URL).
   */
  function InitialUrl(lastUrl: Option<string>): (url: string)
    ensures url == HOME_URL || url == LOGIN_URL
  {
    var lastKnownUrl := lastUrl.GetOr(LOGIN_URL);
    if LooksLoggedIn(lastKnownUrl) then HOME_URL else LOGIN_URL
  }

  /** Whether `onPageStarted` writes `url` into the "last_url" preference. */
  predicate IsRememberedPage(url: string)
  {
    Contains(url, HOME_URL_PATH) || Contains(url, LOGIN_URL_PATH)
  }

  /** The "last_url" preference after a page starts loading `url`. */
  function AfterPageStarted(lastUrl: Option<string>, url: string): (r: Option<string>)
    ensures IsRememberedPage(url) ==> r == Some(url)
    ensures !IsRememberedPage(url) ==> r == lastUrl
  {
    if IsRememberedPage(url) then Some(url) else lastUrl
  }

  lemma HomeAndLoginDiffer()
    ensures HOME_URL != LOGIN_URL
  {
    assert |HOME_URL| != |LOGIN_URL|;
  }

  /**
   * The start page is home exactly when a stored URL mentions the home path
   * and not the login path; otherwise (including no stored URL) it is login.
   */
  lemma InitialUrlIsHomeIff(lastUrl: Option<string>)
    ensures InitialUrl(lastUrl) == HOME_URL <==> lastUrl.Some? && LooksLoggedIn(lastUrl.value)
    ensures InitialUrl(lastUrl) == LOGIN_URL <==> !(lastUrl.Some? && LooksLoggedIn(lastUrl.value))
  {
    HomeAndLoginDiffer();
    ContainsSuffix(BASE_URL, LOGIN_URL_PATH);
  }

  /** After a page start on a home URL that does not mention login, the next launch opens home. */
  lemma HomePageStartedThenHome(lastUrl: Option<string>, url: string)
    requires LooksLoggedIn(url)
    ensures InitialUrl(AfterPageStarted(lastUrl, url)) == HOME_URL
  {
  }

  /** After a page start on any URL that mentions the login path, the next launch opens login. */
  lemma LoginPageStartedThenLogin(lastUrl: Option<string>, url: string)
    requires Contains(url, LOGIN_URL_PATH)
    ensures InitialUrl(AfterPageStarted(lastUrl, url)) == LOGIN_URL
  {
  }

  /** Opening the home page itself remembers it, so the next launch opens home. */
  lemma HomeUrlRoundTrip(lastUrl: Option<string>)
    ensures InitialUrl(AfterPageStarted(lastUrl, HOME_URL)) == HOME_URL
  {
    ContainsSuffix(BASE_URL, HOME_URL_PATH);
    assert 'l' in LOGIN_URL_PATH && 'l' !in HOME_URL;
    if Contains(HOME_URL, LOGIN_URL_PATH) {
      ContainedCharacters(HOME_URL, LOGIN_URL_PATH, 'l');
    }
  }

  /** `shouldOverrideUrlLoading`'s test: true means "hand the URL to another app". */
  predicate IsExternalUrl(url: string)
  {
    StartsWith(url, "tel:") || StartsWith(url, "mailto:") || StartsWith(url, "sms:") || StartsWith(url, "geo:")
  }

  /** Whatever follows the scheme, a tel:, mailto:, sms: or geo: link is handed over. */
  lemma ListedSchemesIntercepted(rest: string)
    ensures IsExternalUrl("tel:" + rest) && IsExternalUrl("mailto:" + rest)
    ensures IsExternalUrl("sms:" + rest) && IsExternalUrl("geo:" + rest)
  {
    assert ("tel:" + rest)[..4] == "tel:";
    assert ("mailto:" + rest)[..7] == "mailto:";
    assert ("sms:" + rest)[..4] == "sms:";
    assert ("geo:" + rest)[..4] == "geo:";
  }

  /**
   * The test is an exact, case-sensitive prefix match: other schemes such as
   * intent: and file:, and an upper-case TEL:, stay in the web view.
   */
  lemma UnlistedSchemesNotIntercepted(rest: string)
    ensures !IsExternalUrl("intent:" + rest)
    ensures !IsExternalUrl("file:" + rest)
    ensures !IsExternalUrl("TEL:" + rest)
  {
    assert ("intent:" + rest)[0] == 'i';
    assert ("file:" + rest)[0] == 'f';
    assert ("TEL:" + rest)[0] == 'T';
  }

  /** Web addresses ("http:" and "https:") always stay inside the web view. */
  lemma WebUrlsNotExternal(url: string)
    requires StartsWith(url, "http")
    ensures !IsExternalUrl(url)
  {
    assert url[0] == 'h';
  }
}
