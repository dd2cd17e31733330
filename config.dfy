/**
  The checks the `MatomoTracker` constructor makes before it stores its
  configuration, and the one-time choice of the HTTPS or HTTP agent.
 */
module Config {
  import opened Wrappers
  import opened JsValues

  /** The three `assert.ok` failures the constructor can raise, in the order it checks them. */
  datatype ConfigError =
    | SiteIdRequired      // 'Matomo siteId required.'
    | TrackerUrlRequired  // 'Matomo tracker URL required, ...'
    | TrackerUrlInvalid   // 'A tracker URL must end with "matomo.php" or "piwik.php"'

  /** `s.startsWith(prefix)`. */
  predicate StartsWith(s: string, prefix: string)
  {
    |prefix| <= |s| && s[..|prefix|] == prefix
  }

  /** `s.endsWith(suffix)`. */
  predicate EndsWith(s: string, suffix: string)
  {
    |suffix| <= |s| && s[|s| - |suffix|..] == suffix
  }

  lemma StartsWithIff(s: string, prefix: string)
    ensures StartsWith(s, prefix) <==> exists rest :: prefix + rest == s
  {
    if StartsWith(s, prefix) {
      assert prefix + s[|prefix|..] == s;
    }
  }

  lemma EndsWithIff(s: string, suffix: string)
    ensures EndsWith(s, suffix) <==> exists front :: front + suffix == s
  {
    if EndsWith(s, suffix) {
      assert s[..|s| - |suffix|] + suffix == s;
    }
    if exists front :: front + suffix == s {
      var front :| front + suffix == s;
      assert s[|s| - |suffix|..] == suffix;
    }
  }

  /** `siteId && (typeof siteId === 'number' || typeof siteId === 'string')`. */
  predicate ValidSiteId(siteId: Value)
  {
    Truthy(siteId) && (siteId.Num? || siteId.Str?)
  }

  /** The endpoint names the URL check accepts. */
  predicate KnownEndpoint(url: string)
  {
    EndsWith(url, "matomo.php") || EndsWith(url, "piwik.php")
  }

  /**
    The constructor's assertions, in order. It succeeds, yielding the tracker
    URL unchanged, exactly when the site id is a non-zero number or a
    non-empty string, the tracker URL is a non-empty string, and either the
    URL check is bypassed by a truthy `noURLValidation` or the URL ends in
    `matomo.php` or `piwik.php`; otherwise it fails with the first violated one.
   */
  function Validate(siteId: Value, trackerUrl: Value, noURLValidation: Value): (r: Result<string, ConfigError>)
    ensures r.Success? <==>
      && ((siteId.Num? && siteId.n != 0) || (siteId.Str? && siteId.s != []))
      && trackerUrl.Str? && trackerUrl.s != []
      && (Truthy(noURLValidation)
          || (exists front :: front + "matomo.php" == trackerUrl.s)
          || (exists front :: front + "piwik.php" == trackerUrl.s))
    ensures r.Success? ==> r.value == trackerUrl.s
    ensures r == Failure(SiteIdRequired) <==> !ValidSiteId(siteId)
    ensures r == Failure(TrackerUrlRequired) <==> ValidSiteId(siteId) && !(trackerUrl.Str? && trackerUrl.s != [])
  {
    if !ValidSiteId(siteId) then Failure(SiteIdRequired)
    else if !Truthy(trackerUrl) || !trackerUrl.Str? then Failure(TrackerUrlRequired)
    else
      EndsWithIff(trackerUrl.s, "matomo.php");
      EndsWithIff(trackerUrl.s, "piwik.php");
      if !Truthy(noURLValidation) && !KnownEndpoint(trackerUrl.s) then Failure(TrackerUrlInvalid)
      else Success(trackerUrl.s)
  }

  /** `trackerUrl.startsWith('https')`: the choice between the HTTPS and the HTTP agent. */
  function UsesHttps(trackerUrl: string): (r: bool)
    ensures r <==> exists rest :: "https" + rest == trackerUrl
  {
    StartsWithIff(trackerUrl, "https");
    StartsWith(trackerUrl, "https")
  }

  /** The rejected site ids of the test suite. */
  lemma RejectedSiteIdExamples()
    ensures Validate(Undefined, Undefined, Undefined) == Failure(SiteIdRequired)
    ensures Validate(Null, Undefined, Undefined) == Failure(SiteIdRequired)
    ensures Validate(Obj, Undefined, Undefined) == Failure(SiteIdRequired)
    ensures Validate(Bool(true), Undefined, Undefined) == Failure(SiteIdRequired)
    ensures Validate(Num(1), Undefined, Undefined) == Failure(TrackerUrlRequired)
  {
  }

  /** The tracker URLs of the test suite that name the endpoint. */
  lemma TrackerUrlExamples()
    ensures Validate(Num(1), Str("http://example.com/matomo.php"), Undefined) == Success("http://example.com/matomo.php")
    ensures Validate(Str("siteId"), Str("http://example.com/matomo.php"), Undefined).Success?
  {
    assert EndsWith("http://example.com/matomo.php", "matomo.php");
  }

  /** Another script name is refused unless the URL check is switched off. */
  lemma OtherScriptExamples()
    ensures Validate(Num(1), Str("http://example.com/index.php"), Undefined) == Failure(TrackerUrlInvalid)
    ensures Validate(Num(1), Str("http://example.com/index.php"), Bool(true)).Success?
  {
    assert !EndsWith("http://example.com/index.php", "matomo.php");
    assert !EndsWith("http://example.com/index.php", "piwik.php");
  }

  /** The agent follows the scheme of the tracker URL. */
  lemma AgentExamples()
    ensures UsesHttps("https://example.com/matomo.php") && !UsesHttps("http://example.com/matomo.php")
  {
    var plain := "http://example.com/matomo.php";
    assert plain[..5][4] == ':' != "https"[4];
  }
}
