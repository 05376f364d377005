/** The browser-side traffic classifier `getTrafficSource`: a source and a medium from the
    `utm_medium` and `utm_source` URL parameters, a value read from gtag, and the referrer. */
module TrafficSource {
  import opened Wrappers
  import opened Text

  datatype Traffic = Traffic(source: string, medium: string)

  /** Search engines and social networks the `utm_source` inference recognises (lower case). */
  const OrganicSources: seq<string> := ["google", "bing", "yahoo", "duckduckgo"]
  const SocialSources: seq<string> := ["facebook", "instagram", "twitter", "linkedin", "pinterest"]

  /** The medium inferred from a `utm_source` value, ignoring case; '' when it is not recognised. */
  function InferredMedium(source: string): (m: string)
    ensures m == "organic" <==> Lower(source) in OrganicSources
    ensures m == "social" <==> Lower(source) !in OrganicSources && Lower(source) in SocialSources
    ensures m == "" <==> Lower(source) !in OrganicSources && Lower(source) !in SocialSources
  {
    if Lower(source) in OrganicSources then "organic"
    else if Lower(source) in SocialSources then "social"
    else ""
  }

  /** "direct" names no search engine and no social network. */
  lemma DirectNotInferred()
    ensures InferredMedium("direct") == ""
  {
    assert Lower("direct") == "direct";
  }

  /** A referrer rule: the host fragments it looks for, the source and the medium it gives. */
  datatype HostRule = HostRule(needles: seq<string>, source: string, medium: string)

  /** The referrer rules in the order they are tried. */
  const HostRules: seq<HostRule> := [
    HostRule(["google"], "google", "organic"),
    HostRule(["bing"], "bing", "organic"),
    HostRule(["facebook", "fb.com"], "facebook", "social"),
    HostRule(["twitter", "x.com"], "twitter", "social"),
    HostRule(["linkedin"], "linkedin", "social")]

  predicate RuleMatches(rule: HostRule, host: string) {
    exists n :: n in rule.needles && Contains(host, n)
  }

  function RuleMatchesP(host: string): HostRule -> bool {
    (rule: HostRule) => RuleMatches(rule, host)
  }

  /** The referrer classification: the first rule one of whose fragments the host contains,
      otherwise the host itself as a referral. */
  function ClassifyHost(host: string): (t: Traffic)
    ensures FirstIndex(HostRules, RuleMatchesP(host)).Some? ==>
              var rule := HostRules[FirstIndex(HostRules, RuleMatchesP(host)).value];
              t == Traffic(rule.source, rule.medium)
    ensures FirstIndex(HostRules, RuleMatchesP(host)).None? ==> t == Traffic(host, "referral")
  {
    match FirstIndex(HostRules, RuleMatchesP(host))
    case Some(i) => Traffic(HostRules[i].source, HostRules[i].medium)
    case None => Traffic(host, "referral")
  }

  /** `getTrafficSource` as a function of its inputs. `gtagSource` is what `gtag.get` returned,
      '' when gtag is missing or throws; `hostOf` stands for `new URL(...).hostname`, `None` when
      the referrer does not parse. Absent URL parameters are ''. */
  function Classified(utmMedium: string, gtagSource: string, utmSource: string, referrer: string,
                      hostOf: string -> Option<string>): (t: Traffic)
    ensures JsTruthy(utmMedium) ==> t.medium == utmMedium
    ensures JsTruthy(utmSource) ==> t.source == utmSource
    ensures !JsTruthy(utmSource) && JsTruthy(referrer) && hostOf(referrer).Some? ==>
              t.source == ClassifyHost(hostOf(referrer).value).source
    ensures !JsTruthy(utmSource) && (!JsTruthy(referrer) || hostOf(referrer).None?) ==>
              t.source == if JsTruthy(gtagSource) then gtagSource else "direct"
    ensures t.source == "direct" ==> JsTruthy(t.medium)
    ensures !JsTruthy(utmMedium) && JsTruthy(utmSource) ==>
              t.medium == if utmSource == "direct" then "direct" else InferredMedium(utmSource)
    ensures !JsTruthy(utmMedium) && !JsTruthy(utmSource) && JsTruthy(referrer) && hostOf(referrer).Some? ==>
              t == ClassifyHost(hostOf(referrer).value)
    ensures !JsTruthy(utmMedium) && !JsTruthy(utmSource) && (!JsTruthy(referrer) || hostOf(referrer).None?) ==>
              t == if JsTruthy(gtagSource) && gtagSource != "direct" then Traffic(gtagSource, "") else Traffic("direct", "direct")
  {
    DirectNotInferred();
    var medium := if JsTruthy(utmMedium) then utmMedium else "";
    var source := if JsTruthy(gtagSource) then gtagSource else "direct";
    var picked :=
      if JsTruthy(utmSource) then
        Traffic(utmSource, if medium == "" then InferredMedium(utmSource) else medium)
      else if JsTruthy(referrer) && hostOf(referrer).Some? then
        var byHost := ClassifyHost(hostOf(referrer).value);
        Traffic(byHost.source, if medium == "" then byHost.medium else medium)
      else Traffic(source, medium);
    if picked.source == "direct" && picked.medium == "" then Traffic("direct", "direct") else picked
  }

  /** The referrer is consulted only without `utm_source`: with one, the referrer and its
      parsing make no difference. */
  lemma ReferrerIgnoredWithUtmSource(utmMedium: string, gtagSource: string, utmSource: string,
                                     referrer1: string, hostOf1: string -> Option<string>,
                                     referrer2: string, hostOf2: string -> Option<string>)
    requires JsTruthy(utmSource)
    ensures Classified(utmMedium, gtagSource, utmSource, referrer1, hostOf1) ==
            Classified(utmMedium, gtagSource, utmSource, referrer2, hostOf2)
  {
  }

  /** With `utm_source` and no `utm_medium`, the medium depends on the source only up to case. */
  lemma InferenceIgnoresCase(gtagSource: string, source1: string, source2: string, referrer: string,
                             hostOf: string -> Option<string>)
    requires JsTruthy(source1) && JsTruthy(source2) && Lower(source1) == Lower(source2)
    requires source1 != "direct" && source2 != "direct"
    ensures Classified("", gtagSource, source1, referrer, hostOf).medium ==
            Classified("", gtagSource, source2, referrer, hostOf).medium
  {
  }

  /** An unrecognised `utm_source` with no `utm_medium` leaves the medium empty. */
  lemma UnknownSourceNoMedium(gtagSource: string, utmSource: string, referrer: string,
                              hostOf: string -> Option<string>)
    requires JsTruthy(utmSource) && utmSource != "direct"
    requires Lower(utmSource) !in OrganicSources && Lower(utmSource) !in SocialSources
    ensures Classified("", gtagSource, utmSource, referrer, hostOf) == Traffic(utmSource, "")
  {
  }

  /** Rule order matters: any host containing "google" is Google's, whatever else it names
      (google.facebook.com, a linkedin page on a google host). */
  lemma GoogleRuleFirst(host: string)
    requires Contains(host, "google")
    ensures ClassifyHost(host) == Traffic("google", "organic")
  {
    assert "google" in HostRules[0].needles;
    assert RuleMatches(HostRules[0], host);
  }

  /** A host naming both Google and Facebook is Google's. */
  lemma GoogleBeforeFacebook()
    ensures ClassifyHost("google.facebook.com") == Traffic("google", "organic")
  {
    var host := "google.facebook.com";
    assert OccursAt(host, "google", 0);
    GoogleRuleFirst(host);
  }

  /** The host chain of `getTrafficSource`, one test after another. */
  method ClassifyReferrerHost(hostname: string) returns (t: Traffic)
    ensures t == ClassifyHost(hostname)
  {
    var p := RuleMatchesP(hostname);
    assert forall r :: p(r) == RuleMatches(r, hostname);
    if Contains(hostname, "google") {
      assert RuleMatches(HostRules[0], hostname);
      t := Traffic("google", "organic");
    } else if Contains(hostname, "bing") {
      assert RuleMatches(HostRules[1], hostname);
      t := Traffic("bing", "organic");
    } else if Contains(hostname, "facebook") || Contains(hostname, "fb.com") {
      assert RuleMatches(HostRules[2], hostname);
      t := Traffic("facebook", "social");
    } else if Contains(hostname, "twitter") || Contains(hostname, "x.com") {
      assert RuleMatches(HostRules[3], hostname);
      t := Traffic("twitter", "social");
    } else if Contains(hostname, "linkedin") {
      assert RuleMatches(HostRules[4], hostname);
      t := Traffic("linkedin", "social");
    } else {
      assert forall i :: 0 <= i < |HostRules| ==> !RuleMatches(HostRules[i], hostname);
      t := Traffic(hostname, "referral");
    }
  }

  /** `getTrafficSource`: `source` and `medium` updated step by step. */
  method GetTrafficSource(utmMedium: string, gtagSource: string, utmSource: string, referrer: string,
                          hostOf: string -> Option<string>)
    returns (t: Traffic)
    ensures t == Classified(utmMedium, gtagSource, utmSource, referrer, hostOf)
  {
    var source := "direct";
    var medium := "";
    if JsTruthy(utmMedium) {
      medium := utmMedium;
    }
    if JsTruthy(gtagSource) {
      source := gtagSource;
    }
    if JsTruthy(utmSource) {
      source := utmSource;
      if !JsTruthy(medium) {
        if Lower(source) in OrganicSources {
          medium := "organic";
        } else if Lower(source) in SocialSources {
          medium := "social";
        }
      }
    }
    if !JsTruthy(utmSource) && JsTruthy(referrer) {
      var host := hostOf(referrer);
      if host.Some? {
        var byHost := ClassifyReferrerHost(host.value);
        source := byHost.source;
        if !JsTruthy(medium) {
          medium := byHost.medium;
        }
      }
    }
    if source == "direct" && !JsTruthy(medium) {
      medium := "direct";
    }
    t := Traffic(source, medium);
  }
}
