/**
 * The one webhook URL pattern, the start-anchored regular expression
 *   ^https:\/\/(?:.*\.webhook|outlook)\.office(?:365)?\.com
 * written out as string predicates. MatchesPattern says what the expression
 * means; MatchWebhookPattern is the scan that decides it and is proved equal
 * to it. As in Go's regexp syntax, `.` matches any character except a line
 * feed, and nothing is required after `.com`.
 */
module WebhookPattern {

  /** The literal the pattern starts with. */
  const Scheme := "https://"

  predicate StartsWith(s: string, prefix: string) {
    |prefix| <= |s| && s[..|prefix|] == prefix
  }

  /** `\.office(?:365)?\.com` starts at index i. */
  predicate OfficeComAt(s: string, i: nat) {
    i <= |s| && (StartsWith(s[i..], ".office.com") || StartsWith(s[i..], ".office365.com"))
  }

  /** `outlook\.office(?:365)?\.com` starts at index i. */
  predicate OutlookAt(s: string, i: nat) {
    i <= |s| && StartsWith(s[i..], "outlook") && OfficeComAt(s, i + 7)
  }

  /** `\.webhook\.office(?:365)?\.com` starts at index i. */
  predicate WebhookAt(s: string, i: nat) {
    i <= |s| && StartsWith(s[i..], ".webhook") && OfficeComAt(s, i + 8)
  }

  /**
   * The language of the pattern: the scheme, then either `outlook` or some
   * line-feed-free text followed by `.webhook`, then `.office`, an optional
   * `365`, `.com`, and anything at all.
   */
  ghost predicate MatchesPattern(s: string) {
    StartsWith(s, Scheme)
    && (OutlookAt(s, |Scheme|)
        || exists k :: |Scheme| <= k <= |s| && '\n' !in s[|Scheme|..k] && WebhookAt(s, k))
  }

  /** Tries every end of `.*` from index i on, stopping at the first line feed. */
  function ScanWebhook(s: string, i: nat): bool
    requires i <= |s|
    decreases |s| - i
  {
    WebhookAt(s, i) || (i < |s| && s[i] != '\n' && ScanWebhook(s, i + 1))
  }

  lemma {:induction false} ScanWebhookFinds(s: string, i: nat)
    requires i <= |s|
    ensures ScanWebhook(s, i) <==> exists k :: i <= k <= |s| && '\n' !in s[i..k] && WebhookAt(s, k)
    decreases |s| - i
  {
    if WebhookAt(s, i) {
      assert s[i..i] == [];
    } else if i < |s| {
      ScanWebhookFinds(s, i + 1);
      if s[i] == '\n' {
        forall k | i < k <= |s| ensures '\n' in s[i..k] {
          assert s[i..k][0] == '\n';
        }
      } else {
        forall k | i + 1 <= k <= |s| ensures ('\n' in s[i..k]) == ('\n' in s[i + 1..k]) {
          assert s[i..k] == [s[i]] + s[i + 1..k];
        }
      }
    }
  }

  /** Decides the pattern: true exactly for the strings in its language. */
  function MatchWebhookPattern(s: string): (b: bool)
    ensures b <==> MatchesPattern(s)
  {
    if !StartsWith(s, Scheme) then false
    else
      ScanWebhookFinds(s, |Scheme|);
      OutlookAt(s, |Scheme|) || ScanWebhook(s, |Scheme|)
  }

  /** The pattern is anchored only at the start: whatever follows a match still matches. */
  lemma AnySuffixKeepsMatch(s: string, t: string)
    requires MatchesPattern(s)
    ensures MatchesPattern(s + t)
  {
    var u := s + t;
    PrefixKept(s, t, 0, Scheme);
    assert u[0..] == u && s[0..] == s;
    if OutlookAt(s, |Scheme|) {
      PrefixKept(s, t, |Scheme|, "outlook");
      OfficeComPrefix(s, t, |Scheme| + 7);
      assert OutlookAt(u, |Scheme|);
    } else {
      var k :| |Scheme| <= k <= |s| && '\n' !in s[|Scheme|..k] && WebhookAt(s, k);
      assert u[|Scheme|..k] == s[|Scheme|..k];
      PrefixKept(s, t, k, ".webhook");
      OfficeComPrefix(s, t, k + 8);
      assert WebhookAt(u, k);
    }
  }

  lemma PrefixKept(s: string, t: string, i: nat, prefix: string)
    requires i <= |s| && StartsWith(s[i..], prefix)
    ensures StartsWith((s + t)[i..], prefix)
  {
    assert (s + t)[i..][..|prefix|] == s[i..][..|prefix|];
  }

  lemma OfficeComPrefix(s: string, t: string, i: nat)
    requires OfficeComAt(s, i)
    ensures OfficeComAt(s + t, i)
  {
    if StartsWith(s[i..], ".office.com") {
      PrefixKept(s, t, i, ".office.com");
    } else {
      PrefixKept(s, t, i, ".office365.com");
    }
  }

  /** Every webhook host of the form `<sub>.webhook.office[365].com` is accepted, whatever follows. */
  lemma WebhookHostMatches(sub: string, office: string, rest: string)
    requires '\n' !in sub
    requires office == ".office.com" || office == ".office365.com"
    ensures MatchesPattern(Scheme + sub + ".webhook" + office + rest)
  {
    var s := Scheme + sub + ".webhook" + office + rest;
    var k := |Scheme| + |sub|;
    assert s[..|Scheme|] == Scheme;
    assert s[|Scheme|..k] == sub;
    assert s[k..][..8] == ".webhook";
    assert s[k + 8..][..|office|] == office;
    assert WebhookAt(s, k);
  }

  /** `outlook.office.com` and `outlook.office365.com` are accepted, whatever follows. */
  lemma OutlookHostMatches(office: string, rest: string)
    requires office == ".office.com" || office == ".office365.com"
    ensures MatchesPattern(Scheme + "outlook" + office + rest)
  {
    var s := Scheme + "outlook" + office + rest;
    assert s[..|Scheme|] == Scheme;
    assert s[|Scheme|..][..7] == "outlook";
    assert s[|Scheme| + 7..][..|office|] == office;
  }

  /** Any string that does not start with `https://` is rejected, `http://` included. */
  lemma SchemeRequired(s: string)
    requires !StartsWith(s, Scheme)
    ensures !MatchesPattern(s)
  {
  }

  lemma FirstCharDiffers(t: string, prefix: string)
    requires |t| > 0 && |prefix| > 0 && t[0] != prefix[0]
    ensures !StartsWith(t, prefix)
  {
    if |prefix| <= |t| {
      assert t[..|prefix|][0] == t[0];
    }
  }

  /** A line feed before `.webhook` cannot be crossed by `.*`. */
  lemma LineFeedBlocksWebhook()
    ensures !MatchesPattern("https://a\n.webhook.office.com")
  {
    var s := "https://a\n.webhook.office.com";
    assert s[8..][0] == 'a' && s[9..][0] == '\n';
    FirstCharDiffers(s[8..], ".webhook");
    FirstCharDiffers(s[9..], ".webhook");
    FirstCharDiffers(s[8..], "outlook");
    assert !ScanWebhook(s, 8);
    assert !MatchWebhookPattern(s);
  }

  /** A host outside the office domains is rejected even when its path says webhook. */
  lemma ForeignHostRejected()
    ensures !MatchesPattern("https://evil.com/webhook")
  {
    assert !MatchWebhookPattern("https://evil.com/webhook");
  }

  /** `.*` may span a slash: a path segment before `.webhook` still matches. */
  lemma SlashInsideHostPart()
    ensures MatchesPattern("https://a/b.webhook.office.com")
  {
    WebhookHostMatches("a/b", ".office.com", "");
    assert Scheme + "a/b" + ".webhook" + ".office.com" + "" == "https://a/b.webhook.office.com";
  }

  /** Plain http is rejected even for a webhook host. */
  lemma PlainHttpRejected()
    ensures !MatchesPattern("http://x.webhook.office.com")
  {
    var s := "http://x.webhook.office.com";
    assert s[4] != Scheme[4];
    SchemeRequired(s);
  }
}
