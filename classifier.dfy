/**
 * The bot-classification decision of `pages/api/detect_bot.js`: a User-Agent
 * signature check, the ISP name taken from an IP-information lookup, a
 * blocklist check on that name, and the OR that combines the two signals.
 *
 * The lookup itself (an HTTP request to an IP-information service) is not
 * performed here: its outcome is an input of type `Lookup`.
 */
module Classifier {
  import opened Wrappers
  import opened Text

  /** `needles.some(n => text.includes(n))`: some needle occurs in `text`. */
  function AnyIncluded(text: string, needles: seq<string>): (r: bool)
    ensures r <==> exists k :: 0 <= k < |needles| && Contains(text, needles[k])
    decreases |needles|
  {
    if needles == [] then false
    else if Contains(text, needles[0]) then true
    else
      var rest := AnyIncluded(text, needles[1..]);
      assert forall k :: 1 <= k < |needles| ==> needles[k] == needles[1..][k - 1];
      rest
  }

  // ---------------------------------------------------------------------------
  // Step 1: User-Agent signatures

  /** The six signature regexes; each is a literal lower-case word. */
  const BotPatterns: seq<string> := ["bot", "scraper", "crawl", "spider", "httpclient", "python"]

  /** Some signature occurs in the lower-cased User-Agent. */
  function IsBotUserAgent(userAgent: string): (r: bool)
    ensures r <==> exists k :: 0 <= k < |BotPatterns| && Contains(Lower(userAgent), BotPatterns[k])
  {
    AnyIncluded(Lower(userAgent), BotPatterns)
  }

  /** The User-Agent flag, written out pattern by pattern. */
  lemma UserAgentFlagIff(userAgent: string)
    ensures IsBotUserAgent(userAgent) <==>
      var ua := Lower(userAgent);
      Contains(ua, "bot") || Contains(ua, "scraper") || Contains(ua, "crawl") ||
      Contains(ua, "spider") || Contains(ua, "httpclient") || Contains(ua, "python")
  {
  }

  /** The flag depends on the User-Agent only up to letter case. */
  lemma {:induction false} UserAgentFlagIgnoresCase(a: string, b: string)
    requires SameIgnoringCase(a, b)
    ensures IsBotUserAgent(a) == IsBotUserAgent(b)
  {
    LowerEqualIffSameIgnoringCase(a, b);
  }

  /** In particular, shouting the User-Agent does not change the flag. */
  lemma UpperCaseUserAgentFlag(userAgent: string)
    ensures IsBotUserAgent(Upper(userAgent)) == IsBotUserAgent(userAgent)
  {
    UpperSameIgnoringCase(userAgent);
    UserAgentFlagIgnoresCase(Upper(userAgent), userAgent);
  }

  /** A flagged User-Agent stays flagged whatever text surrounds it. */
  lemma {:induction false} UserAgentFlagExtension(userAgent: string, pre: string, post: string)
    requires IsBotUserAgent(userAgent)
    ensures IsBotUserAgent(pre + userAgent + post)
  {
    var k :| 0 <= k < |BotPatterns| && Contains(Lower(userAgent), BotPatterns[k]);
    LowerConcat(pre + userAgent, post);
    LowerConcat(pre, userAgent);
    ContainsInExtension(Lower(userAgent), BotPatterns[k], Lower(pre), Lower(post));
  }

  /** A User-Agent holding "bot" in any letter case is flagged. */
  lemma {:induction false} BotWordFlags(userAgent: string, i: nat)
    requires i + 3 <= |userAgent| && Lower(userAgent[i..i + 3]) == "bot"
    ensures IsBotUserAgent(userAgent)
  {
    var ua := Lower(userAgent);
    assert userAgent == userAgent[..i] + userAgent[i..i + 3] + userAgent[i + 3..];
    LowerConcat(userAgent[..i] + userAgent[i..i + 3], userAgent[i + 3..]);
    LowerConcat(userAgent[..i], userAgent[i..i + 3]);
    ContainsAt(ua, "bot", i);
    assert Contains(ua, BotPatterns[0]);
  }

  /** The crawler User-Agent of Google's search engine is flagged. */
  lemma GooglebotIsFlagged()
    ensures IsBotUserAgent("Mozilla/5.0 compatible; Googlebot/2.1")
  {
    var ua := "Mozilla/5.0 compatible; Googlebot/2.1";
    assert ua[30..33] == "bot";
    assert Lower(ua[30..33]) == "bot";
    BotWordFlags(ua, 30);
  }

  // ---------------------------------------------------------------------------
  // Step 2: the ISP name from the lookup

  /** What the IP-information request produced. */
  datatype Lookup =
    | Failed   // the request threw (network error, non-2xx status, ...)
    | NoData   // the response carried a falsy `data`
    | Data(companyName: Option<string>, asnName: Option<string>)  // `data.company?.name`, `data.asn?.name`

  /** JavaScript truthiness of an optional string: neither absent (`undefined`/`null`) nor "". */
  function Truthy(v: Option<string>): (r: bool)
    ensures r <==> v != None && v != Some("")
  {
    v.Some? && v.value != ""
  }

  /** `v || fallback` for an optional string. */
  function Or(v: Option<string>, fallback: string): (r: string)
    ensures Truthy(v) ==> r == v.value
    ensures !Truthy(v) ==> r == fallback
    ensures r != "" <==> Truthy(v) || fallback != ""
  {
    if Truthy(v) then v.value else fallback
  }

  /** `company?.name || asn?.name || "Unknown"`. */
  function IspName(companyName: Option<string>, asnName: Option<string>): (isp: string)
    ensures isp != ""
    ensures Truthy(companyName) ==> isp == companyName.value
    ensures !Truthy(companyName) && Truthy(asnName) ==> isp == asnName.value
    ensures !Truthy(companyName) && !Truthy(asnName) ==> isp == "Unknown"
  {
    Or(companyName, Or(asnName, "Unknown"))
  }

  /** The ISP name reported for a lookup outcome: "Unknown" unless the lookup returned data. */
  function ResolveIsp(lookup: Lookup): (isp: string)
    ensures isp != ""
    ensures !lookup.Data? ==> isp == "Unknown"
    ensures lookup.Data? ==> isp == IspName(lookup.companyName, lookup.asnName)
  {
    if lookup.Data? then IspName(lookup.companyName, lookup.asnName) else "Unknown"
  }

  // ---------------------------------------------------------------------------
  // Step 3: the provider blocklist

  /** Providers whose addresses are treated as automated traffic. */
  const ScraperIsps: seq<string> := ["Google LLC", "Microsoft Corporation"]

  /** Every name lower-cased, in order (`botISP.toLowerCase()` for each entry). */
  function LowerEach(names: seq<string>): (r: seq<string>)
    ensures |r| == |names| && forall k :: 0 <= k < |names| ==> r[k] == Lower(names[k])
  {
    seq(|names|, k requires 0 <= k < |names| => Lower(names[k]))
  }

  /** `ScraperIsps.some(b => isp.toLowerCase().includes(b.toLowerCase()))`. */
  function IsScraperIsp(isp: string): (r: bool)
    ensures r <==> exists k :: 0 <= k < |ScraperIsps| && Contains(Lower(isp), Lower(ScraperIsps[k]))
  {
    AnyIncluded(Lower(isp), LowerEach(ScraperIsps))
  }

  lemma LowerScraperIsps()
    ensures LowerEach(ScraperIsps) == ["google llc", "microsoft corporation"]
  {
    assert Lower("Google LLC") == "google llc";
    assert Lower("Microsoft Corporation") == "microsoft corporation";
  }

  /** The blocklist test, written out entry by entry. */
  lemma ScraperIspIff(isp: string)
    ensures IsScraperIsp(isp) <==>
      Contains(Lower(isp), "google llc") || Contains(Lower(isp), "microsoft corporation")
  {
    LowerScraperIsps();
    var names := LowerEach(ScraperIsps);
    if IsScraperIsp(isp) {
      var k :| 0 <= k < |names| && Contains(Lower(isp), names[k]);
    } else {
      assert !Contains(Lower(isp), names[0]) && !Contains(Lower(isp), names[1]);
    }
  }

  /** Each blocklist entry, exactly as written, is itself blocked. */
  lemma ScraperIspEntriesBlocked()
    ensures IsScraperIsp("Google LLC") && IsScraperIsp("Microsoft Corporation")
  {
    LowerScraperIsps();
    ContainsAt(Lower("Google LLC"), "google llc", 0);
    ContainsAt(Lower("Microsoft Corporation"), "microsoft corporation", 0);
    ScraperIspIff("Google LLC");
    ScraperIspIff("Microsoft Corporation");
  }

  /** The test is by substring: any name extending a blocked name is blocked. */
  lemma {:induction false} ScraperIspExtension(isp: string, pre: string, post: string)
    requires IsScraperIsp(isp)
    ensures IsScraperIsp(pre + isp + post)
  {
    var names := LowerEach(ScraperIsps);
    var k :| 0 <= k < |names| && Contains(Lower(isp), names[k]);
    LowerConcat(pre + isp, post);
    LowerConcat(pre, isp);
    ContainsInExtension(Lower(isp), names[k], Lower(pre), Lower(post));
  }

  /** The test ignores letter case. */
  lemma {:induction false} ScraperIspIgnoresCase(a: string, b: string)
    requires SameIgnoringCase(a, b)
    ensures IsScraperIsp(a) == IsScraperIsp(b)
  {
    LowerEqualIffSameIgnoringCase(a, b);
  }

  /** The fallback name is never blocked: it is shorter than every entry. */
  lemma UnknownIsNotScraper()
    ensures !IsScraperIsp("Unknown")
  {
  }

  /** The ISP flag for a lookup outcome: the blocklist test runs only on returned data. */
  function ScraperIspFlag(lookup: Lookup): (r: bool)
    ensures r ==> lookup.Data?
    ensures r == IsScraperIsp(ResolveIsp(lookup))
  {
    UnknownIsNotScraper();
    lookup.Data? && IsScraperIsp(ResolveIsp(lookup))
  }

  // ---------------------------------------------------------------------------
  // Step 4: the combined verdict

  /** The JSON body `{ is_bot, isp }` of a successful classification. */
  datatype Verdict = Verdict(isBot: bool, isp: string)

  /** Classifies a validated request from its User-Agent and the lookup outcome. */
  function Classify(userAgent: string, lookup: Lookup): (v: Verdict)
    ensures v.isp == ResolveIsp(lookup)
    ensures v.isBot == (IsBotUserAgent(userAgent) || IsScraperIsp(v.isp))
    ensures IsBotUserAgent(userAgent) ==> v.isBot
    ensures !lookup.Data? ==> v == Verdict(IsBotUserAgent(userAgent), "Unknown")
  {
    UnknownIsNotScraper();
    Verdict(IsBotUserAgent(userAgent) || ScraperIspFlag(lookup), ResolveIsp(lookup))
  }

  /** A failed lookup, an empty response and a response with no name all classify alike. */
  lemma NoNameLikeFailure(userAgent: string)
    ensures Classify(userAgent, Failed) == Classify(userAgent, NoData)
    ensures Classify(userAgent, Data(None, None)) == Classify(userAgent, Failed)
    ensures Classify(userAgent, Data(Some(""), Some(""))) == Classify(userAgent, Failed)
  {
  }

  /** The verdict depends on the User-Agent only up to letter case. */
  lemma ClassifyIgnoresUserAgentCase(a: string, b: string, lookup: Lookup)
    requires SameIgnoringCase(a, b)
    ensures Classify(a, lookup) == Classify(b, lookup)
  {
    UserAgentFlagIgnoresCase(a, b);
  }

  /** A plain browser User-Agent matches no signature. */
  lemma BrowserUserAgentNotFlagged()
    ensures !IsBotUserAgent("Mozilla/5.0")
  {
    var ua := Lower("Mozilla/5.0");
    assert ua == "mozilla/5.0";
    forall k | 0 <= k < |BotPatterns| ensures !Contains(ua, BotPatterns[k]) {
      MissingFirstCharNotContained(ua, BotPatterns[k]);
    }
  }

  /** A residential ISP's name is not on the blocklist. */
  lemma ResidentialIspNotScraper()
    ensures !IsScraperIsp("Comcast Cable")
  {
    var isp := Lower("Comcast Cable");
    assert isp == "comcast cable";
    LowerScraperIsps();
    var names := LowerEach(ScraperIsps);
    MissingFirstCharNotContained(isp, names[0]);
    if Contains(isp, names[1]) {
      ContainsNoLonger(isp, names[1]);
    }
  }

  /** A plain browser User-Agent from a residential ISP is not a bot. */
  lemma BrowserOnResidentialIsp()
    ensures Classify("Mozilla/5.0", Data(Some("Comcast Cable"), None)) == Verdict(false, "Comcast Cable")
  {
    BrowserUserAgentNotFlagged();
    ResidentialIspNotScraper();
  }
}
