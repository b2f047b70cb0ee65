# Bot detection endpoint, modelled in Dafny

`pages/api/detect_bot.js` is a single Next.js API handler. It answers a POST
carrying `{ user_agent, ip }` with `{ is_bot, isp }`. The answer combines two
signals:

- The User-Agent signal: the lower-cased User-Agent contains one of six
  signature words (`bot`, `scraper`, `crawl`, `spider`, `httpclient`,
  `python`).
- The ISP signal: the ISP name for the IP address is looked up at an
  IP-information service. It is the company name, or else the autonomous-system
  name, or else `"Unknown"`. The signal is set when that name contains
  "Google LLC" or "Microsoft Corporation", ignoring letter case.

Before classifying, the handler does some gatekeeping:

- It sets CORS headers from a three-entry origin allowlist (the CORS protocol
  of the WHATWG Fetch Standard, section 3.2).
- It answers an OPTIONS preflight with an empty 200.
- It rejects any other non-POST method with 405 (section 15.5.6 of RFC 9110).
- It rejects a body that lacks either field with 400.

A failed lookup is swallowed. The request is still classified, with ISP
`"Unknown"` and the ISP signal off.

Files:

- `wrappers.dfy`, module `Wrappers`: `Option`, which stands for an absent
  JavaScript value.
- `text.dfy`, module `Text`: ASCII lower-casing and substring containment
  (`includes`, and `RegExp.test` for a pattern made only of literal
  characters), with the lemmas the classifier needs about them.
- `classifier.dfy`, module `Classifier`: the four classification steps as
  functions, and the lemmas about them. `Classify` is the combined verdict.
- `handler.dfy`, module `Handler`: the request and response records,
  `AllowOrigin`, and the imperative `Handle` method. `Handle` sets `isp` and
  `isScraperIsp` step by step as the handler does. Its postcondition ties each
  outcome to the functions above.

The lookup is an input of type `Lookup`:

- `Failed`: the request threw.
- `NoData`: `data` was falsy.
- `Data(companyName, asnName)`: the two optional names.

`Handle` also returns `queried`, the address the handler would send to the
lookup service. It is `None` whenever no lookup takes place.

The handler also echoes an origin that is the literal string `"null"`, because
that equals its fallback; `Handler.AllowOriginEchoes` states the exact condition.

## Model

| member | source | states |
|---|---|---|
| `Classifier.AnyIncluded` | pages/api/detect_bot.js:40-42 | `some(... includes ...)` is true iff at least one needle occurs in the text |
| `Classifier.IsBotUserAgent` | pages/api/detect_bot.js:39-42 | the User-Agent flag holds iff one of the six signature words occurs in the lower-cased User-Agent |
| `Classifier.UserAgentFlagIff` | pages/api/detect_bot.js:39-42 | the User-Agent flag holds iff the lower-cased User-Agent contains "bot", "scraper", "crawl", "spider", "httpclient" or "python" |
| `Classifier.UserAgentFlagIgnoresCase` | pages/api/detect_bot.js:40-41 | two User-Agents that differ only in letter case get the same flag |
| `Classifier.UpperCaseUserAgentFlag` | pages/api/detect_bot.js:40-41 | upper-casing a User-Agent does not change its flag |
| `Classifier.UserAgentFlagExtension` | pages/api/detect_bot.js:39-42 | a flagged User-Agent stays flagged with any text added before or after it |
| `Classifier.BotWordFlags` | pages/api/detect_bot.js:39-42 | a User-Agent holding "bot" in any letter case, at any position, is flagged |
| `Classifier.GooglebotIsFlagged` | pages/api/detect_bot.js:39-42 | "Mozilla/5.0 compatible; Googlebot/2.1" is flagged |
| `Classifier.BrowserUserAgentNotFlagged` | pages/api/detect_bot.js:39-42 | "Mozilla/5.0" matches no signature |
| `Classifier.Truthy` | pages/api/detect_bot.js:34 | an optional string is truthy iff it is neither absent nor the empty string |
| `Classifier.Or` | pages/api/detect_bot.js:50 | JavaScript's or-operator on an optional string gives v's value when v is truthy and the fallback otherwise; it is non-empty iff v is truthy or the fallback is non-empty |
| `Classifier.IspName` | pages/api/detect_bot.js:50 | the name is the company name if non-empty, else the ASN name if non-empty, else "Unknown"; it is never empty |
| `Classifier.ResolveIsp` | pages/api/detect_bot.js:45-50 | with returned data the ISP is the `IspName` fallback chain over the company and ASN names; without data it stays "Unknown"; it is never empty |
| `Classifier.LowerEach` | pages/api/detect_bot.js:52 | each blocklist entry lower-cased, same length and order |
| `Classifier.IsScraperIsp` | pages/api/detect_bot.js:51-53 | a name is blocked iff the lower-cased form of some blocklist entry occurs in the lower-cased name |
| `Classifier.LowerScraperIsps` | pages/api/detect_bot.js:51-52 | the lower-cased blocklist is exactly "google llc", "microsoft corporation" |
| `Classifier.ScraperIspIff` | pages/api/detect_bot.js:51-53 | the ISP flag holds iff the lower-cased name contains "google llc" or "microsoft corporation" |
| `Classifier.ScraperIspEntriesBlocked` | pages/api/detect_bot.js:51-53 | each blocklist entry, written as in the list, is blocked |
| `Classifier.ScraperIspExtension` | pages/api/detect_bot.js:51-53 | any name extending a blocked name, before or after, is blocked |
| `Classifier.ScraperIspIgnoresCase` | pages/api/detect_bot.js:52 | two names that differ only in letter case get the same ISP flag |
| `Classifier.UnknownIsNotScraper` | pages/api/detect_bot.js:45-53 | the fallback name "Unknown" is never blocked |
| `Classifier.ScraperIspFlag` | pages/api/detect_bot.js:49-53 | the ISP flag is set only when the lookup returned data, and equals the blocklist test on the reported ISP |
| `Classifier.ResidentialIspNotScraper` | pages/api/detect_bot.js:51-53 | "Comcast Cable" is not blocked |
| `Classifier.Classify` | pages/api/detect_bot.js:39-63 | is_bot equals (User-Agent flag OR ISP flag of the reported ISP); a flagged User-Agent gives is_bot whatever the lookup; a lookup without data gives isp "Unknown" and is_bot equal to the User-Agent flag |
| `Classifier.NoNameLikeFailure` | pages/api/detect_bot.js:45-57 | a failed lookup, a falsy response, and data with no names or empty names all give the same verdict |
| `Classifier.ClassifyIgnoresUserAgentCase` | pages/api/detect_bot.js:39-63 | the verdict depends on the User-Agent only up to letter case |
| `Classifier.BrowserOnResidentialIsp` | pages/api/detect_bot.js:39-63 | a plain browser User-Agent on "Comcast Cable" gives is_bot false, isp "Comcast Cable" |
| `Handler.AllowOrigin` | pages/api/detect_bot.js:5-18 | the Allow-Origin value is the origin when allowlisted, and "null" for any other or absent origin; it is never an origin outside the allowlist |
| `Handler.AllowOriginEchoes` | pages/api/detect_bot.js:13-18 | the header equals the origin iff the origin is allowlisted or is the string "null" |
| `Handler.ValidFields` | pages/api/detect_bot.js:33-34 | the body passes iff neither `user_agent` nor `ip` is absent or empty |
| `Handler.IsValidPost` | pages/api/detect_bot.js:28-34 | a request is classified only when it is a POST with a body whose two fields are present and non-empty |
| `Handler.Handle` | pages/api/detect_bot.js:11-69 | every response carries the CORS headers; OPTIONS gets 200 with no body; other non-POST methods get 405; POST with no body gets 500; POST missing or with an empty field gets 400; a valid POST gets 200 with the `Classify` verdict; the lookup is made, for the body's ip, exactly on a valid POST |

## Left out

- The HTTP request to the IP-information service (`axios.get`, with its access token) is not modelled. Its outcome is the `Lookup` input of `Handle` and `Classify`.
- The unused `geoip-lite` import and the `console.error` logging are not modelled. Neither affects the response.
- The framework's `req`/`res` objects, `async`/`await` scheduling and JSON serialisation are not modelled. The response is a returned record; its three CORS headers are record fields rather than a header map.
- Text.Lower: lower-cases only the ASCII letters A-Z. JavaScript's `toLowerCase` maps all of Unicode and can change a string's length; that is not modelled.
- Classifier.IsBotUserAgent: regular expressions are modelled as substring containment. This is exact only because every pattern in the list is made of literal characters.
- Handler.Handle: the body fields are optional strings. A truthy non-string `user_agent` (a number, say) makes `toLowerCase` throw, giving 500; this is not modelled. A non-string company or ASN name is not modelled either.
- Handler.Handle: the only exception path modelled is an absent body, which gives 500. Other runtime exceptions are not modelled.
