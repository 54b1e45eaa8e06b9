# twitter-preview server, modelled in Dafny

twitter-preview is a small Express server that makes shareable landing URLs
unfurl as rich social cards. A URL has the shape
`{base}/landing-{slug}/{username}/{id}`. The server classifies every request
to it by its User-Agent:

- a crawler gets a static HTML page whose `<head>` carries Open Graph and
  Twitter Card tags. A crawler is a request whose User-Agent, lower-cased,
  contains one of the signatures `twitterbot`, `facebookexternalhit`,
  `linkedinbot`, `whatsapp`, `telegrambot`, `slackbot`, `discordbot`,
  `googlebot` or `bingbot`;
- anyone else is redirected to the client app with `?preview=landing-…`.

Three JSON endpoints go with it:

- `generate-url` mints a URL with a random six-digit id;
- `preview-data` parses a URL back and reports the card a crawler would see;
- `pre-warm` pretends to fetch a URL with four crawler User-Agents.

`server-clean.js` and `server.js` contain the same logic. They differ in:

- the preview images of their test-data registry;
- JavaScript comments and trailing whitespace outside the page;
- four whitespace-only lines of the HTML page, which `server-clean.js` has and
  `server.js` lacks (server-clean.js:63, 138, 140 and 142);
- the emoji in the startup log (server-clean.js:312-317).

The model is one set of modules parameterised by a
`Registry` value, instantiated with both registries. Everything is pure: a
handler is a function from the request's inputs to the response it sends.

| module | file | models |
|---|---|---|
| `Text` | text.dfy | ASCII case mapping, `includes`, decimal rendering of the id |
| `Classifier` | classifier.dfy | `isBotRequest` and the footer's `userAgent.includes('bot')` label |
| `TestData` | registry.dfy | `testData` and the `indexOf` image lookup with fallback to image 0 |
| `Codec` | codec.dfy | landing paths, and the `preview-data` pattern as a decoder |
| `Resolver` | resolver.dfy | title, description and image for a (slug, username, id) triple |
| `Document` | document.dfy | `generateBotHTML` |
| `Server` | server.dfy | the landing route and the three API endpoints |
| `Instances` | instances.dfy | the two registries and concrete requests against them |

The `## Model` table below mostly cites `server-clean.js`. The page layout rows cite `server.js`, whose layout the model renders. The same code sits in
`server.js` at these lines:

- `testData`: 17-27
- `generateRandomId`: 29-31
- `isBotRequest`: 33-50
- `generateBotHTML`: 52-144
- the landing route: 146-178
- `generate-url`: 184-205
- `preview-data`: 207-235
- `pre-warm`: 237-275

Two facts about the code that the model keeps:

- The values interpolated into the page are not HTML-escaped. A `"` in a
  username reaches the `content` attribute unchanged.
- The URL pattern of `preview-data` is anchored only at the end. Anything at
  all may precede `/landing-`, including other path segments.

## Model

| member | source | states |
|---|---|---|
| `Text.LowerChar` | server-clean.js:51 | `toLowerCase` on one character: A-Z move down by 32, every other character is kept |
| `Text.UpperChar` | server-clean.js:164 | `toUpperCase` on one character: a-z move up by 32, every other character is kept |
| `Text.ToLower` | server-clean.js:51 | `toLowerCase` keeps the length, maps each character, and yields lower-case text |
| `Text.IncludesIffOccurs` | server-clean.js:51 | `s.includes(p)` holds exactly when `p` occurs at some position of `s` |
| `Text.Includes` | server-clean.js:51 | `s.includes(p)` answers true only when `p` occurs at some position of `s` |
| `Text.NatToString` | server-clean.js:209 | the decimal rendering of an id: non-empty, digits only, no leading zero |
| `Text.NatToStringLength` | server-clean.js:32 | a number in [10^k, 10^(k+1)) renders with exactly k+1 digits |
| `Text.DecimalValueOfNatToString` | server-clean.js:209 | the rendering of an id denotes that id, read back digit by digit |
| `Text.NatToStringInjective` | server-clean.js:209 | two ids with the same rendering are the same id |
| `Classifier.PatternsAreLower` | server-clean.js:37-47 | every signature is already lower case, so lower-casing it changes nothing |
| `Classifier.SomePatternIncludedIff` | server-clean.js:50-52 | `some` over the signatures holds exactly when one of them occurs in the lowered User-Agent |
| `Classifier.IsBotRequest` | server-clean.js:36-53 | an empty User-Agent is not a crawler, and a crawler's lower-cased User-Agent contains one of the signatures |
| `Classifier.IsBotRequestIff` | server-clean.js:36-52 | an empty User-Agent is never a crawler; otherwise a crawler iff some signature occurs in it, ignoring ASCII case |
| `Classifier.SignatureMakesBot` | server-clean.js:50-52 | any User-Agent containing a signature, in any case, is a crawler |
| `Classifier.NoSignatureNotBot` | server-clean.js:50-52 | a User-Agent containing no signature is not a crawler |
| `Classifier.DetectionLabel` | server-clean.js:144 | the footer label is "BOT REQUEST" or "HUMAN REQUEST" |
| `Classifier.DetectionLabelIff` | server-clean.js:144 | the label is "BOT REQUEST" iff a lower-case "bot" occurs in the raw User-Agent |
| `Classifier.HumanLabelWithoutBot` | server-clean.js:144 | without a lower-case "bot" the label is "HUMAN REQUEST" |
| `Classifier.TwitterbotIsBot` | server-clean.js:264 | `Twitterbot/1.0` is a crawler |
| `Classifier.FacebookIsBot` | server-clean.js:265 | `facebookexternalhit/1.1` is a crawler |
| `Classifier.LinkedInIsBot` | server-clean.js:266 | `LinkedInBot/1.0` is a crawler, because the test ignores case |
| `Classifier.WhatsAppIsBot` | server-clean.js:267 | `WhatsApp/2.0` is a crawler |
| `Classifier.BrowserIsNotBot` | server-clean.js:49-52 | `Mozilla/5.0` is not a crawler |
| `Classifier.TwitterbotLabelledBot` | server-clean.js:144 | the Twitter crawler's page says "BOT REQUEST" |
| `Classifier.FacebookLabelledHuman` | server-clean.js:144 | Facebook's crawler gets the crawler page, yet its footer says "HUMAN REQUEST" |
| `Classifier.LinkedInLabelledHuman` | server-clean.js:266 | LinkedIn's crawler is a crawler, yet its footer says "HUMAN REQUEST" because its "Bot" is capitalised |
| `Classifier.WhatsAppLabelledHuman` | server-clean.js:267 | WhatsApp's fetcher is a crawler, yet its footer says "HUMAN REQUEST" |
| `TestData.IndexOf` | server-clean.js:160 | `indexOf` is -1 exactly for an absent value; otherwise it is the first position holding the value |
| `TestData.ImageIndex` | server-clean.js:160-161 | the image position is the slug's first position when listed, else 0, and always a valid image position |
| `TestData.ImageIndexOfKnownSlug` | server-clean.js:160-163 | with distinct slugs, the slug at position i selects image i |
| `Codec.SplitLast` | server-clean.js:229 | splitting at the last `/` gives a prefix and a slash-free tail that rebuild the input |
| `Codec.LastSlashAfter` | server-clean.js:229 | the last `/` of `a + "/" + t`, with `t` slash-free, is the one before `t` |
| `Codec.LandingPath` | server-clean.js:187 | `landing-{slug}/{username}/{id}` starts with `landing-`, and with slash-free parts its only two `/` follow the slug and the username |
| `Codec.EncodeUrl` | server-clean.js:209 | a URL built by `generate-url` from non-empty slash-free parts decodes back to those parts, whatever the base URL |
| `Codec.Decode` | server-clean.js:229-236 | every result of the decoder is a match of the pattern with those captures |
| `Codec.DecodeComplete` | server-clean.js:229-236 | every URL ending in `/landing-{s}/{u}/{i}` with non-empty slash-free parts decodes to (s, u, i) |
| `Codec.DecodeIff` | server-clean.js:229-236 | the decoder returns (s, u, i) exactly when the URL matches the pattern with those groups |
| `Codec.DecodeRejects` | server-clean.js:232-234 | a URL the pattern does not match decodes to nothing |
| `Resolver.Title` | server-clean.js:164 | the title is the slug with its first character upper-cased, then " Landing Page" |
| `Resolver.Description` | server-clean.js:165 | the description starts with "Exclusive landing page for ", then the username, then " - ID: " and the id |
| `Resolver.DescriptionMentions` | server-clean.js:165 | the description contains both the username and the id |
| `Resolver.Capitalize` | server-clean.js:164 | `charAt(0).toUpperCase() + slice(1)` keeps the length, upper-cases the first character and keeps the rest |
| `Resolver.Resolve` | server-clean.js:159-165 | the image comes from the registry: for a listed slug, the image at the slug's first position; else image 0 |
| `Resolver.ResolveKnownSlug` | server-clean.js:160-163 | with distinct slugs, slug i gets image i, whatever the username and id |
| `Document.TagLinesCarry` | server-clean.js:64-75 | every card tag appears verbatim in the rendered tag lines |
| `Document.PrologueCarriesTitle` | server-clean.js:57-62 | the head holds the `<title>` element |
| `Document.BodyCarriesDetection` | server-clean.js:143-145 | the body holds the footer's detection line |
| `Document.PageCarriesCard` | server.js:53-143 | the assembled page holds the title element, all twelve card tags and the detection line |
| `Document.GenerateBotHtml` | server.js:52-144 | the crawler page carries its title, every card tag with the given values, and the footer label |
| `Document.CardShowsImage` | server-clean.js:66-73 | a page carrying a card shows its image as both `og:image` and `twitter:image` |
| `Server.UserAgentOf` | server-clean.js:156 | a missing User-Agent reads as the empty string |
| `Server.PreviewLocation` | server-clean.js:187 | the redirect location is `/?preview=` followed by the landing path |
| `Server.HostText` | server-clean.js:205-207 | the Host header as interpolated: its value, or "undefined" when absent |
| `Server.Landing` | server-clean.js:154-189 | a crawler gets the page with the resolved card and the current URL; anyone else gets a redirect to `/?preview=landing-{slug}/{username}/{id}` |
| `Server.LandingWithoutUserAgent` | server-clean.js:156-157 | a request without a User-Agent is always redirected |
| `Server.Port` | server-clean.js:7 | the port is the environment's `PORT` unless it is absent or empty, else 3001 |
| `Server.BaseUrl` | server-clean.js:205-207 | on host `localhost:3001` the base is http on the configured port; on any other host it is https on that host |
| `Server.GenerateRandomId` | server-clean.js:31-33 | the id lies in [100000, 999999] |
| `Server.GenerateUrl` | server-clean.js:197-218 | rejected exactly when the slug or username is missing or empty or the imageIndex is missing; otherwise it echoes the inputs and builds the URL from the base, the slug, the username and a six-digit id |
| `Server.GeneratedUrlDecodes` | server-clean.js:209 | a generated URL ends in six digits and decodes back to its slug, username and an id string that denotes the generated id |
| `Server.PreviewData` | server-clean.js:221-251 | a missing URL gives "URL parameter required"; a URL outside the pattern gives "Invalid URL format"; a success echoes the URL |
| `Server.PreviewDataResolves` | server-clean.js:238-243 | on a matching URL, preview-data reports exactly the title, description and image that the landing route resolves |
| `Server.PreviewAgreesWithLanding` | server-clean.js:238-243 | the crawler page served for the decoded triple carries exactly the card that preview-data reports |
| `Server.PreviewDataRejectsMalformed` | server-clean.js:232-234 | a non-empty URL that does not match the pattern is refused as malformed |
| `Server.GenerateThenPreview` | server-clean.js:209-243 | preview-data on a generated URL reports the slug's card, and its description names the username and the id |
| `Server.PreWarm` | server-clean.js:254-285 | refused exactly when the URL is missing or empty; otherwise it reports success with its fixed message |
| `Server.PrewarmAgentsAreBots` | server-clean.js:263-268 | each of the four simulated User-Agents is classified as a crawler |
| `Server.PrewarmFetchServesCard` | server-clean.js:263-274 | a landing request with any simulated User-Agent gets status 200 and the resolved card |
| `Instances.RegistriesWellFormed` | server-clean.js:18-28 | both registries have an image for every slug and list no slug twice |
| `Instances.ServersDifferOnlyInImages` | server.js:17-27 | the two servers give every triple the same title and description, and images at the same position |
| `Instances.FirstSlugCard` | server-clean.js:160-164 | the first-listed slug gets image 0 and its capitalised title |
| `Instances.QuickprofitsCard` | server-clean.js:19-22 | `quickprofits` is titled "Quickprofits Landing Page" and shows each registry's first image |
| `Instances.FirstSlugLanding` | server-clean.js:173-183 | a crawler requesting the first-listed slug sees image 0 as `og:image` |
| `Instances.QuickprofitsCrawlerLanding` | server-clean.js:154-183 | Facebook's crawler requesting `/landing-quickprofits/novelnet/123456` sees the first placeholder photo as `og:image` |
| `Instances.QuickprofitsLocation` | server-clean.js:187 | the app location for that request is `/?preview=landing-quickprofits/novelnet/123456` |
| `Instances.QuickprofitsBrowserLanding` | server-clean.js:186-188 | a desktop browser making that request is redirected there |

## Left out

- Express itself is not modelled: static files, CORS, JSON body parsing, the `/api/test-data` echo of the registry, and the catch-all route that serves the client app.
- Console logging is not modelled.
- `Math.random` and floating point: the random id takes its draw `floor(random * 900000)` as a parameter.
- The request's protocol, Host header and original URL appear only as the `currentUrl` string the landing route receives. Building that string is not modelled.
- The pre-warm fan-out is not modelled: four Promises, each settling after a 100 ms timer with a fixed result. The reply does not depend on them, and no request is actually sent.
- The pre-warm reply's `timestamp` (a clock reading) is not modelled.
- The pre-warm `catch` branch with status 500 is not modelled. Nothing in its `try` block can throw.
- `Server.Landing`: the redirect's `location` is the string handed to `res.redirect`. Express percent-encodes that string into the `Location` header, so a decoded parameter "a b" is sent as `a%20b`. That encoding is not modelled.
- Percent-decoding of route parameters and query strings is not modelled. Slugs, usernames and ids are the decoded strings.
- Request fields are modelled only as strings or absent. JSON numbers or arrays in `slug`, `username` or `url`, and repeated query parameters, are not modelled.
- Case mapping covers ASCII only. JavaScript's `toLowerCase` and `toUpperCase` also map non-ASCII letters.
- `Document.GenerateBotHtml` renders the layout of `server.js`. The extra blank lines and indentation of `server-clean.js`'s page are not modelled. Its contract states which elements the page contains, not the full text.
- The client app, `test-og.js` and the deployment configuration are not part of this model.
