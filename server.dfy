/**
 * The request handlers: the landing route `GET /landing-:slug/:username/:id`
 * and the JSON endpoints `POST /api/generate-url`, `GET /api/preview-data`
 * and `POST /api/pre-warm`, each a function from the request's inputs to the
 * response it sends.
 */
module Server {
  import opened Wrappers
  import opened Text
  import opened TestData
  import opened Classifier
  import opened Codec
  import opened Resolver
  import opened Document

  /** What the landing route sends: the crawler page (200) or a redirect (302). */
  datatype Response = Page(html: string) | Redirect(location: string) {
    function Status(): nat {
      if Page? then 200 else 302
    }
  }

  /** What an API endpoint sends: a JSON body (200) or `{ error }` with status 400. */
  datatype Reply<T> = Json(body: T) | BadRequest(error: string) {
    function Status(): nat {
      if Json? then 200 else 400
    }
  }

  /** JavaScript truthiness of a request field that is a string or absent. */
  predicate Truthy(field: Option<string>) {
    field.Some? && field.value != ""
  }

  /** `req.get('User-Agent') || ''` */
  function UserAgentOf(header: Option<string>): (userAgent: string)
    ensures Truthy(header) ==> userAgent == header.value
    ensures !Truthy(header) ==> userAgent == ""
  {
    match header
    case Some(s) => s
    case None => ""
  }

  /** The app's root with the `preview` query parameter, which is followed by a landing path. */
  const PreviewQuery := "/?preview="

  /**
   * The location a human is sent to: the app's root, with the landing path
   * (without its leading `/`) as the `preview` parameter.
   */
  function PreviewLocation(slug: string, username: string, id: string): (location: string)
    ensures |location| >= |PreviewQuery| && location[..|PreviewQuery|] == PreviewQuery
    ensures location[|PreviewQuery|..] == LandingPath(slug, username, id)
  {
    PreviewQuery + LandingPath(slug, username, id)
  }

  /**
   * `GET /landing-:slug/:username/:id`. A crawler gets the bot page, whose
   * card carries the resolved metadata and the current URL verbatim; anyone
   * else is redirected to the app with the landing path as `preview`.
   */
  function Landing(reg: Registry, slug: string, username: string, id: string,
                   userAgentHeader: Option<string>, currentUrl: string): (r: Response)
    requires reg.Valid()
    ensures r.Page? <==> IsBotRequest(UserAgentOf(userAgentHeader))
    ensures r.Page? ==>
      var m := Resolve(reg, slug, username, id);
      CarriesCard(r.html, m.title, m.description, m.image, currentUrl, UserAgentOf(userAgentHeader))
    ensures r.Redirect? ==> r.location == PreviewLocation(slug, username, id)
  {
    var userAgent := UserAgentOf(userAgentHeader);
    var isBot := IsBotRequest(userAgent);
    var m := Resolve(reg, slug, username, id);
    if isBot then
      Page(GenerateBotHtml(m.title, m.description, m.image, currentUrl, username, id, userAgent))
    else
      Redirect(PreviewLocation(slug, username, id))
  }

  /** A request without a User-Agent is always redirected. */
  lemma LandingWithoutUserAgent(reg: Registry, slug: string, username: string, id: string, currentUrl: string)
    requires reg.Valid()
    ensures Landing(reg, slug, username, id, None, currentUrl)
         == Redirect(PreviewLocation(slug, username, id))
    ensures Landing(reg, slug, username, id, Some(""), currentUrl)
         == Redirect(PreviewLocation(slug, username, id))
  {
    IsBotRequestIff("");
  }

  // ----- POST /api/generate-url -----

  /** The JSON body of generate-url; `imageIndex` is any JSON value and is only echoed. */
  datatype GenerateRequest<V> = GenerateRequest(slug: Option<string>, username: Option<string>, imageIndex: Option<V>)

  /** `{ url, slug, username, id, imageIndex }` */
  datatype Generated<V> = Generated(url: string, slug: string, username: string, id: nat, imageIndex: V)

  /** `process.env.PORT || 3001`: the environment's value unless it is absent or empty. */
  function Port(env: Option<string>): (port: string)
    ensures Truthy(env) ==> port == env.value
    ensures !Truthy(env) ==> port == "3001"
  {
    if Truthy(env) then env.value else "3001"
  }

  /** `${req.get('host')}`: an absent Host header prints as "undefined". */
  function HostText(host: Option<string>): (text: string)
    ensures host.Some? ==> text == host.value
    ensures host.None? ==> text == "undefined"
  {
    match host
    case Some(h) => h
    case None => "undefined"
  }

  /** The base URL: plain http on the development host, https on any other host. */
  function BaseUrl(host: Option<string>, port: string): (base: string)
    ensures host == Some("localhost:3001") ==> base == "http://localhost:" + port
    ensures host != Some("localhost:3001") ==> base == "https://" + HostText(host)
  {
    if host == Some("localhost:3001") then "http://localhost:" + port else "https://" + HostText(host)
  }

  /**
   * `Math.floor(100000 + Math.random() * 900000)`, with `draw` standing for
   * `Math.floor(Math.random() * 900000)`: a six-digit id.
   */
  function GenerateRandomId(draw: nat): (id: nat)
    requires draw < 900000
    ensures 100000 <= id <= 999999
  {
    100000 + draw
  }

  /**
   * `POST /api/generate-url`: rejects a missing or empty slug or username and a
   * missing imageIndex; otherwise mints an id and echoes the inputs.
   */
  function GenerateUrl<V>(req: GenerateRequest<V>, host: Option<string>, port: string, draw: nat): (r: Reply<Generated<V>>)
    requires draw < 900000
    ensures r.BadRequest? <==> !Truthy(req.slug) || !Truthy(req.username) || req.imageIndex.None?
    ensures r.BadRequest? ==> r.error == "Missing required parameters"
    ensures r.Json? ==>
      && r.body.slug == req.slug.value
      && r.body.username == req.username.value
      && r.body.imageIndex == req.imageIndex.value
      && 100000 <= r.body.id <= 999999
      && r.body.url == EncodeUrl(BaseUrl(host, port), r.body.slug, r.body.username, NatToString(r.body.id))
  {
    if !Truthy(req.slug) || !Truthy(req.username) || req.imageIndex.None? then
      BadRequest("Missing required parameters")
    else
      var randomId := GenerateRandomId(draw);
      var baseUrl := BaseUrl(host, port);
      var url := baseUrl + "/" + LandingPath(req.slug.value, req.username.value, NatToString(randomId));
      Json(Generated(url, req.slug.value, req.username.value, randomId, req.imageIndex.value))
  }

  /**
   * A generated URL ends in a six-digit id, and preview-data's pattern gives
   * back exactly the slug, username and id, provided the slug and username
   * have no `/`: the decoded id denotes the generated number.
   */
  lemma GeneratedUrlDecodes<V>(req: GenerateRequest<V>, host: Option<string>, port: string, draw: nat)
    requires draw < 900000
    requires GenerateUrl(req, host, port, draw).Json?
    requires SlashFree(req.slug.value) && SlashFree(req.username.value)
    ensures var g := GenerateUrl(req, host, port, draw).body;
      && |NatToString(g.id)| == 6
      && Decode(g.url) == Some((g.slug, g.username, NatToString(g.id)))
      && DecimalValue(Decode(g.url).value.2) == g.id
  {
    var g := GenerateUrl(req, host, port, draw).body;
    assert Pow10(5) == 100000 && Pow10(6) == 1000000;
    NatToStringLength(g.id, 5);
    NatToStringIsToken(g.id);
    DecimalValueOfNatToString(g.id);
  }

  // ----- GET /api/preview-data -----

  /** `{ title, description, image, url }` */
  datatype Preview = Preview(title: string, description: string, image: string, url: string)

  /**
   * `GET /api/preview-data?url=...`: decodes the URL with the landing pattern
   * and resolves the card the way the landing route does, written out a second
   * time as in the source.
   */
  function PreviewData(reg: Registry, url: Option<string>): (r: Reply<Preview>)
    requires reg.Valid()
    ensures !Truthy(url) ==> r == BadRequest("URL parameter required")
    ensures Truthy(url) && Decode(url.value).None? ==> r == BadRequest("Invalid URL format")
    ensures r.Json? ==> Truthy(url) && Decode(url.value).Some? && r.body.url == url.value
  {
    if !Truthy(url) then
      BadRequest("URL parameter required")
    else
      match Decode(url.value)
      case None => BadRequest("Invalid URL format")
      case Some((slug, username, id)) =>
        var title := Title(slug);
        var description := Description(username, id);
        var slugIndex := IndexOf(reg.slugs, slug);
        var imageIndex := if slugIndex >= 0 then slugIndex else 0;
        var image := reg.images[imageIndex];
        Json(Preview(title, description, image, url.value))
  }

  /**
   * For any URL ending in `/landing-{slug}/{username}/{id}`, preview-data
   * returns the title, description and image the landing route resolves for
   * that triple, and echoes the URL.
   */
  lemma PreviewDataResolves(reg: Registry, url: string, pre: string, slug: string, username: string, id: string)
    requires reg.Valid()
    requires IsToken(slug) && IsToken(username) && IsToken(id)
    requires url == pre + "/" + LandingPath(slug, username, id)
    ensures var m := Resolve(reg, slug, username, id);
      PreviewData(reg, Some(url)) == Json(Preview(m.title, m.description, m.image, url))
  {
    DecodeComplete(url, slug, username, id);
  }

  /**
   * The two copies of the resolver agree: for a URL the pattern matches, the
   * crawler page served for the same triple carries exactly the title,
   * description and image that preview-data reports.
   */
  lemma PreviewAgreesWithLanding(reg: Registry, url: string, pre: string, slug: string, username: string,
                                 id: string, userAgent: string, currentUrl: string)
    requires reg.Valid()
    requires IsToken(slug) && IsToken(username) && IsToken(id)
    requires url == pre + "/" + LandingPath(slug, username, id)
    requires IsBotRequest(userAgent)
    ensures PreviewData(reg, Some(url)).Json?
    ensures var p := PreviewData(reg, Some(url)).body;
      var page := Landing(reg, slug, username, id, Some(userAgent), currentUrl);
      page.Page? && CarriesCard(page.html, p.title, p.description, p.image, currentUrl, userAgent)
  {
    PreviewDataResolves(reg, url, pre, slug, username, id);
  }

  /** A non-empty URL that does not end in `/landing-X/Y/Z` is refused as malformed. */
  lemma PreviewDataRejectsMalformed(reg: Registry, url: string)
    requires reg.Valid()
    requires url != ""
    requires forall s, u, i :: !PatternMatches(url, s, u, i)
    ensures PreviewData(reg, Some(url)) == BadRequest("Invalid URL format")
  {
    DecodeRejects(url);
  }

  /**
   * End to end: preview-data on a URL that generate-url produced reports the
   * slug's title, a description naming the username and the generated id, the
   * slug's image, and the URL itself.
   */
  lemma GenerateThenPreview<V>(reg: Registry, req: GenerateRequest<V>, host: Option<string>, port: string, draw: nat)
    requires reg.Valid()
    requires draw < 900000
    requires GenerateUrl(req, host, port, draw).Json?
    requires SlashFree(req.slug.value) && SlashFree(req.username.value)
    ensures var g := GenerateUrl(req, host, port, draw).body;
      var m := Resolve(reg, g.slug, g.username, NatToString(g.id));
      && PreviewData(reg, Some(g.url)) == Json(Preview(m.title, m.description, m.image, g.url))
      && Occurs(g.username, m.description) && Occurs(NatToString(g.id), m.description)
  {
    var g := GenerateUrl(req, host, port, draw).body;
    NatToStringIsToken(g.id);
    PreviewDataResolves(reg, g.url, BaseUrl(host, port), g.slug, g.username, NatToString(g.id));
    DescriptionMentions(g.username, NatToString(g.id));
  }

  // ----- POST /api/pre-warm -----

  /** The User-Agents whose fetches pre-warm simulates. */
  const PrewarmAgents: seq<string> := ["Twitterbot/1.0", "facebookexternalhit/1.1", "LinkedInBot/1.0", "WhatsApp/2.0"]

  /** `{ success, message }` */
  datatype Prewarmed = Prewarmed(success: bool, message: string)

  /**
   * `POST /api/pre-warm`: a missing or empty URL is refused; otherwise, once
   * every simulated crawler fetch has settled, success is reported.
   */
  function PreWarm(url: Option<string>): (r: Reply<Prewarmed>)
    ensures r.BadRequest? <==> !Truthy(url)
    ensures r.BadRequest? ==> r.error == "URL parameter required"
    ensures r.Json? ==> r.body.success && r.body.message == "URL pre-warmed with multiple bot user agents"
  {
    if !Truthy(url) then BadRequest("URL parameter required")
    else Json(Prewarmed(true, "URL pre-warmed with multiple bot user agents"))
  }

  /**
   * Every User-Agent pre-warm simulates is one the classifier treats as a
   * crawler, so each simulated fetch of the landing URL would be served the
   * crawler page.
   */
  lemma PrewarmAgentsAreBots()
    ensures forall k :: 0 <= k < |PrewarmAgents| ==> IsBotRequest(PrewarmAgents[k])
  {
    TwitterbotIsBot();
    FacebookIsBot();
    LinkedInIsBot();
    WhatsAppIsBot();
  }

  /**
   * What a simulated pre-warm fetch of a landing URL would receive: the crawler
   * page, carrying the resolved card.
   */
  lemma PrewarmFetchServesCard(reg: Registry, k: nat, slug: string, username: string, id: string, currentUrl: string)
    requires reg.Valid()
    requires k < |PrewarmAgents|
    ensures var r := Landing(reg, slug, username, id, Some(PrewarmAgents[k]), currentUrl);
      var m := Resolve(reg, slug, username, id);
      r.Page? && r.Status() == 200 && CarriesCard(r.html, m.title, m.description, m.image, currentUrl, PrewarmAgents[k])
  {
    PrewarmAgentsAreBots();
  }
}
