/**
 * The two registries the server files ship with. They list the same slugs and
 * usernames and differ only in their preview images, so the two servers
 * answer alike except for the image URL.
 */
module Instances {
  import opened Wrappers
  import opened Text
  import opened TestData
  import opened Classifier
  import opened Resolver
  import opened Document
  import opened Server

  const Slugs: seq<string> := ["quickprofits", "digitaldollars", "bellyburner", "wealthwizard", "moneymaker"]
  const Usernames: seq<string> := ["novelnet", "bchbhsba", "profitpro", "cashking", "wealthgen"]

  /** The registry of `server-clean.js`, with placeholder photos. */
  const CleanRegistry := Registry(Slugs, Usernames, [
    "https://picsum.photos/1200/630?random=1",
    "https://picsum.photos/1200/630?random=2",
    "https://picsum.photos/1200/630?random=3",
    "https://picsum.photos/1200/630?random=4",
    "https://picsum.photos/1200/630?random=5"
  ])

  /** The registry of `server.js`, with stock photos. */
  const UnsplashRegistry := Registry(Slugs, Usernames, [
    "https://images.unsplash.com/photo-1611974789855-9c2a0a7236a3?w=1200&h=630&fit=crop&crop=center",
    "https://images.unsplash.com/photo-1579621970563-ebec7560ff3e?w=1200&h=630&fit=crop&crop=center",
    "https://images.unsplash.com/photo-1551288049-bebda4e38f71?w=1200&h=630&fit=crop&crop=center",
    "https://images.unsplash.com/photo-1460925895917-afdab827c52f?w=1200&h=630&fit=crop&crop=center",
    "https://images.unsplash.com/photo-1559136555-9303baea8ebd?w=1200&h=630&fit=crop&crop=center"
  ])

  /** Both registries have an image per slug and list no slug twice. */
  lemma RegistriesWellFormed()
    ensures CleanRegistry.Valid() && DistinctSlugs(CleanRegistry)
    ensures UnsplashRegistry.Valid() && DistinctSlugs(UnsplashRegistry)
    ensures |CleanRegistry.images| == |UnsplashRegistry.images| == |Slugs|
  {
    forall i, j | 0 <= i < j < |Slugs| ensures Slugs[i] != Slugs[j] {
      assert Slugs[i][0] != Slugs[j][0];
    }
  }

  /**
   * The two servers resolve every triple to the same title and description,
   * and to the image at the same position of their own image lists.
   */
  lemma ServersDifferOnlyInImages(slug: string, username: string, id: string)
    ensures CleanRegistry.Valid() && UnsplashRegistry.Valid()
    ensures var c := Resolve(CleanRegistry, slug, username, id);
      var u := Resolve(UnsplashRegistry, slug, username, id);
      && c.title == u.title && c.description == u.description
      && exists k :: 0 <= k < |Slugs| && c.image == CleanRegistry.images[k] && u.image == UnsplashRegistry.images[k]
  {
    RegistriesWellFormed();
    var k := ImageIndex(CleanRegistry, slug);
    assert ImageIndex(UnsplashRegistry, slug) == k;
  }

  /** A slug listed first in a registry of valid shape: its title, and image 0. */
  lemma FirstSlugCard(reg: Registry, slug: string, username: string, id: string)
    requires reg.Valid() && |reg.slugs| > 0 && reg.slugs[0] == slug
    requires |slug| > 0
    ensures var m := Resolve(reg, slug, username, id);
      && m.image == reg.images[0]
      && m.title == [UpperChar(slug[0])] + slug[1..] + " Landing Page"
  {
  }

  /**
   * The page for `quickprofits` on either server: titled "Quickprofits Landing
   * Page" and illustrated by the registry's first image.
   */
  lemma QuickprofitsCard(username: string, id: string)
    ensures CleanRegistry.Valid() && UnsplashRegistry.Valid()
    ensures Resolve(CleanRegistry, "quickprofits", username, id).title == "Quickprofits Landing Page"
    ensures Resolve(CleanRegistry, "quickprofits", username, id).image == "https://picsum.photos/1200/630?random=1"
    ensures Resolve(UnsplashRegistry, "quickprofits", username, id).image
         == "https://images.unsplash.com/photo-1611974789855-9c2a0a7236a3?w=1200&h=630&fit=crop&crop=center"
  {
    RegistriesWellFormed();
    FirstSlugCard(CleanRegistry, "quickprofits", username, id);
    FirstSlugCard(UnsplashRegistry, "quickprofits", username, id);
    assert UpperChar('q') == 'Q';
  }

  /** On a registry that lists the slug first, a crawler is shown image 0 as `og:image`. */
  lemma FirstSlugLanding(reg: Registry, slug: string, username: string, id: string,
                         crawler: string, currentUrl: string)
    requires reg.Valid() && |reg.slugs| > 0 && reg.slugs[0] == slug
    requires IsBotRequest(crawler)
    ensures var r := Landing(reg, slug, username, id, Some(crawler), currentUrl);
      r.Page? && Occurs(MetaProperty("og:image", reg.images[0]), r.html)
  {
    assert reg.slugs[0] == slug;
    var k := ImageIndex(reg, slug);
    assert k == 0;
    var m := Resolve(reg, slug, username, id);
    assert m.image == reg.images[0];
    var r := Landing(reg, slug, username, id, Some(crawler), currentUrl);
    assert r.Page? && CarriesCard(r.html, m.title, m.description, m.image, currentUrl, crawler);
    CardShowsImage(r.html, m.title, m.description, m.image, currentUrl, crawler);
  }

  /**
   * `GET /landing-quickprofits/novelnet/123456` on `server-clean.js` from
   * Facebook's crawler: the page's `og:image` is the first placeholder photo.
   */
  lemma QuickprofitsCrawlerLanding(currentUrl: string)
    ensures CleanRegistry.Valid()
    ensures var r := Landing(CleanRegistry, "quickprofits", "novelnet", "123456", Some("facebookexternalhit/1.1"), currentUrl);
      r.Page? && Occurs(MetaProperty("og:image", "https://picsum.photos/1200/630?random=1"), r.html)
  {
    RegistriesWellFormed();
    FacebookIsBot();
    FirstSlugLanding(CleanRegistry, "quickprofits", "novelnet", "123456", "facebookexternalhit/1.1", currentUrl);
  }

  /** The app location for the `quickprofits` landing page. */
  lemma QuickprofitsLocation()
    ensures PreviewLocation("quickprofits", "novelnet", "123456") == "/?preview=landing-quickprofits/novelnet/123456"
  {
  }

  /** The same request from a desktop browser is redirected to the app. */
  lemma QuickprofitsBrowserLanding(currentUrl: string)
    ensures CleanRegistry.Valid()
    ensures Landing(CleanRegistry, "quickprofits", "novelnet", "123456", Some("Mozilla/5.0"), currentUrl)
         == Redirect("/?preview=landing-quickprofits/novelnet/123456")
  {
    RegistriesWellFormed();
    BrowserIsNotBot();
    QuickprofitsLocation();
  }
}
