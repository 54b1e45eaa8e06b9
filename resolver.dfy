/**
 * The metadata resolver: title, description and preview image for a
 * (slug, username, id) triple, looked up in a registry.
 */
module Resolver {
  import opened Text
  import opened TestData

  const TitleSuffix := " Landing Page"
  const DescriptionLead := "Exclusive landing page for "
  const IdLabel := " - ID: "

  /** The social-card fields derived from a landing identifier. */
  datatype Metadata = Metadata(title: string, description: string, image: string)

  /** `slug.charAt(0).toUpperCase() + slug.slice(1)`; the empty slug stays empty. */
  function Capitalize(slug: string): (capitalized: string)
    ensures |capitalized| == |slug|
    ensures |slug| > 0 ==> capitalized[0] == UpperChar(slug[0])
    ensures forall k :: 1 <= k < |slug| ==> capitalized[k] == slug[k]
  {
    if slug == [] then [] else [UpperChar(slug[0])] + slug[1..]
  }

  /**
   * The page title: the slug with its first character upper-cased, then
   * " Landing Page"; every other character of the slug is kept as it is.
   */
  function Title(slug: string): (title: string)
    ensures |title| == |slug| + |TitleSuffix|
    ensures title[|slug|..] == TitleSuffix
    ensures |slug| > 0 ==> title[0] == UpperChar(slug[0])
    ensures forall k :: 1 <= k < |slug| ==> title[k] == slug[k]
  {
    Capitalize(slug) + TitleSuffix
  }

  /** "Exclusive landing page for " + username + " - ID: " + id. */
  function Description(username: string, id: string): (description: string)
    ensures |description| == |DescriptionLead| + |username| + |IdLabel| + |id|
    ensures description[..|DescriptionLead|] == DescriptionLead
    ensures OccursAt(username, description, |DescriptionLead|)
    ensures OccursAt(IdLabel + id, description, |DescriptionLead| + |username|)
  {
    DescriptionLead + username + IdLabel + id
  }

  /** The description names both the username and the id. */
  lemma DescriptionMentions(username: string, id: string)
    ensures Occurs(username, Description(username, id))
    ensures Occurs(id, Description(username, id))
  {
    var d := Description(username, id);
    var at := |DescriptionLead| + |username| + |IdLabel|;
    assert d[at..at + |id|] == id;
    assert OccursAt(id, d, at);
  }

  /**
   * The landing route's resolution: the image is the registry image at the
   * slug's first position (the one `indexOf` finds, even when the slug is
   * listed twice), or image 0 for a slug the registry does not list.
   */
  function Resolve(reg: Registry, slug: string, username: string, id: string): (m: Metadata)
    requires reg.Valid()
    ensures m.image in reg.images
    ensures slug in reg.slugs ==>
      exists k :: 0 <= k < |reg.slugs| && reg.slugs[k] == slug && m.image == reg.images[k]
                  && forall j :: 0 <= j < k ==> reg.slugs[j] != slug
    ensures slug !in reg.slugs ==> m.image == reg.images[0]
    ensures m.title == Title(slug) && m.description == Description(username, id)
  {
    var imageIndex := ImageIndex(reg, slug);
    Metadata(Title(slug), Description(username, id), reg.images[imageIndex])
  }

  /** With distinct slugs, the slug at position i gets image i, whatever the username and id. */
  lemma ResolveKnownSlug(reg: Registry, i: nat, username: string, id: string)
    requires reg.Valid() && DistinctSlugs(reg) && i < |reg.slugs|
    ensures Resolve(reg, reg.slugs[i], username, id).image == reg.images[i]
  {
    ImageIndexOfKnownSlug(reg, i);
  }
}
