/**
 * The read-only test-data registry (`testData`) and the image lookup that
 * both the landing route and the preview endpoint perform on it.
 */
module TestData {

  /** `testData`: the slugs, the usernames and the preview images, in order. */
  datatype Registry = Registry(slugs: seq<string>, usernames: seq<string>, images: seq<string>) {
    /**
     * What the image lookup needs of the table: image 0 exists (the fallback)
     * and every slug position is also an image position.
     */
    predicate Valid() {
      0 < |images| && |slugs| <= |images|
    }
  }

  /** `xs.indexOf(x)`: the first position holding `x`, or -1. */
  function IndexOf(xs: seq<string>, x: string): (r: int)
    ensures -1 <= r < |xs|
    ensures r == -1 <==> x !in xs
    ensures 0 <= r ==> xs[r] == x && forall j :: 0 <= j < r ==> xs[j] != x
  {
    if xs == [] then -1
    else if xs[0] == x then 0
    else
      var k := IndexOf(xs[1..], x);
      if k == -1 then -1 else k + 1
  }

  /** `slugIndex >= 0 ? slugIndex : 0` with `slugIndex = slugs.indexOf(slug)`. */
  function ImageIndex(reg: Registry, slug: string): (k: nat)
    requires reg.Valid()
    ensures k < |reg.images|
    ensures slug in reg.slugs ==> k < |reg.slugs| && reg.slugs[k] == slug && forall j :: 0 <= j < k ==> reg.slugs[j] != slug
    ensures slug !in reg.slugs ==> k == 0
  {
    var slugIndex := IndexOf(reg.slugs, slug);
    if slugIndex >= 0 then slugIndex else 0
  }

  /** No slug is listed twice. */
  predicate DistinctSlugs(reg: Registry) {
    forall i, j :: 0 <= i < j < |reg.slugs| ==> reg.slugs[i] != reg.slugs[j]
  }

  /** With distinct slugs, the slug at position i selects image i. */
  lemma ImageIndexOfKnownSlug(reg: Registry, i: nat)
    requires reg.Valid() && DistinctSlugs(reg) && i < |reg.slugs|
    ensures ImageIndex(reg, reg.slugs[i]) == i
  {
  }
}
