/**
 * Section navigation of the example textbook (apps/example-poe/src/lib/location.ts).
 * The build-time constant `allSectionsSorted` is the parameter `sections`.
 */
module Location {
  import opened Wrappers

  /** One entry of the ordered section list: its slug and whether it asks for a summary. */
  datatype Section = Section(slug: string, summary: bool)

  /** No slug occurs twice in the list. */
  ghost predicate DistinctSlugs(sections: seq<Section>) {
    forall i, j :: 0 <= i < j < |sections| ==> sections[i].slug != sections[j].slug
  }

  /** `findIndex((s) => s.slug === slug)`: the first position holding `slug`, or -1. */
  function FindIndex(sections: seq<Section>, slug: string): (i: int)
    ensures -1 <= i < |sections|
    ensures 0 <= i ==> sections[i].slug == slug
    ensures 0 <= i ==> forall k :: 0 <= k < i ==> sections[k].slug != slug
    ensures i == -1 <==> forall k :: 0 <= k < |sections| ==> sections[k].slug != slug
  {
    if |sections| == 0 then -1
    else if sections[0].slug == slug then 0
    else
      var j := FindIndex(sections[1..], slug);
      assert forall k :: 1 <= k < |sections| ==> sections[k] == sections[1..][k - 1];
      if j == -1 then -1 else j + 1
  }

  /** `find((s) => s.summary)`: the first section that asks for a summary, if any. */
  function FindSummary(sections: seq<Section>): (r: Option<Section>)
    ensures r.None? <==> forall k :: 0 <= k < |sections| ==> !sections[k].summary
    ensures r.Some? ==> r.value.summary && r.value in sections
  {
    if |sections| == 0 then None
    else if sections[0].summary then Some(sections[0])
    else
      assert forall k :: 1 <= k < |sections| ==> sections[k] == sections[1..][k - 1];
      FindSummary(sections[1..])
  }

  /** `find` returns the first match, not just any match. */
  lemma {:induction false} FindSummaryIsFirst(sections: seq<Section>, j: nat)
    requires j < |sections| && sections[j].summary
    requires forall k :: 0 <= k < j ==> !sections[k].summary
    ensures FindSummary(sections) == Some(sections[j])
  {
    if j > 0 {
      FindSummaryIsFirst(sections[1..], j - 1);
    }
  }

  /**
   * `nextPage(slug)`: the slug of the first section after `slug` that asks for a
   * summary; `slug` itself when it is unknown, last, or followed by no such section.
   */
  function NextPage(sections: seq<Section>, slug: string): (r: string)
    ensures r == slug || exists j :: FindIndex(sections, slug) < j < |sections| && sections[j].summary && sections[j].slug == r
  {
    var current := FindIndex(sections, slug);
    if current == -1 || current == |sections| - 1 then slug
    else
      var next := sections[current + 1];
      if next.summary then next.slug
      else
        match FindSummary(sections[current + 1..])
        case Some(s) =>
          assert s in sections[current + 1..];
          s.slug
        case None => slug
  }

  /** An unknown slug and the last slug both stay where they are. */
  lemma NextPageStays(sections: seq<Section>, slug: string)
    requires FindIndex(sections, slug) == -1 || FindIndex(sections, slug) == |sections| - 1
    ensures NextPage(sections, slug) == slug
  {
  }

  /** `nextPage` lands on the FIRST later section that asks for a summary. */
  lemma {:induction false} NextPageIsFirstLaterSummary(sections: seq<Section>, slug: string, j: nat)
    requires 0 <= FindIndex(sections, slug) < j < |sections|
    requires sections[j].summary
    requires forall k :: FindIndex(sections, slug) < k < j ==> !sections[k].summary
    ensures NextPage(sections, slug) == sections[j].slug
  {
    var current := FindIndex(sections, slug);
    if j > current + 1 {
      var rest := sections[current + 1..];
      forall k | 0 <= k < j - current - 1 ensures !rest[k].summary {
        assert rest[k] == sections[current + 1 + k];
      }
      FindSummaryIsFirst(rest, j - current - 1);
    }
  }

  /** With no later section asking for a summary, `nextPage` stays put. */
  lemma NextPageWithoutLaterSummary(sections: seq<Section>, slug: string)
    requires forall k :: FindIndex(sections, slug) < k < |sections| ==> !sections[k].summary
    ensures NextPage(sections, slug) == slug
  {
  }

  /** Slugs that may be read without signing in. */
  function IsPageUnlockedWithoutUser(slug: string): (r: bool)
    ensures r <==> slug in {"introduction-to-law-and-legal-systems", "what-is-law"}
  {
    slug == "introduction-to-law-and-legal-systems" || slug == "what-is-law"
  }

  /** The index `findIndex` gives a nullable slug: `null` matches no section. */
  function SlugIndex(sections: seq<Section>, slug: Option<string>): (i: int)
    ensures -1 <= i < |sections|
    ensures i == -1 <==> slug.None? || forall k :: 0 <= k < |sections| ==> sections[k].slug != slug.value
  {
    match slug
    case None => -1
    case Some(s) => FindIndex(sections, s)
  }

  /** `isPageAfter(a, b)`: `a` comes strictly later in the list than `b`. */
  function IsPageAfter(sections: seq<Section>, a: Option<string>, b: Option<string>): (r: bool)
    ensures r ==> a.Some? && exists k :: 0 <= k < |sections| && sections[k].slug == a.value
    ensures a == b ==> !r
    ensures b.None? ==> (r <==> SlugIndex(sections, a) >= 0)
  {
    SlugIndex(sections, a) > SlugIndex(sections, b)
  }

  /** `isPageAfter` orders the sections strictly. */
  lemma IsPageAfterStrictOrder(sections: seq<Section>, a: Option<string>, b: Option<string>, c: Option<string>)
    ensures IsPageAfter(sections, a, b) ==> !IsPageAfter(sections, b, a)
    ensures IsPageAfter(sections, a, b) && IsPageAfter(sections, b, c) ==> IsPageAfter(sections, a, c)
  {
  }

  /** With distinct slugs, `findIndex` of a section's slug is that section's position. */
  lemma IndexOfDistinctSlug(sections: seq<Section>, j: nat)
    requires DistinctSlugs(sections) && j < |sections|
    ensures FindIndex(sections, sections[j].slug) == j
  {
  }

  /** With distinct slugs, moving on with `nextPage` always moves forward. */
  lemma NextPageMovesForward(sections: seq<Section>, slug: string)
    requires DistinctSlugs(sections)
    requires NextPage(sections, slug) != slug
    ensures IsPageAfter(sections, Some(NextPage(sections, slug)), Some(slug))
  {
    var r := NextPage(sections, slug);
    var j :| FindIndex(sections, slug) < j < |sections| && sections[j].summary && sections[j].slug == r;
    IndexOfDistinctSlug(sections, j);
  }

  /**
   * `isLastPage(slug)`: `slug` is the slug of the final section. The source
   * reads the last element unguarded, so an empty list is not a valid input.
   */
  function IsLastPage(sections: seq<Section>, slug: string): (r: bool)
    requires |sections| > 0
    ensures r <==> sections[|sections| - 1].slug == slug
  {
    sections[|sections| - 1].slug == slug
  }

  /** With distinct slugs, the last page has nowhere to go next. */
  lemma LastPageStays(sections: seq<Section>, slug: string)
    requires |sections| > 0 && DistinctSlugs(sections)
    requires IsLastPage(sections, slug)
    ensures NextPage(sections, slug) == slug
  {
    IndexOfDistinctSlug(sections, |sections| - 1);
  }
}
