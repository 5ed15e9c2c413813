/**
 * The project details page: look the route's slug up in the project list,
 * show "not found" when nothing matches, and otherwise show the project
 * with wrap-around links to its neighbours, its first external link and
 * its snapshots.
 */
module ProjectDetails {
  import opened Wrappers

  datatype ProjectLink = ProjectLink(text: string, href: string)
  datatype Snapshot = Snapshot(src: string, alt: string)

  /** The fields of a project the page reads. */
  datatype Project = Project(
    slug: string,
    title: string,
    year: string,
    category: string,
    role: string,
    summary: string,
    description: string,
    links: Option<seq<ProjectLink>>,
    tags: seq<string>,
    snapshots: Option<seq<Snapshot>>)

  /** One `<figure>` of the snapshots grid. */
  datatype Figure = Figure(src: string, alt: string)

  datatype Page =
    | NotFound
    | Details(
        project: Project,
        prevHref: string,
        nextHref: string,
        externalLink: Option<ProjectLink>,
        snapshotFigures: Option<seq<Figure>>)

  /** `i` is the index `findIndex` stops at when it looks for `slug`. */
  predicate IsFirstWithSlug(projects: seq<Project>, slug: string, i: int) {
    && 0 <= i < |projects|
    && projects[i].slug == slug
    && forall j :: 0 <= j < i ==> projects[j].slug != slug
  }

  /** `projects.findIndex((p) => p.slug === slug)`: the first match, or -1. */
  function FindIndex(projects: seq<Project>, slug: string): (i: int)
    ensures -1 <= i < |projects|
    ensures i >= 0 ==> IsFirstWithSlug(projects, slug, i)
    ensures i == -1 ==> forall j :: 0 <= j < |projects| ==> projects[j].slug != slug
  {
    if |projects| == 0 then -1
    else if projects[0].slug == slug then 0
    else
      var k := FindIndex(projects[1..], slug);
      if k == -1 then -1 else k + 1
  }

  /** `projects.find((p) => p.slug === slug)`; an absent route parameter matches nothing. */
  function Find(projects: seq<Project>, slug: Option<string>): (r: Option<Project>)
    ensures r.Some? <==> slug.Some? && exists j :: 0 <= j < |projects| && projects[j].slug == slug.value
    ensures r.Some? ==>
      (IsFirstWithSlug(projects, slug.value, FindIndex(projects, slug.value))
       && r.value == projects[FindIndex(projects, slug.value)])
  {
    if slug.None? then None
    else
      var i := FindIndex(projects, slug.value);
      if i == -1 then None else Some(projects[i])
  }

  const ProjectsPath := "/projects/"

  /**
   * `(currentIndex - 1 + n) % n`: the project before, wrapping from the first
   * to the last. The operand is never negative, so truncating and Euclidean
   * `%` agree.
   */
  function PrevIndex(current: nat, n: nat): (prev: nat)
    requires current < n
    ensures prev < n
    ensures current == 0 ==> prev == n - 1
    ensures current > 0 ==> prev == current - 1
  {
    (current - 1 + n) % n
  }

  /** `(currentIndex + 1) % n`: the project after, wrapping from the last to the first. */
  function NextIndex(current: nat, n: nat): (next: nat)
    requires current < n
    ensures next < n
    ensures current == n - 1 ==> next == 0
    ensures current < n - 1 ==> next == current + 1
  {
    (current + 1) % n
  }

  /** The route of a project's page; the slug can be read back from it. */
  function ProjectHref(slug: string): (href: string)
    ensures |href| == |ProjectsPath| + |slug|
    ensures href[..|ProjectsPath|] == ProjectsPath && href[|ProjectsPath|..] == slug
  {
    ProjectsPath + slug
  }

  /** `project.links && project.links.length > 0`, showing `links[0]`. */
  function ExternalLink(links: Option<seq<ProjectLink>>): (r: Option<ProjectLink>)
    ensures r.Some? <==> links.Some? && |links.value| > 0
    ensures r.Some? ==> r.value == links.value[0]
  {
    if links.Some? && |links.value| > 0 then Some(links.value[0]) else None
  }

  /** The snapshots section, present only for a non-empty list, one figure per snapshot in order. */
  function SnapshotFigures(snapshots: Option<seq<Snapshot>>): (r: Option<seq<Figure>>)
    ensures r.Some? <==> snapshots.Some? && |snapshots.value| > 0
    ensures r.Some? ==>
      (|r.value| == |snapshots.value|
       && forall k :: 0 <= k < |r.value| ==> r.value[k] == Figure(snapshots.value[k].src, snapshots.value[k].alt))
  {
    if snapshots.Some? && |snapshots.value| > 0 then
      var shots := snapshots.value;
      Some(seq(|shots|, k requires 0 <= k < |shots| => Figure(shots[k].src, shots[k].alt)))
    else None
  }

  /** The page for a route slug. */
  function SelectPage(projects: seq<Project>, slug: Option<string>): (page: Page)
    ensures page.NotFound? <==> Find(projects, slug).None?
    ensures page.Details? ==> page.project == Find(projects, slug).value
    ensures page.Details? ==>
      var i := FindIndex(projects, page.project.slug);
      && page.prevHref == ProjectHref(projects[PrevIndex(i, |projects|)].slug)
      && page.nextHref == ProjectHref(projects[NextIndex(i, |projects|)].slug)
    ensures page.Details? ==>
      && page.externalLink == ExternalLink(page.project.links)
      && page.snapshotFigures == SnapshotFigures(page.project.snapshots)
  {
    match Find(projects, slug)
    case None => NotFound
    case Some(project) =>
      var current := FindIndex(projects, project.slug);
      var n := |projects|;
      Details(
        project,
        ProjectHref(projects[PrevIndex(current, n)].slug),
        ProjectHref(projects[NextIndex(current, n)].slug),
        ExternalLink(project.links),
        SnapshotFigures(project.snapshots))
  }

  // ---- Properties ----

  /** A slug no project carries, or no slug at all, selects the not-found page. */
  lemma UnknownSlugNotFound(projects: seq<Project>, slug: Option<string>)
    requires slug.None? || forall j :: 0 <= j < |projects| ==> projects[j].slug != slug.value
    ensures SelectPage(projects, slug) == NotFound
  {
  }

  /** The index of the found project's slug points back at the found project, the first one with that slug. */
  lemma CurrentIndexIsFoundProject(projects: seq<Project>, slug: string)
    requires Find(projects, Some(slug)).Some?
    ensures var i := FindIndex(projects, Find(projects, Some(slug)).value.slug);
            0 <= i < |projects| && projects[i] == Find(projects, Some(slug)).value
            && forall j :: 0 <= j < i ==> projects[j].slug != slug
  {
  }

  /** Stepping forward undoes stepping back, and the other way round. */
  lemma PrevNextInverse(current: nat, n: nat)
    requires current < n
    ensures NextIndex(PrevIndex(current, n), n) == current
    ensures PrevIndex(NextIndex(current, n), n) == current
  {
  }

  /** The details page links to the projects just before and after the found one, wrapping at the ends. */
  lemma DetailsLinkNeighbours(projects: seq<Project>, slug: string)
    requires Find(projects, Some(slug)).Some?
    ensures var page := SelectPage(projects, Some(slug));
            var i := FindIndex(projects, slug);
            var n := |projects|;
            && page.Details?
            && page.prevHref == ProjectHref(projects[if i == 0 then n - 1 else i - 1].slug)
            && page.nextHref == ProjectHref(projects[if i == n - 1 then 0 else i + 1].slug)
  {
    var page := SelectPage(projects, Some(slug));
    var i := FindIndex(projects, slug);
    var n := |projects|;
    assert page.project.slug == slug;
    assert page.prevHref == ProjectHref(projects[PrevIndex(i, n)].slug);
    assert page.nextHref == ProjectHref(projects[NextIndex(i, n)].slug);
  }
}
