/**
 * The designer page template `DesignerTemplate` (site/src/templates/designer.js):
 * its hover state, and the data pipeline of `render()` that turns the site's
 * projects and designers into the image sets handed to the gallery.
 *
 * `pieceImagePath` and `pieceImageTexts` live in the site's util module, whose
 * code is not part of this model; they are passed in as the functions
 * `imagePath` and `imageTexts`.
 */
module DesignerPage {
  import opened Wrappers
  import opened Seqs
  import Gallery

  // ---------------------------------------------------------------------------
  // Site data, as the page query returns it

  datatype Project = Project(slug: string, title: string, designers: seq<string>)

  datatype Piece = Piece(slug: string, title: string, projects: seq<string>, images: seq<string>)

  datatype Designer = Designer(slug: string, name: string, pieces: seq<Piece>)

  /** One entry of `images`: the piece it shows, the image source, the texts. */
  datatype PieceImage = PieceImage(piece: Piece, src: string, texts: Option<Gallery.ImageTexts>)

  /** An entry of `imagesByProject`; `project` is `None` for the pieces without a project. */
  datatype ProjectGroup = ProjectGroup(project: Option<Project>, images: seq<PieceImage>)

  /** An entry of `imageSets`, as handed to the gallery. */
  datatype TitledSet = TitledSet(title: Option<string>, images: seq<PieceImage>)

  // ---------------------------------------------------------------------------
  // Hover state

  /** What the gallery's hover callback can be called with. */
  datatype HoverArgument = NullArgument | UndefinedArgument | ImageArgument(image: PieceImage)

  /** `hoverImage || null`: an image object is truthy, `null` and `undefined` are not. */
  function NormalizeHover(arg: HoverArgument): (r: Option<PieceImage>)
    ensures r.Some? <==> arg.ImageArgument?
    ensures r.Some? ==> r.value == arg.image
  {
    match arg
    case ImageArgument(image) => Some(image)
    case _ => None
  }

  class DesignerTemplate {
    var hoverImage: Option<PieceImage>

    constructor ()
      ensures hoverImage == None
    {
      hoverImage := None;
    }

    /** `imageHoverHandler(hoverImage)`: store the image, or `null` for anything falsy. */
    method ImageHoverHandler(arg: HoverArgument)
      modifies this
      ensures hoverImage == NormalizeHover(arg)
    {
      hoverImage := match arg
        case ImageArgument(image) => Some(image)
        case _ => None;
    }
  }

  // ---------------------------------------------------------------------------
  // Designer lookup and project filter

  /** `designers.find(d => d.slug === slug)`: the first designer with that slug. */
  function FindDesigner(designers: seq<Designer>, slug: string): (r: Option<Designer>)
    ensures r.None? <==> forall k :: 0 <= k < |designers| ==> designers[k].slug != slug
    ensures r.Some? ==>
      exists k :: 0 <= k < |designers| && designers[k] == r.value && r.value.slug == slug
        && forall j :: 0 <= j < k ==> designers[j].slug != slug
  {
    if designers == [] then None
    else if designers[0].slug == slug then Some(designers[0])
    else
      var r := FindDesigner(designers[1..], slug);
      assert r.Some? ==>
        exists k :: 0 <= k < |designers[1..]| && designers[1..][k] == r.value
          && forall j :: 0 <= j < k ==> designers[1..][j].slug != slug;
      assert forall k :: 0 < k < |designers| ==> designers[k] == designers[1..][k - 1];
      r
  }

  function CreditsDesigner(slug: string): Project -> bool {
    (p: Project) => slug in p.designers
  }

  /** The projects that list the designer, in their input order. */
  function DesignerProjects(allProjects: seq<Project>, slug: string): (projects: seq<Project>)
    ensures forall p :: p in projects <==> p in allProjects && slug in p.designers
  {
    Filter(allProjects, CreditsDesigner(slug))
  }

  /** The designer's projects keep their input order: the filter distributes over concatenation. */
  lemma DesignerProjectsPreserveOrder(a: seq<Project>, b: seq<Project>, slug: string)
    ensures DesignerProjects(a + b, slug) == DesignerProjects(a, slug) + DesignerProjects(b, slug)
  {
    FilterConcat(a, b, CreditsDesigner(slug));
  }

  // ---------------------------------------------------------------------------
  // The image list

  /** `piece.images[0]`, which is `undefined` for a piece without images. */
  function FirstImage(piece: Piece): Option<string> {
    if |piece.images| > 0 then Some(piece.images[0]) else None
  }

  /** The image the template builds for one piece. */
  function ImageOf(
    designer: Designer, projects: seq<Project>,
    imagePath: Option<string> -> string,
    imageTexts: (Designer, Piece, seq<Project>) -> Option<Gallery.ImageTexts>,
    piece: Piece): PieceImage
  {
    PieceImage(piece, imagePath(FirstImage(piece)), imageTexts(designer, piece, projects))
  }

  /** `currentDesigner.pieces.forEach(piece => images.push(...))`. */
  method CollectImages(
    designer: Designer, projects: seq<Project>,
    imagePath: Option<string> -> string,
    imageTexts: (Designer, Piece, seq<Project>) -> Option<Gallery.ImageTexts>)
    returns (images: seq<PieceImage>)
    ensures |images| == |designer.pieces|
    ensures forall k :: 0 <= k < |images| ==> images[k].piece == designer.pieces[k]
    ensures forall k :: 0 <= k < |images| ==>
      images[k] == ImageOf(designer, projects, imagePath, imageTexts, designer.pieces[k])
  {
    images := [];
    for k := 0 to |designer.pieces|
      invariant |images| == k
      invariant forall j :: 0 <= j < k ==>
        images[j] == ImageOf(designer, projects, imagePath, imageTexts, designer.pieces[j])
    {
      images := images + [ImageOf(designer, projects, imagePath, imageTexts, designer.pieces[k])];
    }
  }

  function Pow2(n: nat): nat {
    if n == 0 then 1 else 2 * Pow2(n - 1)
  }

  /** The temporary image multiplication: three rounds of `images = images.concat(images)`. */
  method MultiplyImages(images: seq<PieceImage>) returns (r: seq<PieceImage>)
    ensures r == Repeat(images, 8)
  {
    r := images;
    assert r == Repeat(images, 1);
    for i := 0 to 3
      invariant r == Repeat(images, Pow2(i))
    {
      RepeatAdd(images, Pow2(i), Pow2(i));
      r := r + r;
    }
  }

  /** Eight copies: eight times as long, the original first, position `k` a copy of `k` modulo the length. */
  lemma MultipliedImages(images: seq<PieceImage>)
    ensures |Repeat(images, 8)| == 8 * |images|
    ensures Repeat(images, 8)[..|images|] == images
    ensures forall k :: 0 <= k < 8 * |images| ==> Repeat(images, 8)[k] == images[k % |images|]
  {
    assert Repeat(images, 8) == images + Repeat(images, 7);
    forall k | 0 <= k < 8 * |images|
      ensures Repeat(images, 8)[k] == images[k % |images|]
    {
      RepeatAt(images, 8, k);
    }
  }

  // ---------------------------------------------------------------------------
  // Grouping

  function InProject(slug: string): PieceImage -> bool {
    (image: PieceImage) => slug in image.piece.projects
  }

  function WithoutProject(image: PieceImage): bool {
    |image.piece.projects| == 0
  }

  /** `projects.map(project => ({ project, images: images.filter(...) }))`. */
  function GroupByProject(projects: seq<Project>, images: seq<PieceImage>): (groups: seq<ProjectGroup>)
    ensures |groups| == |projects|
    ensures forall k :: 0 <= k < |groups| ==> groups[k].project == Some(projects[k])
    ensures forall k, image :: 0 <= k < |groups| ==>
      (image in groups[k].images <==> image in images && projects[k].slug in image.piece.projects)
  {
    seq(|projects|, k requires 0 <= k < |projects| =>
      ProjectGroup(Some(projects[k]), Filter(images, InProject(projects[k].slug))))
  }

  /** Each group keeps the images in their order in `images`: grouping distributes over concatenation. */
  lemma GroupsPreserveOrder(projects: seq<Project>, a: seq<PieceImage>, b: seq<PieceImage>)
    ensures forall k :: 0 <= k < |projects| ==>
      GroupByProject(projects, a + b)[k].images == GroupByProject(projects, a)[k].images + GroupByProject(projects, b)[k].images
  {
    forall k | 0 <= k < |projects|
      ensures GroupByProject(projects, a + b)[k].images == GroupByProject(projects, a)[k].images + GroupByProject(projects, b)[k].images
    {
      FilterConcat(a, b, InProject(projects[k].slug));
    }
  }

  /** The group pushed last, for the pieces without a project: no title, only images whose piece lists no project. */
  function UnassignedGroup(images: seq<PieceImage>): (group: ProjectGroup)
    ensures group.project.None?
    ensures forall image :: image in group.images <==> image in images && |image.piece.projects| == 0
  {
    ProjectGroup(None, Filter(images, WithoutProject))
  }

  /** `imagesByProject` after the push: the project groups, then the unassigned group. */
  function ImagesByProject(projects: seq<Project>, images: seq<PieceImage>): (groups: seq<ProjectGroup>)
    ensures |groups| == |projects| + 1
    ensures forall k :: 0 <= k < |projects| ==> groups[k].project == Some(projects[k])
    ensures groups[|projects|].project.None?
  {
    GroupByProject(projects, images) + [UnassignedGroup(images)]
  }

  function TitleOf(group: ProjectGroup): Option<string> {
    if group.project.Some? then Some(group.project.value.title) else None
  }

  function HasImages(group: ProjectGroup): bool {
    |group.images| > 0
  }

  function SetOf(group: ProjectGroup): TitledSet {
    TitledSet(TitleOf(group), group.images)
  }

  /** `.filter(item => item.images.length > 0).map(...)`: drop empty groups, title the rest. */
  function NonEmptySets(groups: seq<ProjectGroup>): (sets: seq<TitledSet>)
    ensures forall k :: 0 <= k < |sets| ==> |sets[k].images| > 0
  {
    var kept := Filter(groups, HasImages);
    assert forall k :: 0 <= k < |kept| ==> kept[k] in kept;
    seq(|kept|, k requires 0 <= k < |kept| => SetOf(kept[k]))
  }

  /** The sets built from a list of images, before set multiplication. */
  function AssembleSets(projects: seq<Project>, images: seq<PieceImage>): seq<TitledSet> {
    NonEmptySets(ImagesByProject(projects, images))
  }

  /** Dropping empty groups distributes over concatenation. */
  lemma NonEmptySetsConcat(a: seq<ProjectGroup>, b: seq<ProjectGroup>)
    ensures NonEmptySets(a + b) == NonEmptySets(a) + NonEmptySets(b)
  {
    FilterConcat(a, b, HasImages);
  }

  predicate InSomeGroup(groups: seq<ProjectGroup>, image: PieceImage) {
    exists j :: 0 <= j < |groups| && image in groups[j].images
  }

  predicate InSomeSet(sets: seq<TitledSet>, image: PieceImage) {
    exists k :: 0 <= k < |sets| && image in sets[k].images
  }

  lemma InSomeGroupConcat(a: seq<ProjectGroup>, b: seq<ProjectGroup>, image: PieceImage)
    ensures InSomeGroup(a + b, image) <==> InSomeGroup(a, image) || InSomeGroup(b, image)
  {
    if InSomeGroup(a + b, image) {
      var j :| 0 <= j < |a + b| && image in (a + b)[j].images;
      if j < |a| {
        assert (a + b)[j] == a[j];
      } else {
        assert (a + b)[j] == b[j - |a|];
      }
    }
    if InSomeGroup(a, image) {
      var j :| 0 <= j < |a| && image in a[j].images;
      assert (a + b)[j] == a[j];
    }
    if InSomeGroup(b, image) {
      var j :| 0 <= j < |b| && image in b[j].images;
      assert (a + b)[|a| + j] == b[j];
    }
  }

  lemma InSomeSetConcat(a: seq<TitledSet>, b: seq<TitledSet>, image: PieceImage)
    ensures InSomeSet(a + b, image) <==> InSomeSet(a, image) || InSomeSet(b, image)
  {
    if InSomeSet(a + b, image) {
      var k :| 0 <= k < |a + b| && image in (a + b)[k].images;
      if k < |a| {
        assert (a + b)[k] == a[k];
      } else {
        assert (a + b)[k] == b[k - |a|];
      }
    }
    if InSomeSet(a, image) {
      var k :| 0 <= k < |a| && image in a[k].images;
      assert (a + b)[k] == a[k];
    }
    if InSomeSet(b, image) {
      var k :| 0 <= k < |b| && image in b[k].images;
      assert (a + b)[|a| + k] == b[k];
    }
  }

  /** Dropping empty groups loses no image: an image is in some set exactly when it is in some group. */
  lemma {:induction false} NonEmptySetsKeepImages(groups: seq<ProjectGroup>, image: PieceImage)
    ensures InSomeSet(NonEmptySets(groups), image) <==> InSomeGroup(groups, image)
  {
    if groups != [] {
      var g, rest := groups[0], groups[1..];
      assert groups == [g] + rest;
      NonEmptySetsConcat([g], rest);
      var head, tail := NonEmptySets([g]), NonEmptySets(rest);
      InSomeSetConcat(head, tail, image);
      InSomeGroupConcat([g], rest, image);
      NonEmptySetsKeepImages(rest, image);
      assert head == if HasImages(g) then [SetOf(g)] else [];
      assert InSomeGroup([g], image) <==> image in g.images by {
        assert [g][0] == g;
      }
      if HasImages(g) {
        assert head[0] == SetOf(g);
      }
    }
  }

  /** An image of the list is in some group exactly when its piece lists no project or one of the projects. */
  lemma GroupedIff(projects: seq<Project>, images: seq<PieceImage>, image: PieceImage)
    requires image in images
    ensures InSomeGroup(ImagesByProject(projects, images), image)
      <==> (|image.piece.projects| == 0 || exists p :: p in projects && p.slug in image.piece.projects)
  {
    var grouped := GroupByProject(projects, images);
    var last := UnassignedGroup(images);
    var groups := grouped + [last];
    assert groups == ImagesByProject(projects, images);
    if exists p :: p in projects && p.slug in image.piece.projects {
      var p :| p in projects && p.slug in image.piece.projects;
      var k :| 0 <= k < |projects| && projects[k] == p;
      assert image in grouped[k].images;
      assert groups[k] == grouped[k];
    }
    if |image.piece.projects| == 0 {
      assert image in last.images;
      assert groups[|projects|] == last;
    }
    if InSomeGroup(groups, image) {
      var j :| 0 <= j < |groups| && image in groups[j].images;
      if j < |projects| {
        assert groups[j] == grouped[j];
        assert projects[j] in projects;
      } else {
        assert groups[j] == last;
      }
    }
  }

  /**
   * An image reaches the gallery exactly when its piece lists no project or
   * lists one of the designer's projects; a piece whose projects are all
   * outside that list is shown in no set at all.
   */
  lemma ImageShownIff(projects: seq<Project>, images: seq<PieceImage>, image: PieceImage)
    requires image in images
    ensures InSomeSet(AssembleSets(projects, images), image)
      <==> (|image.piece.projects| == 0 || exists p :: p in projects && p.slug in image.piece.projects)
  {
    NonEmptySetsKeepImages(ImagesByProject(projects, images), image);
    GroupedIff(projects, images, image);
  }

  /** Groups that all belong to a project give sets titled with their own group's project title. */
  lemma TitledGroupsGiveTitledSets(groups: seq<ProjectGroup>)
    requires forall k :: 0 <= k < |groups| ==> groups[k].project.Some?
    ensures forall k :: 0 <= k < |NonEmptySets(groups)| ==>
      exists j :: 0 <= j < |groups| &&
        NonEmptySets(groups)[k] == TitledSet(Some(groups[j].project.value.title), groups[j].images)
  {
    var kept := Filter(groups, HasImages);
    forall k | 0 <= k < |kept|
      ensures exists j :: 0 <= j < |groups| && SetOf(kept[k]) == TitledSet(Some(groups[j].project.value.title), groups[j].images)
    {
      assert kept[k] in kept;
      var j :| 0 <= j < |groups| && groups[j] == kept[k];
      assert SetOf(kept[k]) == TitledSet(Some(groups[j].project.value.title), groups[j].images);
    }
  }

  /**
   * Titled groups followed by one untitled group: every set is one of the
   * titled groups under its project's title, or it is the last set and holds
   * the untitled group's images with no title; the last set is untitled iff
   * that group has images.
   */
  lemma UntitledGroupLast(grouped: seq<ProjectGroup>, last: ProjectGroup)
    requires forall k :: 0 <= k < |grouped| ==> grouped[k].project.Some?
    requires last.project.None?
    ensures var sets := NonEmptySets(grouped + [last]);
      && (forall k :: 0 <= k < |sets| ==>
            (exists j :: 0 <= j < |grouped| &&
               sets[k] == TitledSet(Some(grouped[j].project.value.title), grouped[j].images))
            || (k == |sets| - 1 && sets[k] == TitledSet(None, last.images)))
      && (|sets| > 0 && sets[|sets| - 1].title.None? <==> |last.images| > 0)
  {
    NonEmptySetsConcat(grouped, [last]);
    var front := NonEmptySets(grouped);
    var back := NonEmptySets([last]);
    assert back == if HasImages(last) then [SetOf(last)] else [];
    TitledGroupsGiveTitledSets(grouped);
    if |back| == 0 {
      assert |front| > 0 ==> front[|front| - 1].title.Some? by {
        if |front| > 0 {
          var j :| 0 <= j < |grouped| &&
            front[|front| - 1] == TitledSet(Some(grouped[j].project.value.title), grouped[j].images);
        }
      }
    }
  }

  /** The assembled sets are the sets of the project groups, then the untitled group's set when it has images. */
  lemma AssembleSetsSplit(projects: seq<Project>, images: seq<PieceImage>)
    ensures var last := UnassignedGroup(images);
      AssembleSets(projects, images) ==
        NonEmptySets(GroupByProject(projects, images)) + (if |last.images| > 0 then [TitledSet(None, last.images)] else [])
  {
    var grouped := GroupByProject(projects, images);
    var last := UnassignedGroup(images);
    assert ImagesByProject(projects, images) == grouped + [last];
    NonEmptySetsConcat(grouped, [last]);
    assert NonEmptySets([last]) == if HasImages(last) then [SetOf(last)] else [];
  }

  /**
   * Set `k` of `sets` is `{ title: project.title, images }` for one of the
   * projects with a non-empty group, or it is the last set and is
   * `{ title: null, images }` holding the images whose piece has no project.
   */
  predicate AssembledShape(projects: seq<Project>, images: seq<PieceImage>, sets: seq<TitledSet>, k: int)
    requires 0 <= k < |sets|
  {
    var grouped := GroupByProject(projects, images);
    (exists j :: 0 <= j < |projects| && |grouped[j].images| > 0 &&
       sets[k] == TitledSet(Some(projects[j].title), grouped[j].images))
    || (k == |sets| - 1 && sets[k] == TitledSet(None, UnassignedGroup(images).images))
  }

  /** Every assembled set has the shape above. */
  lemma AssembledSetShapes(projects: seq<Project>, images: seq<PieceImage>)
    ensures var sets := AssembleSets(projects, images);
      forall k :: 0 <= k < |sets| ==> AssembledShape(projects, images, sets, k)
  {
    var grouped := GroupByProject(projects, images);
    var last := UnassignedGroup(images);
    var sets := AssembleSets(projects, images);
    var front := NonEmptySets(grouped);
    AssembleSetsSplit(projects, images);
    TitledGroupsGiveTitledSets(grouped);
    forall k | 0 <= k < |sets|
      ensures AssembledShape(projects, images, sets, k)
    {
      if k < |front| {
        var j :| 0 <= j < |grouped| &&
          front[k] == TitledSet(Some(grouped[j].project.value.title), grouped[j].images);
        assert sets[k] == front[k];
        assert |front[k].images| > 0;
        assert grouped[j].project.value.title == projects[j].title;
        assert 0 <= j < |projects| && |grouped[j].images| > 0 &&
          sets[k] == TitledSet(Some(projects[j].title), grouped[j].images);
      } else {
        assert k == |sets| - 1 && sets[k] == TitledSet(None, last.images);
      }
    }
  }

  /** The last assembled set is untitled exactly when some image has no project. */
  lemma LastSetUntitledIff(projects: seq<Project>, images: seq<PieceImage>)
    ensures var sets := AssembleSets(projects, images);
      |sets| > 0 && sets[|sets| - 1].title.None? <==> exists image :: image in images && |image.piece.projects| == 0
  {
    var grouped := GroupByProject(projects, images);
    var last := UnassignedGroup(images);
    var sets := AssembleSets(projects, images);
    var front := NonEmptySets(grouped);
    AssembleSetsSplit(projects, images);
    if exists image :: image in images && |image.piece.projects| == 0 {
      var image :| image in images && |image.piece.projects| == 0;
      assert image in last.images;
    }
    if |last.images| > 0 {
      assert last.images[0] in last.images;
    } else {
      assert sets == front;
      if |front| > 0 {
        TitledGroupsGiveTitledSets(grouped);
        var j :| 0 <= j < |grouped| &&
          front[|front| - 1] == TitledSet(Some(grouped[j].project.value.title), grouped[j].images);
      }
    }
  }

  /**
   * Every set is `{ title: project.title, images }` for one of the designer's
   * projects with a non-empty group, or it is the last set and is
   * `{ title: null, images }` with the images whose piece has no project; the
   * last set is untitled exactly when some image has no project.
   */
  lemma UntitledSetIsLast(projects: seq<Project>, images: seq<PieceImage>)
    ensures var sets := AssembleSets(projects, images);
      && (forall k :: 0 <= k < |sets| ==> AssembledShape(projects, images, sets, k))
      && (|sets| > 0 && sets[|sets| - 1].title.None? <==> exists image :: image in images && |image.piece.projects| == 0)
  {
    AssembledSetShapes(projects, images);
    LastSetUntitledIff(projects, images);
  }

  /** A group with images gives its set: only empty groups are dropped. */
  lemma NonEmptySetsHas(groups: seq<ProjectGroup>, group: ProjectGroup)
    requires group in groups && HasImages(group)
    ensures SetOf(group) in NonEmptySets(groups)
  {
    var kept := Filter(groups, HasImages);
    assert group in kept;
    var k :| 0 <= k < |kept| && kept[k] == group;
    assert NonEmptySets(groups)[k] == SetOf(group);
  }

  /** Every project of the designer whose group has images appears as a set under that project's title. */
  lemma NonEmptyProjectGroupsShown(projects: seq<Project>, images: seq<PieceImage>)
    ensures forall j :: 0 <= j < |projects| && |GroupByProject(projects, images)[j].images| > 0 ==>
      TitledSet(Some(projects[j].title), GroupByProject(projects, images)[j].images) in AssembleSets(projects, images)
  {
    var grouped := GroupByProject(projects, images);
    var groups := ImagesByProject(projects, images);
    forall j | 0 <= j < |projects| && |grouped[j].images| > 0
      ensures TitledSet(Some(projects[j].title), grouped[j].images) in AssembleSets(projects, images)
    {
      assert groups[j] == grouped[j];
      NonEmptySetsHas(groups, grouped[j]);
    }
  }

  /** Set multiplication adds no new set: every set of its result is one of its input. */
  lemma WithFirstTwiceMoreKeepsSets(sets: seq<TitledSet>)
    ensures forall k :: 0 <= k < |WithFirstTwiceMore(sets)| ==> WithFirstTwiceMore(sets)[k] in sets
  {
    if sets != [] {
      assert sets[0] in sets;
    }
  }

  // ---------------------------------------------------------------------------
  // Image multiplication changes nothing but the number of copies

  function RepeatGroups(groups: seq<ProjectGroup>, n: nat): (r: seq<ProjectGroup>)
    ensures |r| == |groups|
  {
    seq(|groups|, k requires 0 <= k < |groups| => ProjectGroup(groups[k].project, Repeat(groups[k].images, n)))
  }

  /** `b` is `a` with the images of every set repeated `n` times. */
  predicate SetsRepeated(a: seq<TitledSet>, b: seq<TitledSet>, n: nat) {
    |a| == |b| && forall k :: 0 <= k < |a| ==> b[k].title == a[k].title && b[k].images == Repeat(a[k].images, n)
  }

  lemma PositiveTimes(n: nat, m: nat)
    requires n > 0
    ensures n * m > 0 <==> m > 0
  {
    if m > 0 {
      MulAtLeast(m, n);
    }
  }

  lemma {:induction false} RepeatGroupsSets(groups: seq<ProjectGroup>, n: nat)
    requires n > 0
    ensures SetsRepeated(NonEmptySets(groups), NonEmptySets(RepeatGroups(groups, n)), n)
  {
    if groups != [] {
      var g := groups[0];
      var g' := ProjectGroup(g.project, Repeat(g.images, n));
      assert groups == [g] + groups[1..];
      assert RepeatGroups(groups, n) == [g'] + RepeatGroups(groups[1..], n);
      NonEmptySetsConcat([g], groups[1..]);
      NonEmptySetsConcat([g'], RepeatGroups(groups[1..], n));
      RepeatGroupsSets(groups[1..], n);
      PositiveTimes(n, |g.images|);
      var a, b := NonEmptySets([g]), NonEmptySets(RepeatGroups(groups[1..], n));
      assert a == if HasImages(g) then [SetOf(g)] else [];
      assert NonEmptySets([g']) == if HasImages(g) then [SetOf(g')] else [];
    }
  }

  /**
   * Sets assembled from `n` copies of the images are the sets assembled from
   * the images themselves, in the same order and with the same titles, each
   * holding its images `n` times: the multiplication step can be dropped
   * without changing which sets the page shows.
   */
  lemma ImageMultiplicationRepeatsSets(projects: seq<Project>, images: seq<PieceImage>, n: nat)
    requires n > 0
    ensures SetsRepeated(AssembleSets(projects, images), AssembleSets(projects, Repeat(images, n)), n)
  {
    var groups := ImagesByProject(projects, images);
    var repeated := ImagesByProject(projects, Repeat(images, n));
    forall k | 0 <= k < |groups| ensures repeated[k] == RepeatGroups(groups, n)[k] {
      if k < |projects| {
        FilterRepeat(images, n, InProject(projects[k].slug));
      } else {
        FilterRepeat(images, n, WithoutProject);
      }
    }
    assert repeated == RepeatGroups(groups, n);
    RepeatGroupsSets(groups, n);
  }

  // ---------------------------------------------------------------------------
  // Set multiplication and the whole pipeline

  /** What the set multiplication promises: on a non-empty list, two more copies of the first set. */
  function WithFirstTwiceMore(sets: seq<TitledSet>): seq<TitledSet> {
    if sets == [] then [] else sets + [sets[0], sets[0]]
  }

  /** The temporary set multiplication: twice `imageSets = imageSets.concat(imageSets.slice(0, 1))`. */
  method MultiplySets(sets: seq<TitledSet>) returns (r: seq<TitledSet>)
    ensures r == WithFirstTwiceMore(sets)
    ensures |r| == if sets == [] then 0 else |sets| + 2
  {
    r := sets;
    for i := 0 to 2
      invariant r == if sets == [] then [] else sets + Repeat([sets[0]], i)
    {
      var first := r[..if |r| < 1 then |r| else 1];
      if sets != [] {
        assert first == [sets[0]];
        RepeatAdd([sets[0]], i, 1);
      }
      r := r + first;
    }
  }

  /** The image sets `render()` hands to the gallery, values only. */
  function PageImageSets(
    allProjects: seq<Project>, designer: Designer,
    imagePath: Option<string> -> string,
    imageTexts: (Designer, Piece, seq<Project>) -> Option<Gallery.ImageTexts>): seq<TitledSet>
  {
    var projects := DesignerProjects(allProjects, designer.slug);
    var images := seq(|designer.pieces|, k requires 0 <= k < |designer.pieces| =>
      ImageOf(designer, projects, imagePath, imageTexts, designer.pieces[k]));
    WithFirstTwiceMore(AssembleSets(projects, Repeat(images, 8)))
  }

  /** The data pipeline of `render()`, step by step as the template runs it. */
  method ImageSets(
    allProjects: seq<Project>, designers: seq<Designer>, slug: string,
    imagePath: Option<string> -> string,
    imageTexts: (Designer, Piece, seq<Project>) -> Option<Gallery.ImageTexts>)
    returns (imageSets: seq<TitledSet>)
    requires FindDesigner(designers, slug).Some?
    ensures imageSets == PageImageSets(allProjects, FindDesigner(designers, slug).value, imagePath, imageTexts)
    ensures forall k :: 0 <= k < |imageSets| ==> |imageSets[k].images| > 0
  {
    var designer := FindDesigner(designers, slug).value;
    var projects := DesignerProjects(allProjects, slug);
    var images := CollectImages(designer, projects, imagePath, imageTexts);
    assert images == seq(|designer.pieces|, k requires 0 <= k < |designer.pieces| =>
      ImageOf(designer, projects, imagePath, imageTexts, designer.pieces[k]));
    images := MultiplyImages(images);
    var imagesByProject := GroupByProject(projects, images);
    imagesByProject := imagesByProject + [UnassignedGroup(images)];
    imageSets := NonEmptySets(imagesByProject);
    ghost var assembled := imageSets;
    imageSets := MultiplySets(imageSets);
    WithFirstTwiceMoreKeepsSets(assembled);
  }

  // ---------------------------------------------------------------------------
  // Handing the sets to the gallery

  /** The gallery descriptor of a template image: `src` and `texts`; no `alt`, no `unexpandedLink`. */
  function ToGalleryImage(image: PieceImage): Gallery.Image {
    Gallery.Image(image.src, None, None, image.texts)
  }

  function ToGallerySets(sets: seq<TitledSet>): (gallerySets: seq<Gallery.ImageSet>)
    ensures |gallerySets| == |sets|
    ensures forall k :: 0 <= k < |sets| ==> |gallerySets[k].images| == |sets[k].images|
    ensures forall k :: 0 <= k < |sets| ==> gallerySets[k].title == sets[k].title
    ensures forall k, i :: 0 <= k < |sets| && 0 <= i < |sets[k].images| ==>
      && gallerySets[k].images[i].src == sets[k].images[i].src
      && gallerySets[k].images[i].texts == sets[k].images[i].texts
      && gallerySets[k].images[i].alt.None? && gallerySets[k].images[i].unexpandedLink.None?
  {
    seq(|sets|, k requires 0 <= k < |sets| =>
      Gallery.ImageSet(sets[k].title,
        seq(|sets[k].images|, i requires 0 <= i < |sets[k].images| => ToGalleryImage(sets[k].images[i]))))
  }

  /**
   * On the designer page every rendered set has an image, so the anchor of the
   * first image of each set exists; when there is any set at all, the top
   * anchor that Escape scrolls back to is rendered.
   */
  lemma EverySetHasAnAnchor(cfg: Gallery.Config, expanded: bool, sets: seq<TitledSet>)
    requires forall k :: 0 <= k < |sets| ==> |sets[k].images| > 0
    ensures var gallerySets := ToGallerySets(sets);
      forall s :: 0 <= s < |sets| ==> Gallery.ValidPosition(gallerySets, s, 0)
    ensures var gallerySets := ToGallerySets(sets);
      var page := Gallery.RenderPage(cfg, expanded, gallerySets);
      |sets| > 0 ==> exists s, i :: Gallery.ValidPosition(gallerySets, s, i) && page.sets[s].images[i].anchor == Gallery.TopAnchor
  {
    var gallerySets := ToGallerySets(sets);
    Gallery.CollapseTargetRendered(cfg, expanded, gallerySets);
    if |sets| > 0 {
      assert Gallery.ValidPosition(gallerySets, 0, 0);
    }
  }
}
