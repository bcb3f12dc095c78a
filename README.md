# Designer portfolio gallery: view state and image-set assembly

This project models the two pieces of logic in a designer-portfolio site. Everything else there is styling and declarative composition.

- **The gallery component `ImageList`** (`site/src/layouts/ImageList.js`). It holds one boolean, `isExpanded`, which starts as `alwaysExpand`. Three triggers change it: a click on an image, the Escape key (key code 27) through a window keydown listener, and the expansion button. Each change emits a hover-callback call with `null` and/or one scroll command `(anchor, offset, duration 100, smooth)`. The render step derives everything else from the state and the props: the anchor name `set-<s>-image-<i>`, the hover handlers, the `Link` wrapping, the text-container class and the expansion button.
- **The designer page template `DesignerTemplate`** (`site/src/templates/designer.js`). It holds a hover state and runs a data pipeline. The pipeline picks the designer's projects and builds one image per piece. It multiplies the images (×8, marked temporary in the source) and groups them per project, in project order. It appends an untitled group for pieces with no project, drops empty groups, and appends the first set twice more (also marked temporary).

Modules:

- `Wrappers` (`wrappers.dfy`): `Option`, for JavaScript's `null`/`undefined`.
- `Seqs` (`seqs.dfy`): `Filter` (`Array.prototype.filter`) and `Repeat` (repeated `concat`), with their laws.
- `Anchors` (`anchors.dfy`): decimal rendering of indices and anchor names. It proves that distinct image positions get distinct anchors.
- `Gallery` (`gallery.dfy`): the handlers as pure functions from the old state to an `Outcome` (new `isExpanded`, plus the effects emitted, in order). It also has a `Step`/`Run` semantics over event sequences, the render model, and the class `ImageList`. The class's fields are `isExpanded`, `listening` and the effect log `effects`; each method's contract ties it to its pure function.
- `DesignerPage` (`designer.dfy`): the site data, the class `DesignerTemplate` with its hover state, and the pipeline. The pipeline's loops (`forEach`/`push` and the two multiplication loops) are methods proved against specification functions. The filter/map grouping is pure functions.

`setState(update, callback)` is modelled as "apply the update, then run the callback". The external helpers `pieceImagePath` and `pieceImageTexts` are function parameters (`imagePath`, `imageTexts`); their code is not part of this model.

Where the code and a natural reading of the page disagree, the model follows the code:

- The untitled trailing group holds only images whose piece has an **empty** `projects` list. A piece listing only projects that are not among the designer's projects is shown in no set at all (`DesignerPage.ImageShownIff`).
- An image whose piece lists several of the designer's projects appears in several sets. The ×8 multiplication and the set multiplication also put identical images in several places.
- `ImageList` renders every set it is given, empty ones included (`Gallery.RenderPage`). Empty sets are dropped only by the designer template. Anchor set indices are therefore positions after that filter.
- If the first set given to `ImageList` is empty, the `set-0-image-0` anchor that Escape scrolls to is not rendered (`Gallery.CollapseTargetRendered`). On the designer page every set is non-empty, so the anchor exists whenever there is a set (`DesignerPage.EverySetHasAnAnchor`).

## Model

| member | source | states |
|---|---|---|
| `Anchors.DecimalRoundTrip` | site/src/layouts/ImageList.js:323 | the decimal text of an index reads back as that index, so writing indices into anchor names loses nothing |
| `Anchors.AnchorInjective` | site/src/layouts/ImageList.js:323 | two image positions have the same anchor `set-<s>-image-<i>` iff they are the same position |
| `Anchors.TopAnchorIsFirstImage` | site/src/layouts/ImageList.js:272 | the literal scroll target `set-0-image-0` is the anchor of image 0 of set 0 |
| `Gallery.Initial` | site/src/layouts/ImageList.js:212-214 | the initial state is expanded exactly when `alwaysExpand`; no key listener yet |
| `Gallery.ClickInert` | site/src/layouts/ImageList.js:255 | a click while `unexpandable` or already expanded changes nothing: no state change, no hover call, no scroll |
| `Gallery.ClickFromCompact` | site/src/layouts/ImageList.js:257-263 | from compact and not `unexpandable`, a click on `(s, i)` expands, emits exactly one hover call (with `null`) iff a callback was given, and that call comes first; it emits exactly one scroll, last, to `set-s-image-i` with offset -24, duration 100, smooth |
| `Gallery.EscapeFromExpanded` | site/src/layouts/ImageList.js:225-230 | Escape (27) while expanded and not `alwaysExpand` collapses and emits exactly one scroll, to `set-0-image-0` with offset -170, duration 100, smooth |
| `Gallery.OtherKeysInert` | site/src/layouts/ImageList.js:225-230 | any other key, and Escape while compact, change nothing and emit nothing |
| `Gallery.StepScrollsExactlyOnToggle` | site/src/layouts/ImageList.js:254-274 | every event emits exactly one scroll when it changes `isExpanded` and none when it does not |
| `Gallery.StepHoverOnlyOnExpand` | site/src/layouts/ImageList.js:254-264 | an event calls the hover callback only when it takes the gallery from compact to expanded and a callback exists, and then exactly once |
| `Gallery.RunScrollParity` | site/src/layouts/ImageList.js:254-274 | over any event sequence, the number of scrolls is odd exactly when the final state differs from the first |
| `Gallery.AlwaysExpandPinned` | site/src/layouts/ImageList.js:266-269 | under `alwaysExpand`, every sequence of clicks, key presses, button presses and lifecycle events keeps the gallery expanded and emits no effect at all |
| `Gallery.UnexpandablePinned` | site/src/layouts/ImageList.js:255 | under `unexpandable` without `alwaysExpand`, every event sequence keeps the gallery compact and emits nothing: clicks are inert and there is no button |
| `Gallery.PinnedFromConstruction` | site/src/layouts/ImageList.js:207-215 | from the constructed state, `alwaysExpand` pins expanded with zero scrolls, and `unexpandable` alone pins compact, for every event sequence |
| `Gallery.KeysIgnoredWhileUnmounted` | site/src/layouts/ImageList.js:217-223 | while the keydown listener is not registered, any sequence of key presses leaves state and effects untouched |
| `Gallery.ClickThenEscape` | site/src/layouts/ImageList.js:254-274 | mount, click image 2 of set 1, press Escape: ends compact after exactly hover(null), a scroll to `set-1-image-2` at -24, and a scroll to `set-0-image-0` at -170 |
| `Gallery.ExpansionButton` | site/src/layouts/ImageList.js:232-252 | the button is rendered iff `!alwaysExpand && !unexpandable && isExpanded`, and it then shows `x` |
| `Gallery.ButtonIsUnexpand` | site/src/layouts/ImageList.js:239-245 | whenever the button is rendered, pressing it has exactly the outcome of `unexpand()` and leaves the gallery compact |
| `Gallery.RenderPage` | site/src/layouts/ImageList.js:292-300 | every given set is rendered, empty ones included, with one rendered image per image |
| `Gallery.HoverHandlers` | site/src/layouts/ImageList.js:303-306 | mouse-enter and mouse-leave handlers exist iff compact and a callback was given; enter passes the image descriptor, leave passes `null` |
| `Gallery.LinkWrapping` | site/src/layouts/ImageList.js:330-334 | an image is wrapped in a `Link` iff compact and `unexpandedLink` is a non-empty string, and the link goes to `unexpandedLink` |
| `Gallery.TextBlock` | site/src/layouts/ImageList.js:301-341 | the text block is rendered iff the image has texts; its class is `expanded`/`compact` with the state; the small text shows iff it is a non-empty string; `alt` defaults to the empty string |
| `Gallery.ClickScrollsToOwnAnchor` | site/src/layouts/ImageList.js:322-328 | clicking a rendered image of a compact, expandable gallery expands it and scrolls to that image's own anchor, which no other rendered image carries |
| `Gallery.CollapseTargetRendered` | site/src/layouts/ImageList.js:272 | the Escape scroll target is rendered iff the first set has an image, and then only as image 0 of set 0 |
| `Gallery.ImageList.constructor` | site/src/layouts/ImageList.js:207-215 | the props are fixed; `isExpanded` is `alwaysExpand`; no listener; no effects yet |
| `Gallery.ImageList.Mount` | site/src/layouts/ImageList.js:217-219 | registers the keydown listener, nothing else changes |
| `Gallery.ImageList.Unmount` | site/src/layouts/ImageList.js:221-223 | removes the keydown listener (also when absent), nothing else changes |
| `Gallery.ImageList.ScrollTo` | site/src/layouts/ImageList.js:276-282 | appends one scroll command with the given anchor and offset, duration 100, smooth; state unchanged |
| `Gallery.ImageList.Unexpand` | site/src/layouts/ImageList.js:266-274 | new state and appended effects are those of `UnexpandOutcome`: none under `alwaysExpand`, else collapse, then one scroll to the top |
| `Gallery.ImageList.OnKeyDown` | site/src/layouts/ImageList.js:225-230 | new state and appended effects are those of `KeyDownOutcome` |
| `Gallery.ImageList.OnImageClick` | site/src/layouts/ImageList.js:254-264 | new state and appended effects are those of `ClickOutcome`: hover call first, then the state update, then its scroll callback |
| `Gallery.ImageList.ExpansionButtonClick` | site/src/layouts/ImageList.js:239-245 | new state and appended effects are those of `ButtonOutcome` |
| `Gallery.ImageList.WindowKeyDown` | site/src/layouts/ImageList.js:218 | a window keydown reaches `onKeyDown` only while the listener is registered |
| `Gallery.ImageList.Dispatch` | site/src/layouts/ImageList.js:206-283 | the component follows `Step` exactly for every event, so every lemma about `Step` and `Run` holds of the class |
| `DesignerPage.NormalizeHover` | site/src/templates/designer.js:50 | the stored value is present iff the argument is an image, and is then that image |
| `DesignerPage.DesignerTemplate.constructor` | site/src/templates/designer.js:39-47 | the hover state starts as `null` |
| `DesignerPage.DesignerTemplate.ImageHoverHandler` | site/src/templates/designer.js:49-51 | stores the image it is called with, or `null` for `null` and `undefined` |
| `DesignerPage.FindDesigner` | site/src/templates/designer.js:60 | no result iff no designer has the slug; otherwise the first designer with that slug |
| `DesignerPage.DesignerProjects` | site/src/templates/designer.js:62-64 | a project is kept iff it is an input project whose `designers` include the slug |
| `DesignerPage.DesignerProjectsPreserveOrder` | site/src/templates/designer.js:62-64 | the project filter keeps input order (it distributes over concatenation) |
| `DesignerPage.CollectImages` | site/src/templates/designer.js:66-77 | one image per piece of the designer, in piece order, with that piece attached and its path and texts from the helpers |
| `DesignerPage.MultiplyImages` | site/src/templates/designer.js:80-82 | three rounds of self-concatenation give exactly eight consecutive copies of the list |
| `DesignerPage.MultipliedImages` | site/src/templates/designer.js:80-82 | eight copies are eight times as long, start with the original list, and hold at position k the original's image k modulo its length |
| `Seqs.RepeatAt` | site/src/templates/designer.js:80-82 | position k of n copies holds the element at k modulo the original length |
| `DesignerPage.GroupByProject` | site/src/templates/designer.js:84-89 | one group per project, in project order; a group holds an image iff the image's piece lists that project's slug |
| `DesignerPage.GroupsPreserveOrder` | site/src/templates/designer.js:84-89 | each group keeps the images in their `images` order |
| `DesignerPage.UnassignedGroup` | site/src/templates/designer.js:91-95 | the pushed group has no project and holds an image iff its piece has an empty `projects` list |
| `DesignerPage.ImagesByProject` | site/src/templates/designer.js:84-95 | the project groups in order, then the untitled group |
| `DesignerPage.NonEmptySets` | site/src/templates/designer.js:97-102 | every resulting set is non-empty |
| `DesignerPage.NonEmptySetsConcat` | site/src/templates/designer.js:97-102 | dropping empty groups keeps the relative order of the rest |
| `DesignerPage.NonEmptySetsKeepImages` | site/src/templates/designer.js:97-102 | dropping empty groups loses no image: an image is in some resulting set iff it was in some group |
| `DesignerPage.GroupedIff` | site/src/templates/designer.js:84-95 | an image is in some group iff its piece has no project or lists the slug of one of the designer's projects |
| `DesignerPage.ImageShownIff` | site/src/templates/designer.js:84-98 | an image reaches some set iff its piece has no project or lists one of the designer's projects |
| `DesignerPage.TitledGroupsGiveTitledSets` | site/src/templates/designer.js:97-102 | groups with a project give sets that are each one of those groups, under its own project's title |
| `DesignerPage.UntitledGroupLast` | site/src/templates/designer.js:91-102 | after titled groups and one untitled group, every set is one of the titled groups under its project's title, or it is the last set with no title and the untitled group's images; the last set is untitled iff that group has images |
| `DesignerPage.UntitledSetIsLast` | site/src/templates/designer.js:91-102 | every set has `AssembledShape`: it is `{ title: projects[j].title, images }` for a project j whose group is non-empty, or it is the last set, `{ title: null, images }` holding the images whose piece has no project; the last is untitled iff some image's piece has no project |
| `DesignerPage.AssembledSetShapes` | site/src/templates/designer.js:83-102 | every assembled set is a non-empty project group under its project's title, or the trailing untitled group |
| `DesignerPage.LastSetUntitledIff` | site/src/templates/designer.js:91-102 | the last assembled set is untitled iff some image's piece has no project |
| `DesignerPage.NonEmptyProjectGroupsShown` | site/src/templates/designer.js:83-102 | every project whose group has images appears as a set with that project's title and that group's images: only empty groups are dropped |
| `DesignerPage.ImageMultiplicationRepeatsSets` | site/src/templates/designer.js:79-98 | assembling from n copies of the images gives the same sets, titles and order as assembling from the images, each set holding its images n times |
| `DesignerPage.MultiplySets` | site/src/templates/designer.js:104-107 | on a non-empty list exactly two sets are appended, both equal to the first; an empty list is unchanged |
| `DesignerPage.WithFirstTwiceMoreKeepsSets` | site/src/templates/designer.js:105-107 | set multiplication introduces no set that was not already there |
| `DesignerPage.ImageSets` | site/src/templates/designer.js:59-107 | the step-by-step pipeline yields the value-level composition of the steps, and every set it hands to the gallery is non-empty |
| `DesignerPage.ToGallerySets` | site/src/templates/designer.js:123-126 | the sets handed to the gallery keep their number, sizes and titles, and every image keeps its `src` and `texts`, with no `alt` and no `unexpandedLink` |
| `DesignerPage.EverySetHasAnAnchor` | site/src/templates/designer.js:97-98 | on the designer page every set renders an anchor for its image 0, and the Escape scroll target is rendered whenever there is a set |

## Left out

- Styling: the `styled` components, CSS, media queries, and the `.small`/`.expanded-text` show/hide rules. Only the class names chosen are modelled.
- The scroll animation itself. A scroll command is recorded as data; timing and smoothing are not modelled.
- React itself: rendering to the DOM, element `key`s, and async `setState` batching. An update is treated as immediate, and then its callback runs.
- The `window` listener API is reduced to the `listening` flag. Registering the same handler twice, or removing an absent one, has no effect in this model, as in the DOM.
- Props never change after construction: they are `const` fields.
- Mouse-enter and mouse-leave are modelled as the effect each rendered handler would emit, not as events of `Step`, because they do not touch the gallery's state.
- `Step` accepts image clicks in any lifecycle state. The handler itself has no mounted check.
- Clicking the `Link` navigates away. Navigation is outside the model.
- The `piece` field: `Gallery.Image` has src, alt, unexpandedLink and texts, but no `piece`. The template's images reach the gallery through `ToGalleryImage`. `DesignerTemplate.ImageHoverHandler` takes the template's own image (which carries `piece`) directly.
- The code of `pieceImagePath`, `pieceImageTexts`, `designerLink` and `createPanes`, and the other layout components (`HiddenSelector`, `HoverInfo`, `PieceSummary`, ...): these are not part of this model. The first two are function parameters.
- The designer selector items (`designers.map` with `designerLink`, site/src/templates/designer.js:109-114): they depend on `designerLink`, whose code is not part of this model.
- The GraphQL `pageQuery` and the `Helmet` title: data fetching and page metadata only.
- Missing list fields: `Designer.pieces`, `Piece.projects`, `Piece.images` and `Project.designers` are assumed to be present arrays. The page query can return `null` for a field absent from the data, and the source then throws a TypeError (site/src/templates/designer.js:64, 67, 70, 87, 94). That error path is not modelled.
- A failing `designers.find`: `ImageSets` requires a designer with the current slug to exist.
