/**
 * The gallery component `ImageList` (site/src/layouts/ImageList.js): one
 * boolean of view state, `isExpanded`, changed by image clicks, the Escape key
 * and the expansion button, and a render step that derives every per-image
 * fact from that boolean and the props.
 *
 * The handlers are modelled twice: as pure functions from
 * the old state to an `Outcome` (the new `isExpanded` and the effects emitted,
 * in order), which the lemmas reason about, and as the methods of the class
 * `ImageList`, whose contracts tie each method to its function.
 */
module Gallery {
  import opened Wrappers
  import opened Anchors

  // ---------------------------------------------------------------------------
  // Props and effects

  datatype ImageTexts = ImageTexts(
    smallText: Option<string>,
    title: Option<string>,
    data: seq<string>,
    caption: Option<string>,
    credit: Option<string>)

  /** An image descriptor as the caller hands it over; `alt` absent means undefined. */
  datatype Image = Image(
    src: string,
    alt: Option<string>,
    unexpandedLink: Option<string>,
    texts: Option<ImageTexts>)

  datatype ImageSet = ImageSet(title: Option<string>, images: seq<Image>)

  /** The props that steer behaviour; `hasHoverCallback` says whether `onImageHover` was given. */
  datatype Config = Config(alwaysExpand: bool, unexpandable: bool, hasHoverCallback: bool)

  /** A call of the smooth-scroll service: `Scroll.scroller.scrollTo(anchor, {duration, smooth, offset})`. */
  datatype ScrollCommand = ScrollCommand(anchor: string, offset: int, duration: nat, smooth: bool)

  /** What the component does to the outside world: call `onImageHover`, or scroll. */
  datatype Effect = HoverCall(image: Option<Image>) | Scroll(command: ScrollCommand)

  const EscapeKeyCode: int := 27
  const ScrollDuration: nat := 100
  const ExpandOffset: int := -24
  const CollapseOffset: int := -170
  /** The anchor `unexpand()` scrolls back to, written out literally in the source. */
  const TopAnchor: string := "set-0-image-0"

  /** The effect of `scrollTo(name, offset)`. */
  function ScrollEffect(name: string, offset: int): Effect {
    Scroll(ScrollCommand(name, offset, ScrollDuration, true))
  }

  function ScrollCount(effects: seq<Effect>): nat {
    if effects == [] then 0 else (if effects[0].Scroll? then 1 else 0) + ScrollCount(effects[1..])
  }

  function HoverCount(effects: seq<Effect>): nat {
    if effects == [] then 0 else (if effects[0].HoverCall? then 1 else 0) + HoverCount(effects[1..])
  }

  lemma {:induction false} CountsOfConcat(a: seq<Effect>, b: seq<Effect>)
    ensures ScrollCount(a + b) == ScrollCount(a) + ScrollCount(b)
    ensures HoverCount(a + b) == HoverCount(a) + HoverCount(b)
  {
    if a == [] {
      assert a + b == b;
    } else {
      assert (a + b)[0] == a[0];
      assert (a + b)[1..] == a[1..] + b;
      CountsOfConcat(a[1..], b);
    }
  }

  // ---------------------------------------------------------------------------
  // The handlers as functions of the old state

  /** The new `isExpanded` after a handler ran, and the effects it emitted, in order. */
  datatype Outcome = Outcome(expanded: bool, effects: seq<Effect>)

  /** `unexpand()`: nothing under `alwaysExpand`; otherwise collapse, then scroll to the top. */
  function UnexpandOutcome(cfg: Config, expanded: bool): Outcome {
    if cfg.alwaysExpand then Outcome(expanded, [])
    else Outcome(false, [ScrollEffect(TopAnchor, CollapseOffset)])
  }

  /** `onKeyDown(ev)`: Escape while expanded unexpands; every other key press does nothing. */
  function KeyDownOutcome(cfg: Config, expanded: bool, keyCode: int): Outcome {
    if expanded && keyCode == EscapeKeyCode then UnexpandOutcome(cfg, expanded)
    else Outcome(expanded, [])
  }

  /**
   * `onImageClick(setIndex, imageIndex)`: inert when unexpandable or already
   * expanded; otherwise clear the hover (if there is a callback), expand, and
   * once the state is updated scroll to the clicked image.
   */
  function ClickOutcome(cfg: Config, expanded: bool, setIndex: nat, imageIndex: nat): Outcome {
    if cfg.unexpandable || expanded then Outcome(expanded, [])
    else
      var hover := if cfg.hasHoverCallback then [HoverCall(None)] else [];
      Outcome(true, hover + [ScrollEffect(Anchor(setIndex, imageIndex), ExpandOffset)])
  }

  /** The expansion button's `onClick` closure: expand silently if compact, else unexpand. */
  function ButtonOutcome(cfg: Config, expanded: bool): Outcome {
    if !expanded then Outcome(true, []) else UnexpandOutcome(cfg, expanded)
  }

  // ---------------------------------------------------------------------------
  // Properties of the handlers

  lemma ClickInert(cfg: Config, expanded: bool, setIndex: nat, imageIndex: nat)
    requires cfg.unexpandable || expanded
    ensures ClickOutcome(cfg, expanded, setIndex, imageIndex) == Outcome(expanded, [])
  {
  }

  /** From compact, a click expands, clears the hover iff there is a callback, and scrolls once to the clicked image. */
  lemma ClickFromCompact(cfg: Config, setIndex: nat, imageIndex: nat)
    requires !cfg.unexpandable
    ensures var o := ClickOutcome(cfg, false, setIndex, imageIndex);
      && o.expanded
      && ScrollCount(o.effects) == 1
      && HoverCount(o.effects) == (if cfg.hasHoverCallback then 1 else 0)
      && (cfg.hasHoverCallback ==> o.effects[0] == HoverCall(None))
      && o.effects[|o.effects| - 1] == Scroll(ScrollCommand(Anchor(setIndex, imageIndex), -24, 100, true))
  {
    var o := ClickOutcome(cfg, false, setIndex, imageIndex);
    var hover: seq<Effect> := if cfg.hasHoverCallback then [HoverCall(None)] else [];
    assert o.effects == hover + [ScrollEffect(Anchor(setIndex, imageIndex), ExpandOffset)];
    CountsOfConcat(hover, [ScrollEffect(Anchor(setIndex, imageIndex), ExpandOffset)]);
  }

  /** Escape while expanded (and not pinned) collapses and scrolls once to the first image of the first set. */
  lemma EscapeFromExpanded(cfg: Config)
    requires !cfg.alwaysExpand
    ensures var o := KeyDownOutcome(cfg, true, 27);
      && !o.expanded
      && ScrollCount(o.effects) == 1
      && o.effects == [Scroll(ScrollCommand("set-0-image-0", -170, 100, true))]
  {
  }

  /** Any key but Escape, and Escape while compact, leave everything as it was. */
  lemma OtherKeysInert(cfg: Config, expanded: bool, keyCode: int)
    requires keyCode != 27 || !expanded
    ensures KeyDownOutcome(cfg, expanded, keyCode) == Outcome(expanded, [])
  {
  }

  // ---------------------------------------------------------------------------
  // Lifecycle and events

  /** The component's mutable state: `isExpanded`, and whether the window keydown listener is registered. */
  datatype View = View(expanded: bool, listening: bool)

  /** Everything that can happen to a gallery, in the order it happens. */
  datatype Event =
    | Mounted
    | Unmounted
    | KeyPressed(keyCode: int)
    | ImageClicked(setIndex: nat, imageIndex: nat)
    | ButtonPressed

  datatype Transition = Transition(view: View, effects: seq<Effect>)

  /** The state after construction: expanded exactly when `alwaysExpand`, no listener yet. */
  function Initial(cfg: Config): (v: View)
    ensures v.expanded == cfg.alwaysExpand && !v.listening
  {
    View(if cfg.alwaysExpand then true else false, false)
  }

  function Apply(v: View, o: Outcome): Transition {
    Transition(v.(expanded := o.expanded), o.effects)
  }

  /**
   * One event. A key press reaches `onKeyDown` only while the listener is
   * registered; the button can be pressed only while it is rendered.
   */
  function Step(cfg: Config, v: View, ev: Event): Transition {
    match ev
    case Mounted => Transition(v.(listening := true), [])
    case Unmounted => Transition(v.(listening := false), [])
    case KeyPressed(k) =>
      if v.listening then Apply(v, KeyDownOutcome(cfg, v.expanded, k)) else Transition(v, [])
    case ImageClicked(s, i) => Apply(v, ClickOutcome(cfg, v.expanded, s, i))
    case ButtonPressed =>
      if ExpansionButton(cfg, v.expanded).Some? then Apply(v, ButtonOutcome(cfg, v.expanded))
      else Transition(v, [])
  }

  /** A sequence of events, the effects of all of them in order. */
  function Run(cfg: Config, v: View, events: seq<Event>): Transition
    decreases |events|
  {
    if events == [] then Transition(v, [])
    else
      var t := Step(cfg, v, events[0]);
      var rest := Run(cfg, t.view, events[1..]);
      Transition(rest.view, t.effects + rest.effects)
  }

  /** Exactly one scroll per change of `isExpanded`, and none when it stays. */
  lemma StepScrollsExactlyOnToggle(cfg: Config, v: View, ev: Event)
    ensures var t := Step(cfg, v, ev);
      ScrollCount(t.effects) == (if t.view.expanded != v.expanded then 1 else 0)
  {
    match ev
    case ImageClicked(s, i) =>
      if !cfg.unexpandable && !v.expanded {
        ClickFromCompact(cfg, s, i);
      }
    case _ =>
  }

  /** The hover is cleared only when a click expands the gallery, and then only if there is a callback. */
  lemma StepHoverOnlyOnExpand(cfg: Config, v: View, ev: Event)
    ensures var t := Step(cfg, v, ev);
      HoverCount(t.effects) == (if !v.expanded && t.view.expanded && cfg.hasHoverCallback then 1 else 0)
  {
    match ev
    case ImageClicked(s, i) =>
      if !cfg.unexpandable && !v.expanded {
        ClickFromCompact(cfg, s, i);
      }
    case _ =>
  }

  /** Over any run, the number of scrolls is odd exactly when the run ends in the other state. */
  lemma {:induction false} RunScrollParity(cfg: Config, v: View, events: seq<Event>)
    ensures var t := Run(cfg, v, events);
      ScrollCount(t.effects) % 2 == (if t.view.expanded == v.expanded then 0 else 1)
    decreases |events|
  {
    if events != [] {
      var t := Step(cfg, v, events[0]);
      StepScrollsExactlyOnToggle(cfg, v, events[0]);
      RunScrollParity(cfg, t.view, events[1..]);
      CountsOfConcat(t.effects, Run(cfg, t.view, events[1..]).effects);
    }
  }

  /** Under `alwaysExpand` the gallery stays expanded and emits nothing, whatever happens. */
  lemma {:induction false} AlwaysExpandPinned(cfg: Config, v: View, events: seq<Event>)
    requires cfg.alwaysExpand && v.expanded
    ensures Run(cfg, v, events).view.expanded
    ensures Run(cfg, v, events).effects == []
    decreases |events|
  {
    if events != [] {
      AlwaysExpandPinned(cfg, Step(cfg, v, events[0]).view, events[1..]);
    }
  }

  /** Under `unexpandable` (without `alwaysExpand`) the gallery stays compact and emits nothing. */
  lemma {:induction false} UnexpandablePinned(cfg: Config, v: View, events: seq<Event>)
    requires cfg.unexpandable && !cfg.alwaysExpand && !v.expanded
    ensures !Run(cfg, v, events).view.expanded
    ensures Run(cfg, v, events).effects == []
    decreases |events|
  {
    if events != [] {
      UnexpandablePinned(cfg, Step(cfg, v, events[0]).view, events[1..]);
    }
  }

  /** From construction on, each flag pins the state it names. */
  lemma PinnedFromConstruction(cfg: Config, events: seq<Event>)
    ensures cfg.alwaysExpand ==> Run(cfg, Initial(cfg), events).view.expanded
    ensures cfg.alwaysExpand ==> ScrollCount(Run(cfg, Initial(cfg), events).effects) == 0
    ensures cfg.unexpandable && !cfg.alwaysExpand ==> !Run(cfg, Initial(cfg), events).view.expanded
  {
    if cfg.alwaysExpand {
      AlwaysExpandPinned(cfg, Initial(cfg), events);
    } else if cfg.unexpandable {
      UnexpandablePinned(cfg, Initial(cfg), events);
    }
  }

  predicate AllKeyPresses(events: seq<Event>) {
    forall k :: 0 <= k < |events| ==> events[k].KeyPressed?
  }

  /** Without a registered listener, key presses change nothing and emit nothing. */
  lemma {:induction false} KeysIgnoredWhileUnmounted(cfg: Config, v: View, events: seq<Event>)
    requires !v.listening && AllKeyPresses(events)
    ensures Run(cfg, v, events) == Transition(v, [])
    decreases |events|
  {
    if events != [] {
      assert events[0].KeyPressed?;
      assert AllKeyPresses(events[1..]) by {
        forall k | 0 <= k < |events[1..]| ensures events[1..][k].KeyPressed? {
          assert events[1..][k] == events[k + 1];
        }
      }
      KeysIgnoredWhileUnmounted(cfg, v, events[1..]);
    }
  }

  /** A sample session: mount, click image 2 of set 1, then press Escape. */
  lemma ClickThenEscape()
    ensures var cfg := Config(false, false, true);
      Run(cfg, Initial(cfg), [Mounted, ImageClicked(1, 2), KeyPressed(27)]) ==
      Transition(View(false, true),
        [ HoverCall(None),
          Scroll(ScrollCommand("set-1-image-2", -24, 100, true)),
          Scroll(ScrollCommand("set-0-image-0", -170, 100, true)) ])
  {
    var cfg := Config(false, false, true);
    var events := [Mounted, ImageClicked(1, 2), KeyPressed(27)];
    assert Anchor(1, 2) == "set-1-image-2";
    assert events[1..] == [ImageClicked(1, 2), KeyPressed(27)];
    assert events[1..][1..] == [KeyPressed(27)];
  }

  // ---------------------------------------------------------------------------
  // Rendering

  /** JavaScript truthiness of an optional string: present and not empty. */
  predicate Truthy(o: Option<string>) {
    o.Some? && o.value != ""
  }

  /** The label of the expansion button, if it is rendered at all. */
  function ExpansionButton(cfg: Config, expanded: bool): (button: Option<char>)
    ensures button.Some? <==> !cfg.alwaysExpand && !cfg.unexpandable && expanded
    ensures button.Some? ==> button.value == 'x'
  {
    if cfg.alwaysExpand || cfg.unexpandable then None
    else if !expanded then None
    else Some(if expanded then 'x' else 'o')
  }

  /** Pressing the button, whenever it is there, is the same as `unexpand()`. */
  lemma ButtonIsUnexpand(cfg: Config, expanded: bool)
    requires ExpansionButton(cfg, expanded).Some?
    ensures ButtonOutcome(cfg, expanded) == UnexpandOutcome(cfg, expanded)
    ensures !ButtonOutcome(cfg, expanded).expanded
  {
  }

  datatype TextClass = ExpandedText | CompactText

  datatype RenderedTexts = RenderedTexts(
    containerClass: TextClass,
    smallText: Option<string>,
    title: Option<string>,
    data: seq<string>,
    caption: Option<string>,
    credit: Option<string>)

  /**
   * One rendered image: its scroll anchor, the `img` attributes, the hover
   * handlers (as the effect each would emit), the `Link` target it is wrapped
   * in, its click event and its text block.
   */
  datatype RenderedImage = RenderedImage(
    anchor: string,
    src: string,
    alt: string,
    onMouseEnter: Option<Effect>,
    onMouseLeave: Option<Effect>,
    link: Option<string>,
    itemExpanded: bool,
    onClick: Event,
    texts: Option<RenderedTexts>)

  datatype RenderedSet = RenderedSet(unexpandableClass: bool, title: Option<string>, images: seq<RenderedImage>)

  datatype Page = Page(expansionButton: Option<char>, sets: seq<RenderedSet>)

  function RenderTexts(expanded: bool, t: ImageTexts): RenderedTexts {
    RenderedTexts(
      if expanded then ExpandedText else CompactText,
      if Truthy(t.smallText) then t.smallText else None,
      t.title, t.data, t.caption, t.credit)
  }

  function RenderImage(cfg: Config, expanded: bool, setIndex: nat, i: nat, image: Image): RenderedImage {
    var hovering := !expanded && cfg.hasHoverCallback;
    RenderedImage(
      Anchor(setIndex, i),
      image.src,
      image.alt.GetOr(""),
      if hovering then Some(HoverCall(Some(image))) else None,
      if hovering then Some(HoverCall(None)) else None,
      if expanded || !Truthy(image.unexpandedLink) then None else image.unexpandedLink,
      expanded,
      ImageClicked(setIndex, i),
      if image.texts.Some? then Some(RenderTexts(expanded, image.texts.value)) else None)
  }

  function RenderSet(cfg: Config, expanded: bool, setIndex: nat, imageSet: ImageSet): RenderedSet {
    RenderedSet(
      cfg.unexpandable,
      if Truthy(imageSet.title) then imageSet.title else None,
      seq(|imageSet.images|, i requires 0 <= i < |imageSet.images| => RenderImage(cfg, expanded, setIndex, i, imageSet.images[i])))
  }

  /** `render()`: every set is rendered, empty ones included, and every image of every set. */
  function RenderPage(cfg: Config, expanded: bool, sets: seq<ImageSet>): (page: Page)
    ensures |page.sets| == |sets|
    ensures forall s :: 0 <= s < |sets| ==> |page.sets[s].images| == |sets[s].images|
  {
    Page(
      ExpansionButton(cfg, expanded),
      seq(|sets|, s requires 0 <= s < |sets| => RenderSet(cfg, expanded, s, sets[s])))
  }

  predicate ValidPosition(sets: seq<ImageSet>, s: int, i: int) {
    0 <= s < |sets| && 0 <= i < |sets[s].images|
  }

  /** Hover handlers exist only while compact and with a callback; enter passes the image, leave passes null. */
  lemma HoverHandlers(cfg: Config, expanded: bool, sets: seq<ImageSet>, s: nat, i: nat)
    requires ValidPosition(sets, s, i)
    ensures var r := RenderPage(cfg, expanded, sets).sets[s].images[i];
      && (r.onMouseEnter.Some? <==> !expanded && cfg.hasHoverCallback)
      && (r.onMouseLeave.Some? <==> !expanded && cfg.hasHoverCallback)
      && (r.onMouseEnter.Some? ==> r.onMouseEnter.value == HoverCall(Some(sets[s].images[i])))
      && (r.onMouseLeave.Some? ==> r.onMouseLeave.value == HoverCall(None))
  {
  }

  /** An image is wrapped in a `Link` exactly while compact and with a non-empty `unexpandedLink`. */
  lemma LinkWrapping(cfg: Config, expanded: bool, sets: seq<ImageSet>, s: nat, i: nat)
    requires ValidPosition(sets, s, i)
    ensures var r := RenderPage(cfg, expanded, sets).sets[s].images[i];
      && (r.link.Some? <==> !expanded && Truthy(sets[s].images[i].unexpandedLink))
      && (r.link.Some? ==> r.link == sets[s].images[i].unexpandedLink)
  {
  }

  /** The text block appears iff the image has texts; its class follows the state; `alt` defaults to empty. */
  lemma TextBlock(cfg: Config, expanded: bool, sets: seq<ImageSet>, s: nat, i: nat)
    requires ValidPosition(sets, s, i)
    ensures var image := sets[s].images[i];
      var r := RenderPage(cfg, expanded, sets).sets[s].images[i];
      && (r.texts.Some? <==> image.texts.Some?)
      && (r.texts.Some? ==> r.texts.value.containerClass == (if expanded then ExpandedText else CompactText))
      && (r.texts.Some? ==> (r.texts.value.smallText.Some? <==> Truthy(image.texts.value.smallText)))
      && (image.alt.None? ==> r.alt == "")
  {
  }

  /**
   * Clicking a rendered image on a compact, expandable gallery scrolls to that
   * image's own anchor, and no other rendered image carries that anchor.
   */
  lemma ClickScrollsToOwnAnchor(cfg: Config, listening: bool, sets: seq<ImageSet>, s: nat, i: nat)
    requires !cfg.unexpandable && ValidPosition(sets, s, i)
    ensures var page := RenderPage(cfg, false, sets);
      var r := page.sets[s].images[i];
      var t := Step(cfg, View(false, listening), r.onClick);
      && t.view.expanded
      && t.effects[|t.effects| - 1] == ScrollEffect(r.anchor, ExpandOffset)
      && forall s', i' :: ValidPosition(sets, s', i') && page.sets[s'].images[i'].anchor == r.anchor ==> s' == s && i' == i
  {
    var page := RenderPage(cfg, false, sets);
    ClickFromCompact(cfg, s, i);
    forall s', i' | ValidPosition(sets, s', i') && page.sets[s'].images[i'].anchor == page.sets[s].images[i].anchor
      ensures s' == s && i' == i
    {
      AnchorInjective(s', i', s, i);
    }
  }

  /**
   * The collapse scroll targets an element of the page exactly when the first
   * set has an image, and then the first image of the first set: the component
   * renders empty sets too, so an empty first set leaves the target missing.
   */
  lemma CollapseTargetRendered(cfg: Config, expanded: bool, sets: seq<ImageSet>)
    ensures var page := RenderPage(cfg, expanded, sets);
      (exists s, i :: ValidPosition(sets, s, i) && page.sets[s].images[i].anchor == TopAnchor)
      <==> ValidPosition(sets, 0, 0)
    ensures var page := RenderPage(cfg, expanded, sets);
      forall s, i :: ValidPosition(sets, s, i) && page.sets[s].images[i].anchor == TopAnchor ==> s == 0 && i == 0
  {
    var page := RenderPage(cfg, expanded, sets);
    TopAnchorIsFirstImage();
    if ValidPosition(sets, 0, 0) {
      assert page.sets[0].images[0].anchor == TopAnchor;
    }
    forall s, i | ValidPosition(sets, s, i) && page.sets[s].images[i].anchor == TopAnchor
      ensures s == 0 && i == 0
    {
      AnchorInjective(s, i, 0, 0);
    }
  }

  // ---------------------------------------------------------------------------
  // The component

  class ImageList {
    const alwaysExpand: bool
    const unexpandable: bool
    const hasHoverCallback: bool

    var isExpanded: bool
    /** Whether `onKeyDown` is registered as a window keydown listener. */
    var listening: bool
    /** Every effect emitted so far, oldest first. */
    var effects: seq<Effect>

    function Props(): Config {
      Config(alwaysExpand, unexpandable, hasHoverCallback)
    }

    function State(): View
      reads this
    {
      View(isExpanded, listening)
    }

    constructor (alwaysExpand: bool, unexpandable: bool, hasHoverCallback: bool)
      ensures Props() == Config(alwaysExpand, unexpandable, hasHoverCallback)
      ensures State() == Initial(Props()) && effects == []
    {
      this.alwaysExpand := alwaysExpand;
      this.unexpandable := unexpandable;
      this.hasHoverCallback := hasHoverCallback;
      isExpanded := if alwaysExpand then true else false;
      listening := false;
      effects := [];
    }

    /** `componentDidMount`: register the keydown listener. */
    method Mount()
      modifies this
      ensures State() == Step(Props(), old(State()), Mounted).view
      ensures effects == old(effects)
    {
      listening := true;
    }

    /** `componentWillUnmount`: remove the keydown listener (harmless if it is not registered). */
    method Unmount()
      modifies this
      ensures State() == Step(Props(), old(State()), Unmounted).view
      ensures effects == old(effects)
    {
      listening := false;
    }

    /** `scrollTo(name, offset)`: issue one scroll command, duration 100, smooth (the source's default `offset = 0` is not modelled; every caller passes one). */
    method ScrollTo(name: string, offset: int)
      modifies this
      ensures effects == old(effects) + [Scroll(ScrollCommand(name, offset, 100, true))]
      ensures State() == old(State())
    {
      effects := effects + [ScrollEffect(name, offset)];
    }

    method Unexpand()
      modifies this
      ensures var o := UnexpandOutcome(Props(), old(isExpanded));
        isExpanded == o.expanded && effects == old(effects) + o.effects
      ensures listening == old(listening)
    {
      if alwaysExpand {
        return;
      }
      isExpanded := false;
      ScrollTo("set-0-image-0", -170);
    }

    method OnKeyDown(keyCode: int)
      modifies this
      ensures var o := KeyDownOutcome(Props(), old(isExpanded), keyCode);
        isExpanded == o.expanded && effects == old(effects) + o.effects
      ensures listening == old(listening)
    {
      if isExpanded && keyCode == 27 {
        Unexpand();
      }
    }

    method OnImageClick(setIndex: nat, imageIndex: nat)
      modifies this
      ensures var o := ClickOutcome(Props(), old(isExpanded), setIndex, imageIndex);
        isExpanded == o.expanded && effects == old(effects) + o.effects
      ensures listening == old(listening)
    {
      if unexpandable || isExpanded {
        return;
      }
      if hasHoverCallback {
        effects := effects + [HoverCall(None)];
      }
      isExpanded := true;
      ScrollTo(Anchor(setIndex, imageIndex), -24);
    }

    /** The `onClick` closure of the expansion button. */
    method ExpansionButtonClick()
      modifies this
      ensures var o := ButtonOutcome(Props(), old(isExpanded));
        isExpanded == o.expanded && effects == old(effects) + o.effects
      ensures listening == old(listening)
    {
      if !isExpanded {
        isExpanded := true;
      } else {
        Unexpand();
      }
    }

    /** A keydown on the window: it reaches `onKeyDown` only while the listener is registered. */
    method WindowKeyDown(keyCode: int)
      modifies this
      ensures State() == Step(Props(), old(State()), KeyPressed(keyCode)).view
      ensures effects == old(effects) + Step(Props(), old(State()), KeyPressed(keyCode)).effects
    {
      if listening {
        OnKeyDown(keyCode);
      }
    }

    /** Deliver one event to the component: the class follows `Step` exactly. */
    method Dispatch(ev: Event)
      modifies this
      ensures State() == Step(Props(), old(State()), ev).view
      ensures effects == old(effects) + Step(Props(), old(State()), ev).effects
    {
      match ev
      case Mounted => Mount();
      case Unmounted => Unmount();
      case KeyPressed(k) => WindowKeyDown(k);
      case ImageClicked(s, i) => OnImageClick(s, i);
      case ButtonPressed =>
        if ExpansionButton(Props(), isExpanded).Some? {
          ExpansionButtonClick();
        }
    }
  }
}
