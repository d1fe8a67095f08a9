/**
 * The host page as this module sees it: which of a fixed set of element ids
 * the document has, the `style.visibility` of each, and the two primitives
 * that write and read one of them (nodeVisibility and isDOMNodeShown).
 */
module Dom {

  datatype ElementId =
    | Hotbar | CameraViews | Fps              // the bottom group
    | Logo | Controls | Players               // the left group
    | UiTop | UiRight | UiLeft | UiBottom | Pause

  /**
   * An element's `style.visibility`. Unset stands for every value other than
   * 'visible' and 'hidden' (the empty string included): both primitives treat
   * all of those alike.
   */
  datatype Visibility = Unset | Visible | Hidden

  /** What `document.getElementById` finds: nothing, or a node with its visibility. */
  datatype Node = NoNode | Node(visibility: Visibility)

  /**
   * The second argument of nodeVisibility: the strings 'visible', 'hidden'
   * and 'toggle', and OtherArg for any other string.
   */
  datatype VisibilityArg = VisibleArg | HiddenArg | ToggleArg | OtherArg(text: string)

  /**
   * The page: the ids the document has, and one style per id. The module
   * only writes styles, so `present` never changes; the style of an id that
   * is not present is never read.
   */
  datatype Page = Page(
    present: set<ElementId>,
    hotbar: Visibility, cameraViews: Visibility, fps: Visibility,
    logo: Visibility, controls: Visibility, players: Visibility,
    uiTop: Visibility, uiRight: Visibility, uiLeft: Visibility, uiBottom: Visibility, pause: Visibility)

  predicate Present(p: Page, id: ElementId) {
    id in p.present
  }

  /** The stored style of an element. */
  function Style(p: Page, id: ElementId): Visibility {
    match id
    case Hotbar => p.hotbar
    case CameraViews => p.cameraViews
    case Fps => p.fps
    case Logo => p.logo
    case Controls => p.controls
    case Players => p.players
    case UiTop => p.uiTop
    case UiRight => p.uiRight
    case UiLeft => p.uiLeft
    case UiBottom => p.uiBottom
    case Pause => p.pause
  }

  /** `document.getElementById(id)` */
  function GetElementById(p: Page, id: ElementId): (n: Node)
    ensures n.Node? <==> Present(p, id)
  {
    if Present(p, id) then Node(Style(p, id)) else NoNode
  }

  /** The page with the style of `id` replaced by `v`. */
  function SetStyle(p: Page, id: ElementId, v: Visibility): (r: Page)
    ensures r.present == p.present
    ensures Style(r, id) == v
  {
    match id
    case Hotbar => p.(hotbar := v)
    case CameraViews => p.(cameraViews := v)
    case Fps => p.(fps := v)
    case Logo => p.(logo := v)
    case Controls => p.(controls := v)
    case Players => p.(players := v)
    case UiTop => p.(uiTop := v)
    case UiRight => p.(uiRight := v)
    case UiLeft => p.(uiLeft := v)
    case UiBottom => p.(uiBottom := v)
    case Pause => p.(pause := v)
  }

  /** The value `style.visibility` has after `style.visibility = <visibility>` over `current`. */
  function NewVisibility(current: Visibility, visibility: VisibilityArg): Visibility {
    match visibility
    case VisibleArg => Visible
    case HiddenArg => Hidden
    case ToggleArg => if current == Visible then Hidden else Visible
    case OtherArg(_) => current
  }

  /** The logo guard: 'visible' on the logo is ignored while the showFoundryLogo setting is off. */
  predicate LogoGuarded(id: ElementId, visibility: VisibilityArg, showFoundryLogo: bool) {
    id == Logo && visibility == VisibleArg && !showFoundryLogo
  }

  /** nodeVisibility on the element `id`: a missing element and a guarded write keep the old style. */
  function ApplyVisibility(p: Page, id: ElementId, visibility: VisibilityArg, showFoundryLogo: bool): (r: Page)
    ensures r.present == p.present
  {
    var current := Style(p, id);
    SetStyle(p, id, if Present(p, id) && !LogoGuarded(id, visibility, showFoundryLogo)
                    then NewVisibility(current, visibility) else current)
  }

  /**
   * The rules of nodeVisibility: a missing element is left alone; 'visible'
   * on the logo is ignored while showFoundryLogo is off; 'visible' and
   * 'hidden' are stored; 'toggle' turns a visible element hidden and anything
   * else visible; every other argument does nothing; no other element changes.
   */
  lemma NodeVisibilityRules(p: Page, id: ElementId, visibility: VisibilityArg, showFoundryLogo: bool)
    ensures var r := ApplyVisibility(p, id, visibility, showFoundryLogo);
      && (forall j :: j != id ==> GetElementById(r, j) == GetElementById(p, j))
      && (!Present(p, id) ==> r == p)
      && (visibility.OtherArg? ==> r == p)
      && (Present(p, id) && visibility == HiddenArg ==> GetElementById(r, id) == Node(Hidden))
      && (Present(p, id) && visibility == VisibleArg ==>
            GetElementById(r, id) == if id == Logo && !showFoundryLogo then GetElementById(p, id) else Node(Visible))
      && (Present(p, id) && visibility == ToggleArg ==>
            GetElementById(r, id) == if GetElementById(p, id) == Node(Visible) then Node(Hidden) else Node(Visible))
  {
    var r := ApplyVisibility(p, id, visibility, showFoundryLogo);
    forall j | j != id
      ensures GetElementById(r, j) == GetElementById(p, j)
    {
      SetStyleFrame(p, id, Style(r, id), j);
    }
    if !Present(p, id) || visibility.OtherArg? || LogoGuarded(id, visibility, showFoundryLogo) {
      SetStyleSame(p, id);
    }
  }

  /** Replacing one style leaves every other style alone. */
  lemma SetStyleFrame(p: Page, id: ElementId, v: Visibility, j: ElementId)
    requires j != id
    ensures Style(SetStyle(p, id, v), j) == Style(p, j)
  {
  }

  /** Storing back the style an element has changes nothing. */
  lemma SetStyleSame(p: Page, id: ElementId)
    ensures SetStyle(p, id, Style(p, id)) == p
  {
  }

  /** The second of two stores to one style wins. */
  lemma SetStyleTwice(p: Page, id: ElementId, v: Visibility, w: Visibility)
    ensures SetStyle(SetStyle(p, id, v), id, w) == SetStyle(p, id, w)
  {
  }

  /** isDOMNodeShown: a missing element is not shown; a present one is shown unless it is 'hidden'. */
  function IsDOMNodeShown(p: Page, id: ElementId): (shown: bool)
    ensures shown ==> Present(p, id)
    ensures Present(p, id) ==> (shown <==> GetElementById(p, id).visibility != Hidden)
  {
    match GetElementById(p, id)
    case NoNode => false
    case Node(v) => v != Hidden
  }

  /** Reading an element back after writing it: 'hidden' reads as not shown, an unguarded 'visible' as shown. */
  lemma ReadAfterWrite(p: Page, id: ElementId, showFoundryLogo: bool)
    requires Present(p, id)
    ensures !IsDOMNodeShown(ApplyVisibility(p, id, HiddenArg, showFoundryLogo), id)
    ensures id != Logo || showFoundryLogo ==> IsDOMNodeShown(ApplyVisibility(p, id, VisibleArg, showFoundryLogo), id)
    ensures (IsDOMNodeShown(ApplyVisibility(p, id, ToggleArg, showFoundryLogo), id)
             <==> GetElementById(p, id) != Node(Visible))
  {
  }

  /** With showFoundryLogo off, no argument but 'toggle' makes the logo visible. */
  lemma LogoGuard(p: Page, id: ElementId, visibility: VisibilityArg)
    requires GetElementById(p, Logo) != Node(Visible) && visibility != ToggleArg
    ensures GetElementById(ApplyVisibility(p, id, visibility, false), Logo) != Node(Visible)
  {
    if id != Logo {
      SetStyleFrame(p, id, Style(ApplyVisibility(p, id, visibility, false), id), Logo);
    }
  }

  /** The guard covers only 'visible': 'toggle' shows a hidden logo even with showFoundryLogo off. */
  lemma ToggleBypassesLogoGuard(p: Page)
    requires GetElementById(p, Logo) == Node(Hidden)
    ensures GetElementById(ApplyVisibility(p, Logo, ToggleArg, false), Logo) == Node(Visible)
  {
  }

  /** 'toggle' on an element that is neither visible nor hidden makes it visible, so it still reads as shown. */
  lemma ToggleOfUnsetStaysShown(p: Page, id: ElementId, showFoundryLogo: bool)
    requires GetElementById(p, id) == Node(Unset)
    ensures IsDOMNodeShown(p, id) && IsDOMNodeShown(ApplyVisibility(p, id, ToggleArg, showFoundryLogo), id)
  {
  }

  /** Writing 'visible' or 'hidden' twice is the same as writing it once. */
  lemma WriteIdempotent(p: Page, id: ElementId, visibility: VisibilityArg, showFoundryLogo: bool)
    requires visibility == VisibleArg || visibility == HiddenArg
    ensures var once := ApplyVisibility(p, id, visibility, showFoundryLogo);
            ApplyVisibility(once, id, visibility, showFoundryLogo) == once
  {
    var once := ApplyVisibility(p, id, visibility, showFoundryLogo);
    SetStyleTwice(p, id, Style(once, id), Style(once, id));
  }

  /** On an element that is visible or hidden, 'toggle' twice restores the page. */
  lemma ToggleTwice(p: Page, id: ElementId, showFoundryLogo: bool)
    requires Present(p, id) && Style(p, id) != Unset
    ensures var once := ApplyVisibility(p, id, ToggleArg, showFoundryLogo);
            ApplyVisibility(once, id, ToggleArg, showFoundryLogo) == p
  {
    var once := ApplyVisibility(p, id, ToggleArg, showFoundryLogo);
    SetStyleTwice(p, id, Style(once, id), Style(p, id));
    SetStyleSame(p, id);
  }
}
