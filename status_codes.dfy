/**
 * The two status codes: a number 0..7 saying which of three elements are
 * visible, for the bottom group (hotbar, camera views, fps) and the left
 * group (logo, scene controls, player list). The setters share one table; the
 * getters add the three visibilities up and read "third element only" as 7.
 */
module StatusCodes {
  import opened Wrappers
  import opened Dom

  datatype Group = Bottom | Left

  function First(g: Group): ElementId {
    match g
    case Bottom => Hotbar
    case Left => Logo
  }

  function Second(g: Group): ElementId {
    match g
    case Bottom => CameraViews
    case Left => Controls
  }

  function Third(g: Group): ElementId {
    match g
    case Bottom => Fps
    case Left => Players
  }

  predicate InGroup(id: ElementId, g: Group) {
    id == First(g) || id == Second(g) || id == Third(g)
  }

  predicate GroupPresent(p: Page, g: Group) {
    Present(p, First(g)) && Present(p, Second(g)) && Present(p, Third(g))
  }

  /** Which of a group's three elements are visible (or, read back, shown). */
  datatype Pattern = Pattern(first: bool, second: bool, third: bool)

  /** The switch of setBottomStatus and setLeftStatus; a code outside 0..7 matches no case. */
  function StatusPattern(code: int): (r: Option<Pattern>)
    ensures r.Some? <==> 0 <= code <= 7
  {
    match code
    case 0 => Some(Pattern(false, false, false))
    case 1 => Some(Pattern(true, false, false))
    case 2 => Some(Pattern(false, true, false))
    case 3 => Some(Pattern(true, true, false))
    case 4 => Some(Pattern(true, false, true))
    case 5 => Some(Pattern(false, true, true))
    case 6 => Some(Pattern(true, true, true))
    case 7 => Some(Pattern(false, false, true))
    case _ => None
  }

  /** A value the status encoders produce. */
  type StatusValue = code: int | 0 <= code <= 7

  /** A boolean used as a number. */
  function Bit(b: bool): int {
    if b then 1 else 0
  }

  /**
   * getBottomStatus's arithmetic: first + 2 * second + 3 * third, where the
   * third element alone (which adds up to 3, like first and second together)
   * is read as 7. It inverts the setters' table.
   */
  function StatusCode(pat: Pattern): (code: int)
    ensures 0 <= code <= 7
    ensures StatusPattern(code) == Some(pat)
  {
    var status := Bit(pat.first) + 2 * Bit(pat.second) + 3 * Bit(pat.third);
    if Bit(pat.first) + Bit(pat.second) == 0 && status == 3 then 7 else status
  }

  /**
   * getLeftStatus's arithmetic as written: its special case tests
   * `players == 3`, a boolean against 3, which loose equality never satisfies;
   * so "players only" is read as 3, the same as logo and controls together.
   */
  function LeftStatusCodeAsWritten(pat: Pattern): (code: int)
    ensures 0 <= code <= 6
    ensures pat != Pattern(false, false, true) ==> code == StatusCode(pat)
  {
    var status := Bit(pat.first) + 2 * Bit(pat.second) + 3 * Bit(pat.third);
    if Bit(pat.first) + Bit(pat.second) == 0 && Bit(pat.third) == 3 then 7 else status
  }

  /** The table read forwards then backwards: every code 0..7 comes back. */
  lemma CodeRoundTrip(code: int)
    requires 0 <= code <= 7
    ensures StatusCode(StatusPattern(code).value) == code
  {
    var pat := StatusPattern(code).value;
    assert StatusPattern(StatusCode(pat)) == Some(pat);
  }

  function Command(visible: bool): VisibilityArg {
    if visible then VisibleArg else HiddenArg
  }

  /** Write one case of the switch: the pattern's three visibilities, first to third. */
  function ApplyPattern(p: Page, g: Group, pat: Pattern, showFoundryLogo: bool): (r: Page)
    ensures r.present == p.present
  {
    var p1 := ApplyVisibility(p, First(g), Command(pat.first), showFoundryLogo);
    var p2 := ApplyVisibility(p1, Second(g), Command(pat.second), showFoundryLogo);
    ApplyVisibility(p2, Third(g), Command(pat.third), showFoundryLogo)
  }

  /** setBottomStatus / setLeftStatus: a code outside 0..7 matches no case of the switch. */
  function ApplyStatus(p: Page, g: Group, code: int, showFoundryLogo: bool): (r: Page)
    ensures r.present == p.present
    ensures !(0 <= code <= 7) ==> r == p
  {
    match StatusPattern(code)
    case None => p
    case Some(pat) => ApplyPattern(p, g, pat, showFoundryLogo)
  }

  /** What isDOMNodeShown reports for the group's three elements. */
  function Shown(p: Page, g: Group): Pattern {
    Pattern(IsDOMNodeShown(p, First(g)), IsDOMNodeShown(p, Second(g)), IsDOMNodeShown(p, Third(g)))
  }

  /** getBottomStatus */
  function GetBottomStatus(p: Page): (code: int)
    ensures 0 <= code <= 7
    ensures StatusPattern(code) == Some(Shown(p, Bottom))
  {
    StatusCode(Shown(p, Bottom))
  }

  /** getLeftStatus, with the special case corrected to test the sum as getBottomStatus does. */
  function GetLeftStatus(p: Page): (code: int)
    ensures 0 <= code <= 7
    ensures StatusPattern(code) == Some(Shown(p, Left))
  {
    StatusCode(Shown(p, Left))
  }

  /** getLeftStatus as written. */
  function GetLeftStatusAsWritten(p: Page): (code: int)
    ensures 0 <= code <= 6
  {
    LeftStatusCodeAsWritten(Shown(p, Left))
  }

  /**
   * After setting an in-range code on a group whose three elements exist,
   * they read back as the table says, unless the logo guard drops a
   * 'visible' on the logo.
   */
  lemma ApplyStatusShows(p: Page, g: Group, code: int, showFoundryLogo: bool)
    requires GroupPresent(p, g) && 0 <= code <= 7
    requires g == Bottom || showFoundryLogo
    ensures Shown(ApplyStatus(p, g, code, showFoundryLogo), g) == StatusPattern(code).value
  {
    var pat := StatusPattern(code).value;
    var p1 := ApplyVisibility(p, First(g), Command(pat.first), showFoundryLogo);
    var p2 := ApplyVisibility(p1, Second(g), Command(pat.second), showFoundryLogo);
    var p3 := ApplyVisibility(p2, Third(g), Command(pat.third), showFoundryLogo);
    assert p3 == ApplyPattern(p, g, pat, showFoundryLogo);
    assert IsDOMNodeShown(p3, First(g)) == pat.first;
    assert IsDOMNodeShown(p3, Second(g)) == pat.second;
    assert IsDOMNodeShown(p3, Third(g)) == pat.third;
  }

  /** With its three elements present, getBottomStatus after setBottomStatus(code) is code, for every code 0..7. */
  lemma BottomRoundTrip(p: Page, code: int, showFoundryLogo: bool)
    requires GroupPresent(p, Bottom) && 0 <= code <= 7
    ensures GetBottomStatus(ApplyStatus(p, Bottom, code, showFoundryLogo)) == code
  {
    ApplyStatusShows(p, Bottom, code, showFoundryLogo);
    CodeRoundTrip(code);
  }

  /** The intended left round trip, which the corrected getter meets for every code 0..7. */
  lemma LeftRoundTrip(p: Page, code: int)
    requires GroupPresent(p, Left) && 0 <= code <= 7
    ensures GetLeftStatus(ApplyStatus(p, Left, code, true)) == code
  {
    ApplyStatusShows(p, Left, code, true);
    CodeRoundTrip(code);
  }

  /** The left round trip as written: codes 0..6 come back, 7 comes back as 3. */
  lemma LeftRoundTripAsWritten(p: Page, code: int)
    requires GroupPresent(p, Left) && 0 <= code <= 7
    ensures GetLeftStatusAsWritten(ApplyStatus(p, Left, code, true)) == if code == 7 then 3 else code
  {
    ApplyStatusShows(p, Left, code, true);
    CodeRoundTrip(code);
  }

  /**
   * With showFoundryLogo off, setLeftStatus still hides the logo when the code
   * says so, but where it says 'visible' the logo keeps what it showed before.
   */
  lemma LeftStatusWithoutLogo(p: Page, code: int)
    requires GroupPresent(p, Left) && 0 <= code <= 7
    ensures var pat := StatusPattern(code).value;
            Shown(ApplyStatus(p, Left, code, false), Left)
              == Pattern(pat.first && IsDOMNodeShown(p, Logo), pat.second, pat.third)
  {
    var pat := StatusPattern(code).value;
    var p1 := ApplyVisibility(p, Logo, Command(pat.first), false);
    var p2 := ApplyVisibility(p1, Controls, Command(pat.second), false);
    var p3 := ApplyVisibility(p2, Players, Command(pat.third), false);
    assert p3 == ApplyPattern(p, Left, pat, false);
    assert IsDOMNodeShown(p3, Logo) == (pat.first && IsDOMNodeShown(p, Logo));
  }

  /** Code 7 writes 'hidden' to the logo, so the logo guard does not matter for it. */
  lemma PlayersOnlyShown(p: Page, showFoundryLogo: bool)
    requires GroupPresent(p, Left)
    ensures Shown(ApplyStatus(p, Left, 7, showFoundryLogo), Left) == Pattern(false, false, true)
  {
    if showFoundryLogo {
      ApplyStatusShows(p, Left, 7, true);
    } else {
      LeftStatusWithoutLogo(p, 7);
    }
  }

  /** Code 0 writes 'hidden' to all three elements, so the logo guard does not matter for it either. */
  lemma AllHiddenShown(p: Page, g: Group, showFoundryLogo: bool)
    requires GroupPresent(p, g)
    ensures Shown(ApplyStatus(p, g, 0, showFoundryLogo), g) == Pattern(false, false, false)
  {
    if g == Bottom || showFoundryLogo {
      ApplyStatusShows(p, g, 0, showFoundryLogo);
    } else {
      LeftStatusWithoutLogo(p, 0);
    }
  }

  /** What a group shows depends only on which elements exist and on the styles of its three elements. */
  lemma ShownOfSameStyles(p: Page, q: Page, g: Group)
    requires q.present == p.present
    requires Style(q, First(g)) == Style(p, First(g))
    requires Style(q, Second(g)) == Style(p, Second(g))
    requires Style(q, Third(g)) == Style(p, Third(g))
    ensures Shown(q, g) == Shown(p, g)
  {
  }

  /** Writing an element outside a group leaves what the group shows unchanged. */
  lemma VisibilityKeepsGroup(p: Page, id: ElementId, visibility: VisibilityArg, showFoundryLogo: bool, g: Group)
    requires !InGroup(id, g)
    ensures Shown(ApplyVisibility(p, id, visibility, showFoundryLogo), g) == Shown(p, g)
  {
  }

  /** Setting one group's code leaves what the other group shows unchanged. */
  lemma StatusKeepsOtherGroup(p: Page, g: Group, code: int, showFoundryLogo: bool, h: Group)
    requires g != h
    ensures Shown(ApplyStatus(p, g, code, showFoundryLogo), h) == Shown(p, h)
  {
    var r := ApplyStatus(p, g, code, showFoundryLogo);
    assert !InGroup(First(h), g) && !InGroup(Second(h), g) && !InGroup(Third(h), g);
    assert IsDOMNodeShown(r, First(h)) == IsDOMNodeShown(p, First(h));
    assert IsDOMNodeShown(r, Second(h)) == IsDOMNodeShown(p, Second(h));
    assert IsDOMNodeShown(r, Third(h)) == IsDOMNodeShown(p, Third(h));
  }

  /** Setting a group's code leaves the four UI regions and the pause indicator alone. */
  lemma StatusKeepsRegions(p: Page, g: Group, code: int, showFoundryLogo: bool)
    ensures var r := ApplyStatus(p, g, code, showFoundryLogo);
      && r.uiTop == p.uiTop && r.uiRight == p.uiRight && r.uiLeft == p.uiLeft
      && r.uiBottom == p.uiBottom && r.pause == p.pause
  {
    StatusFrame(p, g, code, showFoundryLogo, UiTop);
    StatusFrame(p, g, code, showFoundryLogo, UiRight);
    StatusFrame(p, g, code, showFoundryLogo, UiLeft);
    StatusFrame(p, g, code, showFoundryLogo, UiBottom);
    StatusFrame(p, g, code, showFoundryLogo, Pause);
  }

  /** Setting a group's code leaves every element outside the group alone. */
  lemma StatusFrame(p: Page, g: Group, code: int, showFoundryLogo: bool, j: ElementId)
    requires !InGroup(j, g)
    ensures Style(ApplyStatus(p, g, code, showFoundryLogo), j) == Style(p, j)
  {
    if 0 <= code <= 7 {
      var pat := StatusPattern(code).value;
      var p1 := ApplyVisibility(p, First(g), Command(pat.first), showFoundryLogo);
      var p2 := ApplyVisibility(p1, Second(g), Command(pat.second), showFoundryLogo);
      var p3 := ApplyVisibility(p2, Third(g), Command(pat.third), showFoundryLogo);
      SetStyleFrame(p, First(g), Style(p1, First(g)), j);
      SetStyleFrame(p1, Second(g), Style(p2, Second(g)), j);
      SetStyleFrame(p2, Third(g), Style(p3, Third(g)), j);
    }
  }

  /** A group element that is missing always reads as not shown, whatever code was set. */
  lemma MissingElementReadsHidden(p: Page, g: Group, code: int, showFoundryLogo: bool, id: ElementId)
    requires InGroup(id, g) && !Present(p, id)
    ensures !IsDOMNodeShown(ApplyStatus(p, g, code, showFoundryLogo), id)
  {
  }
}
