/**
 * The UI state machine run on scene switches: what setUI, restoreUI,
 * updateSceneControls and pauseControl do to the page (as functions of the
 * page, the scene's ui and the host's settings), the lemmas saying what the
 * page looks like afterwards, and the class that holds the module's static
 * state and performs the transitions one element at a time.
 */
module SceneUI {
  import opened JsValues
  import opened SceneSettings
  import opened Dom
  import opened StatusCodes

  /** The host values the transitions read: showFoundryLogo, game.paused and the layout sizes. */
  datatype Host = Host(showFoundryLogo: bool, paused: bool, viewport: Viewport)

  /** `setBottomStatus(keepBottomControls)`: a NaN setting matches no case of the switch. */
  function ApplyBottomSetting(p: Page, setting: Numeric, showFoundryLogo: bool): (r: Page)
  {
    match setting
    case NaN => p
    case Finite(code) => ApplyStatus(p, Bottom, code, showFoundryLogo)
  }

  /** setUI, first part: minimal UI hides both groups, otherwise the recorded codes are reapplied. */
  function ChromeStage(p: Page, ui: UiFlags, showFoundryLogo: bool, oldBottom: int, oldLeft: int): (r: Page)
  {
    if ui.minUI then
      var q := ApplyStatus(ApplyStatus(p, Left, 0, showFoundryLogo), Bottom, 0, showFoundryLogo);
      if ui.rightDisabled then
        ApplyVisibility(ApplyVisibility(q, UiRight, HiddenArg, showFoundryLogo), UiTop, VisibleArg, showFoundryLogo)
      else
        ApplyVisibility(ApplyVisibility(q, UiTop, HiddenArg, showFoundryLogo), UiRight, VisibleArg, showFoundryLogo)
    else
      var q := ApplyStatus(ApplyStatus(p, Left, oldLeft, showFoundryLogo), Bottom, oldBottom, showFoundryLogo);
      var q' := ApplyVisibility(q, UiTop, VisibleArg, showFoundryLogo);
      ApplyVisibility(q', UiRight, if ui.rightDisabled then HiddenArg else VisibleArg, showFoundryLogo)
  }

  /** setUI, the pause indicator: hidden on request, otherwise shown while the game is paused. */
  function PauseStage(p: Page, ui: UiFlags, showFoundryLogo: bool, paused: bool): (r: Page)
  {
    if ui.hidePaused then ApplyVisibility(p, Pause, HiddenArg, showFoundryLogo)
    else if paused then ApplyVisibility(p, Pause, VisibleArg, showFoundryLogo)
    else p
  }

  /** setUI, `if (keepTop) show ui-top`. */
  function TopStage(p: Page, ui: UiFlags, showFoundryLogo: bool): (r: Page)
  {
    if ui.keepTop then ApplyVisibility(p, UiTop, VisibleArg, showFoundryLogo) else p
  }

  /** `if (keepPlayerList) { show ui-left; setLeftStatus(7) }` */
  function PlayerListStage(p: Page, keep: bool, showFoundryLogo: bool): (r: Page)
  {
    if keep then ApplyStatus(ApplyVisibility(p, UiLeft, VisibleArg, showFoundryLogo), Left, 7, showFoundryLogo)
    else p
  }

  /** Show ui-bottom, then `setBottomStatus(keepBottomControls)`: the end of setUI and of updateSceneControls. */
  function BottomBarStage(p: Page, ui: UiFlags, showFoundryLogo: bool): (r: Page)
  {
    ApplyBottomSetting(ApplyVisibility(p, UiBottom, VisibleArg, showFoundryLogo), ui.keepBottomControls, showFoundryLogo)
  }

  /** setUI after its first block: the pause indicator, ui-top, the player list and the bottom bar. */
  function LateStages(p: Page, ui: UiFlags, showFoundryLogo: bool, paused: bool): (r: Page)
  {
    var p2 := PauseStage(p, ui, showFoundryLogo, paused);
    var p3 := TopStage(p2, ui, showFoundryLogo);
    var p4 := PlayerListStage(p3, ui.keepPlayerList, showFoundryLogo);
    BottomBarStage(p4, ui, showFoundryLogo)
  }

  /**
   * The page after setUI, where oldBottom and oldLeft are the recorded codes
   * once setUI's own recording step has run.
   */
  function SetUIPage(p: Page, ui: UiFlags, showFoundryLogo: bool, paused: bool, oldBottom: int, oldLeft: int): (r: Page)
  {
    LateStages(ChromeStage(p, ui, showFoundryLogo, oldBottom, oldLeft), ui, showFoundryLogo, paused)
  }

  /**
   * The first stage of setUI leaves ui-left, ui-bottom and the pause
   * indicator alone (and, like every write, the set of elements).
   */
  lemma ChromeStageFrame(p: Page, ui: UiFlags, showFoundryLogo: bool, oldBottom: int, oldLeft: int)
    ensures var r := ChromeStage(p, ui, showFoundryLogo, oldBottom, oldLeft);
      && r.present == p.present
      && r.uiLeft == p.uiLeft && r.uiBottom == p.uiBottom && r.pause == p.pause
  {
    var codeLeft := if ui.minUI then 0 else oldLeft;
    var codeBottom := if ui.minUI then 0 else oldBottom;
    var q0 := ApplyStatus(p, Left, codeLeft, showFoundryLogo);
    StatusKeepsRegions(p, Left, codeLeft, showFoundryLogo);
    StatusKeepsRegions(q0, Bottom, codeBottom, showFoundryLogo);
  }

  /** The player-list stage leaves the left group at "players only". */
  lemma PlayerListShown(p: Page, showFoundryLogo: bool)
    requires GroupPresent(p, Left)
    ensures Shown(PlayerListStage(p, true, showFoundryLogo), Left) == Pattern(false, false, true)
  {
    PlayersOnlyShown(ApplyVisibility(p, UiLeft, VisibleArg, showFoundryLogo), showFoundryLogo);
  }

  /** The bottom-bar stage leaves the left group as it was. */
  lemma BottomBarKeepsLeft(p: Page, ui: UiFlags, showFoundryLogo: bool)
    ensures Shown(BottomBarStage(p, ui, showFoundryLogo), Left) == Shown(p, Left)
  {
    var q := ApplyVisibility(p, UiBottom, VisibleArg, showFoundryLogo);
    VisibilityKeepsGroup(p, UiBottom, VisibleArg, showFoundryLogo, Left);
    if ui.keepBottomControls.Finite? {
      StatusKeepsOtherGroup(q, Bottom, ui.keepBottomControls.value, showFoundryLogo, Left);
    }
  }

  /** The bottom-bar stage sets the bottom code to keepBottomControls when that is a code 0..7. */
  lemma BottomBarCode(p: Page, ui: UiFlags, showFoundryLogo: bool)
    requires GroupPresent(p, Bottom)
    requires ui.keepBottomControls.Finite? && 0 <= ui.keepBottomControls.value <= 7
    ensures GetBottomStatus(BottomBarStage(p, ui, showFoundryLogo)) == ui.keepBottomControls.value
  {
    BottomRoundTrip(ApplyVisibility(p, UiBottom, VisibleArg, showFoundryLogo), ui.keepBottomControls.value,
                    showFoundryLogo);
  }

  /** The pause and ui-top stages of setUI touch neither the left group nor the set of elements. */
  lemma PauseTopKeepLeft(p: Page, ui: UiFlags, showFoundryLogo: bool, paused: bool)
    ensures var r := TopStage(PauseStage(p, ui, showFoundryLogo, paused), ui, showFoundryLogo);
      && r.present == p.present && r.logo == p.logo && r.controls == p.controls && r.players == p.players
  {
  }

  /** The late stages leave the left group alone unless keepPlayerList is set; then only the player list shows. */
  lemma LateStagesLeft(p: Page, ui: UiFlags, showFoundryLogo: bool, paused: bool)
    ensures ui.keepPlayerList && GroupPresent(p, Left) ==>
              Shown(LateStages(p, ui, showFoundryLogo, paused), Left) == Pattern(false, false, true)
    ensures !ui.keepPlayerList ==> Shown(LateStages(p, ui, showFoundryLogo, paused), Left) == Shown(p, Left)
  {
    var p3 := TopStage(PauseStage(p, ui, showFoundryLogo, paused), ui, showFoundryLogo);
    var p4 := PlayerListStage(p3, ui.keepPlayerList, showFoundryLogo);
    PauseTopKeepLeft(p, ui, showFoundryLogo, paused);
    ShownOfSameStyles(p, p3, Left);
    BottomBarKeepsLeft(p4, ui, showFoundryLogo);
    if ui.keepPlayerList && GroupPresent(p, Left) {
      PlayerListShown(p3, showFoundryLogo);
    }
  }

  /** The late stages end with the bottom code keepBottomControls, when that is a code 0..7. */
  lemma LateStagesBottom(p: Page, ui: UiFlags, showFoundryLogo: bool, paused: bool)
    requires GroupPresent(p, Bottom)
    requires ui.keepBottomControls.Finite? && 0 <= ui.keepBottomControls.value <= 7
    ensures GetBottomStatus(LateStages(p, ui, showFoundryLogo, paused)) == ui.keepBottomControls.value
  {
    var p2 := PauseStage(p, ui, showFoundryLogo, paused);
    var p3 := TopStage(p2, ui, showFoundryLogo);
    var p4 := PlayerListStage(p3, ui.keepPlayerList, showFoundryLogo);
    BottomBarCode(p4, ui, showFoundryLogo);
  }

  /** The player-list stage touches only ui-left and the left group. */
  lemma PlayerListKeepsRegions(p: Page, keep: bool, showFoundryLogo: bool)
    ensures var r := PlayerListStage(p, keep, showFoundryLogo);
      && r.uiTop == p.uiTop && r.uiRight == p.uiRight && r.uiBottom == p.uiBottom && r.pause == p.pause
  {
    StatusKeepsRegions(ApplyVisibility(p, UiLeft, VisibleArg, showFoundryLogo), Left, 7, showFoundryLogo);
  }

  /** The bottom-bar stage shows ui-bottom and touches no other region. */
  lemma BottomBarRegions(p: Page, ui: UiFlags, showFoundryLogo: bool)
    ensures var r := BottomBarStage(p, ui, showFoundryLogo);
      && r.uiTop == p.uiTop && r.uiRight == p.uiRight && r.pause == p.pause
      && (Present(p, UiBottom) ==> r.uiBottom == Visible)
  {
    if ui.keepBottomControls.Finite? {
      var b := ApplyVisibility(p, UiBottom, VisibleArg, showFoundryLogo);
      StatusKeepsRegions(b, Bottom, ui.keepBottomControls.value, showFoundryLogo);
    }
  }

  /** What the late stages leave on ui-right, ui-top, the pause indicator and ui-bottom. */
  lemma LateStagesChrome(p: Page, ui: UiFlags, showFoundryLogo: bool, paused: bool)
    ensures var r := LateStages(p, ui, showFoundryLogo, paused);
      && r.uiRight == p.uiRight
      && r.uiTop == (if ui.keepTop && Present(p, UiTop) then Visible else p.uiTop)
      && r.pause == PauseStage(p, ui, showFoundryLogo, paused).pause
      && (Present(p, UiBottom) ==> r.uiBottom == Visible)
  {
    var p2 := PauseStage(p, ui, showFoundryLogo, paused);
    var p3 := TopStage(p2, ui, showFoundryLogo);
    var p4 := PlayerListStage(p3, ui.keepPlayerList, showFoundryLogo);
    assert p3.uiRight == p.uiRight && p3.uiBottom == p.uiBottom && p3.pause == p2.pause;
    assert p3.uiTop == (if ui.keepTop && Present(p, UiTop) then Visible else p.uiTop);
    PlayerListKeepsRegions(p3, ui.keepPlayerList, showFoundryLogo);
    BottomBarRegions(p4, ui, showFoundryLogo);
  }

  /** After setUI the bottom bar is visible. */
  lemma SetUIShowsBottomBar(p: Page, ui: UiFlags, showFoundryLogo: bool, paused: bool, oldBottom: int, oldLeft: int)
    requires Present(p, UiBottom)
    ensures SetUIPage(p, ui, showFoundryLogo, paused, oldBottom, oldLeft).uiBottom == Visible
  {
    ChromeStageFrame(p, ui, showFoundryLogo, oldBottom, oldLeft);
    LateStagesChrome(ChromeStage(p, ui, showFoundryLogo, oldBottom, oldLeft), ui, showFoundryLogo, paused);
  }

  /** After setUI the bottom code is keepBottomControls whenever that is a code 0..7. */
  lemma SetUIAppliesBottomControls(p: Page, ui: UiFlags, showFoundryLogo: bool, paused: bool,
                                   oldBottom: int, oldLeft: int)
    requires GroupPresent(p, Bottom)
    requires ui.keepBottomControls.Finite? && 0 <= ui.keepBottomControls.value <= 7
    ensures GetBottomStatus(SetUIPage(p, ui, showFoundryLogo, paused, oldBottom, oldLeft))
              == ui.keepBottomControls.value
  {
    ChromeStageFrame(p, ui, showFoundryLogo, oldBottom, oldLeft);
    LateStagesBottom(ChromeStage(p, ui, showFoundryLogo, oldBottom, oldLeft), ui, showFoundryLogo, paused);
  }

  /** With keepPlayerList set, setUI leaves the left group at code 7: only the player list. */
  lemma SetUIKeepsPlayerList(p: Page, ui: UiFlags, showFoundryLogo: bool, paused: bool, oldBottom: int, oldLeft: int)
    requires GroupPresent(p, Left) && ui.keepPlayerList
    ensures GetLeftStatus(SetUIPage(p, ui, showFoundryLogo, paused, oldBottom, oldLeft)) == 7
  {
    ChromeStageFrame(p, ui, showFoundryLogo, oldBottom, oldLeft);
    LateStagesLeft(ChromeStage(p, ui, showFoundryLogo, oldBottom, oldLeft), ui, showFoundryLogo, paused);
  }

  /** Under minimal UI the first stage hides the whole left group. */
  lemma ChromeMinimalHidesLeft(p: Page, ui: UiFlags, showFoundryLogo: bool, oldBottom: int, oldLeft: int)
    requires GroupPresent(p, Left) && ui.minUI
    ensures Shown(ChromeStage(p, ui, showFoundryLogo, oldBottom, oldLeft), Left) == Pattern(false, false, false)
  {
    var q0 := ApplyStatus(p, Left, 0, showFoundryLogo);
    AllHiddenShown(p, Left, showFoundryLogo);
    var q := ApplyStatus(q0, Bottom, 0, showFoundryLogo);
    StatusKeepsOtherGroup(q0, Bottom, 0, showFoundryLogo, Left);
    if ui.rightDisabled {
      var q1 := ApplyVisibility(q, UiRight, HiddenArg, showFoundryLogo);
      VisibilityKeepsGroup(q, UiRight, HiddenArg, showFoundryLogo, Left);
      VisibilityKeepsGroup(q1, UiTop, VisibleArg, showFoundryLogo, Left);
    } else {
      var q1 := ApplyVisibility(q, UiTop, HiddenArg, showFoundryLogo);
      VisibilityKeepsGroup(q, UiTop, HiddenArg, showFoundryLogo, Left);
      VisibilityKeepsGroup(q1, UiRight, VisibleArg, showFoundryLogo, Left);
    }
  }

  /** With minimal UI and no player list, setUI hides the whole left group (code 0). */
  lemma SetUIMinimalHidesLeft(p: Page, ui: UiFlags, showFoundryLogo: bool, paused: bool, oldBottom: int, oldLeft: int)
    requires GroupPresent(p, Left) && ui.minUI && !ui.keepPlayerList
    ensures GetLeftStatus(SetUIPage(p, ui, showFoundryLogo, paused, oldBottom, oldLeft)) == 0
  {
    ChromeMinimalHidesLeft(p, ui, showFoundryLogo, oldBottom, oldLeft);
    LateStagesLeft(ChromeStage(p, ui, showFoundryLogo, oldBottom, oldLeft), ui, showFoundryLogo, paused);
  }

  /** What the first stage leaves on ui-right and ui-top: the two status codes do not touch them. */
  lemma ChromeStageRightTop(p: Page, ui: UiFlags, showFoundryLogo: bool, oldBottom: int, oldLeft: int)
    ensures var r := ChromeStage(p, ui, showFoundryLogo, oldBottom, oldLeft);
      && (Present(p, UiRight) ==> r.uiRight == if ui.rightDisabled then Hidden else Visible)
      && (Present(p, UiTop) ==> r.uiTop == if ui.minUI && !ui.rightDisabled then Hidden else Visible)
  {
    var codeLeft := if ui.minUI then 0 else oldLeft;
    var codeBottom := if ui.minUI then 0 else oldBottom;
    var q0 := ApplyStatus(p, Left, codeLeft, showFoundryLogo);
    var q := ApplyStatus(q0, Bottom, codeBottom, showFoundryLogo);
    StatusKeepsRegions(p, Left, codeLeft, showFoundryLogo);
    StatusKeepsRegions(q0, Bottom, codeBottom, showFoundryLogo);
    assert q.present == p.present && q.uiRight == p.uiRight && q.uiTop == p.uiTop;
    // the first of the two writes leaves the region written second alone
    var first := if ui.minUI && !ui.rightDisabled then UiTop else UiRight;
    var q1 := ApplyVisibility(q, first, if ui.minUI || ui.rightDisabled then HiddenArg else VisibleArg, showFoundryLogo);
    if ui.minUI {
      SetStyleFrame(q, first, Style(q1, first), if first == UiTop then UiRight else UiTop);
    } else {
      SetStyleFrame(q, UiTop, Style(ApplyVisibility(q, UiTop, VisibleArg, showFoundryLogo), UiTop), UiRight);
    }
  }

  /** After setUI, ui-right is hidden exactly when the right controls are disabled. */
  lemma SetUIRight(p: Page, ui: UiFlags, showFoundryLogo: bool, paused: bool, oldBottom: int, oldLeft: int)
    requires Present(p, UiRight)
    ensures SetUIPage(p, ui, showFoundryLogo, paused, oldBottom, oldLeft).uiRight
              == if ui.rightDisabled then Hidden else Visible
  {
    ChromeStageRightTop(p, ui, showFoundryLogo, oldBottom, oldLeft);
    LateStagesChrome(ChromeStage(p, ui, showFoundryLogo, oldBottom, oldLeft), ui, showFoundryLogo, paused);
  }

  /** After setUI, ui-top is visible unless minimal UI hid it with the right controls enabled and keepTop unset. */
  lemma SetUITop(p: Page, ui: UiFlags, showFoundryLogo: bool, paused: bool, oldBottom: int, oldLeft: int)
    requires Present(p, UiTop)
    ensures SetUIPage(p, ui, showFoundryLogo, paused, oldBottom, oldLeft).uiTop
              == if ui.minUI && !ui.rightDisabled && !ui.keepTop then Hidden else Visible
  {
    ChromeStageFrame(p, ui, showFoundryLogo, oldBottom, oldLeft);
    ChromeStageRightTop(p, ui, showFoundryLogo, oldBottom, oldLeft);
    LateStagesChrome(ChromeStage(p, ui, showFoundryLogo, oldBottom, oldLeft), ui, showFoundryLogo, paused);
  }

  /** After setUI the pause indicator is hidden when hidePaused is set, shown while paused otherwise, and else untouched. */
  lemma SetUIPause(p: Page, ui: UiFlags, showFoundryLogo: bool, paused: bool, oldBottom: int, oldLeft: int)
    requires Present(p, Pause)
    ensures SetUIPage(p, ui, showFoundryLogo, paused, oldBottom, oldLeft).pause
              == if ui.hidePaused then Hidden else if paused then Visible else p.pause
  {
    ChromeStageFrame(p, ui, showFoundryLogo, oldBottom, oldLeft);
    LateStagesChrome(ChromeStage(p, ui, showFoundryLogo, oldBottom, oldLeft), ui, showFoundryLogo, paused);
  }

  /** restoreUI, first part: show the chrome, and the pause indicator while the game is paused. */
  function ShowChrome(p: Page, showFoundryLogo: bool, paused: bool): (r: Page)
  {
    var q1 := ApplyVisibility(p, UiLeft, VisibleArg, showFoundryLogo);
    var q2 := ApplyVisibility(q1, UiBottom, VisibleArg, showFoundryLogo);
    var q3 := ApplyVisibility(q2, Hotbar, VisibleArg, showFoundryLogo);
    var q4 := ApplyVisibility(q3, UiTop, VisibleArg, showFoundryLogo);
    var q5 := ApplyVisibility(q4, UiRight, VisibleArg, showFoundryLogo);
    if paused then ApplyVisibility(q5, Pause, VisibleArg, showFoundryLogo) else q5
  }

  /** The page after restoreUI: the chrome shown again and the recorded codes reapplied, bottom first. */
  function RestoreUIPage(p: Page, showFoundryLogo: bool, paused: bool, oldBottom: int, oldLeft: int): (r: Page)
  {
    var q := ShowChrome(p, showFoundryLogo, paused);
    ApplyStatus(ApplyStatus(q, Bottom, oldBottom, showFoundryLogo), Left, oldLeft, showFoundryLogo)
  }

  /** The first block of restoreUI shows the four UI regions, and while paused the pause indicator. */
  lemma ShowChromeRegions(p: Page, showFoundryLogo: bool, paused: bool)
    ensures var r := ShowChrome(p, showFoundryLogo, paused);
      && r.present == p.present
      && (Present(p, UiLeft) ==> r.uiLeft == Visible)
      && (Present(p, UiBottom) ==> r.uiBottom == Visible)
      && (Present(p, UiTop) ==> r.uiTop == Visible)
      && (Present(p, UiRight) ==> r.uiRight == Visible)
      && (Present(p, Pause) && paused ==> r.pause == Visible)
  {
  }

  /** The first block of restoreUI leaves the left group and the set of elements alone. */
  lemma ShowChromeKeepsLeft(p: Page, showFoundryLogo: bool, paused: bool)
    ensures var r := ShowChrome(p, showFoundryLogo, paused);
      && r.present == p.present && r.logo == p.logo && r.controls == p.controls && r.players == p.players
  {
  }

  /** After restoreUI the four UI regions, and while paused the pause indicator, are visible. */
  lemma RestoreShowsRegions(p: Page, showFoundryLogo: bool, paused: bool, oldBottom: int, oldLeft: int)
    ensures var r := RestoreUIPage(p, showFoundryLogo, paused, oldBottom, oldLeft);
      && (Present(p, UiLeft) ==> r.uiLeft == Visible)
      && (Present(p, UiBottom) ==> r.uiBottom == Visible)
      && (Present(p, UiTop) ==> r.uiTop == Visible)
      && (Present(p, UiRight) ==> r.uiRight == Visible)
      && (Present(p, Pause) && paused ==> r.pause == Visible)
  {
    var q := ShowChrome(p, showFoundryLogo, paused);
    var b := ApplyStatus(q, Bottom, oldBottom, showFoundryLogo);
    ShowChromeRegions(p, showFoundryLogo, paused);
    StatusKeepsRegions(q, Bottom, oldBottom, showFoundryLogo);
    StatusKeepsRegions(b, Left, oldLeft, showFoundryLogo);
  }

  /** restoreUI reapplies exactly the recorded codes: reading them back gives the recorded values. */
  lemma RestoreReappliesCodes(p: Page, showFoundryLogo: bool, paused: bool, oldBottom: int, oldLeft: int)
    ensures GroupPresent(p, Bottom) && 0 <= oldBottom <= 7 ==>
              GetBottomStatus(RestoreUIPage(p, showFoundryLogo, paused, oldBottom, oldLeft)) == oldBottom
    ensures GroupPresent(p, Left) && 0 <= oldLeft <= 7 && showFoundryLogo ==>
              GetLeftStatus(RestoreUIPage(p, showFoundryLogo, paused, oldBottom, oldLeft)) == oldLeft
  {
    var q := ShowChrome(p, showFoundryLogo, paused);
    var b := ApplyStatus(q, Bottom, oldBottom, showFoundryLogo);
    StatusKeepsOtherGroup(b, Left, oldLeft, showFoundryLogo, Bottom);
    if GroupPresent(p, Bottom) && 0 <= oldBottom <= 7 {
      BottomRoundTrip(q, oldBottom, showFoundryLogo);
    }
    if GroupPresent(p, Left) && 0 <= oldLeft <= 7 && showFoundryLogo {
      LeftRoundTrip(b, oldLeft);
    }
  }

  /**
   * getLeftStatus as written, which the class records, reads the players-only
   * group setUI leaves under keepPlayerList as 3, not 7.
   */
  lemma SetUIPlayerListRecordedAsThree(p: Page, ui: UiFlags, showFoundryLogo: bool, paused: bool,
                                       oldBottom: int, oldLeft: int)
    requires GroupPresent(p, Left) && ui.keepPlayerList
    ensures GetLeftStatusAsWritten(SetUIPage(p, ui, showFoundryLogo, paused, oldBottom, oldLeft)) == 3
  {
    SetUIKeepsPlayerList(p, ui, showFoundryLogo, paused, oldBottom, oldLeft);
  }

  /**
   * restoreUI with a recorded left code of 3 shows the scene controls and
   * hides the player list: the reverse of the players-only group the code
   * was read from. The logo is shown when showFoundryLogo is on; with the
   * setting off it keeps what it showed before.
   */
  lemma RestoreOfRecordedThree(p: Page, showFoundryLogo: bool, paused: bool, oldBottom: int)
    requires GroupPresent(p, Left)
    ensures Shown(RestoreUIPage(p, showFoundryLogo, paused, oldBottom, 3), Left)
              == Pattern(showFoundryLogo || IsDOMNodeShown(p, Logo), true, false)
  {
    var q := ShowChrome(p, showFoundryLogo, paused);
    var b := ApplyStatus(q, Bottom, oldBottom, showFoundryLogo);
    ShowChromeKeepsLeft(p, showFoundryLogo, paused);
    StatusFrame(q, Bottom, oldBottom, showFoundryLogo, Logo);
    assert b.present == p.present && b.logo == p.logo;
    assert GroupPresent(b, Left);
    if showFoundryLogo {
      ApplyStatusShows(b, Left, 3, true);
    } else {
      LeftStatusWithoutLogo(b, 3);
    }
  }

  /** setUI never adds or removes an element. */
  lemma SetUIKeepsElements(p: Page, ui: UiFlags, showFoundryLogo: bool, paused: bool, oldBottom: int, oldLeft: int)
    ensures SetUIPage(p, ui, showFoundryLogo, paused, oldBottom, oldLeft).present == p.present
  {
    ChromeStageFrame(p, ui, showFoundryLogo, oldBottom, oldLeft);
    PauseTopKeepLeft(ChromeStage(p, ui, showFoundryLogo, oldBottom, oldLeft), ui, showFoundryLogo, paused);
  }

  /**
   * The save/restore round trip of an HTML scene, with showFoundryLogo on and
   * both groups present: setUI run with the codes recorded from the page,
   * then restoreUI of the same codes, gives back what the bottom group
   * showed, and what the left group showed except a players-only group,
   * which the getter as written records as 3 and so comes back as logo and
   * scene controls.
   */
  lemma SaveRestoreRoundTrip(p0: Page, ui: UiFlags, pausedAtSet: bool, pausedAtRestore: bool)
    requires GroupPresent(p0, Bottom) && GroupPresent(p0, Left)
    ensures var bottom := GetBottomStatus(p0);
            var left := GetLeftStatusAsWritten(p0);
            var r := RestoreUIPage(SetUIPage(p0, ui, true, pausedAtSet, bottom, left), true, pausedAtRestore, bottom, left);
            && Shown(r, Bottom) == Shown(p0, Bottom)
            && Shown(r, Left) == if Shown(p0, Left) == Pattern(false, false, true) then Pattern(true, true, false)
                                 else Shown(p0, Left)
  {
    var bottom := GetBottomStatus(p0);
    var left := GetLeftStatusAsWritten(p0);
    var q := SetUIPage(p0, ui, true, pausedAtSet, bottom, left);
    SetUIKeepsElements(p0, ui, true, pausedAtSet, bottom, left);
    RestoreReappliesCodes(q, true, pausedAtRestore, bottom, left);
  }

  /** updateSceneControls, the left group: player list only, all hidden, or the recorded code. */
  function SceneControlsLeftStep(p: Page, ui: UiFlags, showFoundryLogo: bool, oldLeft: int): (r: Page)
  {
    if ui.keepPlayerList then PlayerListStage(p, true, showFoundryLogo)
    else if ui.minUI then ApplyStatus(p, Left, 0, showFoundryLogo)
    else ApplyStatus(p, Left, oldLeft, showFoundryLogo)
  }

  /** The page after updateSceneControls: nothing on a disabled scene. */
  function SceneControlsPage(p: Page, ui: UiFlags, showFoundryLogo: bool, oldBottom: int, oldLeft: int): (r: Page)
    ensures !ui.enabled ==> r == p
  {
    if !ui.enabled then p
    else
      var q := SceneControlsLeftStep(p, ui, showFoundryLogo, oldLeft);
      if ui.minUI then BottomBarStage(q, ui, showFoundryLogo)
      else ApplyStatus(q, Bottom, oldBottom, showFoundryLogo)
  }

  /**
   * updateSceneControls on an enabled scene, the bottom group: keepBottomControls
   * under minimal UI, the recorded code otherwise.
   */
  lemma SceneControlsBottom(p: Page, ui: UiFlags, showFoundryLogo: bool, oldBottom: int, oldLeft: int)
    requires ui.enabled && GroupPresent(p, Bottom)
    ensures var r := SceneControlsPage(p, ui, showFoundryLogo, oldBottom, oldLeft);
      && (ui.minUI && ui.keepBottomControls.Finite? && 0 <= ui.keepBottomControls.value <= 7 ==>
            GetBottomStatus(r) == ui.keepBottomControls.value)
      && (!ui.minUI && 0 <= oldBottom <= 7 ==> GetBottomStatus(r) == oldBottom)
  {
    var q := SceneControlsLeftStep(p, ui, showFoundryLogo, oldLeft);
    if ui.minUI && ui.keepBottomControls.Finite? && 0 <= ui.keepBottomControls.value <= 7 {
      BottomBarCode(q, ui, showFoundryLogo);
    }
    if !ui.minUI && 0 <= oldBottom <= 7 {
      BottomRoundTrip(q, oldBottom, showFoundryLogo);
    }
  }

  /**
   * updateSceneControls on an enabled scene, the left group: 7 with
   * keepPlayerList, else 0 under minimal UI, else the recorded code.
   */
  lemma SceneControlsLeft(p: Page, ui: UiFlags, showFoundryLogo: bool, oldBottom: int, oldLeft: int)
    requires ui.enabled && GroupPresent(p, Left)
    ensures var r := SceneControlsPage(p, ui, showFoundryLogo, oldBottom, oldLeft);
      && (ui.keepPlayerList ==> GetLeftStatus(r) == 7)
      && (!ui.keepPlayerList && ui.minUI ==> GetLeftStatus(r) == 0)
      && (!ui.keepPlayerList && !ui.minUI && 0 <= oldLeft <= 7 && showFoundryLogo ==>
            GetLeftStatus(r) == oldLeft)
  {
    var q := SceneControlsLeftStep(p, ui, showFoundryLogo, oldLeft);
    if ui.minUI {
      BottomBarKeepsLeft(q, ui, showFoundryLogo);
    } else {
      StatusKeepsOtherGroup(q, Bottom, oldBottom, showFoundryLogo, Left);
    }
    if ui.keepPlayerList {
      PlayerListShown(p, showFoundryLogo);
    } else if ui.minUI {
      AllHiddenShown(p, Left, showFoundryLogo);
    } else if 0 <= oldLeft <= 7 && showFoundryLogo {
      ApplyStatusShows(p, Left, oldLeft, true);
      CodeRoundTrip(oldLeft);
    }
  }

  /** pauseControl: on an enabled scene the pause indicator follows game.paused; nothing else changes. */
  function PauseControlPage(p: Page, ui: UiFlags, showFoundryLogo: bool, paused: bool): (r: Page)
    ensures r == p.(pause := if ui.enabled && Present(p, Pause) then (if paused then Visible else Hidden) else p.pause)
  {
    if ui.enabled then ApplyVisibility(p, Pause, if paused then VisibleArg else HiddenArg, showFoundryLogo)
    else p
  }

  /** The embedded frame: absent, or present with the width it was created or resized with. */
  datatype Frame = NoFrame | Frame(width: Width)

  /**
   * The module's static state. `frame` is the `_iFrameNode` reference and
   * `attachedFrames` the number of the module's frames in the document body.
   */
  class HTMLToScene {
    var page: Page
    var lastSceneWasHTML: bool
    var oldBottomStatus: StatusValue
    var oldLeftStatus: StatusValue
    var frame: Frame
    var attachedFrames: nat
    var boardShown: bool
    var smallTimeShown: bool
    var updateIntervalArmed: bool
    var refreshIntervalArmed: bool

    /** At most one frame is attached, and it is the one referenced. */
    ghost predicate Valid()
      reads this
    {
      attachedFrames == (if frame.Frame? then 1 else 0)
    }

    /** The class's initial static values, on the page the host has rendered. */
    constructor (initial: Page)
      ensures Valid()
      ensures page == initial && !lastSceneWasHTML
      ensures oldBottomStatus == 1 && oldLeftStatus == 6
      ensures frame == NoFrame && attachedFrames == 0
      ensures boardShown && smallTimeShown && !updateIntervalArmed && !refreshIntervalArmed
    {
      page := initial;
      lastSceneWasHTML := false;
      oldBottomStatus := 1;
      oldLeftStatus := 6;
      frame := NoFrame;
      attachedFrames := 0;
      boardShown := true;
      smallTimeShown := true;
      updateIntervalArmed := false;
      refreshIntervalArmed := false;
    }

    /** nodeVisibility, on the page held by the class. */
    method NodeVisibility(id: ElementId, visibility: VisibilityArg, showFoundryLogo: bool)
      modifies this`page
      ensures page == ApplyVisibility(old(page), id, visibility, showFoundryLogo)
    {
      if !Present(page, id) {
        SetStyleSame(page, id);
        return;  // missing element
      }
      if id == Logo && visibility == VisibleArg && !showFoundryLogo {
        SetStyleSame(page, id);
        return;
      }
      if visibility == VisibleArg || visibility == HiddenArg {
        page := SetStyle(page, id, if visibility == VisibleArg then Visible else Hidden);
      } else if visibility == ToggleArg {
        page := SetStyle(page, id, if Style(page, id) == Visible then Hidden else Visible);
      } else {
        SetStyleSame(page, id);
      }
    }

    method SetBottomStatus(code: int, showFoundryLogo: bool)
      modifies this`page
      ensures page == ApplyStatus(old(page), Bottom, code, showFoundryLogo)
    {
      match code {
        case 0 =>
          NodeVisibility(Hotbar, HiddenArg, showFoundryLogo);
          NodeVisibility(CameraViews, HiddenArg, showFoundryLogo);
          NodeVisibility(Fps, HiddenArg, showFoundryLogo);
        case 1 =>
          NodeVisibility(Hotbar, VisibleArg, showFoundryLogo);
          NodeVisibility(CameraViews, HiddenArg, showFoundryLogo);
          NodeVisibility(Fps, HiddenArg, showFoundryLogo);
        case 2 =>
          NodeVisibility(Hotbar, HiddenArg, showFoundryLogo);
          NodeVisibility(CameraViews, VisibleArg, showFoundryLogo);
          NodeVisibility(Fps, HiddenArg, showFoundryLogo);
        case 3 =>
          NodeVisibility(Hotbar, VisibleArg, showFoundryLogo);
          NodeVisibility(CameraViews, VisibleArg, showFoundryLogo);
          NodeVisibility(Fps, HiddenArg, showFoundryLogo);
        case 4 =>
          NodeVisibility(Hotbar, VisibleArg, showFoundryLogo);
          NodeVisibility(CameraViews, HiddenArg, showFoundryLogo);
          NodeVisibility(Fps, VisibleArg, showFoundryLogo);
        case 5 =>
          NodeVisibility(Hotbar, HiddenArg, showFoundryLogo);
          NodeVisibility(CameraViews, VisibleArg, showFoundryLogo);
          NodeVisibility(Fps, VisibleArg, showFoundryLogo);
        case 6 =>
          NodeVisibility(Hotbar, VisibleArg, showFoundryLogo);
          NodeVisibility(CameraViews, VisibleArg, showFoundryLogo);
          NodeVisibility(Fps, VisibleArg, showFoundryLogo);
        case 7 =>
          NodeVisibility(Hotbar, HiddenArg, showFoundryLogo);
          NodeVisibility(CameraViews, HiddenArg, showFoundryLogo);
          NodeVisibility(Fps, VisibleArg, showFoundryLogo);
        case _ =>
      }
    }

    method SetLeftStatus(code: int, showFoundryLogo: bool)
      modifies this`page
      ensures page == ApplyStatus(old(page), Left, code, showFoundryLogo)
    {
      match code {
        case 0 =>
          NodeVisibility(Logo, HiddenArg, showFoundryLogo);
          NodeVisibility(Controls, HiddenArg, showFoundryLogo);
          NodeVisibility(Players, HiddenArg, showFoundryLogo);
        case 1 =>
          NodeVisibility(Logo, VisibleArg, showFoundryLogo);
          NodeVisibility(Controls, HiddenArg, showFoundryLogo);
          NodeVisibility(Players, HiddenArg, showFoundryLogo);
        case 2 =>
          NodeVisibility(Logo, HiddenArg, showFoundryLogo);
          NodeVisibility(Controls, VisibleArg, showFoundryLogo);
          NodeVisibility(Players, HiddenArg, showFoundryLogo);
        case 3 =>
          NodeVisibility(Logo, VisibleArg, showFoundryLogo);
          NodeVisibility(Controls, VisibleArg, showFoundryLogo);
          NodeVisibility(Players, HiddenArg, showFoundryLogo);
        case 4 =>
          NodeVisibility(Logo, VisibleArg, showFoundryLogo);
          NodeVisibility(Controls, HiddenArg, showFoundryLogo);
          NodeVisibility(Players, VisibleArg, showFoundryLogo);
        case 5 =>
          NodeVisibility(Logo, HiddenArg, showFoundryLogo);
          NodeVisibility(Controls, VisibleArg, showFoundryLogo);
          NodeVisibility(Players, VisibleArg, showFoundryLogo);
        case 6 =>
          NodeVisibility(Logo, VisibleArg, showFoundryLogo);
          NodeVisibility(Controls, VisibleArg, showFoundryLogo);
          NodeVisibility(Players, VisibleArg, showFoundryLogo);
        case 7 =>
          NodeVisibility(Logo, HiddenArg, showFoundryLogo);
          NodeVisibility(Controls, HiddenArg, showFoundryLogo);
          NodeVisibility(Players, VisibleArg, showFoundryLogo);
        case _ =>
      }
    }

    /** `setBottomStatus(this.keepBottomControls)`: a NaN setting matches no case. */
    method SetBottomStatusFromSetting(setting: Numeric, showFoundryLogo: bool)
      modifies this`page
      ensures page == ApplyBottomSetting(old(page), setting, showFoundryLogo)
    {
      if setting.Finite? {
        SetBottomStatus(setting.value, showFoundryLogo);
      }
    }

    /** saveUIStatus: record the codes the page shows now. */
    method SaveUIStatus()
      modifies this`oldLeftStatus, this`oldBottomStatus
      ensures oldLeftStatus == GetLeftStatusAsWritten(page) && oldBottomStatus == GetBottomStatus(page)
    {
      oldLeftStatus := GetLeftStatusAsWritten(page);
      oldBottomStatus := GetBottomStatus(page);
    }

    method StopActiveIntervals()
      modifies this`updateIntervalArmed, this`refreshIntervalArmed
      ensures !updateIntervalArmed && !refreshIntervalArmed
    {
      updateIntervalArmed := false;
      refreshIntervalArmed := false;
    }

    /** updateSmallTime: the SmallTime app is hidden only on an enabled scene that asks for it. */
    method UpdateSmallTime(flags: Flags)
      modifies this`smallTimeShown
      ensures smallTimeShown == !(HideSmallTime(flags) && Enabled(flags))
    {
      if HideSmallTime(flags) && Enabled(flags) {
        smallTimeShown := false;
      } else {
        smallTimeShown := true;
      }
    }

    /** setUI's first block: hide both groups under minimal UI, or reapply the recorded codes. */
    method ApplyChrome(flags: Flags, showFoundryLogo: bool)
      modifies this`page
      ensures page == ChromeStage(old(page), UiFlagsOf(flags), showFoundryLogo, oldBottomStatus, oldLeftStatus)
    {
      if MinUI(flags) {
        SetLeftStatus(0, showFoundryLogo);
        SetBottomStatus(0, showFoundryLogo);
        if RightDisabled(flags) {
          NodeVisibility(UiRight, HiddenArg, showFoundryLogo);
          NodeVisibility(UiTop, VisibleArg, showFoundryLogo);
        } else {
          NodeVisibility(UiTop, HiddenArg, showFoundryLogo);
          NodeVisibility(UiRight, VisibleArg, showFoundryLogo);
        }
      } else {
        SetLeftStatus(oldLeftStatus, showFoundryLogo);
        SetBottomStatus(oldBottomStatus, showFoundryLogo);
        NodeVisibility(UiTop, VisibleArg, showFoundryLogo);
        if RightDisabled(flags) {
          NodeVisibility(UiRight, HiddenArg, showFoundryLogo);
        } else {
          NodeVisibility(UiRight, VisibleArg, showFoundryLogo);
        }
      }
    }

    /** setUI after its first block: the pause indicator, ui-top, the player list and the bottom bar. */
    method ShowKeptElements(flags: Flags, showFoundryLogo: bool, paused: bool)
      modifies this`page
      ensures page == LateStages(old(page), UiFlagsOf(flags), showFoundryLogo, paused)
    {
      if HidePaused(flags) {
        NodeVisibility(Pause, HiddenArg, showFoundryLogo);
      } else if paused {
        NodeVisibility(Pause, VisibleArg, showFoundryLogo);
      }
      ghost var p2 := page;
      assert p2 == PauseStage(old(page), UiFlagsOf(flags), showFoundryLogo, paused);
      if KeepTop(flags) {
        NodeVisibility(UiTop, VisibleArg, showFoundryLogo);
      }
      ghost var p3 := page;
      assert p3 == TopStage(p2, UiFlagsOf(flags), showFoundryLogo);
      if KeepPlayerList(flags) {
        NodeVisibility(UiLeft, VisibleArg, showFoundryLogo);
        SetLeftStatus(7, showFoundryLogo);
      }
      ghost var p4 := page;
      assert p4 == PlayerListStage(p3, KeepPlayerList(flags), showFoundryLogo);
      NodeVisibility(UiBottom, VisibleArg, showFoundryLogo);
      SetBottomStatusFromSetting(KeepBottomControls(flags), showFoundryLogo);
      assert page == BottomBarStage(p4, UiFlagsOf(flags), showFoundryLogo);
    }

    /**
     * setUI. The codes are recorded only when the previous scene was not an
     * HTML scene; the page becomes SetUIPage of the codes in effect.
     */
    method SetUI(flags: Flags, host: Host)
      modifies this`page, this`oldBottomStatus, this`oldLeftStatus, this`boardShown, this`smallTimeShown
      ensures oldBottomStatus == if old(lastSceneWasHTML) then old(oldBottomStatus) else GetBottomStatus(old(page))
      ensures oldLeftStatus == if old(lastSceneWasHTML) then old(oldLeftStatus) else GetLeftStatusAsWritten(old(page))
      ensures page == SetUIPage(old(page), UiFlagsOf(flags), host.showFoundryLogo, host.paused, oldBottomStatus, oldLeftStatus)
      ensures boardShown == !HideBoard(flags)
      ensures smallTimeShown == !(HideSmallTime(flags) && Enabled(flags))
    {
      var showFoundryLogo := host.showFoundryLogo;
      ghost var p0 := page;
      if !lastSceneWasHTML {
        oldBottomStatus := GetBottomStatus(page);
        oldLeftStatus := GetLeftStatusAsWritten(page);
      }
      ApplyChrome(flags, showFoundryLogo);
      ghost var p1 := page;
      assert p1 == ChromeStage(p0, UiFlagsOf(flags), showFoundryLogo, oldBottomStatus, oldLeftStatus);
      ShowKeptElements(flags, showFoundryLogo, host.paused);
      boardShown := !HideBoard(flags);
      UpdateSmallTime(flags);
    }

    /** restoreUI's first block: show the four regions and the hotbar, and the pause indicator while paused. */
    method ShowChromeElements(showFoundryLogo: bool, paused: bool)
      modifies this`page
      ensures page == ShowChrome(old(page), showFoundryLogo, paused)
    {
      NodeVisibility(UiLeft, VisibleArg, showFoundryLogo);
      NodeVisibility(UiBottom, VisibleArg, showFoundryLogo);
      NodeVisibility(Hotbar, VisibleArg, showFoundryLogo);
      NodeVisibility(UiTop, VisibleArg, showFoundryLogo);
      NodeVisibility(UiRight, VisibleArg, showFoundryLogo);
      if paused {
        NodeVisibility(Pause, VisibleArg, showFoundryLogo);
      }
    }

    /**
     * restoreUI: detach the frame and drop its reference, show the chrome,
     * stop the timers and reapply the recorded codes.
     */
    method RestoreUI(host: Host)
      requires Valid()
      modifies this`page, this`frame, this`attachedFrames, this`boardShown, this`smallTimeShown,
               this`updateIntervalArmed, this`refreshIntervalArmed
      ensures Valid()
      ensures frame == NoFrame && attachedFrames == 0
      ensures page == RestoreUIPage(old(page), host.showFoundryLogo, host.paused, oldBottomStatus, oldLeftStatus)
      ensures boardShown && smallTimeShown && !updateIntervalArmed && !refreshIntervalArmed
    {
      var showFoundryLogo := host.showFoundryLogo;
      if frame.Frame? {
        attachedFrames := attachedFrames - 1;  // removeChild
      }
      frame := NoFrame;
      ShowChromeElements(showFoundryLogo, host.paused);
      boardShown := true;
      smallTimeShown := true;
      StopActiveIntervals();
      SetBottomStatus(oldBottomStatus, showFoundryLogo);
      SetLeftStatus(oldLeftStatus, showFoundryLogo);
    }

    /** updateSceneControls */
    method UpdateSceneControls(flags: Flags, showFoundryLogo: bool)
      modifies this`page
      ensures page == SceneControlsPage(old(page), UiFlagsOf(flags), showFoundryLogo, oldBottomStatus, oldLeftStatus)
    {
      ghost var p0 := page;
      if Enabled(flags) {
        if KeepPlayerList(flags) {
          NodeVisibility(UiLeft, VisibleArg, showFoundryLogo);
          SetLeftStatus(7, showFoundryLogo);
        } else {
          if MinUI(flags) {
            SetLeftStatus(0, showFoundryLogo);
          } else {
            SetLeftStatus(oldLeftStatus, showFoundryLogo);
          }
        }
        ghost var q := page;
        assert q == SceneControlsLeftStep(p0, UiFlagsOf(flags), showFoundryLogo, oldLeftStatus);
        if MinUI(flags) {
          NodeVisibility(UiBottom, VisibleArg, showFoundryLogo);
          SetBottomStatusFromSetting(KeepBottomControls(flags), showFoundryLogo);
          assert page == BottomBarStage(q, UiFlagsOf(flags), showFoundryLogo);
        } else {
          SetBottomStatus(oldBottomStatus, showFoundryLogo);
        }
      }
    }

    /** pauseControl */
    method PauseControl(flags: Flags, host: Host)
      modifies this`page
      ensures page == PauseControlPage(old(page), UiFlagsOf(flags), host.showFoundryLogo, host.paused)
    {
      if Enabled(flags) {
        if host.paused {
          NodeVisibility(Pause, VisibleArg, host.showFoundryLogo);
        } else {
          NodeVisibility(Pause, HiddenArg, host.showFoundryLogo);
        }
      }
    }

    /** updateDimensions: on resize, a spaced-width frame gets the new spaced width. */
    method UpdateDimensions(flags: Flags, host: Host)
      requires Valid()
      requires Enabled(flags) && UsesSpacedWidth(flags) ==> Present(page, UiRight)
      modifies this`frame
      ensures Valid()
      ensures Enabled(flags) && UsesSpacedWidth(flags) && old(frame).Frame? ==>
                frame == Frame(Pixels(CalcSpacedWidth(host.viewport)))
      ensures !(Enabled(flags) && UsesSpacedWidth(flags) && old(frame).Frame?) ==> frame == old(frame)
    {
      if Enabled(flags) && SpaceRight(flags) && !RightDisabled(flags) {
        var w := CalcSpacedWidth(host.viewport);
        if frame.Frame? {
          frame := Frame(Pixels(w));
        }
      }
    }

    /** createIframe: the new frame becomes the referenced one; it is not attached yet. */
    method CreateIframe(width: Width)
      modifies this`frame
      ensures frame == Frame(width)
    {
      frame := Frame(width);
    }

    /** passDataToIFrame: the data-sync timer is armed for a valid rate and a local file. */
    method PassDataToIFrame(flags: Flags)
      modifies this`updateIntervalArmed
      ensures updateIntervalArmed == (old(updateIntervalArmed) || SyncIntervalArmed(flags))
    {
      var updateMs := UpdateRateInMs(DataUpdateRate(flags));
      if updateMs >= 0 && !("http" <= FileLoc(flags)) {
        updateIntervalArmed := true;
      }
    }

    /**
     * The part of replace after setUI: drop the previous frame, create and
     * insert the new one, then arm the timers the flags ask for.
     */
    method AttachFrame(flags: Flags, host: Host)
      requires attachedFrames == (if frame.Frame? then 1 else 0)
      modifies this`frame, this`attachedFrames, this`updateIntervalArmed, this`refreshIntervalArmed
      ensures frame == Frame(FrameWidth(flags, host.viewport)) && attachedFrames == 1
      ensures updateIntervalArmed == (old(updateIntervalArmed) || (PassData(flags) && SyncIntervalArmed(flags)))
      ensures refreshIntervalArmed == (old(refreshIntervalArmed) || RefreshIntervalArmed(flags))
    {
      if frame.Frame? {
        attachedFrames := attachedFrames - 1;  // removeChild of the previous frame
      }
      var width := FrameWidth(flags, host.viewport);
      CreateIframe(width);
      attachedFrames := attachedFrames + 1;  // insertBefore
      if PassData(flags) {
        PassDataToIFrame(flags);
      }
      if RefreshIntervalArmed(flags) {
        refreshIntervalArmed := true;
      }
    }

    /**
     * replace on an enabled scene: mark the scene as an HTML scene, stop the
     * timers, run setUI (which then records nothing), attach the new frame and
     * arm the timers the flags ask for.
     */
    method ShowHtmlScene(flags: Flags, host: Host)
      requires Valid()
      modifies this
      ensures Valid()
      ensures lastSceneWasHTML
      ensures oldBottomStatus == old(oldBottomStatus) && oldLeftStatus == old(oldLeftStatus)
      ensures frame == Frame(FrameWidth(flags, host.viewport)) && attachedFrames == 1
      ensures page == SetUIPage(old(page), UiFlagsOf(flags), host.showFoundryLogo, host.paused, oldBottomStatus, oldLeftStatus)
      ensures boardShown == !HideBoard(flags) && smallTimeShown == !(HideSmallTime(flags) && Enabled(flags))
      ensures updateIntervalArmed == (PassData(flags) && SyncIntervalArmed(flags))
      ensures refreshIntervalArmed == RefreshIntervalArmed(flags)
    {
      lastSceneWasHTML := true;
      StopActiveIntervals();
      SetUI(flags, host);
      AttachFrame(flags, host);
    }

    /**
     * replace: on a disabled scene, restoreUI; on an enabled one, stop the
     * timers, setUI, remove the previous frame and attach a new one, then arm
     * the timers the flags ask for. setUI runs after the flag saying the last
     * scene was an HTML scene is set, so replace never records the codes.
     */
    method Replace(flags: Flags, host: Host)
      requires Valid()
      requires Enabled(flags) && UsesSpacedWidth(flags) ==> Present(page, UiRight)
      modifies this
      ensures Valid()
      ensures attachedFrames <= 1
      ensures lastSceneWasHTML == Enabled(flags)
      ensures oldBottomStatus == old(oldBottomStatus) && oldLeftStatus == old(oldLeftStatus)
      ensures !Enabled(flags) ==>
        && frame == NoFrame && attachedFrames == 0
        && page == RestoreUIPage(old(page), host.showFoundryLogo, host.paused, oldBottomStatus, oldLeftStatus)
        && boardShown && smallTimeShown && !updateIntervalArmed && !refreshIntervalArmed
      ensures Enabled(flags) ==>
        && frame == Frame(FrameWidth(flags, host.viewport)) && attachedFrames == 1
        && page == SetUIPage(old(page), UiFlagsOf(flags), host.showFoundryLogo, host.paused, oldBottomStatus, oldLeftStatus)
        && boardShown == !HideBoard(flags) && smallTimeShown == !HideSmallTime(flags)
        && updateIntervalArmed == (PassData(flags) && SyncIntervalArmed(flags))
        && refreshIntervalArmed == RefreshIntervalArmed(flags)
    {
      if !Enabled(flags) {
        RestoreUI(host);
        lastSceneWasHTML := false;
        return;
      }
      ShowHtmlScene(flags, host);
    }
  }
}
