# HTML To Scene: the UI state machine

HTML To Scene is a Foundry VTT module. It replaces the game canvas of a scene
with an HTML file shown in an `<iframe>`. Whenever the scene changes, the
static class `HTMLToScene` does three things:

- it reads the scene's `htmltoscene` flags;
- it hides or shows Foundry's UI chrome;
- it records, and later restores, two "status codes". Each code is a number
  0..7 saying which of three elements are visible: the bottom group (hotbar,
  camera views, fps) and the left group (logo, scene controls, player list).

This project models that machinery in Dafny:

- `js_values.dfy` (module `JsValues`): the JavaScript values a flag can hold,
  `??`, and the coercions `Boolean`, `Number` and `String`. Numbers are
  integers.
- `scene_settings.dfy` (module `SceneSettings`):
  - the flag getters with their class-level defaults;
  - `getSceneTemplateData`;
  - the `getUpdateRateInMs` table;
  - when the two timers are armed;
  - the frame width (`calcSpacedWidth`).
- `dom.dfy` (module `Dom`): the page as a fixed set of element ids. Each id is
  present or missing and has a `style.visibility`. It also models the two
  primitives `nodeVisibility` (with the `showFoundryLogo` guard on the logo)
  and `isDOMNodeShown`.
- `status_codes.dfy` (module `StatusCodes`): the table shared by
  `setBottomStatus` and `setLeftStatus`, the two encoders
  `getBottomStatus`/`getLeftStatus`, and the round trips between them.
- `scene_ui.dfy` (module `SceneUI`): two parts.
  - What `setUI`, `restoreUI`, `updateSceneControls` and `pauseControl` do to
    the page, as functions, with lemmas about the page they leave behind.
  - The class `HTMLToScene`. It holds the module's static state: the page, the
    recorded codes, `_lastSceneWasHTML`, the frame reference, the number of
    attached frames, and the shown state of the board and SmallTime. It
    performs each transition imperatively, one `nodeVisibility` at a time, and
    each method is proved equal to the corresponding function.

Host values are parameters: `game.paused`, the `showFoundryLogo` setting, and
the window and sidebar widths (`Host`, `Viewport`). The scene's flags are a
map from flag key to value (`Flags`). A missing key reads as `undefined`.

Some of what the source does is worth knowing. `replace` sets
`_lastSceneWasHTML` to true before it calls `setUI`, so a `setUI` run from
`replace` never records the codes. `Replace` states this: the recorded codes
are unchanged. `setUI` on its own records them only when the previous scene was
not an HTML scene (`SetUI`).

## Model

| member | source | states |
|---|---|---|
| JsValues.NatToDecimal | scripts/classes/HTMLToScene.js:190-192 | String of a natural number is a non-empty run of decimal digits |
| JsValues.DecimalRoundTrip | scripts/classes/HTMLToScene.js:190-192 | the digits String writes for a natural number read back as that number |
| JsValues.NumberOfStringRoundTrip | scripts/classes/HTMLToScene.js:170-192 | Number(String(n)) is n, so a number flag stored as text reads back unchanged |
| SceneSettings.BoolSetting | scripts/classes/HTMLToScene.js:114-166 | `Boolean(flag ?? default)`: a flag that is present is coerced; a null or undefined one gives the getter's default |
| SceneSettings.NumberSetting | scripts/classes/HTMLToScene.js:170-186 | `Number(flag ?? default)`: the same rule for the three numeric getters |
| SceneSettings.StringSetting | scripts/classes/HTMLToScene.js:190-210 | `String(flag ?? default)`: the same rule for the file location and the macro names |
| SceneSettings.Enabled | scripts/classes/HTMLToScene.js:110-112 | `enabled` has no default: it is true exactly when the `enable` flag is present and truthy |
| SceneSettings.DefaultsOfUnconfiguredScene | scripts/classes/HTMLToScene.js:28-100 | a scene without flags gets every class default, e.g. minimal UI on, keepTop on, keepBottomControls 0, and the module disabled |
| SceneSettings.GetSceneTemplateData | scripts/classes/HTMLToScene.js:599-623 | every template field is present; coerced as its getter coerces, each field equals that getter on the same flags, so the template's own defaults agree with the getters' |
| SceneSettings.TemplateFlags | scripts/classes/HTMLToScene.js:601 | no contract of its own; TemplatePrefersDocumentFlags states which flags it picks |
| SceneSettings.TemplatePrefersDocumentFlags | scripts/classes/HTMLToScene.js:600-602 | flags reached through `document` win over those under `data`, even when empty; with only `data` flags, those are used |
| SceneSettings.UpdateRateInMs | scripts/classes/HTMLToScene.js:895-918 | the interval is non-negative exactly for the rates 1..5 and then at least 10 ms; every other rate, NaN included, gives -1 |
| SceneSettings.UpdateRateDecreasing | scripts/classes/HTMLToScene.js:897-912 | a higher rate setting means a strictly shorter interval |
| SceneSettings.SyncIntervalArmed | scripts/classes/HTMLToScene.js:871-880 | the sync timer is armed exactly when the rate is 1..5 and the file location does not start with `http` |
| SceneSettings.RefreshIntervalArmed | scripts/classes/HTMLToScene.js:268-272 | the refresh timer is armed exactly when iFrameRefreshRate is a number above 0; a scene without that flag never arms it |
| SceneSettings.ViewportWidth | scripts/classes/HTMLToScene.js:379-381 | the first non-zero of the three widths: innerWidth when that is non-zero, else documentElement.clientWidth when that is non-zero, else body.clientWidth; so one of the three in every case, and 0 only when the first two are 0 |
| SceneSettings.CalcSpacedWidth | scripts/classes/HTMLToScene.js:375-383 | the width of ui-right goes through a string and back (`'' + offsetWidth`, then the subtraction's coercion) without change, so the spaced width plus the width of ui-right is the window width |
| SceneSettings.FrameWidth | scripts/classes/HTMLToScene.js:234-241 | the frame gets a pixel width exactly when spaceRight is on and the right controls are not disabled, and that width leaves room for ui-right; otherwise it is 100% |
| Dom.GetElementById | scripts/classes/HTMLToScene.js:980-981 | a node is found exactly when the element is present |
| Dom.SetStyle | scripts/classes/HTMLToScene.js:989-991 | writing a style changes no element's presence and stores the value written |
| Dom.ApplyVisibility | scripts/classes/HTMLToScene.js:980-993 | nodeVisibility never adds or removes an element |
| Dom.NodeVisibilityRules | scripts/classes/HTMLToScene.js:980-993 | a missing element is left alone; 'visible' on the logo is ignored while showFoundryLogo is off; 'visible' and 'hidden' are stored; 'toggle' turns a visible element hidden and anything else visible; any other argument does nothing; no other element changes |
| Dom.IsDOMNodeShown | scripts/classes/HTMLToScene.js:836-839 | a missing element is not shown; a present one is shown exactly when its visibility is not 'hidden' |
| Dom.ReadAfterWrite | scripts/classes/HTMLToScene.js:836-839 | after 'hidden' an element reads as not shown; after an unguarded 'visible' it reads as shown; after 'toggle' it reads as shown exactly when it was not visible before |
| Dom.LogoGuard | scripts/classes/HTMLToScene.js:982-987 | with showFoundryLogo off, no argument but 'toggle' makes a logo that is not visible visible |
| Dom.ToggleBypassesLogoGuard | scripts/classes/HTMLToScene.js:982-991 | the guard covers only 'visible': 'toggle' shows a hidden logo even with showFoundryLogo off |
| Dom.ToggleOfUnsetStaysShown | scripts/classes/HTMLToScene.js:990-991 | 'toggle' on an element whose visibility is neither value makes it visible, so it reads as shown before and after |
| Dom.WriteIdempotent | scripts/classes/HTMLToScene.js:988-989 | writing 'visible' or 'hidden' twice is the same as writing it once |
| Dom.ToggleTwice | scripts/classes/HTMLToScene.js:990-991 | on an element that is visible or hidden, two toggles restore the page |
| Dom.SetStyleFrame | scripts/classes/HTMLToScene.js:989-991 | writing one element's style leaves every other style unchanged |
| Dom.SetStyleSame | scripts/classes/HTMLToScene.js:981-987 | storing back the style an element already has changes nothing (the early returns) |
| Dom.SetStyleTwice | scripts/classes/HTMLToScene.js:989-991 | the second of two stores to one style wins |
| StatusCodes.StatusPattern | scripts/classes/HTMLToScene.js:720-763 | the setters' switch matches exactly the codes 0..7 |
| StatusCodes.StatusCode | scripts/classes/HTMLToScene.js:704-713 | getBottomStatus's arithmetic gives a code 0..7 whose table entry is exactly the pattern read, so it inverts the setters' table |
| StatusCodes.CodeRoundTrip | scripts/classes/HTMLToScene.js:704-763 | encoding the table entry of a code 0..7 gives that code back |
| StatusCodes.LeftStatusCodeAsWritten | scripts/classes/HTMLToScene.js:770-779 | getLeftStatus's arithmetic as written stays in 0..6 and agrees with the bottom encoder except on "players only" |
| StatusCodes.ApplyPattern | scripts/classes/HTMLToScene.js:720-763 | a status write never adds or removes an element |
| StatusCodes.ApplyStatus | scripts/classes/HTMLToScene.js:720-763 | a code outside 0..7 matches no case and changes nothing |
| StatusCodes.GetBottomStatus | scripts/classes/HTMLToScene.js:704-713 | the bottom code is in 0..7 and its table entry is what the three bottom elements show |
| StatusCodes.GetLeftStatus | scripts/classes/HTMLToScene.js:770-779 | the left code, with the special case corrected, is in 0..7 and its table entry is what the three left elements show |
| StatusCodes.GetLeftStatusAsWritten | scripts/classes/HTMLToScene.js:770-779 | the left code as written never reaches 7 |
| StatusCodes.ApplyStatusShows | scripts/classes/HTMLToScene.js:720-839 | after setting a code 0..7 on a group whose three elements exist, they read back as the table says, unless the logo guard applies |
| StatusCodes.BottomRoundTrip | scripts/classes/HTMLToScene.js:704-763 | with the three bottom elements present, getBottomStatus after setBottomStatus(code) is code, for every code 0..7 |
| StatusCodes.LeftRoundTrip | scripts/classes/HTMLToScene.js:770-829 | with the three left elements present, showFoundryLogo on and the corrected getter, getLeftStatus after setLeftStatus(code) is code for every code 0..7 |
| StatusCodes.LeftRoundTripAsWritten | scripts/classes/HTMLToScene.js:770-829 | with the three left elements present, showFoundryLogo on and the getter as written, codes 0..6 come back and 7 comes back as 3 |
| StatusCodes.LeftStatusWithoutLogo | scripts/classes/HTMLToScene.js:786-829 | with the three left elements present and showFoundryLogo off, setLeftStatus still hides the logo, but where the code says 'visible' the logo keeps what it showed |
| StatusCodes.PlayersOnlyShown | scripts/classes/HTMLToScene.js:823-827 | with the three left elements present, code 7 leaves only the player list shown, whatever showFoundryLogo says |
| StatusCodes.AllHiddenShown | scripts/classes/HTMLToScene.js:720-727 | with the group's three elements present, code 0 leaves all three not shown, whatever showFoundryLogo says |
| StatusCodes.ShownOfSameStyles | scripts/classes/HTMLToScene.js:836-839 | what a group shows depends only on which elements exist and on the styles of its three elements |
| StatusCodes.VisibilityKeepsGroup | scripts/classes/HTMLToScene.js:980-993 | writing an element outside a group leaves what the group shows unchanged |
| StatusCodes.StatusKeepsOtherGroup | scripts/classes/HTMLToScene.js:720-829 | setting one group's code leaves what the other group shows unchanged |
| StatusCodes.StatusKeepsRegions | scripts/classes/HTMLToScene.js:720-829 | setting a group's code leaves the four UI regions and the pause indicator alone |
| StatusCodes.StatusFrame | scripts/classes/HTMLToScene.js:720-829 | setting a group's code leaves the style of every element outside the group unchanged |
| StatusCodes.MissingElementReadsHidden | scripts/classes/HTMLToScene.js:836-839 | a missing group element reads as not shown, whatever code was set |
| SceneUI.SceneControlsPage | scripts/classes/HTMLToScene.js:678-679 | on a disabled scene updateSceneControls changes nothing |
| SceneUI.PauseControlPage | scripts/classes/HTMLToScene.js:398-407 | on an enabled scene the pause indicator, when present, follows game.paused; nothing else changes |
| SceneUI.ApplyBottomSetting | scripts/classes/HTMLToScene.js:326 | no contract of its own; a NaN setting leaves the page as it is, and BottomBarCode and HTMLToScene.SetBottomStatusFromSetting state what it leaves |
| SceneUI.ChromeStage | scripts/classes/HTMLToScene.js:288-307 | no contract of its own; ChromeStageFrame, ChromeStageRightTop and ChromeMinimalHidesLeft state what it leaves, and HTMLToScene.ApplyChrome is proved equal to it |
| SceneUI.PauseStage | scripts/classes/HTMLToScene.js:309-316 | no contract of its own; PauseTopKeepLeft, LateStagesChrome and SetUIPause state what it leaves |
| SceneUI.TopStage | scripts/classes/HTMLToScene.js:318 | no contract of its own; PauseTopKeepLeft, LateStagesChrome and SetUITop state what it leaves |
| SceneUI.PlayerListStage | scripts/classes/HTMLToScene.js:320-323 | no contract of its own; PlayerListShown and PlayerListKeepsRegions state what it leaves |
| SceneUI.BottomBarStage | scripts/classes/HTMLToScene.js:325-326 | no contract of its own; BottomBarKeepsLeft, BottomBarCode and BottomBarRegions state what it leaves |
| SceneUI.LateStages | scripts/classes/HTMLToScene.js:309-326 | no contract of its own; LateStagesLeft, LateStagesBottom and LateStagesChrome state what it leaves, and HTMLToScene.ShowKeptElements is proved equal to it |
| SceneUI.SetUIPage | scripts/classes/HTMLToScene.js:280-336 | no contract of its own; SetUIShowsBottomBar, SetUIAppliesBottomControls, SetUIKeepsPlayerList, SetUIMinimalHidesLeft, SetUIRight, SetUITop, SetUIPause and SetUIKeepsElements state what it leaves, and HTMLToScene.SetUI is proved to leave it |
| SceneUI.ChromeStageFrame | scripts/classes/HTMLToScene.js:288-307 | setUI's first block leaves ui-left, ui-bottom, the pause indicator and the set of elements alone |
| SceneUI.PlayerListShown | scripts/classes/HTMLToScene.js:320-323 | with the three left elements present, the player-list step leaves the left group at "players only" |
| SceneUI.BottomBarKeepsLeft | scripts/classes/HTMLToScene.js:325-326 | showing ui-bottom and setting the bottom code leave the left group as it was |
| SceneUI.BottomBarCode | scripts/classes/HTMLToScene.js:325-326 | with the three bottom elements present, the bottom step sets the bottom code to keepBottomControls when that is a code 0..7 |
| SceneUI.PauseTopKeepLeft | scripts/classes/HTMLToScene.js:309-318 | the pause and ui-top steps touch neither the left group nor the set of elements |
| SceneUI.LateStagesLeft | scripts/classes/HTMLToScene.js:309-326 | after setUI's first block, the rest of setUI leaves the left group alone unless keepPlayerList is set, and then, with the three left elements present, only the player list shows |
| SceneUI.LateStagesBottom | scripts/classes/HTMLToScene.js:309-326 | with the three bottom elements present, the rest of setUI ends with the bottom code keepBottomControls, when that is 0..7 |
| SceneUI.PlayerListKeepsRegions | scripts/classes/HTMLToScene.js:320-323 | the player-list step touches only ui-left among the regions |
| SceneUI.BottomBarRegions | scripts/classes/HTMLToScene.js:325-326 | the bottom step shows ui-bottom and touches no other region |
| SceneUI.LateStagesChrome | scripts/classes/HTMLToScene.js:309-326 | what the rest of setUI leaves on ui-right, ui-top, the pause indicator and ui-bottom |
| SceneUI.SetUIShowsBottomBar | scripts/classes/HTMLToScene.js:280-336 | after setUI ui-bottom, when present, is visible |
| SceneUI.SetUIAppliesBottomControls | scripts/classes/HTMLToScene.js:280-336 | with the three bottom elements present, after setUI the bottom code is keepBottomControls whenever that is a code 0..7 |
| SceneUI.SetUIKeepsPlayerList | scripts/classes/HTMLToScene.js:280-336 | with the three left elements present and keepPlayerList set, setUI leaves the left code (read by the corrected getter) at 7, whatever showFoundryLogo says |
| SceneUI.ChromeMinimalHidesLeft | scripts/classes/HTMLToScene.js:288-297 | with the three left elements present, under minimal UI the first block hides the whole left group |
| SceneUI.SetUIMinimalHidesLeft | scripts/classes/HTMLToScene.js:280-336 | with the three left elements present, minimal UI and no player list, setUI leaves the left code at 0 |
| SceneUI.ChromeStageRightTop | scripts/classes/HTMLToScene.js:288-307 | the first block hides ui-right exactly when the right controls are disabled, and hides ui-top only under minimal UI with the right controls enabled |
| SceneUI.SetUIRight | scripts/classes/HTMLToScene.js:280-336 | after setUI, ui-right, when present, is hidden exactly when the right controls are disabled, and visible otherwise |
| SceneUI.SetUITop | scripts/classes/HTMLToScene.js:280-336 | after setUI, ui-top, when present, is visible unless minimal UI hid it with the right controls enabled and keepTop unset |
| SceneUI.SetUIPause | scripts/classes/HTMLToScene.js:280-336 | after setUI the pause indicator, when present, is hidden under hidePaused, visible while paused otherwise, and else untouched |
| SceneUI.ShowChrome | scripts/classes/HTMLToScene.js:354-362 | no contract of its own; ShowChromeRegions and ShowChromeKeepsLeft state what it leaves, and HTMLToScene.ShowChromeElements is proved equal to it |
| SceneUI.RestoreUIPage | scripts/classes/HTMLToScene.js:354-368 | no contract of its own; RestoreShowsRegions, RestoreReappliesCodes and RestoreOfRecordedThree state what it leaves, and HTMLToScene.RestoreUI is proved to leave it |
| SceneUI.ShowChromeRegions | scripts/classes/HTMLToScene.js:354-362 | restoreUI's first block shows the four regions, and the pause indicator while paused |
| SceneUI.ShowChromeKeepsLeft | scripts/classes/HTMLToScene.js:354-362 | restoreUI's first block leaves the left group and the set of elements alone |
| SceneUI.RestoreShowsRegions | scripts/classes/HTMLToScene.js:343-369 | after restoreUI the four regions, and while paused the pause indicator, are visible |
| SceneUI.RestoreReappliesCodes | scripts/classes/HTMLToScene.js:343-369 | after restoreUI each group whose three elements are present reads back its recorded code 0..7; for the left group only with showFoundryLogo on |
| SceneUI.SetUIPlayerListRecordedAsThree | scripts/classes/HTMLToScene.js:770-779 | with the three left elements present, the players-only left group setUI leaves under keepPlayerList is read by getLeftStatus as written as 3, so that is the code saveUIStatus or the next setUI records |
| SceneUI.RestoreOfRecordedThree | scripts/classes/HTMLToScene.js:343-369 | with the three left elements present, restoreUI with the recorded left code 3 shows the scene controls and hides the player list; the logo is shown with showFoundryLogo on, and with it off keeps what it showed |
| SceneUI.SetUIKeepsElements | scripts/classes/HTMLToScene.js:280-336 | setUI never adds or removes an element |
| SceneUI.SaveRestoreRoundTrip | scripts/classes/HTMLToScene.js:280-369 | with showFoundryLogo on and both groups present, setUI with the codes recorded from a page and then restoreUI of those codes give back the bottom group the page showed, and the left group too except a players-only one, which comes back as logo and scene controls |
| SceneUI.SceneControlsLeftStep | scripts/classes/HTMLToScene.js:680-689 | no contract of its own; SceneControlsLeft states what it leaves in the left group |
| SceneUI.SceneControlsBottom | scripts/classes/HTMLToScene.js:678-697 | on an enabled scene with the three bottom elements present, the bottom code becomes keepBottomControls under minimal UI, and the recorded code otherwise |
| SceneUI.SceneControlsLeft | scripts/classes/HTMLToScene.js:678-697 | on an enabled scene with the three left elements present, the left code becomes 7 with keepPlayerList, else 0 under minimal UI, else, with showFoundryLogo on, the recorded code |
| SceneUI.HTMLToScene.constructor | scripts/classes/HTMLToScene.js:18-24 | the static initial values: codes 1 and 6, no frame, no timers, not after an HTML scene |
| SceneUI.HTMLToScene.NodeVisibility | scripts/classes/HTMLToScene.js:980-993 | the imperative nodeVisibility leaves the page its model function gives |
| SceneUI.HTMLToScene.SetBottomStatus | scripts/classes/HTMLToScene.js:720-763 | the eight cases of the switch, each three writes, give ApplyStatus on the bottom group |
| SceneUI.HTMLToScene.SetLeftStatus | scripts/classes/HTMLToScene.js:786-829 | the same for the left group |
| SceneUI.HTMLToScene.SetBottomStatusFromSetting | scripts/classes/HTMLToScene.js:326 | setBottomStatus of the keepBottomControls setting; NaN matches no case |
| SceneUI.HTMLToScene.SaveUIStatus | scripts/classes/HTMLToScene.js:844-847 | the recorded codes become the codes the page shows now, the left one as getLeftStatus computes it as written (never 7) |
| SceneUI.HTMLToScene.StopActiveIntervals | scripts/classes/HTMLToScene.js:959-962 | both timers are stopped |
| SceneUI.HTMLToScene.UpdateSmallTime | scripts/classes/HTMLToScene.js:663-669 | SmallTime is hidden exactly on an enabled scene that asks for it |
| SceneUI.HTMLToScene.ApplyChrome | scripts/classes/HTMLToScene.js:288-307 | setUI's first block, proved equal to ChromeStage |
| SceneUI.HTMLToScene.ShowKeptElements | scripts/classes/HTMLToScene.js:309-326 | the rest of setUI's page writes, proved equal to LateStages |
| SceneUI.HTMLToScene.SetUI | scripts/classes/HTMLToScene.js:280-336 | the codes are recorded exactly when the previous scene was not an HTML scene, the left one by getLeftStatus as written; the page becomes SetUIPage of the codes then in effect; the board is shown unless hideBoard is set; SmallTime follows updateSmallTime |
| SceneUI.HTMLToScene.ShowChromeElements | scripts/classes/HTMLToScene.js:354-362 | restoreUI's page writes before the codes, proved equal to ShowChrome |
| SceneUI.HTMLToScene.RestoreUI | scripts/classes/HTMLToScene.js:343-369 | the frame is detached and its reference dropped; the page becomes RestoreUIPage of the recorded codes; board and SmallTime are shown; both timers are stopped |
| SceneUI.HTMLToScene.UpdateSceneControls | scripts/classes/HTMLToScene.js:678-697 | the page becomes SceneControlsPage of the recorded codes |
| SceneUI.HTMLToScene.PauseControl | scripts/classes/HTMLToScene.js:398-407 | the page becomes PauseControlPage |
| SceneUI.HTMLToScene.UpdateDimensions | scripts/classes/HTMLToScene.js:388-393 | on an enabled scene with a spaced width, an existing frame is resized to the spaced width; otherwise the frame is unchanged |
| SceneUI.HTMLToScene.CreateIframe | scripts/classes/HTMLToScene.js:416-429 | the new frame, with the width given, becomes the referenced one |
| SceneUI.HTMLToScene.PassDataToIFrame | scripts/classes/HTMLToScene.js:867-885 | the sync timer becomes armed exactly when SyncIntervalArmed holds, and an armed timer stays armed |
| SceneUI.HTMLToScene.AttachFrame | scripts/classes/HTMLToScene.js:231-272 | the previous frame is removed and exactly one new frame of FrameWidth is attached; the timers ask for passData and for the refresh rate |
| SceneUI.HTMLToScene.ShowHtmlScene | scripts/classes/HTMLToScene.js:227-272 | replace's enabled branch: the scene is marked as an HTML scene, the codes are not recorded, the page becomes SetUIPage, one frame of FrameWidth is attached and the timers are exactly those the flags ask for |
| SceneUI.HTMLToScene.Replace | scripts/classes/HTMLToScene.js:220-273 | a disabled scene becomes restoreUI and clears _lastSceneWasHTML; an enabled one sets it, stops the timers, runs setUI without recording the codes, and attaches one frame of FrameWidth with exactly the timers the flags ask for; at most one frame is ever attached |

## Left out

- Only scripts/classes/HTMLToScene.js is modelled; the files that call it (hooks, settings registration, helpers) are not part of this model.
- renderSceneConfig, getSceneHtml and the scene-config form: they build HTML for the configuration dialog and have no effect on the UI state.
- init, swapPosition, debugMode, htmlAccessSetter, refreshIFrame and all logging: they are host wiring, DOM calls whose effect the model does not track, or console output.
- The automatic macros (htmlToSceneReadyMacro and its two siblings): they poll a global asynchronously and run host macros; only their getters are modelled.
- Timers: `setInterval`/`clearInterval` become the booleans `updateIntervalArmed` and `refreshIntervalArmed`. The interval lengths are the value of `UpdateRateInMs` and of the refresh-rate flag, and the callbacks are not modelled.
- passDataToIFrame's globals (`FoundryVTTAccess`, `HTMLAccess`, the frame's `contentWindow`) and the `htmlToSceneReady` hook call: these are foreign objects.
- createIframe's attributes other than the width (source, id, height, position, border), and the choice between inserting the frame before `#pause` or before the Dice So Nice canvas. Inserting becomes a count of attached frames.
- updateDimensions' `height('100%')`: the model keeps only the width.
- jQuery `show()`/`hide()` on the board and SmallTime become the booleans `boardShown` and `smallTimeShown`; `display` is not modelled.
- `style.visibility` values other than 'visible' and 'hidden' are one value, Unset, because both primitives treat them alike.
- The page has a fixed set of elements (hotbar, camera views, fps, logo, controls, players, ui-top, ui-right, ui-left, ui-bottom, pause). The set of present elements never changes, because the module only writes styles.
- calcSpacedWidth dereferences `#ui-right` and throws when it is missing. Replace and UpdateDimensions instead require ui-right to be present whenever the spaced width is computed.
- Numbers are integers. Flag values that are fractions, `Infinity` or `NaN` cannot be written as a JsValue.
- NatToDecimal: integers are unbounded and always written as plain decimal digits. JavaScript numbers are doubles: `String` writes exponent notation from 10^21 on ("1e+21"), and integers beyond 2^53 are not exact. ToJsString, NumberOfStringRoundTrip and CalcSpacedWidth inherit this, so they describe the program only for magnitudes below 2^53.
- Number(string) accepts only the empty string and an optionally signed run of decimal digits. Whitespace, fractions, exponents and hexadecimal read as NaN here, unlike in JavaScript. For example, iFrameRefreshRate "1.5" arms the refresh timer in JavaScript but not in the model.
- Flags are keyed by the eighteen keys the module reads. Other keys in the namespace are not represented, because no getter reads them.

## Findings

| source | as written | input that shows it | evidently intended | confidence | as-written member | corrected member |
|---|---|---|---|---|---|---|
| scripts/classes/HTMLToScene.js:777 | the special case of getLeftStatus tests `players == 3`; `players` is a boolean, so the test never holds | setLeftStatus(7) with all three left elements present and the logo allowed: getLeftStatus then returns 3, not 7 | `status == 3`, as getBottomStatus does on line 711, so "players only" reads as 7 | not executed | StatusCodes.LeftRoundTripAsWritten | StatusCodes.LeftRoundTrip |

The class records the left code with the getter as written, as the source does (`SaveUIStatus`, `SetUI`). `SaveRestoreRoundTrip` states the visible effect in one lemma: with showFoundryLogo on and both groups present, a players-only left group is recorded as 3 and comes back from restoreUI as logo and scene controls, while every other pattern comes back unchanged. `SetUIPlayerListRecordedAsThree` and `RestoreOfRecordedThree` give the two halves; the second also covers the setting off, where the logo keeps what it showed. The lemmas that read the page afterwards (`SetUIKeepsPlayerList`, `SceneControlsLeft`, `RestoreReappliesCodes`) use the corrected `GetLeftStatus`, which reads exactly the pattern shown.
