/**
 * The per-scene configuration: the flag getters with their defaults, the data
 * handed to the scene-settings template, the data-update-rate table, when the
 * two timers are armed, and the width the embedded frame gets.
 */
module SceneSettings {
  import opened Wrappers
  import opened JsValues

  /**
   * The `htmltoscene` namespace of the current scene's flags. A key that is
   * absent reads as undefined; a scene without the namespace, or no scene at
   * all, reads like the empty map.
   */
  type Flags = map<FlagKey, JsValue>

  /** The keys of the namespace that the module reads, spelled as in the flags. */
  datatype FlagKey =
    | enable | fileLoc | minUI | spaceRight | rightDisabled | hidePaused | keepTop | keepPlayerList
    | keepBottomControls | hideSmallTime | hideBoard | passData | dataUpdateRate | iFrameRefreshRate
    | autoMacrosEnabled | selfReadyMacroName | iframeReadyMacroName | iframeUpdatedMacroName

  /** `flags.htmltoscene?.<key>` */
  function Flag(flags: Flags, key: FlagKey): JsValue {
    if key in flags then flags[key] else Undefined
  }

  // The class-level defaults the getters fall back to.
  const FileLocation: string := ""
  const HtmltosceneReadyMacro: string := ""
  const IframeReadyMacro: string := ""
  const IframeUpdatedMacro: string := ""
  const MinimalUI: bool := true
  const ForceSceneChanger: bool := true
  const ForcePlayerList: bool := false
  const RespectRightControls: bool := true
  const DisableRightControls: bool := false
  const DisableGamePausedStatus: bool := false
  const DisableSmallTime: bool := false
  const DisableBoard: bool := false
  const AssistedBidirectionalAccess: bool := false
  const AutoMacros: bool := false
  const LowerUISettings: int := 0
  const AllowedRateOfAccess: int := 0
  const IFrameRefreshingRate: int := 0

  /** `Boolean(flag ?? default)` */
  function BoolSetting(flags: Flags, key: FlagKey, default: bool): (r: bool)
    ensures !IsNullish(Flag(flags, key)) ==> r == Truthy(Flag(flags, key))
    ensures IsNullish(Flag(flags, key)) ==> r == default
  {
    Truthy(Coalesce(Flag(flags, key), Bool(default)))
  }

  /** `Number(flag ?? default)` */
  function NumberSetting(flags: Flags, key: FlagKey, default: int): (r: Numeric)
    ensures !IsNullish(Flag(flags, key)) ==> r == ToNumber(Flag(flags, key))
    ensures IsNullish(Flag(flags, key)) ==> r == Finite(default)
  {
    ToNumber(Coalesce(Flag(flags, key), Num(default)))
  }

  /** `String(flag ?? default)` */
  function StringSetting(flags: Flags, key: FlagKey, default: string): (r: string)
    ensures !IsNullish(Flag(flags, key)) ==> r == ToJsString(Flag(flags, key))
    ensures IsNullish(Flag(flags, key)) ==> r == default
  {
    ToJsString(Coalesce(Flag(flags, key), Str(default)))
  }

  /** `Boolean(flag)`: the one getter without a default, so a missing flag is false. */
  function Enabled(flags: Flags): (r: bool)
    ensures r <==> enable in flags && Truthy(flags[enable])
  {
    Truthy(Flag(flags, enable))
  }

  function MinUI(flags: Flags): bool { BoolSetting(flags, minUI, MinimalUI) }
  function KeepTop(flags: Flags): bool { BoolSetting(flags, keepTop, ForceSceneChanger) }
  function KeepPlayerList(flags: Flags): bool { BoolSetting(flags, keepPlayerList, ForcePlayerList) }
  function SpaceRight(flags: Flags): bool { BoolSetting(flags, spaceRight, RespectRightControls) }
  function RightDisabled(flags: Flags): bool { BoolSetting(flags, rightDisabled, DisableRightControls) }
  function HidePaused(flags: Flags): bool { BoolSetting(flags, hidePaused, DisableGamePausedStatus) }
  function HideSmallTime(flags: Flags): bool { BoolSetting(flags, hideSmallTime, DisableSmallTime) }
  function HideBoard(flags: Flags): bool { BoolSetting(flags, hideBoard, DisableBoard) }
  function PassData(flags: Flags): bool { BoolSetting(flags, passData, AssistedBidirectionalAccess) }
  function AutoMacrosEnabled(flags: Flags): bool { BoolSetting(flags, autoMacrosEnabled, AutoMacros) }

  function KeepBottomControls(flags: Flags): Numeric { NumberSetting(flags, keepBottomControls, LowerUISettings) }
  function DataUpdateRate(flags: Flags): Numeric { NumberSetting(flags, dataUpdateRate, AllowedRateOfAccess) }
  function IFrameRefreshRate(flags: Flags): Numeric { NumberSetting(flags, iFrameRefreshRate, IFrameRefreshingRate) }

  /** The getters read when the page is switched between the HTML scene and the canvas. */
  datatype UiFlags = UiFlags(
    enabled: bool, minUI: bool, rightDisabled: bool, hidePaused: bool,
    keepTop: bool, keepPlayerList: bool, keepBottomControls: Numeric)

  function UiFlagsOf(flags: Flags): UiFlags {
    UiFlags(Enabled(flags), MinUI(flags), RightDisabled(flags), HidePaused(flags),
            KeepTop(flags), KeepPlayerList(flags), KeepBottomControls(flags))
  }

  function FileLoc(flags: Flags): string { StringSetting(flags, fileLoc, FileLocation) }
  function SelfReadyMacroName(flags: Flags): string { StringSetting(flags, selfReadyMacroName, HtmltosceneReadyMacro) }
  function IframeReadyMacroName(flags: Flags): string { StringSetting(flags, iframeReadyMacroName, IframeReadyMacro) }
  function IframeUpdatedMacroName(flags: Flags): string { StringSetting(flags, iframeUpdatedMacroName, IframeUpdatedMacro) }

  /** A scene without any of the module's flags gets exactly the documented defaults. */
  lemma DefaultsOfUnconfiguredScene()
    ensures var f: Flags := map[];
      && !Enabled(f) && MinUI(f) && KeepTop(f) && !KeepPlayerList(f) && SpaceRight(f)
      && !RightDisabled(f) && !HidePaused(f) && !HideSmallTime(f) && !HideBoard(f)
      && !PassData(f) && !AutoMacrosEnabled(f)
      && KeepBottomControls(f) == Finite(0) && DataUpdateRate(f) == Finite(0)
      && IFrameRefreshRate(f) == Finite(0)
      && FileLoc(f) == "" && SelfReadyMacroName(f) == ""
      && IframeReadyMacroName(f) == "" && IframeUpdatedMacroName(f) == ""
  {
  }

  /** The values the settings template is rendered with; every field is a raw flag value or its default. */
  datatype TemplateData = TemplateData(
    enable: JsValue, fileLoc: JsValue, minUI: JsValue, spaceRight: JsValue,
    rightDisabled: JsValue, hidePaused: JsValue, keepTop: JsValue, keepPlayerList: JsValue,
    keepBottomControls: JsValue, hideSmallTime: JsValue, hideBoard: JsValue, passData: JsValue,
    dataUpdateRate: JsValue, iFrameRefreshRate: JsValue, autoMacrosEnabled: JsValue,
    selfReadyMacroName: JsValue, iframeReadyMacroName: JsValue, iframeUpdatedMacroName: JsValue)

  /**
   * The hook data of the scene-config render: the `htmltoscene` flags reached
   * through `document.flags` and through the older `data.flags` (None where the
   * path yields undefined).
   */
  datatype HookData = HookData(documentFlags: Option<Flags>, dataFlags: Option<Flags>)

  /** `document?.flags?.htmltoscene || data?.flags?.htmltoscene || {}`; an object is always truthy. */
  function TemplateFlags(h: HookData): Flags {
    match h.documentFlags
    case Some(f) => f
    case None =>
      match h.dataFlags
      case Some(g) => g
      case None => map[]
  }

  predicate AllPresent(d: TemplateData) {
    && !IsNullish(d.enable) && !IsNullish(d.fileLoc) && !IsNullish(d.minUI)
    && !IsNullish(d.spaceRight) && !IsNullish(d.rightDisabled) && !IsNullish(d.hidePaused)
    && !IsNullish(d.keepTop) && !IsNullish(d.keepPlayerList) && !IsNullish(d.keepBottomControls)
    && !IsNullish(d.hideSmallTime) && !IsNullish(d.hideBoard) && !IsNullish(d.passData)
    && !IsNullish(d.dataUpdateRate) && !IsNullish(d.iFrameRefreshRate)
    && !IsNullish(d.autoMacrosEnabled) && !IsNullish(d.selfReadyMacroName)
    && !IsNullish(d.iframeReadyMacroName) && !IsNullish(d.iframeUpdatedMacroName)
  }

  /**
   * getSceneTemplateData. Its defaults are written out separately from the
   * getters'; the contract says they agree: coerced the way the matching getter
   * coerces, every field gives what that getter gives on the same flags.
   */
  function GetSceneTemplateData(h: HookData): (d: TemplateData)
    ensures AllPresent(d)
    ensures var f := TemplateFlags(h);
      && Truthy(d.enable) == Enabled(f)
      && Truthy(d.minUI) == MinUI(f)
      && Truthy(d.spaceRight) == SpaceRight(f)
      && Truthy(d.rightDisabled) == RightDisabled(f)
      && Truthy(d.hidePaused) == HidePaused(f)
      && Truthy(d.keepTop) == KeepTop(f)
      && Truthy(d.keepPlayerList) == KeepPlayerList(f)
      && Truthy(d.hideSmallTime) == HideSmallTime(f)
      && Truthy(d.hideBoard) == HideBoard(f)
      && Truthy(d.passData) == PassData(f)
      && Truthy(d.autoMacrosEnabled) == AutoMacrosEnabled(f)
      && ToNumber(d.keepBottomControls) == KeepBottomControls(f)
      && ToNumber(d.dataUpdateRate) == DataUpdateRate(f)
      && ToNumber(d.iFrameRefreshRate) == IFrameRefreshRate(f)
      && ToJsString(d.fileLoc) == FileLoc(f)
      && ToJsString(d.selfReadyMacroName) == SelfReadyMacroName(f)
      && ToJsString(d.iframeReadyMacroName) == IframeReadyMacroName(f)
      && ToJsString(d.iframeUpdatedMacroName) == IframeUpdatedMacroName(f)
  {
    var f := TemplateFlags(h);
    TemplateData(
      enable := Coalesce(Flag(f, enable), Bool(false)),
      fileLoc := Coalesce(Flag(f, fileLoc), Str("")),
      minUI := Coalesce(Flag(f, minUI), Bool(true)),
      spaceRight := Coalesce(Flag(f, spaceRight), Bool(true)),
      rightDisabled := Coalesce(Flag(f, rightDisabled), Bool(false)),
      hidePaused := Coalesce(Flag(f, hidePaused), Bool(false)),
      keepTop := Coalesce(Flag(f, keepTop), Bool(true)),
      keepPlayerList := Coalesce(Flag(f, keepPlayerList), Bool(false)),
      keepBottomControls := Coalesce(Flag(f, keepBottomControls), Num(0)),
      hideSmallTime := Coalesce(Flag(f, hideSmallTime), Bool(false)),
      hideBoard := Coalesce(Flag(f, hideBoard), Bool(false)),
      passData := Coalesce(Flag(f, passData), Bool(false)),
      dataUpdateRate := Coalesce(Flag(f, dataUpdateRate), Num(0)),
      iFrameRefreshRate := Coalesce(Flag(f, iFrameRefreshRate), Num(0)),
      autoMacrosEnabled := Coalesce(Flag(f, autoMacrosEnabled), Bool(false)),
      selfReadyMacroName := Coalesce(Flag(f, selfReadyMacroName), Str("")),
      iframeReadyMacroName := Coalesce(Flag(f, iframeReadyMacroName), Str("")),
      iframeUpdatedMacroName := Coalesce(Flag(f, iframeUpdatedMacroName), Str("")))
  }

  /** The flags under `document` win over those under `data`, even when they are empty. */
  lemma TemplatePrefersDocumentFlags(f: Flags, g: Option<Flags>)
    ensures GetSceneTemplateData(HookData(Some(f), g)) == GetSceneTemplateData(HookData(Some(f), None))
    ensures GetSceneTemplateData(HookData(None, Some(f))) == GetSceneTemplateData(HookData(Some(f), None))
  {
  }

  /** getUpdateRateInMs: the dataUpdateRate setting as an interval in milliseconds, -1 for "no updates". */
  function UpdateRateInMs(rate: Numeric): (ms: int)
    ensures ms >= 0 <==> rate.Finite? && 1 <= rate.value <= 5
    ensures ms >= 0 ==> ms >= 10
    ensures ms < 0 ==> ms == -1
  {
    match rate
    case NaN => -1
    case Finite(r) =>
      if r == 1 then 5000
      else if r == 2 then 1000
      else if r == 3 then 500
      else if r == 4 then 250
      else if r == 5 then 10
      else -1
  }

  /** A higher rate setting means a strictly shorter interval. */
  lemma UpdateRateDecreasing(a: int, b: int)
    requires 1 <= a < b <= 5
    ensures 0 < UpdateRateInMs(Finite(b)) < UpdateRateInMs(Finite(a))
  {
  }

  /** passDataToIFrame arms the sync interval only for a rate in 1..5 and a local file. */
  function SyncIntervalArmed(flags: Flags): (armed: bool)
    ensures armed <==> && DataUpdateRate(flags).Finite? && 1 <= DataUpdateRate(flags).value <= 5
                       && !("http" <= FileLoc(flags))
  {
    UpdateRateInMs(DataUpdateRate(flags)) >= 0 && !("http" <= FileLoc(flags))
  }

  /** replace arms the refresh interval when `iFrameRefreshRate > 0` (false for NaN). */
  function RefreshIntervalArmed(flags: Flags): (armed: bool)
    ensures armed <==> IFrameRefreshRate(flags).Finite? && IFrameRefreshRate(flags).value > 0
    ensures !(iFrameRefreshRate in flags) ==> !armed
  {
    match IFrameRefreshRate(flags)
    case NaN => false
    case Finite(ms) => ms > 0
  }

  /** Window and sidebar sizes as the host reports them, in pixels. */
  datatype Viewport = Viewport(innerWidth: int, documentClientWidth: int, bodyClientWidth: int,
                               rightOffsetWidth: int)

  /** `window.innerWidth || document.documentElement.clientWidth || document.body.clientWidth` */
  function ViewportWidth(v: Viewport): (w: int)
    ensures v.innerWidth != 0 ==> w == v.innerWidth
    ensures v.innerWidth == 0 && v.documentClientWidth != 0 ==> w == v.documentClientWidth
    ensures v.innerWidth == 0 && v.documentClientWidth == 0 ==> w == v.bodyClientWidth
    ensures w == 0 ==> v.innerWidth == 0 && v.documentClientWidth == 0
    ensures w in {v.innerWidth, v.documentClientWidth, v.bodyClientWidth}
  {
    if v.innerWidth != 0 then v.innerWidth
    else if v.documentClientWidth != 0 then v.documentClientWidth
    else v.bodyClientWidth
  }

  /**
   * calcSpacedWidth: the window width less the width of `ui-right`. The width
   * of `ui-right` is first turned into a string, and the subtraction turns
   * that string back into a number.
   */
  function CalcSpacedWidth(v: Viewport): (w: int)
    ensures w + v.rightOffsetWidth == ViewportWidth(v)
  {
    var widthUImod := ToJsString(Num(v.rightOffsetWidth));
    NumberOfStringRoundTrip(v.rightOffsetWidth);
    ViewportWidth(v) - ToNumber(Str(widthUImod)).value
  }

  datatype Width = FullWidth | Pixels(px: int)

  predicate UsesSpacedWidth(flags: Flags) {
    SpaceRight(flags) && !RightDisabled(flags)
  }

  /** The frame's width: spaced exactly when spaceRight is on and the right controls are not disabled. */
  function FrameWidth(flags: Flags, v: Viewport): (w: Width)
    ensures w.Pixels? <==> SpaceRight(flags) && !RightDisabled(flags)
    ensures w.Pixels? ==> w.px + v.rightOffsetWidth == ViewportWidth(v)
  {
    if UsesSpacedWidth(flags) then Pixels(CalcSpacedWidth(v)) else FullWidth
  }
}
