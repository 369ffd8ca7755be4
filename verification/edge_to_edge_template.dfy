/** The simulated system bars of the preview template: the configuration with
    its defaults and presets, where the navigation bar and the camera cutout go
    for a navigation mode and orientation, how big each inset is, the block of
    `setInset` calls the template hands to `buildInsets`, and the padding that
    keeps the status bar clear of a corner cutout. Sizes are in dp, read at
    density 1, so a `roundToPx` is the identity. */
module Template {
  import opened InsetTypes
  import opened InsetsBuilder

  datatype NavigationMode = ThreeButton | Gesture

  /** `NavigationMode.entries`, in declaration order. */
  const NavigationModes: seq<NavigationMode> := [ThreeButton, Gesture]

  /** Visible: shown. Hidden: takes space only in the insets ignoring visibility. Off: absent. */
  datatype InsetMode = Visible | Hidden | Off

  datatype CameraCutoutMode = None | Middle | Start | End

  datatype InsetsConfig = InsetsConfig(
    navMode: NavigationMode,
    cameraCutoutMode: CameraCutoutMode,
    cameraCutoutSize: int,
    isInvertedOrientation: bool,
    showInsetsBorder: bool,
    statusBarMode: InsetMode,
    statusBarSize: int,
    navigationBarMode: InsetMode,
    navigationBarSize: int,
    isNavigationBarContrastEnforced: bool,
    captionBarMode: InsetMode,
    captionBarSize: int,
    useHiddenApiHack: bool)

  /** The `InsetsConfig` constructor with its default arguments; the navigation
      bar's default size depends on the navigation mode. */
  function MakeConfig(
    navMode: NavigationMode := ThreeButton,
    cameraCutoutMode: CameraCutoutMode := Middle,
    cameraCutoutSize: int := 52,
    isInvertedOrientation: bool := false,
    showInsetsBorder: bool := false,
    statusBarMode: InsetMode := Visible,
    statusBarSize: int := 24,
    navigationBarMode: InsetMode := Visible,
    navigationBarSize: int := if navMode == ThreeButton then 48 else 32,
    isNavigationBarContrastEnforced: bool := true,
    captionBarMode: InsetMode := Off,
    captionBarSize: int := 42,
    useHiddenApiHack: bool := false): InsetsConfig
  {
    InsetsConfig(navMode, cameraCutoutMode, cameraCutoutSize, isInvertedOrientation, showInsetsBorder,
                 statusBarMode, statusBarSize, navigationBarMode, navigationBarSize,
                 isNavigationBarContrastEnforced, captionBarMode, captionBarSize, useHiddenApiHack)
  }

  const DefaultConfig := MakeConfig()
  const GestureNavConfig := MakeConfig(navMode := Gesture)
  const InvertedOrientationConfig := MakeConfig(isInvertedOrientation := true)
  const DesktopModeConfig :=
    MakeConfig(statusBarMode := Off, navigationBarMode := Off, captionBarMode := Visible, cameraCutoutMode := None)

  /** The first `EdgeToEdgeTemplate` overload: the configuration it builds from
      its arguments, every size left at its default. */
  function TemplateConfig(
    navMode: NavigationMode, cameraCutoutMode: CameraCutoutMode, isInvertedOrientation: bool,
    showInsetsBorder: bool, statusBarMode: InsetMode, navigationBarMode: InsetMode,
    isNavigationBarContrastEnforced: bool, captionBarMode: InsetMode, useHiddenApiHack: bool)
    : (c: InsetsConfig)
    ensures c.statusBarSize == 24 && c.cameraCutoutSize == 52 && c.captionBarSize == 42
    ensures c.navigationBarSize == if navMode == ThreeButton then 48 else 32
  {
    MakeConfig(navMode := navMode, statusBarMode := statusBarMode, navigationBarMode := navigationBarMode,
               captionBarMode := captionBarMode, cameraCutoutMode := cameraCutoutMode,
               isInvertedOrientation := isInvertedOrientation, showInsetsBorder := showInsetsBorder,
               isNavigationBarContrastEnforced := isNavigationBarContrastEnforced,
               useHiddenApiHack := useHiddenApiHack)
  }

  /** The defaults and the presets. */
  lemma ConfigDefaults()
    ensures DefaultConfig.navMode == ThreeButton && DefaultConfig.navigationBarSize == 48
    ensures DefaultConfig.statusBarSize == 24 && DefaultConfig.cameraCutoutSize == 52
    ensures DefaultConfig.captionBarSize == 42 && DefaultConfig.captionBarMode == Off
    ensures DefaultConfig.cameraCutoutMode == Middle && !DefaultConfig.isInvertedOrientation
    ensures GestureNavConfig.navigationBarSize == 32
    ensures InvertedOrientationConfig.isInvertedOrientation && InvertedOrientationConfig.navigationBarSize == 48
    ensures DesktopModeConfig.statusBarMode == Off && DesktopModeConfig.navigationBarMode == Off
    ensures DesktopModeConfig.captionBarMode == Visible && DesktopModeConfig.cameraCutoutMode == None
  {
  }

  /** Where the navigation bar goes. */
  function NavigationPos(cfg: InsetsConfig, isLandscape: bool): InsetPos {
    if cfg.navMode == Gesture then Bottom
    else if isLandscape && cfg.isInvertedOrientation then Left
    else if isLandscape then Right
    else Bottom
  }

  /** Where the camera cutout goes. */
  function CameraCutoutPos(cfg: InsetsConfig, isLandscape: bool): InsetPos {
    if !isLandscape && cfg.isInvertedOrientation then Bottom
    else if isLandscape && !cfg.isInvertedOrientation then Left
    else if isLandscape then Right
    else Top
  }

  /** In landscape with three-button navigation the buttons sit on the side
      opposite the cutout, and the cutout is on the left unless the orientation
      is inverted; in portrait the cutout is at the top unless the device is
      upside down. */
  lemma PlacementTable(cfg: InsetsConfig, isLandscape: bool)
    ensures isLandscape && cfg.navMode == ThreeButton ==>
      {NavigationPos(cfg, isLandscape), CameraCutoutPos(cfg, isLandscape)} == {Left, Right}
    ensures isLandscape ==> CameraCutoutPos(cfg, isLandscape) in {Left, Right}
    ensures isLandscape ==> (CameraCutoutPos(cfg, isLandscape) == Left <==> !cfg.isInvertedOrientation)
    ensures !isLandscape ==> NavigationPos(cfg, isLandscape) == Bottom
    ensures !isLandscape ==> (CameraCutoutPos(cfg, isLandscape) == Top <==> !cfg.isInvertedOrientation)
    ensures CameraCutoutPos(cfg, isLandscape) != Top || NavigationPos(cfg, isLandscape) == Bottom
  {
  }

  /** The cutout size: 0 when there is no cutout. */
  function CutoutSize(cfg: InsetsConfig): int {
    if cfg.cameraCutoutMode != None then cfg.cameraCutoutSize else 0
  }

  /** The status bar height: stretched to the cutout when the cutout is at the top. */
  function StatusBarHeight(cfg: InsetsConfig, isLandscape: bool): (h: int)
    ensures h >= cfg.statusBarSize
    ensures CameraCutoutPos(cfg, isLandscape) == Top ==> h >= CutoutSize(cfg)
    ensures h == cfg.statusBarSize || h == CutoutSize(cfg)
    ensures CameraCutoutPos(cfg, isLandscape) != Top ==> h == cfg.statusBarSize
  {
    var cutout := CutoutSize(cfg);
    if CameraCutoutPos(cfg, isLandscape) == Top then
      (if cfg.statusBarSize >= cutout then cfg.statusBarSize else cutout)
    else cfg.statusBarSize
  }

  /** The navigation inset: the cutout is added when both sit at the bottom. */
  function NavigationInsetSize(cfg: InsetsConfig, isLandscape: bool): int {
    if CameraCutoutPos(cfg, isLandscape) == Bottom && NavigationPos(cfg, isLandscape) == Bottom
    then cfg.navigationBarSize + CutoutSize(cfg)
    else cfg.navigationBarSize
  }

  /** Navigation bar and cutout share the bottom edge exactly in upside-down portrait,
      and only then does the navigation inset grow by the cutout. */
  lemma NavigationAbsorbsCutoutIff(cfg: InsetsConfig, isLandscape: bool)
    ensures (CameraCutoutPos(cfg, isLandscape) == Bottom && NavigationPos(cfg, isLandscape) == Bottom)
        <==> !isLandscape && cfg.isInvertedOrientation
    ensures !isLandscape && cfg.isInvertedOrientation ==>
      NavigationInsetSize(cfg, isLandscape) == cfg.navigationBarSize + CutoutSize(cfg)
    ensures !(!isLandscape && cfg.isInvertedOrientation) ==>
      NavigationInsetSize(cfg, isLandscape) == cfg.navigationBarSize
  {
  }

  /** The block of `setInset` calls the template passes to `buildInsets`. */
  function TemplateBlock(cfg: InsetsConfig, isLandscape: bool): seq<InsetCall> {
    StatusBarCall(cfg, isLandscape) + NavigationBarCall(cfg, isLandscape)
    + CutoutCall(cfg, isLandscape) + CaptionBarCall(cfg)
  }

  function StatusBarCall(cfg: InsetsConfig, isLandscape: bool): seq<InsetCall> {
    if cfg.statusBarMode != Off
    then [SetAt(Top, StatusBars, StatusBarHeight(cfg, isLandscape), cfg.statusBarMode == Visible)]
    else []
  }

  function NavigationBarCall(cfg: InsetsConfig, isLandscape: bool): seq<InsetCall> {
    if cfg.navigationBarMode != Off
    then [SetAt(NavigationPos(cfg, isLandscape), NavigationBars, NavigationInsetSize(cfg, isLandscape),
                cfg.navigationBarMode == Visible)]
    else []
  }

  function CutoutCall(cfg: InsetsConfig, isLandscape: bool): seq<InsetCall> {
    if cfg.cameraCutoutMode != None
    then [SetAt(CameraCutoutPos(cfg, isLandscape), DisplayCutout, CutoutSize(cfg), true)]
    else []
  }

  function CaptionBarCall(cfg: InsetsConfig): seq<InsetCall> {
    if cfg.captionBarMode != Off then [SetAt(Top, CaptionBar, cfg.captionBarSize, true)] else []
  }

  /** Each of the four types is set at most once per build, and no other type is set. */
  lemma TemplateBlockDistinct(cfg: InsetsConfig, isLandscape: bool)
    ensures var b := TemplateBlock(cfg, isLandscape);
      |b| <= 4
      && (forall j, k :: 0 <= j < k < |b| ==> b[j].insetType != b[k].insetType)
      && (forall k :: 0 <= k < |b| ==> b[k].insetType in {StatusBars, NavigationBars, DisplayCutout, CaptionBar})
  {
  }

  /** The `buildInsets { … }` block of `EdgeToEdgeTemplate`: guarded `setInset`
      calls on a fresh builder, then `build()`. */
  method TemplateInsets(cfg: InsetsConfig, isLandscape: bool) returns (w: BuiltInsets)
    ensures w == Replay(Untouched, TemplateBlock(cfg, isLandscape))
  {
    var dsl := new InsetsDsl();
    SetStatusBar(dsl, cfg, isLandscape);
    SetNavigationBar(dsl, cfg, isLandscape, StatusBarCall(cfg, isLandscape));
    SetCutout(dsl, cfg, isLandscape, StatusBarCall(cfg, isLandscape) + NavigationBarCall(cfg, isLandscape));
    SetCaptionBar(dsl, cfg, StatusBarCall(cfg, isLandscape) + NavigationBarCall(cfg, isLandscape)
                            + CutoutCall(cfg, isLandscape));
    w := dsl.Build();
  }

  /** The status bar, stretched to a top cutout, unless it is Off. */
  method SetStatusBar(dsl: InsetsDsl, cfg: InsetsConfig, isLandscape: bool)
    requires dsl.Build() == Untouched
    modifies dsl
    ensures dsl.Build() == Replay(Untouched, StatusBarCall(cfg, isLandscape))
  {
    if cfg.statusBarMode != Off {
      var _ := dsl.SetInsetAt(Top, StatusBars, StatusBarHeight(cfg, isLandscape), cfg.statusBarMode == Visible);
      ReplayAppend([], StatusBarCall(cfg, isLandscape)[0]);
    }
  }

  /** The navigation bar at its position, unless it is Off. */
  method SetNavigationBar(dsl: InsetsDsl, cfg: InsetsConfig, isLandscape: bool, ghost calls: seq<InsetCall>)
    requires dsl.Build() == Replay(Untouched, calls)
    modifies dsl
    ensures dsl.Build() == Replay(Untouched, calls + NavigationBarCall(cfg, isLandscape))
  {
    if cfg.navigationBarMode != Off {
      var _ := dsl.SetInsetAt(NavigationPos(cfg, isLandscape), NavigationBars, NavigationInsetSize(cfg, isLandscape),
                              cfg.navigationBarMode == Visible);
      ReplayAppend(calls, NavigationBarCall(cfg, isLandscape)[0]);
    } else {
      assert calls + NavigationBarCall(cfg, isLandscape) == calls;
    }
  }

  /** The camera cutout at its position, when there is one. */
  method SetCutout(dsl: InsetsDsl, cfg: InsetsConfig, isLandscape: bool, ghost calls: seq<InsetCall>)
    requires dsl.Build() == Replay(Untouched, calls)
    modifies dsl
    ensures dsl.Build() == Replay(Untouched, calls + CutoutCall(cfg, isLandscape))
  {
    if cfg.cameraCutoutMode != None {
      var _ := dsl.SetInsetAt(CameraCutoutPos(cfg, isLandscape), DisplayCutout, CutoutSize(cfg), true);
      ReplayAppend(calls, CutoutCall(cfg, isLandscape)[0]);
    } else {
      assert calls + CutoutCall(cfg, isLandscape) == calls;
    }
  }

  /** The caption bar at the top, unless it is Off. */
  method SetCaptionBar(dsl: InsetsDsl, cfg: InsetsConfig, ghost calls: seq<InsetCall>)
    requires dsl.Build() == Replay(Untouched, calls)
    modifies dsl
    ensures dsl.Build() == Replay(Untouched, calls + CaptionBarCall(cfg))
  {
    if cfg.captionBarMode != Off {
      var _ := dsl.SetInsetAt(Top, CaptionBar, cfg.captionBarSize, true);
      ReplayAppend(calls, CaptionBarCall(cfg)[0]);
    } else {
      assert calls + CaptionBarCall(cfg) == calls;
    }
  }

  /** The call the template makes for each type, if any. */
  lemma TemplateCallFor(cfg: InsetsConfig, isLandscape: bool)
    ensures var b := TemplateBlock(cfg, isLandscape);
      DistinctTypes(b)
      && CallFor(b, StatusBars) == CallFor(StatusBarCall(cfg, isLandscape), StatusBars)
      && CallFor(b, NavigationBars) == CallFor(NavigationBarCall(cfg, isLandscape), NavigationBars)
      && CallFor(b, DisplayCutout) == CallFor(CutoutCall(cfg, isLandscape), DisplayCutout)
      && CallFor(b, CaptionBar) == CallFor(CaptionBarCall(cfg), CaptionBar)
  {
    TemplateBlockDistinct(cfg, isLandscape);
    var st, nv := StatusBarCall(cfg, isLandscape), NavigationBarCall(cfg, isLandscape);
    var ct, cp := CutoutCall(cfg, isLandscape), CaptionBarCall(cfg);
    forall t ensures CallFor(st + nv + ct + cp, t)
                  == CallFor(cp, t).Or(CallFor(ct, t).Or(CallFor(nv, t).Or(CallFor(st, t)))) {
      CallForAppend(st + nv + ct, cp, t);
      CallForAppend(st + nv, ct, t);
      CallForAppend(st, nv, t);
    }
    if nv != [] { CallForSingle(nv[0], StatusBars); }
    if ct != [] { CallForSingle(ct[0], StatusBars); CallForSingle(ct[0], NavigationBars); }
    if cp != [] {
      CallForSingle(cp[0], StatusBars); CallForSingle(cp[0], NavigationBars);
      CallForSingle(cp[0], DisplayCutout);
    }
  }

  /** The status bar is set at the top unless Off, and shown iff Visible. */
  lemma TemplateStatusBar(cfg: InsetsConfig, isLandscape: bool)
    ensures var w := Replay(Untouched, TemplateBlock(cfg, isLandscape));
      (StatusBars in w.ignoringVisibility <==> cfg.statusBarMode != Off)
      && (StatusBars in w.visible <==> cfg.statusBarMode == Visible)
      && (cfg.statusBarMode != Off ==>
            w.ignoringVisibility[StatusBars] == InsetsAt(Top, StatusBarHeight(cfg, isLandscape))
            && StatusBars in w.visibility && w.visibility[StatusBars] == (cfg.statusBarMode == Visible))
  {
    TemplateCallFor(cfg, isLandscape);
    var st := StatusBarCall(cfg, isLandscape);
    if st != [] { CallForSingle(st[0], StatusBars); }
    ReplayByCallFor(TemplateBlock(cfg, isLandscape), StatusBars);
  }

  /** The navigation bar is set at its position unless Off, and shown iff Visible. */
  lemma TemplateNavigationBar(cfg: InsetsConfig, isLandscape: bool)
    ensures var w := Replay(Untouched, TemplateBlock(cfg, isLandscape));
      (NavigationBars in w.ignoringVisibility <==> cfg.navigationBarMode != Off)
      && (NavigationBars in w.visible <==> cfg.navigationBarMode == Visible)
      && (cfg.navigationBarMode != Off ==>
            w.ignoringVisibility[NavigationBars]
              == InsetsAt(NavigationPos(cfg, isLandscape), NavigationInsetSize(cfg, isLandscape))
            && NavigationBars in w.visibility
            && w.visibility[NavigationBars] == (cfg.navigationBarMode == Visible))
  {
    TemplateCallFor(cfg, isLandscape);
    var nv := NavigationBarCall(cfg, isLandscape);
    if nv != [] { CallForSingle(nv[0], NavigationBars); }
    ReplayByCallFor(TemplateBlock(cfg, isLandscape), NavigationBars);
  }

  /** The cutout is set at its position whenever there is one, always shown. */
  lemma TemplateCutout(cfg: InsetsConfig, isLandscape: bool)
    ensures var w := Replay(Untouched, TemplateBlock(cfg, isLandscape));
      (DisplayCutout in w.ignoringVisibility <==> cfg.cameraCutoutMode != None)
      && (DisplayCutout in w.visible <==> cfg.cameraCutoutMode != None)
      && (cfg.cameraCutoutMode != None ==>
            w.visible[DisplayCutout] == InsetsAt(CameraCutoutPos(cfg, isLandscape), CutoutSize(cfg)))
  {
    TemplateCallFor(cfg, isLandscape);
    var ct := CutoutCall(cfg, isLandscape);
    if ct != [] { CallForSingle(ct[0], DisplayCutout); }
    ReplayByCallFor(TemplateBlock(cfg, isLandscape), DisplayCutout);
  }

  /** The caption bar is set at the top unless Off, and marked visible even when Hidden. */
  lemma TemplateCaptionBar(cfg: InsetsConfig, isLandscape: bool)
    ensures var w := Replay(Untouched, TemplateBlock(cfg, isLandscape));
      (CaptionBar in w.ignoringVisibility <==> cfg.captionBarMode != Off)
      && (CaptionBar in w.visible <==> cfg.captionBarMode != Off)
      && (cfg.captionBarMode != Off ==> w.visible[CaptionBar] == InsetsAt(Top, cfg.captionBarSize))
  {
    TemplateCallFor(cfg, isLandscape);
    var cp := CaptionBarCall(cfg);
    if cp != [] { CallForSingle(cp[0], CaptionBar); }
    ReplayByCallFor(TemplateBlock(cfg, isLandscape), CaptionBar);
  }

  /** No type other than the four is touched. */
  lemma TemplateOnlyFourTypes(cfg: InsetsConfig, isLandscape: bool)
    ensures Replay(Untouched, TemplateBlock(cfg, isLandscape)).ignoringVisibility.Keys
         <= {StatusBars, NavigationBars, DisplayCutout, CaptionBar}
  {
    var b := TemplateBlock(cfg, isLandscape);
    TemplateBlockDistinct(cfg, isLandscape);
    forall t | t in Replay(Untouched, b).ignoringVisibility
      ensures t in {StatusBars, NavigationBars, DisplayCutout, CaptionBar}
    {
      ReplayTouches(b, t);
    }
  }

  /** `PaddingValues(start, end)` of the status bar; top and bottom are 0. */
  datatype HorizontalPadding = HorizontalPadding(start: int, end: int)

  /** The status bar's padding around a corner cutout. */
  function StatusBarCutoutPadding(cfg: InsetsConfig, isLandscape: bool): (p: HorizontalPadding)
    ensures p.start == 0 || p.end == 0
    ensures CameraCutoutPos(cfg, isLandscape) != Top ==> p == HorizontalPadding(0, 0)
    ensures CameraCutoutPos(cfg, isLandscape) == Top ==>
      p.start + p.end == (if cfg.cameraCutoutMode in {Start, End} then cfg.cameraCutoutSize else 0)
    ensures p.end != 0 ==> cfg.cameraCutoutMode == End
    ensures p.start != 0 ==> cfg.cameraCutoutMode == Start
  {
    var pos := CameraCutoutPos(cfg, isLandscape);
    if cfg.cameraCutoutMode == Start && pos == Top then HorizontalPadding(CutoutSize(cfg), 0)
    else if cfg.cameraCutoutMode == End && pos == Top then HorizontalPadding(0, CutoutSize(cfg))
    else HorizontalPadding(0, 0)
  }
}
