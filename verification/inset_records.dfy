/** The inset records that travel between the device and the checks: one entry
    per inset type (`InsetEntry` of the recording model, `TestInsetEntry` of the
    test anchor), the window they were read in, the JSON form of an inset, the
    navigation-mode setting and the fixed shape of a recording. Every read of
    Compose or Android state is a parameter here. */
module InsetRecords {
  import opened Wrappers
  import opened Geometry
  import opened InsetTypes
  import Template

  /** One inset type as read on a device: the insets it would have when shown,
      the insets it has now, and whether it is shown. */
  datatype InsetEntry = InsetEntry(
    insetType: TypeMask,
    ignoringVisibility: Insets,
    visible: Insets,
    isVisible: bool)

  /** `TestWindowInsets`: the window size and the entries read beside it. */
  datatype WindowInsetsRecord = WindowInsetsRecord(
    windowWidth: int,
    windowHeight: int,
    insetList: seq<InsetEntry>)

  // ---- Serializer ----

  /** `WindowInsetsJson`: the four edges as plain integers. */
  datatype WindowInsetsJson = WindowInsetsJson(left: int, top: int, right: int, bottom: int)

  /** `WindowInsetsSerializer.serialize`: the edges read at density 1, left-to-right. */
  function Serialize(i: Insets): WindowInsetsJson {
    WindowInsetsJson(i.left, i.top, i.right, i.bottom)
  }

  /** `WindowInsetsSerializer.deserialize`: `WindowInsets(left, top, right, bottom)`. */
  function Deserialize(j: WindowInsetsJson): Insets {
    Insets(j.left, j.top, j.right, j.bottom)
  }

  /** Reading an inset back from its JSON form gives the same four edges, and the
      JSON form of a read inset is the JSON it came from. */
  lemma SerializerRoundTrip(i: Insets, j: WindowInsetsJson)
    ensures Deserialize(Serialize(i)) == i
    ensures Serialize(Deserialize(j)) == j
  {
  }

  // ---- Navigation mode setting ----

  /** `navigationMode()`: the `navigation_mode` secure setting (default -1)
      indexed into `NavigationMode.entries`, or null out of range. */
  function NavigationModeOf(setting: int): (r: Option<Template.NavigationMode>)
    ensures r.Some? <==> 0 <= setting < 2
    ensures setting == 0 ==> r == Some(Template.ThreeButton)
    ensures setting == 1 ==> r == Some(Template.Gesture)
  {
    if 0 <= setting < |Template.NavigationModes| then Some(Template.NavigationModes[setting]) else None
  }

  /** The mode a recording stores: ThreeButton when the setting gives none. */
  function RecordedNavigationMode(setting: int): (m: Template.NavigationMode)
    ensures m == Template.Gesture <==> setting == 1
  {
    match NavigationModeOf(setting)
    case Some(mode) => mode
    case None => Template.ThreeButton
  }

  // ---- The recorded list ----

  /** The framework reads a recording is made of. */
  datatype FrameworkInsets = FrameworkInsets(
    statusBarsIgnoringVisibility: Insets, statusBars: Insets, areStatusBarsVisible: bool,
    navigationBarsIgnoringVisibility: Insets, navigationBars: Insets, areNavigationBarsVisible: bool,
    ime: Insets, isImeVisible: bool,
    displayCutout: Insets,
    captionBarIgnoringVisibility: Insets, captionBar: Insets, isCaptionBarVisible: bool,
    mandatorySystemGestures: Insets,
    systemGestures: Insets,
    tappableElementIgnoringVisibility: Insets, tappableElement: Insets, isTappableElementVisible: bool)

  /** The order of the entries in every recording. */
  const RecordOrder: seq<InsetType> :=
    [StatusBars, NavigationBars, Ime, DisplayCutout, CaptionBar,
     MandatorySystemGestures, SystemGestures, TappableElement]

  /** Types that have no separate "ignoring visibility" read. */
  predicate SingleRead(t: InsetType) {
    t == Ime || t == DisplayCutout || t == MandatorySystemGestures || t == SystemGestures
  }

  /** Types recorded as always shown. */
  predicate AlwaysVisible(t: InsetType) {
    t == DisplayCutout || t == MandatorySystemGestures || t == SystemGestures
  }

  /** The `insetList` literal of `recordInsets` (and of `getTestWindowInsets`). */
  function RecordInsetList(f: FrameworkInsets): (r: seq<InsetEntry>)
    ensures |r| == |RecordOrder|
    ensures forall k :: 0 <= k < |r| ==> r[k].insetType == TypeBit(RecordOrder[k])
    ensures forall k :: 0 <= k < |r| && AlwaysVisible(RecordOrder[k]) ==> r[k].isVisible
    ensures forall k :: 0 <= k < |r| && SingleRead(RecordOrder[k]) ==> r[k].visible == r[k].ignoringVisibility
  {
    [ InsetEntry(TypeBit(StatusBars), f.statusBarsIgnoringVisibility, f.statusBars, f.areStatusBarsVisible),
      InsetEntry(TypeBit(NavigationBars), f.navigationBarsIgnoringVisibility, f.navigationBars, f.areNavigationBarsVisible),
      InsetEntry(TypeBit(Ime), f.ime, f.ime, f.isImeVisible),
      InsetEntry(TypeBit(DisplayCutout), f.displayCutout, f.displayCutout, true),
      InsetEntry(TypeBit(CaptionBar), f.captionBarIgnoringVisibility, f.captionBar, f.isCaptionBarVisible),
      InsetEntry(TypeBit(MandatorySystemGestures), f.mandatorySystemGestures, f.mandatorySystemGestures, true),
      InsetEntry(TypeBit(SystemGestures), f.systemGestures, f.systemGestures, true),
      InsetEntry(TypeBit(TappableElement), f.tappableElementIgnoringVisibility, f.tappableElement, f.isTappableElementVisible) ]
  }

  /** Every one of the eight types is recorded exactly once, and each recorded
      entry has a qualified name, so naming a recording never throws. */
  lemma RecordedTypesComplete(f: FrameworkInsets, t: InsetType)
    ensures exists k :: 0 <= k < 8 && RecordInsetList(f)[k].insetType == TypeBit(t)
    ensures forall j, k :: 0 <= j < k < 8 ==> RecordInsetList(f)[j].insetType != RecordInsetList(f)[k].insetType
    ensures forall k :: 0 <= k < 8 ==> QualifiedTypeName(RecordInsetList(f)[k].insetType).Ok?
  {
    var r := RecordInsetList(f);
    assert r[0].insetType == TypeBit(StatusBars) && r[1].insetType == TypeBit(NavigationBars)
        && r[2].insetType == TypeBit(Ime) && r[3].insetType == TypeBit(DisplayCutout)
        && r[4].insetType == TypeBit(CaptionBar) && r[5].insetType == TypeBit(MandatorySystemGestures)
        && r[6].insetType == TypeBit(SystemGestures) && r[7].insetType == TypeBit(TappableElement);
    match t
    case StatusBars => assert r[0].insetType == TypeBit(t);
    case NavigationBars => assert r[1].insetType == TypeBit(t);
    case Ime => assert r[2].insetType == TypeBit(t);
    case DisplayCutout => assert r[3].insetType == TypeBit(t);
    case CaptionBar => assert r[4].insetType == TypeBit(t);
    case MandatorySystemGestures => assert r[5].insetType == TypeBit(t);
    case SystemGestures => assert r[6].insetType == TypeBit(t);
    case TappableElement => assert r[7].insetType == TypeBit(t);
  }

  /** `RecordedInsets` of the recording model. */
  datatype RecordedInsets = RecordedInsets(
    screenshotFileName: string,
    manufacturer: string,
    model: string,
    apiLevel: int,
    windowWidth: int,
    windowHeight: int,
    density: real,
    orientation: int,
    navigationMode: Template.NavigationMode,
    insetList: seq<InsetEntry>)

  /** The device facts a recording copies as they are. */
  datatype DeviceInfo = DeviceInfo(
    manufacturer: string, model: string, apiLevel: int,
    windowWidth: int, windowHeight: int, density: real, orientation: int)

  /** `recordInsets(screenshotFileName)`: the device facts, the fixed eight-entry
      list, and the navigation mode from the setting with ThreeButton as fallback. */
  function RecordInsets(screenshotFileName: string, d: DeviceInfo, navigationSetting: int, f: FrameworkInsets)
    : (r: RecordedInsets)
    ensures r.navigationMode == Template.ThreeButton <==> navigationSetting != 1
    ensures |r.insetList| == 8 && r.insetList == RecordInsetList(f)
    ensures r.windowWidth == d.windowWidth && r.windowHeight == d.windowHeight
  {
    RecordedInsets(screenshotFileName, d.manufacturer, d.model, d.apiLevel, d.windowWidth,
                   d.windowHeight, d.density, d.orientation,
                   RecordedNavigationMode(navigationSetting), RecordInsetList(f))
  }
}
