/** The eight `WindowInsetsCompat.Type` constants as distinct single-bit flags
    of a 32-bit `Int`, and the two ways the code turns a type value into text:
    the bitmask form that lists every set type (`getNameFromWindowInsetType` in
    the test libraries) and the exact-match form of the recording model. */
module InsetTypes {
  import opened Wrappers
  import Text

  datatype InsetType =
    | StatusBars | NavigationBars | CaptionBar | Ime
    | SystemGestures | MandatorySystemGestures | TappableElement | DisplayCutout

  /** A Kotlin `Int` holding inset type flags, as its 32 bits. */
  type TypeMask = bv32

  function TypeBit(t: InsetType): (b: TypeMask)
    ensures b != 0 && b & 0xFF == b
  {
    match t
    case StatusBars => 1
    case NavigationBars => 2
    case CaptionBar => 4
    case Ime => 8
    case SystemGestures => 16
    case MandatorySystemGestures => 32
    case TappableElement => 64
    case DisplayCutout => 128
  }

  /** Distinct types have disjoint bits. */
  lemma TypeBitsDisjoint(a: InsetType, b: InsetType)
    ensures a != b <==> TypeBit(a) & TypeBit(b) == 0
  {
  }

  /** The value of a 32-bit pattern read as a signed Kotlin `Int`. */
  function Signed(m: bv32): int {
    if m < 0x8000_0000 then m as int else m as int - 0x1_0000_0000
  }

  /** Kotlin's `a and b > 0` on `Int`: a signed comparison of the AND, which
      holds when the AND is non-zero and its sign bit is clear. */
  predicate AndPositive(a: TypeMask, b: TypeMask) {
    a & b != 0 && a & b < 0x8000_0000
  }

  /** `mask and bit > 0` for the bit of one type. */
  predicate SharesBit(mask: TypeMask, t: InsetType) {
    AndPositive(mask, TypeBit(t))
  }

  /** Because every type bit is below the sign bit, the signed test is just "the bit is set". */
  lemma SharesBitIffSet(mask: TypeMask, t: InsetType)
    ensures SharesBit(mask, t) <==> mask & TypeBit(t) == TypeBit(t)
  {
  }

  function ShortName(t: InsetType): string {
    match t
    case StatusBars => "statusBars"
    case NavigationBars => "navigationBars"
    case CaptionBar => "captionBar"
    case Ime => "ime"
    case SystemGestures => "systemGestures"
    case MandatorySystemGestures => "mandatorySystemGestures"
    case TappableElement => "tappableElement"
    case DisplayCutout => "displayCutout"
  }

  /** The order in which the bitmask form tests the types. */
  const NameOrder: seq<InsetType> :=
    [StatusBars, NavigationBars, CaptionBar, Ime, DisplayCutout,
     MandatorySystemGestures, SystemGestures, TappableElement]

  /** The types of `order` whose bit is set in `mask`, in that order. */
  function TypesIn(mask: TypeMask, order: seq<InsetType>): (r: seq<InsetType>)
    ensures |r| <= |order|
  {
    if order == [] then []
    else (if SharesBit(mask, order[0]) then [order[0]] else []) + TypesIn(mask, order[1..])
  }

  function Names(ts: seq<InsetType>): (r: seq<string>)
    ensures |r| == |ts|
    ensures forall k :: 0 <= k < |ts| ==> r[k] == ShortName(ts[k])
  {
    if ts == [] then [] else [ShortName(ts[0])] + Names(ts[1..])
  }

  /** The exception thrown for a value with none of the eight bits. */
  function UnknownTypeMessage(mask: TypeMask): string {
    "Type: " + Text.IntToString(Signed(mask)) + " is unknown!"
  }

  /** `getNameFromWindowInsetType`, bitmask form: the names of the set types in
      `NameOrder`, joined by ","; `IllegalArgumentException` when none is set. */
  function NameFromTypeMask(mask: TypeMask): (r: Result<string, string>)
    ensures r.Err? ==> r.error == UnknownTypeMessage(mask)
  {
    var types := TypesIn(mask, NameOrder);
    if types == [] then Err(UnknownTypeMessage(mask)) else Ok(Text.Join(",", Names(types)))
  }

  lemma {:induction false} TypesInMembers(mask: TypeMask, order: seq<InsetType>, t: InsetType)
    ensures t in TypesIn(mask, order) <==> t in order && SharesBit(mask, t)
  {
    if order != [] {
      TypesInMembers(mask, order[1..], t);
      assert t in order <==> t == order[0] || t in order[1..];
    }
  }

  /** A type is listed iff its bit is set. */
  lemma TypesInIff(mask: TypeMask, t: InsetType)
    ensures t in TypesIn(mask, NameOrder) <==> mask & TypeBit(t) == TypeBit(t)
  {
    TypesInMembers(mask, NameOrder, t);
    InNameOrder(t);
    SharesBitIffSet(mask, t);
  }

  /** The bitmask form fails exactly when none of the eight type bits is set. */
  lemma NameFromTypeMaskFailsIff(mask: TypeMask)
    ensures NameFromTypeMask(mask).Err? <==> mask & 0xFF == 0
  {
    var types := TypesIn(mask, NameOrder);
    if mask & 0xFF == 0 {
      if types != [] {
        var first := types[0];
        NoTypeBitSet(mask, first);
        TypesInIff(mask, first);
      }
    } else {
      var t := SomeTypeBitSet(mask);
      TypesInIff(mask, t);
    }
  }

  lemma NoTypeBitSet(mask: TypeMask, t: InsetType)
    requires mask & 0xFF == 0
    ensures mask & TypeBit(t) != TypeBit(t)
  {
  }

  lemma SomeTypeBitSet(mask: TypeMask) returns (t: InsetType)
    requires mask & 0xFF != 0
    ensures mask & TypeBit(t) == TypeBit(t)
  {
    if mask & 1 != 0 { t := StatusBars; }
    else if mask & 2 != 0 { t := NavigationBars; }
    else if mask & 4 != 0 { t := CaptionBar; }
    else if mask & 8 != 0 { t := Ime; }
    else if mask & 16 != 0 { t := SystemGestures; }
    else if mask & 32 != 0 { t := MandatorySystemGestures; }
    else if mask & 64 != 0 { t := TappableElement; }
    else { t := DisplayCutout; }
  }

  lemma InNameOrder(t: InsetType)
    ensures t in NameOrder
  {
    match t
    case StatusBars => assert NameOrder[0] == t;
    case NavigationBars => assert NameOrder[1] == t;
    case CaptionBar => assert NameOrder[2] == t;
    case Ime => assert NameOrder[3] == t;
    case DisplayCutout => assert NameOrder[4] == t;
    case MandatorySystemGestures => assert NameOrder[5] == t;
    case SystemGestures => assert NameOrder[6] == t;
    case TappableElement => assert NameOrder[7] == t;
  }

  /** A single type is named by its own short name. */
  lemma NameOfSingleType(t: InsetType)
    ensures NameFromTypeMask(TypeBit(t)) == Ok(ShortName(t))
  {
    TypesOfSingleType(t);
    assert Names([t]) == [ShortName(t)];
    assert Text.Join(",", [ShortName(t)]) == ShortName(t);
  }

  /** The bit of one type selects that type alone. */
  lemma TypesOfSingleType(t: InsetType)
    ensures TypesIn(TypeBit(t), NameOrder) == [t]
  {
    forall u | u in NameOrder && SharesBit(TypeBit(t), u) ensures u == t {
      TypeBitsDisjoint(t, u);
    }
    InNameOrder(t);
    TypesInSingle(TypeBit(t), NameOrder, t);
  }

  /** When a mask selects exactly one type of a duplicate-free order, the list is that type. */
  lemma {:induction false} TypesInSingle(mask: TypeMask, order: seq<InsetType>, t: InsetType)
    requires t in order && SharesBit(mask, t)
    requires forall u :: u in order && SharesBit(mask, u) ==> u == t
    requires forall j, k :: 0 <= j < k < |order| ==> order[j] != order[k]
    ensures TypesIn(mask, order) == [t]
  {
    if order[0] == t {
      NoneSelected(mask, order[1..]);
    } else {
      TypesInSingle(mask, order[1..], t);
    }
  }

  lemma {:induction false} NoneSelected(mask: TypeMask, order: seq<InsetType>)
    requires forall u :: u in order ==> !SharesBit(mask, u)
    ensures TypesIn(mask, order) == []
  {
    if order != [] {
      NoneSelected(mask, order[1..]);
    }
  }

  /** The qualified name the recording model writes for a single type. */
  function QualifiedName(t: InsetType): string {
    "WindowInsetsCompat.Type." + ShortName(t) + "()"
  }

  /** `getNameFromWindowInsetType` of the recording model (`getTypeString` in the
      older copy): an exact `when` match on the eight constants. */
  function QualifiedTypeName(v: TypeMask): (r: Result<string, string>)
    ensures r.Ok? <==> exists t :: v == TypeBit(t)
    ensures r.Err? ==> r.error == UnknownTypeMessage(v)
  {
    if v == TypeBit(StatusBars) then Ok(QualifiedName(StatusBars))
    else if v == TypeBit(NavigationBars) then Ok(QualifiedName(NavigationBars))
    else if v == TypeBit(Ime) then Ok(QualifiedName(Ime))
    else if v == TypeBit(DisplayCutout) then Ok(QualifiedName(DisplayCutout))
    else if v == TypeBit(CaptionBar) then Ok(QualifiedName(CaptionBar))
    else if v == TypeBit(MandatorySystemGestures) then Ok(QualifiedName(MandatorySystemGestures))
    else if v == TypeBit(SystemGestures) then Ok(QualifiedName(SystemGestures))
    else if v == TypeBit(TappableElement) then Ok(QualifiedName(TappableElement))
    else Err(UnknownTypeMessage(v))
  }

  /** The bit of a type is named by that type's qualified name. */
  lemma QualifiedNameOfBit(t: InsetType)
    ensures QualifiedTypeName(TypeBit(t)) == Ok(QualifiedName(t))
  {
  }

  /** An OR of two different types is not one of the eight constants, so it throws. */
  lemma CombinedTypeIsUnknown(a: InsetType, b: InsetType)
    requires a != b
    ensures QualifiedTypeName(TypeBit(a) | TypeBit(b)).Err?
  {
    forall t ensures TypeBit(a) | TypeBit(b) != TypeBit(t) {
      TypeBitsDisjoint(a, b);
    }
  }

  /** On a single type the two naming forms agree up to the qualification. */
  lemma NamingFormsAgree(t: InsetType)
    ensures QualifiedTypeName(TypeBit(t)).Ok? && NameFromTypeMask(TypeBit(t)).Ok?
    ensures QualifiedTypeName(TypeBit(t)).value
         == "WindowInsetsCompat.Type." + NameFromTypeMask(TypeBit(t)).value + "()"
  {
    NameOfSingleType(t);
    QualifiedNameOfBit(t);
  }
}
