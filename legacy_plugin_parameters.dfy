/**
 * The legacy plug-in's parameter store (src/plugin_parameters.cpp): five
 * integer parameters (the headroom and four switches) with a "changed"
 * mark each.  Values are normalised when they are set, converted to and
 * from the host's [0, 1] float range, rendered as text, and saved to and
 * restored from an XML element.
 */
module LegacyPluginParameters {
  import opened Numeric
  import opened Xml

  const Headroom := 0
  const Expanded := 1
  const Peak := 2
  const Hold := 3
  const Mono := 4
  const NumParameters := 5

  /** Positions of the headrooms on the host's float scale. */
  const SelNormal := 0
  const SelK12 := 1
  const SelK14 := 2
  const SelK20 := 3
  const NumHeadrooms := 4

  const SettingsTag := "KMETER_SETTINGS"

  /** The XML attribute of each parameter, by index. */
  const AttributeName: seq<string> := ["Headroom", "Expanded", "Peak", "Hold", "Mono"]

  predicate IsHeadroom(v: int)
  {
    v == 0 || v == 12 || v == 14 || v == 20
  }

  /** The value setParameterFromInt stores when `value` differs from the stored one. */
  function NormalisedValue(index: int, value: int): (v: int)
    ensures index == Headroom ==> IsHeadroom(v) && (v == value <==> IsHeadroom(value))
    ensures index == Headroom && !IsHeadroom(value) ==> v == 20
    ensures index != Headroom ==> (v == 0 || v == 1) && (v == 1 <==> value != 0)
  {
    if index == Headroom then
      if value == 0 || value == 12 || value == 14 then value else 20
    else if value != 0 then 1 else 0
  }

  /** A value setParameterFromInt could have stored at this index. */
  predicate IsNormalised(index: int, value: int)
  {
    if index == Headroom then IsHeadroom(value) else value == 0 || value == 1
  }

  /** Abstract state of the store: the values and the marks. */
  datatype Store = Store(values: seq<int>, marked: seq<bool>)

  predicate WellFormed(s: Store)
  {
    |s.values| == NumParameters && |s.marked| == NumParameters
  }

  predicate AllNormalised(s: Store)
    requires WellFormed(s)
  {
    forall i :: 0 <= i < NumParameters ==> IsNormalised(i, s.values[i])
  }

  /** The state the constructor establishes: headroom 20, every switch off, nothing marked. */
  function DefaultStore(): (s: Store)
    ensures WellFormed(s) && AllNormalised(s)
    ensures s.values[Headroom] == 20
    ensures forall i :: Expanded <= i < NumParameters ==> s.values[i] == 0
    ensures forall i :: 0 <= i < NumParameters ==> !s.marked[i]
  {
    Store([20, 0, 0, 0, 0], [false, false, false, false, false])
  }

  /** setParameterFromInt on the abstract state: a different value is normalised, stored and marked. */
  function SetFromInt(s: Store, index: int, value: int): (t: Store)
    requires WellFormed(s) && 0 <= index < NumParameters
    ensures WellFormed(t)
    ensures s.values[index] == value ==> t == s
    ensures s.values[index] != value ==> t.values[index] == NormalisedValue(index, value) && t.marked[index]
    ensures forall j :: 0 <= j < NumParameters && j != index ==> t.values[j] == s.values[j] && t.marked[j] == s.marked[j]
    ensures t.marked[index] == (s.marked[index] || s.values[index] != value)
  {
    if s.values[index] != value then
      Store(s.values[index := NormalisedValue(index, value)], s.marked[index := true])
    else s
  }

  /** Setting a parameter keeps every stored value one the store could have set. */
  lemma SetFromIntKeepsNormalised(s: Store, index: int, value: int)
    requires WellFormed(s) && AllNormalised(s) && 0 <= index < NumParameters
    ensures AllNormalised(SetFromInt(s, index, value))
  {
    var t := SetFromInt(s, index, value);
    assert IsNormalised(index, t.values[index]);
  }

  /** translateParameterToFloat: the host's [0, 1] value of an integer parameter value. */
  function TranslateParameterToFloat(index: int, value: int): (f: real)
    requires 0 <= index < NumParameters
    ensures 0.0 <= f <= 1.0
    ensures index == Headroom ==> (f == 0.0 <==> value == 0) && (f == 1.0 <==> !(value == 0 || value == 12 || value == 14))
    ensures index != Headroom ==> (f == 1.0 && value != 0) || (f == 0.0 && value == 0)
  {
    if index == Headroom then
      var position := if value == 0 then SelNormal
                      else if value == 12 then SelK12
                      else if value == 14 then SelK14
                      else SelK20;
      position as real / (NumHeadrooms - 1) as real
    else if value != 0 then 1.0 else 0.0
  }

  /** translateParameterToInt: the integer parameter value of a host float (a switch reads on above one half). */
  function TranslateParameterToInt(index: int, f: real): (v: int)
    requires 0 <= index < NumParameters
    ensures IsNormalised(index, v)
    ensures index != Headroom ==> (v == 1 <==> f > 0.5)
    ensures index == Headroom ==> (v == 0 <==> f < 0.25) && (v == 20 <==> f >= 0.75)
  {
    var n := NumHeadrooms as real;
    if index == Headroom then
      if f < SelK12 as real / n then 0
      else if f < SelK14 as real / n then 12
      else if f < SelK20 as real / n then 14
      else 20
    else if f > 0.5 then 1 else 0
  }

  /** The headroom's float position grows with the headroom. */
  lemma HeadroomFloatIncreasing(a: int, b: int)
    requires IsHeadroom(a) && IsHeadroom(b) && a < b
    ensures TranslateParameterToFloat(Headroom, a) < TranslateParameterToFloat(Headroom, b)
  {
    assert b != 0;
  }

  /** The host's float reads back as the headroom at the same position, and a growing float never lowers it. */
  lemma HeadroomIntMonotone(f: real, g: real)
    requires f <= g
    ensures TranslateParameterToInt(Headroom, f) <= TranslateParameterToInt(Headroom, g)
  {
    if TranslateParameterToInt(Headroom, g) == 12 {
      assert g < 0.5;
    }
  }

  /** Every value the store can hold survives the conversion to the host's float and back. */
  lemma TranslateRoundTrip(index: int, value: int)
    requires 0 <= index < NumParameters && IsNormalised(index, value)
    ensures TranslateParameterToInt(index, TranslateParameterToFloat(index, value)) == value
  {
    if index == Headroom && value == 12 {
      assert TranslateParameterToFloat(index, value) == 1.0 / 3.0;
    }
  }

  /** getParameterName: the display name, "invalid" exactly for indices outside the table. */
  function ParameterName(index: int): (name: string)
    ensures name == "invalid" <==> !(0 <= index < NumParameters)
  {
    match index
    case 0 => "Headroom"
    case 1 => "Expand"
    case 2 => "Peak"
    case 3 => "Hold"
    case 4 => "Mono"
    case _ => "invalid"
  }

  /** getParameterText: the headroom's K-System name (an unknown value reads K-20), a switch's "on" or "off". */
  function ParameterText(s: Store, index: int): (t: string)
    requires WellFormed(s) && 0 <= index < NumParameters
    ensures index == Headroom ==> t in {"Normal", "K-12", "K-14", "K-20"}
    ensures index == Headroom ==> (t == "Normal" <==> s.values[index] == 0)
    ensures index == Headroom ==> (t == "K-20" <==> !(s.values[index] == 0 || s.values[index] == 12 || s.values[index] == 14))
    ensures index != Headroom ==> (t == "on" || t == "off") && (t == "on" <==> s.values[index] != 0)
  {
    var v := s.values[index];
    if index == Headroom then
      if v == 0 then "Normal" else if v == 12 then "K-12" else if v == 14 then "K-14" else "K-20"
    else if v != 0 then "on" else "off"
  }

  /** The five attribute names differ from each other. */
  lemma AttributeNamesDistinct()
    ensures "Headroom" != "Expanded" && "Headroom" != "Peak" && "Headroom" != "Hold" && "Headroom" != "Mono"
    ensures "Expanded" != "Peak" && "Expanded" != "Hold" && "Expanded" != "Mono"
    ensures "Peak" != "Hold" && "Peak" != "Mono" && "Hold" != "Mono"
  {
    assert "Headroom"[1] != "Hold"[1];
    assert "Peak"[0] != "Hold"[0];
  }

  /** The headroom storeAsXml writes: 0 ("Normal") is saved as 20. */
  function SavedHeadroom(v: int): (h: int)
    ensures h != 0 && (v != 0 ==> h == v)
  {
    if v == 0 then 20 else v
  }

  /**
   * storeAsXml: an element tagged KMETER_SETTINGS whose attributes hold the
   * saved headroom and the four switches verbatim.
   */
  function StoreXml(s: Store): (x: Element)
    requires WellFormed(s)
    ensures HasTagName(x, SettingsTag)
  {
    var e := Element(SettingsTag, map[], []);
    var e0 := SetIntAttribute(e, "Headroom", SavedHeadroom(s.values[Headroom]));
    var e1 := SetIntAttribute(e0, "Expanded", s.values[Expanded]);
    var e2 := SetIntAttribute(e1, "Peak", s.values[Peak]);
    var e3 := SetIntAttribute(e2, "Hold", s.values[Hold]);
    SetIntAttribute(e3, "Mono", s.values[Mono])
  }

  /** The saved element holds every attribute: the saved headroom and the four switches verbatim. */
  lemma StoreXmlAttributes(s: Store)
    requires WellFormed(s)
    ensures var x := StoreXml(s);
      (forall i :: 0 <= i < NumParameters ==> HasAttribute(x, AttributeName[i]))
      && GetIntAttribute(x, AttributeName[Headroom], 0) == SavedHeadroom(s.values[Headroom])
      && forall i :: Expanded <= i < NumParameters ==> GetIntAttribute(x, AttributeName[i], 0) == s.values[i]
  {
    AttributeNamesDistinct();
    var e := Element(SettingsTag, map[], []);
    var e0 := SetIntAttribute(e, "Headroom", SavedHeadroom(s.values[Headroom]));
    var e1 := SetIntAttribute(e0, "Expanded", s.values[Expanded]);
    var e2 := SetIntAttribute(e1, "Peak", s.values[Peak]);
    var e3 := SetIntAttribute(e2, "Hold", s.values[Hold]);
    var e4 := SetIntAttribute(e3, "Mono", s.values[Mono]);
    assert e4 == StoreXml(s);
    assert e4.attributes["Headroom"] == e0.attributes["Headroom"];
    assert e4.attributes["Expanded"] == e1.attributes["Expanded"];
    assert e4.attributes["Peak"] == e2.attributes["Peak"];
    assert e4.attributes["Hold"] == e3.attributes["Hold"];
  }

  /** setParameterFromInt(index, getIntAttribute(name, current value)): an absent attribute keeps the value. */
  function LoadAttribute(s: Store, x: Element, index: int): (t: Store)
    requires WellFormed(s) && 0 <= index < NumParameters
    ensures WellFormed(t)
    ensures !HasAttribute(x, AttributeName[index]) ==> t == s
  {
    SetFromInt(s, index, GetIntAttribute(x, AttributeName[index], s.values[index]))
  }

  /** The headroom loadFromXml asks for: the attribute (or the current value), with 0 read as 20. */
  function LoadedHeadroom(s: Store, x: Element): (h: int)
    requires WellFormed(s)
    ensures h != 0
    ensures HasAttribute(x, "Headroom") ==> h == SavedHeadroom(GetIntAttribute(x, "Headroom", 0))
    ensures !HasAttribute(x, "Headroom") ==> h == SavedHeadroom(s.values[Headroom])
  {
    SavedHeadroom(GetIntAttribute(x, "Headroom", s.values[Headroom]))
  }

  /** loadFromXml on the abstract state: nothing happens unless the element is a settings element. */
  function Load(s: Store, xml: Option<Element>): (t: Store)
    requires WellFormed(s)
    ensures WellFormed(t)
    ensures xml.None? || !HasTagName(xml.value, SettingsTag) ==> t == s
  {
    if xml.None? || !HasTagName(xml.value, SettingsTag) then s
    else
      var x := xml.value;
      var s0 := SetFromInt(s, Headroom, LoadedHeadroom(s, x));
      LoadAttribute(LoadAttribute(LoadAttribute(LoadAttribute(s0, x, Expanded), x, Peak), x, Hold), x, Mono)
  }

  /** After the load of a settings element the headroom is never 0 and every value is one the store could set. */
  lemma LoadOfSettings(s: Store, x: Element)
    requires WellFormed(s) && AllNormalised(s) && HasTagName(x, SettingsTag)
    ensures Load(s, Some(x)).values[Headroom] != 0
    ensures AllNormalised(Load(s, Some(x)))
  {
    var s0 := SetFromInt(s, Headroom, LoadedHeadroom(s, x));
    SetFromIntKeepsNormalised(s, Headroom, LoadedHeadroom(s, x));
    var s1 := LoadAttribute(s0, x, Expanded);
    SetFromIntKeepsNormalised(s0, Expanded, GetIntAttribute(x, AttributeName[Expanded], s0.values[Expanded]));
    var s2 := LoadAttribute(s1, x, Peak);
    SetFromIntKeepsNormalised(s1, Peak, GetIntAttribute(x, AttributeName[Peak], s1.values[Peak]));
    var s3 := LoadAttribute(s2, x, Hold);
    SetFromIntKeepsNormalised(s2, Hold, GetIntAttribute(x, AttributeName[Hold], s2.values[Hold]));
    SetFromIntKeepsNormalised(s3, Mono, GetIntAttribute(x, AttributeName[Mono], s3.values[Mono]));
  }

  /** Each switch ends up as its own setParameterFromInt call left it. */
  lemma LoadSwitch(s: Store, x: Element, i: int)
    requires WellFormed(s) && HasTagName(x, SettingsTag) && Expanded <= i < NumParameters
    ensures Load(s, Some(x)).values[i] == SetFromInt(s, i, GetIntAttribute(x, AttributeName[i], s.values[i])).values[i]
    ensures Load(s, Some(x)).marked[i] == SetFromInt(s, i, GetIntAttribute(x, AttributeName[i], s.values[i])).marked[i]
  {
  }

  /**
   * Save, then load into the same store: the only change is that headroom
   * 0 comes back as 20, and only that change is marked.
   */
  lemma StoreThenLoad(s: Store)
    requires WellFormed(s)
    ensures Load(s, Some(StoreXml(s))) == SetFromInt(s, Headroom, SavedHeadroom(s.values[Headroom]))
    ensures Load(s, Some(StoreXml(s))).values == s.values[Headroom := SavedHeadroom(s.values[Headroom])]
  {
    var x := StoreXml(s);
    StoreXmlAttributes(s);
    var s0 := SetFromInt(s, Headroom, LoadedHeadroom(s, x));
    assert s0 == SetFromInt(s, Headroom, SavedHeadroom(s.values[Headroom]));
    assert GetIntAttribute(x, AttributeName[Expanded], s0.values[Expanded]) == s0.values[Expanded];
    assert GetIntAttribute(x, AttributeName[Peak], s0.values[Peak]) == s0.values[Peak];
    assert GetIntAttribute(x, AttributeName[Hold], s0.values[Hold]) == s0.values[Hold];
    assert GetIntAttribute(x, AttributeName[Mono], s0.values[Mono]) == s0.values[Mono];
    assert s0.values == s.values[Headroom := SavedHeadroom(s.values[Headroom])];
  }

  /** The legacy parameter store with its value and mark arrays. */
  class KmeterPluginParameters {
    var param: array<int>
    var paramChanged: array<bool>

    ghost predicate Valid()
      reads this
    {
      param.Length == NumParameters && paramChanged.Length == NumParameters && param != paramChanged as object
    }

    function State(): (s: Store)
      reads this, param, paramChanged
      requires Valid()
      ensures WellFormed(s)
    {
      Store(param[..], paramChanged[..])
    }

    constructor ()
      ensures Valid() && fresh(param) && fresh(paramChanged)
      ensures State() == DefaultStore()
    {
      var marks := new bool[NumParameters];
      var index := 0;
      while index < NumParameters
        invariant 0 <= index <= NumParameters
        invariant forall j :: 0 <= j < index ==> !marks[j]
      {
        marks[index] := false;
        index := index + 1;
      }
      assert marks[..] == DefaultStore().marked;
      var values := new int[NumParameters];
      values[Headroom] := 20;
      values[Expanded] := 0;
      values[Peak] := 0;
      values[Hold] := 0;
      values[Mono] := 0;
      assert values[..] == DefaultStore().values;
      param := values;
      paramChanged := marks;
    }

    function GetParameterAsInt(index: int): (v: int)
      reads this, param
      requires Valid() && 0 <= index < NumParameters
      ensures v == State().values[index]
    {
      param[index]
    }

    function GetParameterAsBool(index: int): (b: bool)
      reads this, param
      requires Valid() && 0 <= index < NumParameters
      ensures b <==> State().values[index] != 0
    {
      GetParameterAsInt(index) != 0
    }

    function GetParameterAsFloat(index: int): (f: real)
      reads this, param
      requires Valid() && 0 <= index < NumParameters
      ensures f == TranslateParameterToFloat(index, State().values[index])
    {
      TranslateParameterToFloat(index, GetParameterAsInt(index))
    }

    function IsParameterMarked(index: int): (b: bool)
      reads this, paramChanged
      requires Valid() && 0 <= index < NumParameters
      ensures b == State().marked[index]
    {
      paramChanged[index]
    }

    function GetParameterText(index: int): (t: string)
      reads this, param, paramChanged
      requires Valid() && 0 <= index < NumParameters
      ensures t == ParameterText(State(), index)
    {
      var v := param[index];
      if index == Headroom then
        if v == 0 then "Normal" else if v == 12 then "K-12" else if v == 14 then "K-14" else "K-20"
      else if GetParameterAsBool(index) then "on" else "off"
    }

    method SetParameterFromInt(index: int, value: int)
      requires Valid() && 0 <= index < NumParameters
      modifies param, paramChanged
      ensures Valid() && State() == SetFromInt(old(State()), index, value)
    {
      if param[index] != value {
        if index == Headroom {
          if value == 0 || value == 12 || value == 14 {
            param[index] := value;
          } else {
            param[index] := 20;
          }
        } else {
          param[index] := if value != 0 then 1 else 0;
        }
        MarkParameter(index);
      }
    }

    method SetParameterFromBool(index: int, value: bool)
      requires Valid() && 0 <= index < NumParameters
      modifies param, paramChanged
      ensures Valid() && State() == SetFromInt(old(State()), index, if value then 1 else 0)
    {
      SetParameterFromInt(index, if value then 1 else 0);
    }

    method SetParameterFromFloat(index: int, f: real)
      requires Valid() && 0 <= index < NumParameters
      modifies param, paramChanged
      ensures Valid() && State() == SetFromInt(old(State()), index, TranslateParameterToInt(index, f))
    {
      var value := TranslateParameterToInt(index, f);
      SetParameterFromInt(index, value);
    }

    method MarkParameter(index: int)
      requires Valid() && 0 <= index < NumParameters
      modifies paramChanged
      ensures Valid() && paramChanged[..] == old(paramChanged[..])[index := true]
    {
      paramChanged[index] := true;
    }

    method UnmarkParameter(index: int)
      requires Valid() && 0 <= index < NumParameters
      modifies paramChanged
      ensures Valid() && paramChanged[..] == old(paramChanged[..])[index := false]
    {
      paramChanged[index] := false;
    }

    function StoreAsXml(): (x: Element)
      reads this, param, paramChanged
      requires Valid()
      ensures x == StoreXml(State())
    {
      StoreXml(State())
    }

    method LoadFromXml(xml: Option<Element>)
      requires Valid()
      modifies param, paramChanged
      ensures Valid() && State() == Load(old(State()), xml)
    {
      if xml.Some? && HasTagName(xml.value, SettingsTag) {
        var x := xml.value;
        var headroom := GetIntAttribute(x, "Headroom", GetParameterAsInt(Headroom));
        if headroom == 0 {
          SetParameterFromInt(Headroom, 20);
        } else {
          SetParameterFromInt(Headroom, headroom);
        }
        SetParameterFromInt(Expanded, GetIntAttribute(x, "Expanded", GetParameterAsInt(Expanded)));
        SetParameterFromInt(Peak, GetIntAttribute(x, "Peak", GetParameterAsInt(Peak)));
        SetParameterFromInt(Hold, GetIntAttribute(x, "Hold", GetParameterAsInt(Hold)));
        SetParameterFromInt(Mono, GetIntAttribute(x, "Mono", GetParameterAsInt(Mono)));
      }
    }
  }
}
