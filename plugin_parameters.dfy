/**
 * The plug-in's parameter store (Source/plugin_parameters.cpp): sixteen
 * integer parameters, a "changed" mark per parameter and the name of the
 * validation file.  Values are normalised when they are set, converted
 * to and from the host's [0, 1] float range, rendered as text, and saved
 * to and restored from an XML element.
 *
 * The enumeration follows the order the .cpp uses; the header of the same
 * directory lacks the K-23 crest factor and the two true-peak validation
 * switches, which are placed where the constructor initialises them.
 */
module PluginParameters {
  import opened Numeric
  import opened Text
  import opened Xml

  const CrestFactor := 0
  const AverageAlgorithm := 1
  const Expanded := 2
  const Peak := 3
  const InfiniteHold := 4
  const Mono := 5
  const NumParametersRevealed := 6
  const ValidationFileName := 6
  const ValidationSelectedChannel := 7
  const ValidationAverageMeterLevel := 8
  const ValidationPeakMeterLevel := 9
  const ValidationMaximumPeakLevel := 10
  const ValidationTruePeakMeterLevel := 11
  const ValidationMaximumTruePeakLevel := 12
  const ValidationStereoMeterValue := 13
  const ValidationPhaseCorrelation := 14
  const ValidationCSVFormat := 15
  const NumParameters := 16

  /** Positions of the crest factors on the host's float scale. */
  const SelNormal := 0
  const SelK12 := 1
  const SelK14 := 2
  const SelK20 := 3
  const SelK23 := 4
  const NumCrestFactors := 5

  const AlgorithmRms := 0
  const AlgorithmItuBs1770 := 1
  const NumAlgorithms := 2

  const SettingsTag := "KMETER_SETTINGS"

  predicate IsCrestFactor(v: int)
  {
    v == 0 || v == 12 || v == 14 || v == 20 || v == 23
  }

  /** A parameter index that is neither the crest factor, the algorithm nor the selected channel: an on/off switch. */
  predicate IsSwitch(index: int)
  {
    0 <= index < NumParameters && index != CrestFactor && index != AverageAlgorithm
    && index != ValidationSelectedChannel
  }

  /** The value setParameterFromInt stores when `value` differs from the stored one. */
  function NormalisedValue(index: int, value: int): (v: int)
    ensures index == CrestFactor ==> IsCrestFactor(v) && (value != 20 && IsCrestFactor(value) <==> v == value && v != 20)
    ensures index == ValidationSelectedChannel ==> v == value
    ensures index != CrestFactor && index != ValidationSelectedChannel ==> (v == 0 || v == 1) && (v == 1 <==> value != 0)
  {
    if index == CrestFactor then
      if value == 0 || value == 12 || value == 14 || value == 23 then value else 20
    else if index == ValidationSelectedChannel then value
    else if value != 0 then 1 else 0
  }

  /** A value that setParameterFromInt could have stored at this index. */
  predicate IsNormalised(index: int, value: int)
  {
    if index == CrestFactor then IsCrestFactor(value)
    else if index == ValidationSelectedChannel then true
    else value == 0 || value == 1
  }

  lemma NormalisedValueIsNormalised(index: int, value: int)
    ensures IsNormalised(index, NormalisedValue(index, value))
    ensures IsNormalised(index, value) ==> NormalisedValue(index, value) == value
  {
  }

  /** Abstract state of the store: the values, the marks and the validation file name. */
  datatype Store = Store(values: seq<int>, marked: seq<bool>, validationFile: string)

  predicate WellFormed(s: Store)
  {
    |s.values| == NumParameters && |s.marked| == NumParameters
  }

  predicate AllNormalised(s: Store)
    requires WellFormed(s)
  {
    forall i :: 0 <= i < NumParameters ==> IsNormalised(i, s.values[i])
  }

  /**
   * The state the constructor establishes.  The validation file name's slot
   * (index 6) is left uninitialised by the source; the model puts 0 there.
   */
  function DefaultStore(): (s: Store)
    ensures WellFormed(s) && AllNormalised(s)
    ensures s.values[CrestFactor] == 20 && s.values[AverageAlgorithm] == AlgorithmItuBs1770
    ensures s.values[ValidationSelectedChannel] == -1
    ensures forall i :: ValidationAverageMeterLevel <= i < ValidationCSVFormat ==> s.values[i] == 1
    ensures s.values[ValidationCSVFormat] == 0
    ensures forall i :: Expanded <= i <= Mono ==> s.values[i] == 0
    ensures forall i :: 0 <= i < NumParameters ==> !s.marked[i]
    ensures s.validationFile == ""
  {
    Store([20, AlgorithmItuBs1770, 0, 0, 0, 0, 0, -1, 1, 1, 1, 1, 1, 1, 1, 0],
          seq(NumParameters, _ => false), "")
  }

  /** setParameterFromInt on the abstract state. */
  function SetFromInt(s: Store, index: int, value: int): (t: Store)
    requires WellFormed(s) && 0 <= index < NumParameters
    ensures WellFormed(t) && t.validationFile == s.validationFile
    ensures s.values[index] == value ==> t == s
    ensures s.values[index] != value ==> t.values[index] == NormalisedValue(index, value) && t.marked[index]
    ensures forall j :: 0 <= j < NumParameters && j != index ==> t.values[j] == s.values[j] && t.marked[j] == s.marked[j]
    ensures t.marked[index] == (s.marked[index] || s.values[index] != value)
  {
    if s.values[index] != value then
      s.(values := s.values[index := NormalisedValue(index, value)], marked := s.marked[index := true])
    else s
  }

  lemma SetFromIntKeepsNormalised(s: Store, index: int, value: int)
    requires WellFormed(s) && AllNormalised(s) && 0 <= index < NumParameters
    ensures AllNormalised(SetFromInt(s, index, value))
  {
    NormalisedValueIsNormalised(index, value);
  }

  /** A crest factor the store does not know is stored as K-20, and the change is still marked. */
  lemma NormalisingSetStillMarks(s: Store)
    requires WellFormed(s) && s.values[CrestFactor] == 20
    ensures SetFromInt(s, CrestFactor, 7).values == s.values
    ensures SetFromInt(s, CrestFactor, 7).marked[CrestFactor]
  {
    assert s.values[CrestFactor := 20] == s.values;
  }

  /** translateParameterToFloat: the host's [0, 1] value of an integer parameter value. */
  function TranslateParameterToFloat(index: int, value: int): (f: real)
    requires 0 <= index < NumParameters
    ensures index == CrestFactor ==> 0.0 <= f <= 1.0
    ensures index == AverageAlgorithm ==> f == value as real
    ensures index == ValidationSelectedChannel ==> f * 100.0 == value as real + 1.0
    ensures IsSwitch(index) ==> (f == 1.0 && value != 0) || (f == 0.0 && value == 0)
  {
    if index == CrestFactor then
      var position := if value == 0 then SelNormal
                      else if value == 12 then SelK12
                      else if value == 14 then SelK14
                      else if value == 20 then SelK20
                      else SelK23;
      position as real / (NumCrestFactors - 1) as real
    else if index == AverageAlgorithm then value as real
    else if index == ValidationSelectedChannel then (value as real + 1.0) / 100.0
    else if value != 0 then 1.0 else 0.0
  }

  /** translateParameterToInt: the integer parameter value of a host float. */
  function TranslateParameterToInt(index: int, f: real): (v: int)
    requires 0 <= index < NumParameters
    ensures index == CrestFactor ==> IsCrestFactor(v)
    ensures index == AverageAlgorithm ==> v == Trunc(f + 0.5)
    ensures index == ValidationSelectedChannel ==> v == Trunc(f * 100.0 + 0.5) - 1
    ensures IsSwitch(index) ==> (v == 0 || v == 1) && (v == 1 <==> f > 0.5)
  {
    var n := NumCrestFactors as real;
    if index == CrestFactor then
      if f < SelK12 as real / n then 0
      else if f < SelK14 as real / n then 12
      else if f < SelK20 as real / n then 14
      else if f < SelK23 as real / n then 20
      else 23
    else if index == AverageAlgorithm then Trunc(f + 0.5)
    else if index == ValidationSelectedChannel then Trunc(f * 100.0 + 0.5) - 1
    else if f > 0.5 then 1 else 0
  }

  /** The crest factor's float position grows with the crest factor. */
  lemma CrestFactorFloatIncreasing(a: int, b: int)
    requires IsCrestFactor(a) && IsCrestFactor(b) && a < b
    ensures TranslateParameterToFloat(CrestFactor, a) < TranslateParameterToFloat(CrestFactor, b)
  {
  }

  /**
   * Float round trip: every value the store can hold at `index` survives
   * the conversion to the host's float and back; for the algorithm any
   * non-negative value does, for the selected channel any value >= -1.
   */
  lemma {:induction false} TranslateRoundTrip(index: int, value: int)
    requires 0 <= index < NumParameters
    requires index == CrestFactor ==> IsCrestFactor(value)
    requires index == AverageAlgorithm ==> value >= 0
    requires index == ValidationSelectedChannel ==> value >= -1
    requires IsSwitch(index) ==> value == 0 || value == 1
    ensures TranslateParameterToInt(index, TranslateParameterToFloat(index, value)) == value
  {
    var f := TranslateParameterToFloat(index, value);
    if index == AverageAlgorithm {
      TruncOfHalfAbove(value);
    } else if index == ValidationSelectedChannel {
      assert f * 100.0 == value as real + 1.0;
      TruncOfHalfAbove(value + 1);
    }
  }

  lemma TruncOfHalfAbove(n: int)
    requires n >= 0
    ensures Trunc(n as real + 0.5) == n
  {
  }

  /** A crest factor the store does not know reaches the host as K-23, while setting it directly stores K-20. */
  lemma UnknownCrestFactorTranslatesAsK23()
    ensures TranslateParameterToInt(CrestFactor, TranslateParameterToFloat(CrestFactor, 7)) == 23
    ensures NormalisedValue(CrestFactor, 7) == 20
  {
  }

  /** getParameterName: the display name, "invalid" exactly for indices outside the table. */
  function ParameterName(index: int): (name: string)
    ensures name == "invalid" <==> !(0 <= index < NumParameters)
  {
    match index
    case 0 => "Metering Mode"
    case 1 => "Averaging Algorithm"
    case 2 => "Expand Meter"
    case 3 => "Peak Meter"
    case 4 => "Peak Hold"
    case 5 => "Mono Input"
    case 6 => "Validation: file name"
    case 7 => "Validation: selected channel"
    case 8 => "Validation: average meter level"
    case 9 => "Validation: peak meter level"
    case 10 => "Validation: maximum peak level"
    case 11 => "Validation: true peak meter level"
    case 12 => "Validation: maximum true peak level"
    case 13 => "Validation: stereo meter value"
    case 14 => "Validation: phase correlation"
    case 15 => "Validation: CSV output format"
    case _ => "invalid"
  }

  function CrestFactorText(v: int): (t: string)
    ensures t in {"Normal", "K-12", "K-14", "K-20", "K-23"}
    ensures v == 0 <==> t == "Normal"
    ensures t == "K-23" <==> !(v == 0 || v == 12 || v == 14 || v == 20)
  {
    if v == 0 then "Normal"
    else if v == 12 then "K-12"
    else if v == 14 then "K-14"
    else if v == 20 then "K-20"
    else "K-23"
  }

  /**
   * getParameterText.  `fileExists` stands for the file system check the
   * source makes on the validation file name.
   */
  function ParameterText(s: Store, index: int, fileExists: string -> bool): (t: string)
    requires WellFormed(s) && 0 <= index < NumParameters
    ensures index == CrestFactor ==> t == CrestFactorText(s.values[index])
    ensures index == AverageAlgorithm ==>
      t == (if s.values[index] == AlgorithmItuBs1770 then "ITU-R BS.1770-1" else "RMS")
    ensures index == ValidationFileName ==> t == (if fileExists(s.validationFile) then s.validationFile else "")
    ensures index == ValidationSelectedChannel ==> (t == "All" <==> s.values[index] < 0)
    ensures index == ValidationSelectedChannel && s.values[index] >= 0 ==> AllDigits(t) && LeadingInt(t) == s.values[index]
    ensures IsSwitch(index) && index != ValidationFileName ==> (t == "On" <==> s.values[index] != 0) && (t == "On" || t == "Off")
  {
    var v := s.values[index];
    if index == CrestFactor then CrestFactorText(v)
    else if index == AverageAlgorithm then (if v == AlgorithmItuBs1770 then "ITU-R BS.1770-1" else "RMS")
    else if index == ValidationFileName then (if fileExists(s.validationFile) then s.validationFile else "")
    else if index == ValidationSelectedChannel then
      if v < 0 then "All"
      else
        var d := IntToString(v);
        IntToStringRoundTrip(v);
        assert d[0] != 'A';
        d
    else if v != 0 then "On" else "Off"
  }

  /**
   * The integer parameters loadFromXml reads after the crest factor, by
   * position: positions 0-4 hold parameters 1-5, positions 5-13 hold
   * parameters 7-15, and the validation file name is read between
   * positions 4 and 5.
   */
  const NumIntAttributes := 14
  const FilePosition := 5

  function ParameterAt(k: int): (i: int)
    requires 0 <= k < NumIntAttributes
    ensures 0 < i < NumParameters && i != ValidationFileName
  {
    if k < FilePosition then k + 1 else k + 2
  }

  function PositionOf(i: int): (k: int)
    requires 0 < i < NumParameters && i != ValidationFileName
    ensures 0 <= k < NumIntAttributes && ParameterAt(k) == i
  {
    if i < ValidationFileName then i - 1 else i - 2
  }

  const AttributeName: seq<string> := [
    "AverageAlgorithm", "Expanded", "Peak", "Hold", "Mono",
    "ValidationSelectedChannel", "ValidationAverageMeterLevel", "ValidationPeakMeterLevel",
    "ValidationMaximumPeakLevel", "ValidationTruePeakMeterLevel", "ValidationMaximumTruePeakLevel",
    "ValidationStereoMeterValue", "ValidationPhaseCorrelation", "ValidationCSVFormat"]

  predicate DistinctNames(names: seq<string>)
  {
    forall k, l :: 0 <= k < l < |names| ==> names[k] != names[l]
  }

  lemma AttributeNamesDistinct()
    ensures |AttributeName| == NumIntAttributes && DistinctNames(AttributeName)
    ensures "CrestFactor" !in AttributeName && "Headroom" !in AttributeName && "ValidationFile" !in AttributeName
  {
  }

  /**
   * storeAsXml: crest factor 0 is written as 20, every other value
   * verbatim.  The source writes the validation file name between
   * positions 4 and 5; the attributes form a map here, and as their names
   * are distinct the order of the writes does not change it.
   */
  function StoreXml(s: Store): (x: Element)
    requires WellFormed(s)
    ensures HasTagName(x, SettingsTag)
  {
    AttributeNamesDistinct();
    SettingsElement(s, AttributeName)
  }

  /** The setAttribute calls for positions lo to hi - 1, in that order. */
  function StoreInts(e: Element, s: Store, names: seq<string>, lo: int, hi: int): (r: Element)
    requires WellFormed(s) && |names| == NumIntAttributes && DistinctNames(names)
    requires 0 <= lo <= hi <= NumIntAttributes
    ensures r.tag == e.tag
    ensures forall k :: lo <= k < hi ==>
      HasAttribute(r, names[k]) && GetIntAttribute(r, names[k], 0) == s.values[ParameterAt(k)]
    ensures forall n :: n !in names ==>
      (n in r.attributes <==> n in e.attributes) && (n in e.attributes ==> r.attributes[n] == e.attributes[n])
    decreases hi - lo
  {
    if lo == hi then e
    else
      var r := SetIntAttribute(StoreInts(e, s, names, lo, hi - 1), names[hi - 1], s.values[ParameterAt(hi - 1)]);
      assert forall k :: lo <= k < hi - 1 ==> names[k] != names[hi - 1];
      r
  }

  /** The setParameterFromInt(index, getIntAttribute(name, current value)) calls for positions lo to hi - 1. */
  function LoadInts(s: Store, x: Element, names: seq<string>, lo: int, hi: int): (t: Store)
    requires WellFormed(s) && |names| == NumIntAttributes && 0 <= lo <= hi <= NumIntAttributes
    ensures WellFormed(t) && t.validationFile == s.validationFile
    ensures forall j :: 0 <= j < NumParameters && (j == CrestFactor || j == ValidationFileName || !(lo <= PositionOf(j) < hi)) ==>
      t.values[j] == s.values[j] && t.marked[j] == s.marked[j]
    decreases hi - lo
  {
    if lo == hi then s
    else
      var i := ParameterAt(lo);
      LoadInts(SetFromInt(s, i, GetIntAttribute(x, names[lo], s.values[i])), x, names, lo + 1, hi)
  }

  /** Each position in lo .. hi - 1 ends up as its own setParameterFromInt call left it. */
  lemma {:induction false} LoadIntsSets(s: Store, x: Element, names: seq<string>, lo: int, hi: int, k: int)
    requires WellFormed(s) && |names| == NumIntAttributes && 0 <= lo <= k < hi <= NumIntAttributes
    ensures var i := ParameterAt(k);
      var u := SetFromInt(s, i, GetIntAttribute(x, names[k], s.values[i]));
      LoadInts(s, x, names, lo, hi).values[i] == u.values[i] && LoadInts(s, x, names, lo, hi).marked[i] == u.marked[i]
    decreases hi - lo
  {
    var first := ParameterAt(lo);
    var s1 := SetFromInt(s, first, GetIntAttribute(x, names[lo], s.values[first]));
    if k == lo {
      assert PositionOf(first) == lo;
    } else {
      LoadIntsSets(s1, x, names, lo + 1, hi, k);
    }
  }

  /** The crest factor loadFromXml asks for: the legacy "Headroom" attribute wins, and 0 becomes 20. */
  function LoadedCrestFactor(s: Store, x: Element): (v: int)
    requires WellFormed(s)
    ensures v != 0
    ensures HasAttribute(x, "Headroom") && GetIntAttribute(x, "Headroom", 0) != 0 ==> v == GetIntAttribute(x, "Headroom", 0)
    ensures !HasAttribute(x, "Headroom") && HasAttribute(x, "CrestFactor") && GetIntAttribute(x, "CrestFactor", 0) != 0 ==>
      v == GetIntAttribute(x, "CrestFactor", 0)
    ensures !HasAttribute(x, "Headroom") && !HasAttribute(x, "CrestFactor") && s.values[CrestFactor] != 0 ==>
      v == s.values[CrestFactor]
  {
    var c := if HasAttribute(x, "Headroom") then GetIntAttribute(x, "Headroom", s.values[CrestFactor])
             else GetIntAttribute(x, "CrestFactor", s.values[CrestFactor]);
    if c == 0 then 20 else c
  }

  /** The validation file name loadFromXml leaves in the store. */
  function LoadedFile(s: Store, x: Element, fileExists: string -> bool): (t: Store)
    ensures t.values == s.values && t.marked == s.marked
    ensures fileExists(GetStringAttribute(x, "ValidationFile", s.validationFile)) ==>
      t.validationFile == GetStringAttribute(x, "ValidationFile", s.validationFile)
    ensures !fileExists(GetStringAttribute(x, "ValidationFile", s.validationFile)) ==> t.validationFile == s.validationFile
  {
    var file := GetStringAttribute(x, "ValidationFile", s.validationFile);
    if fileExists(file) then s.(validationFile := file) else s
  }

  /**
   * loadFromXml on the abstract state; `fileExists` stands for the file
   * system check setValidationFile makes.
   */
  function Load(s: Store, xml: Option<Element>, fileExists: string -> bool): (t: Store)
    requires WellFormed(s)
    ensures WellFormed(t)
    ensures xml.None? || !HasTagName(xml.value, SettingsTag) ==> t == s
  {
    if xml.None? || !HasTagName(xml.value, SettingsTag) then s
    else
      var x := xml.value;
      var s1 := SetFromInt(s, CrestFactor, LoadedCrestFactor(s, x));
      AttributeNamesDistinct();
      var s2 := LoadInts(s1, x, AttributeName, 0, FilePosition);
      LoadInts(LoadedFile(s2, x, fileExists), x, AttributeName, FilePosition, NumIntAttributes)
  }

  /** After a load of a settings element the crest factor is never 0. */
  lemma {:induction false} LoadNeverYieldsCrestZero(s: Store, x: Element, fileExists: string -> bool)
    requires WellFormed(s) && HasTagName(x, SettingsTag)
    ensures Load(s, Some(x), fileExists).values[CrestFactor] != 0
  {
    var s1 := SetFromInt(s, CrestFactor, LoadedCrestFactor(s, x));
    assert s1.values[CrestFactor] != 0;
  }

  /** Loading attributes that already hold the stored values changes nothing. */
  lemma {:induction false} LoadIntsOfStoredValues(s: Store, x: Element, names: seq<string>, lo: int, hi: int)
    requires WellFormed(s) && |names| == NumIntAttributes && 0 <= lo <= hi <= NumIntAttributes
    requires forall k :: lo <= k < hi ==>
      HasAttribute(x, names[k]) && GetIntAttribute(x, names[k], 0) == s.values[ParameterAt(k)]
    ensures LoadInts(s, x, names, lo, hi) == s
    decreases hi - lo
  {
    if lo < hi {
      var i := ParameterAt(lo);
      assert GetIntAttribute(x, names[lo], s.values[i]) == s.values[i];
      LoadIntsOfStoredValues(s, x, names, lo + 1, hi);
    }
  }

  /** A settings element built as storeAsXml builds it, for any distinct attribute names. */
  function SettingsElement(s: Store, names: seq<string>): (x: Element)
    requires WellFormed(s) && |names| == NumIntAttributes && DistinctNames(names)
  {
    var e := Element(SettingsTag, map[], []);
    var e := SetIntAttribute(e, "CrestFactor", if s.values[CrestFactor] == 0 then 20 else s.values[CrestFactor]);
    var e := e.(attributes := e.attributes["ValidationFile" := s.validationFile]);
    StoreInts(e, s, names, 0, NumIntAttributes)
  }

  /** The integer parameters of a settings element read back as stored. */
  lemma SettingsElementInts(s: Store, names: seq<string>)
    requires WellFormed(s) && |names| == NumIntAttributes && DistinctNames(names)
    ensures forall k :: 0 <= k < NumIntAttributes ==>
      HasAttribute(SettingsElement(s, names), names[k])
      && GetIntAttribute(SettingsElement(s, names), names[k], 0) == s.values[ParameterAt(k)]
  {
  }

  /** The crest factor, the file name and the absent legacy headroom of a settings element. */
  lemma SettingsElementHeader(s: Store, names: seq<string>)
    requires WellFormed(s) && |names| == NumIntAttributes && DistinctNames(names)
    requires "CrestFactor" !in names && "Headroom" !in names && "ValidationFile" !in names
    ensures HasTagName(SettingsElement(s, names), SettingsTag)
    ensures !HasAttribute(SettingsElement(s, names), "Headroom")
    ensures HasAttribute(SettingsElement(s, names), "CrestFactor")
    ensures GetIntAttribute(SettingsElement(s, names), "CrestFactor", 0)
      == (if s.values[CrestFactor] == 0 then 20 else s.values[CrestFactor])
    ensures HasAttribute(SettingsElement(s, names), "ValidationFile")
    ensures SettingsElement(s, names).attributes["ValidationFile"] == s.validationFile
  {
    var e0 := Element(SettingsTag, map[], []);
    var e1 := SetIntAttribute(e0, "CrestFactor", if s.values[CrestFactor] == 0 then 20 else s.values[CrestFactor]);
    var e2 := e1.(attributes := e1.attributes["ValidationFile" := s.validationFile]);
    assert !HasAttribute(e2, "Headroom") && e2.attributes["CrestFactor"] == e1.attributes["CrestFactor"];
    assert "ValidationFile" in e2.attributes && e2.attributes["ValidationFile"] == s.validationFile;
  }

  /** Loading an element that holds the store's own values only turns crest factor 0 into 20. */
  lemma {:induction false} LoadOfStoredValues(s: Store, x: Element, fileExists: string -> bool)
    requires WellFormed(s) && HasTagName(x, SettingsTag)
    requires !HasAttribute(x, "Headroom") && HasAttribute(x, "CrestFactor")
    requires GetIntAttribute(x, "CrestFactor", 0) == (if s.values[CrestFactor] == 0 then 20 else s.values[CrestFactor])
    requires HasAttribute(x, "ValidationFile") && x.attributes["ValidationFile"] == s.validationFile
    requires forall k :: 0 <= k < NumIntAttributes ==>
      HasAttribute(x, AttributeName[k]) && GetIntAttribute(x, AttributeName[k], 0) == s.values[ParameterAt(k)]
    ensures Load(s, Some(x), fileExists) == SetFromInt(s, CrestFactor, if s.values[CrestFactor] == 0 then 20 else s.values[CrestFactor])
  {
    AttributeNamesDistinct();
    var s1 := SetFromInt(s, CrestFactor, LoadedCrestFactor(s, x));
    assert s1 == SetFromInt(s, CrestFactor, if s.values[CrestFactor] == 0 then 20 else s.values[CrestFactor]);
    LoadIntsOfStoredValues(s1, x, AttributeName, 0, FilePosition);
    assert LoadedFile(s1, x, fileExists) == s1;
    LoadIntsOfStoredValues(s1, x, AttributeName, FilePosition, NumIntAttributes);
  }

  /**
   * Save, then load into the same store: every value comes back, except
   * that crest factor 0 comes back as 20 (and only that change is marked).
   */
  lemma {:induction false} StoreThenLoad(s: Store, fileExists: string -> bool)
    requires WellFormed(s)
    ensures Load(s, Some(StoreXml(s)), fileExists).values
      == s.values[CrestFactor := if s.values[CrestFactor] == 0 then 20 else s.values[CrestFactor]]
    ensures Load(s, Some(StoreXml(s)), fileExists).marked
      == s.marked[CrestFactor := s.marked[CrestFactor] || s.values[CrestFactor] == 0]
    ensures Load(s, Some(StoreXml(s)), fileExists).validationFile == s.validationFile
  {
    var t := SetFromInt(s, CrestFactor, if s.values[CrestFactor] == 0 then 20 else s.values[CrestFactor]);
    assert t.values == s.values[CrestFactor := if s.values[CrestFactor] == 0 then 20 else s.values[CrestFactor]];
    assert t.marked == s.marked[CrestFactor := s.marked[CrestFactor] || s.values[CrestFactor] == 0];
    assert t.validationFile == s.validationFile;
    var x := StoreXml(s);
    AttributeNamesDistinct();
    SettingsElementInts(s, AttributeName);
    SettingsElementHeader(s, AttributeName);
    LoadOfStoredValues(s, x, fileExists);
  }

  /** The parameter store with its value and mark arrays. */
  class KmeterPluginParameters {
    var param: array<int>
    var paramChanged: array<bool>
    var validationFile: string

    ghost predicate Valid()
      reads this
    {
      param.Length == NumParameters && paramChanged.Length == NumParameters
    }

    function State(): (s: Store)
      reads this, param, paramChanged
      requires Valid()
      ensures WellFormed(s)
    {
      Store(param[..], paramChanged[..], validationFile)
    }

    constructor ()
      ensures Valid() && fresh(param) && fresh(paramChanged)
      ensures State() == DefaultStore()
    {
      var marks := new bool[NumParameters];
      var index := 0;
      while index < NumParameters
        invariant 0 <= index <= NumParameters
        invariant forall j :: 0 <= j < index ==> !marks[j]
      {
        marks[index] := false;
        index := index + 1;
      }
      var values := new int[NumParameters];
      values[CrestFactor] := 20;
      values[AverageAlgorithm] := AlgorithmItuBs1770;
      values[Expanded] := 0;
      values[Peak] := 0;
      values[InfiniteHold] := 0;
      values[Mono] := 0;
      values[ValidationFileName] := 0;
      values[ValidationSelectedChannel] := -1;
      values[ValidationAverageMeterLevel] := 1;
      values[ValidationPeakMeterLevel] := 1;
      values[ValidationMaximumPeakLevel] := 1;
      values[ValidationTruePeakMeterLevel] := 1;
      values[ValidationMaximumTruePeakLevel] := 1;
      values[ValidationStereoMeterValue] := 1;
      values[ValidationPhaseCorrelation] := 1;
      values[ValidationCSVFormat] := 0;
      assert values[..] == [20, AlgorithmItuBs1770, 0, 0, 0, 0, 0, -1, 1, 1, 1, 1, 1, 1, 1, 0];
      assert marks[..] == DefaultStore().marked;
      param := values;
      paramChanged := marks;
      validationFile := "";
    }

    function GetParameterAsInt(index: int): (v: int)
      reads this, param
      requires Valid() && 0 <= index < NumParameters
      ensures v == param[index]
    {
      param[index]
    }

    function GetParameterAsBool(index: int): (b: bool)
      reads this, param
      requires Valid() && 0 <= index < NumParameters
      ensures b <==> param[index] != 0
    {
      GetParameterAsInt(index) != 0
    }

    function GetParameterAsFloat(index: int): (f: real)
      reads this, param
      requires Valid() && 0 <= index < NumParameters
      ensures f == TranslateParameterToFloat(index, param[index])
    {
      TranslateParameterToFloat(index, GetParameterAsInt(index))
    }

    function IsParameterMarked(index: int): (b: bool)
      reads this, paramChanged
      requires Valid() && 0 <= index < NumParameters
      ensures b == paramChanged[index]
    {
      paramChanged[index]
    }

    function GetParameterText(index: int, fileExists: string -> bool): (t: string)
      reads this, param, paramChanged
      requires Valid() && 0 <= index < NumParameters
      ensures t == ParameterText(State(), index, fileExists)
    {
      ParameterText(State(), index, fileExists)
    }

    method SetParameterFromInt(index: int, value: int)
      requires Valid() && 0 <= index < NumParameters
      modifies param, paramChanged
      ensures Valid() && State() == SetFromInt(old(State()), index, value)
    {
      if param[index] != value {
        if index == CrestFactor {
          if value == 0 || value == 12 || value == 14 || value == 23 {
            param[index] := value;
          } else {
            param[index] := 20;
          }
        } else if index == ValidationSelectedChannel {
          param[index] := value;
        } else {
          param[index] := if value != 0 then 1 else 0;
        }
        MarkParameter(index);
      }
    }

    method SetParameterFromBool(index: int, value: bool)
      requires Valid() && 0 <= index < NumParameters
      modifies param, paramChanged
      ensures Valid() && State() == SetFromInt(old(State()), index, if value then 1 else 0)
    {
      SetParameterFromInt(index, if value then 1 else 0);
    }

    method SetParameterFromFloat(index: int, f: real)
      requires Valid() && 0 <= index < NumParameters
      modifies param, paramChanged
      ensures Valid() && State() == SetFromInt(old(State()), index, TranslateParameterToInt(index, f))
    {
      var value := TranslateParameterToInt(index, f);
      SetParameterFromInt(index, value);
    }

    method MarkParameter(index: int)
      requires Valid() && 0 <= index < NumParameters
      modifies paramChanged
      ensures Valid() && paramChanged[..] == old(paramChanged[..])[index := true]
    {
      paramChanged[index] := true;
    }

    method UnmarkParameter(index: int)
      requires Valid() && 0 <= index < NumParameters
      modifies paramChanged
      ensures Valid() && paramChanged[..] == old(paramChanged[..])[index := false]
    {
      paramChanged[index] := false;
    }

    /** setValidationFile: adopted only when the file exists. */
    method SetValidationFile(file: string, fileExists: string -> bool)
      modifies this
      ensures param == old(param) && paramChanged == old(paramChanged)
      ensures validationFile == if fileExists(file) then file else old(validationFile)
    {
      if fileExists(file) {
        validationFile := file;
      }
    }

    function StoreAsXml(): (x: Element)
      reads this, param, paramChanged
      requires Valid()
      ensures x == StoreXml(State())
    {
      StoreXml(State())
    }

    method LoadFromXml(xml: Option<Element>, fileExists: string -> bool)
      requires Valid()
      modifies this, param, paramChanged
      ensures Valid() && param == old(param) && paramChanged == old(paramChanged)
      ensures State() == Load(old(State()), xml, fileExists)
    {
      if xml.Some? && HasTagName(xml.value, SettingsTag) {
        var x := xml.value;
        LoadCrestFactor(x);
        AttributeNamesDistinct();
        LoadAttributes(x, AttributeName, 0, FilePosition);
        LoadValidationFile(x, fileExists);
        LoadAttributes(x, AttributeName, FilePosition, NumIntAttributes);
      }
    }

    /** The crest factor from "Headroom", else from the older "CrestFactor"; a stored 0 dB reads as 20 dB. */
    method LoadCrestFactor(x: Element)
      requires Valid()
      modifies param, paramChanged
      ensures Valid() && State() == SetFromInt(old(State()), CrestFactor, LoadedCrestFactor(old(State()), x))
    {
      var crest := if HasAttribute(x, "Headroom") then GetIntAttribute(x, "Headroom", GetParameterAsInt(CrestFactor))
                   else GetIntAttribute(x, "CrestFactor", GetParameterAsInt(CrestFactor));
      if crest == 0 {
        SetParameterFromInt(CrestFactor, 20);
      } else {
        SetParameterFromInt(CrestFactor, crest);
      }
    }

    /** The validation file named by the element, adopted only when it exists. */
    method LoadValidationFile(x: Element, fileExists: string -> bool)
      requires Valid()
      modifies this
      ensures Valid() && param == old(param) && paramChanged == old(paramChanged)
      ensures State() == LoadedFile(old(State()), x, fileExists)
    {
      var file := GetStringAttribute(x, "ValidationFile", validationFile);
      SetValidationFile(file, fileExists);
    }

    /** The run of setParameterFromInt(index, getIntAttribute(name, current)) calls of loadFromXml. */
    method LoadAttributes(x: Element, names: seq<string>, lo: int, hi: int)
      requires Valid() && |names| == NumIntAttributes && 0 <= lo <= hi <= NumIntAttributes
      modifies param, paramChanged
      ensures Valid() && State() == LoadInts(old(State()), x, names, lo, hi)
    {
      var k := lo;
      while k < hi
        invariant lo <= k <= hi && Valid()
        invariant LoadInts(State(), x, names, k, hi) == LoadInts(old(State()), x, names, lo, hi)
      {
        var i := ParameterAt(k);
        SetParameterFromInt(i, GetIntAttribute(x, names[k], GetParameterAsInt(i)));
        k := k + 1;
      }
    }
  }
}
