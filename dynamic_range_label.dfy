/**
 * The label that shows a dynamic-range value (src/dynamic_range_label.cpp):
 * "none" on grey for a negative value, otherwise "DR" and the value with at
 * least two digits on a background whose hue runs from red (0) towards
 * green (0.26) as the value grows past 7.
 *
 * JUCE's Label keeps the text and the colours; here they are fields of
 * the class, and a colour is its hue, saturation, brightness and alpha or
 * one of the named colours the label uses.
 */
module DynamicRangeLabel {
  import opened Text

  datatype Colour =
    | Hsba(hue: real, saturation: real, brightness: real, alpha: real)
    /** Colours::grey made darker by the given amount. */
    | DarkerGrey(amount: real)
    | White
    | Black

  const NoValue := "none"

  /** The text for a value: "none" below zero, else "DR " and the value padded to two digits. */
  function DisplayText(value: int): (text: string)
    ensures value < 0 <==> text == NoValue
    ensures value >= 0 ==> |text| >= 5 && text[..3] == "DR " && AllDigits(text[3..])
    ensures 0 <= value < 100 ==> |text| == 5
  {
    if value < 0 then NoValue
    else if value < 10 then "DR 0" + IntToString(value)
    else "DR " + IntToString(value)
  }

  /** The digits after "DR " read back as the value. */
  lemma DisplayTextReadsBack(value: int)
    requires value >= 0
    ensures DigitsValue(DisplayText(value)[3..]) == value
  {
    var digits := IntToString(value);
    NatToStringRoundTrip(value);
    if value < 10 {
      assert DisplayText(value)[3..] == ['0'] + digits;
      ZeroHeadValue(digits);
    } else {
      assert DisplayText(value)[3..] == digits;
    }
  }

  /** Distinct values show distinct texts. */
  lemma DisplayTextInjective(a: int, b: int)
    requires DisplayText(a) == DisplayText(b)
    ensures a == b || (a < 0 && b < 0)
  {
    if a >= 0 && b >= 0 {
      DisplayTextReadsBack(a);
      DisplayTextReadsBack(b);
    }
  }

  /** The background hue of a non-negative value: 0 up to 7, then rising by 1/23 per step, then 0.26 above 12. */
  function Hue(value: int): (h: real)
    requires value >= 0
    ensures 0.0 <= h <= 0.26
    ensures value <= 7 ==> h == 0.0
    ensures value > 12 ==> h == 0.26
  {
    if value > 12 then 0.26
    else if value > 7 then (value as real - 7.0) / 23.0
    else 0.0
  }

  /** A larger value never has a hue further towards red. */
  lemma HueMonotone(a: int, b: int)
    requires 0 <= a <= b
    ensures Hue(a) <= Hue(b)
  {
  }

  function Background(value: int): (c: Colour)
    ensures value < 0 <==> c.DarkerGrey?
    ensures value >= 0 ==> c == Hsba(Hue(value), 1.0, 0.8, 1.0)
  {
    if value < 0 then DarkerGrey(0.7)
    else if value > 12 then Hsba(0.26, 1.0, 0.8, 1.0)
    else if value > 7 then Hsba((value as real - 7.0) / 23.0, 1.0, 0.8, 1.0)
    else Hsba(0.0, 1.0, 0.8, 1.0)
  }

  function TextColour(value: int): (c: Colour)
    ensures c == (if value < 0 then White else Black)
  {
    if value < 0 then White else Black
  }

  class DynamicRangeLabel {
    var value: int
    var text: string
    var background: Colour
    var textColour: Colour
    var outline: Colour

    /** The label shows the given value. */
    predicate Shows(v: int)
      reads this
    {
      text == DisplayText(v) && background == Background(v) && textColour == TextColour(v)
    }

    /**
     * DynamicRangeLabel::DynamicRangeLabel: the label starts with "0", is
     * reset to -1, and is then set to "none" on dark grey in white.
     */
    constructor ()
      ensures value == -1 && Shows(value) && outline == DarkerGrey(0.2)
    {
      text := "0";
      new;
      ResetValue();
      text := NoValue;
      background := DarkerGrey(0.7);
      textColour := White;
      outline := DarkerGrey(0.2);
    }

    /**
     * DynamicRangeLabel::resetValue: the value becomes -1 before setValue
     * is called with it, so setValue returns at once and the text and the
     * colours stay as they were.
     */
    method ResetValue()
      modifies this
      ensures value == -1
      ensures text == old(text) && background == old(background) && textColour == old(textColour)
      ensures outline == old(outline)
    {
      value := -1;
      SetValue(value);
    }

    /** DynamicRangeLabel::setValue: nothing changes for the current value; another one is shown. */
    method SetValue(newValue: int)
      modifies this
      ensures value == newValue && outline == old(outline)
      ensures newValue == old(value) ==>
                text == old(text) && background == old(background) && textColour == old(textColour)
      ensures newValue != old(value) ==> Shows(newValue)
      ensures old(Shows(value)) ==> Shows(value)
    {
      if newValue == value {
        return;
      }
      value := newValue;

      if value < 0 {
        text := NoValue;
      } else if value < 10 {
        text := "DR 0" + IntToString(value);
      } else {
        text := "DR " + IntToString(value);
      }

      if value < 0 {
        background := DarkerGrey(0.7);
        textColour := White;
      } else if value > 12 {
        background := Hsba(0.26, 1.0, 0.8, 1.0);
        textColour := Black;
      } else if value > 7 {
        var hue := (value as real - 7.0) / 23.0;
        background := Hsba(hue, 1.0, 0.8, 1.0);
        textColour := Black;
      } else {
        background := Hsba(0.00, 1.0, 0.8, 1.0);
        textColour := Black;
      }
    }
  }
}
