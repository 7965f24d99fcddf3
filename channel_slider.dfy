/**
 * The validation window's channel selector (src/channel_slider.cpp): a
 * slider over channel indices from -1 to the number of channels, where
 * -1 means every channel.  The slider shows channels counted from 1 and
 * -1 as "All", and reads the same text back.
 *
 * Slider values are doubles and are modelled as reals.  Of String's
 * floating-point parser only the optional sign and the leading run of
 * digits are modelled: a fraction or an exponent after the digits is
 * ignored, so "2.5" reads as channel 2 where the slider reads 1.5.
 */
module ChannelSlider {
  import opened Numeric
  import opened Text

  const AllChannels := "All"

  /** The slider range the constructor sets: minimum, maximum and step. */
  datatype Slider = Slider(minimum: real, maximum: real, interval: real, value: real)

  /** ChannelSlider::ChannelSlider: channels -1 to the number of channels in steps of one, starting at "All". */
  function NewChannelSlider(numberOfChannels: int): (s: Slider)
    ensures s.minimum == -1.0 && s.maximum == numberOfChannels as real && s.interval == 1.0
    ensures s.value == -1.0 && TextFromValue(s.value) == AllChannels
    ensures numberOfChannels >= -1 ==> s.minimum <= s.value <= s.maximum
  {
    Slider(-1.0, numberOfChannels as real, 1.0, -1.0)
  }

  /** ChannelSlider::getTextFromValue: "All" below zero, else the nearest channel counted from 1. */
  function TextFromValue(value: real): (text: string)
    ensures value < 0.0 <==> text == AllChannels
  {
    if value < 0.0 then AllChannels else IntToString(Trunc(value + 0.5) + 1)
  }

  /** ChannelSlider::getValueFromText: -1 for "All", else the number read less one. */
  function ValueFromText(text: string): (value: real)
    ensures text == AllChannels ==> value == -1.0
  {
    if text == AllChannels then -1.0 else LeadingInt(text) as real - 1.0
  }

  /** A non-negative value is shown as the channel it is nearest to, counted from 1. */
  lemma TextFromValueRounds(value: real, k: int)
    requires value >= 0.0 && k as real - 0.5 <= value < k as real + 0.5
    ensures TextFromValue(value) == IntToString(k + 1)
  {
    assert Trunc(value + 0.5) == k;
  }

  /** Every channel index from -1 up reads back from its text. */
  lemma TextRoundTrip(n: int)
    requires n >= -1
    ensures ValueFromText(TextFromValue(n as real)) == n as real
  {
    if n >= 0 {
      var k := Trunc(n as real + 0.5);
      assert k == n;
      var text := IntToString(n + 1);
      assert text[0] != 'A' by {
        assert AllDigits(NatToString(n + 1));
      }
      IntToStringRoundTrip(n + 1);
    }
  }

  /** The texts of distinct channel indices are distinct. */
  lemma TextsDistinct(m: int, n: int)
    requires m >= -1 && n >= -1 && m != n
    ensures TextFromValue(m as real) != TextFromValue(n as real)
  {
    TextRoundTrip(m);
    TextRoundTrip(n);
  }

  /** Reading is not the inverse of showing: "0" reads as -1, which shows as "All". */
  lemma ZeroReadsAsAll()
    ensures ValueFromText("0") == -1.0
    ensures TextFromValue(ValueFromText("0")) == AllChannels
  {
    assert "0" != AllChannels;
    DigitsRead("0");
    assert DigitsValue("0") == 0;
  }
}
