/**
 * The validation player (Source/audio_file_player.cpp): it plays an audio
 * file into the meter and reports the meter's readings, here as the
 * tab-separated CSV report.  The audio file is reduced to its length and
 * sample rate, the read position of the file source is a parameter, the
 * meter's readings are a `Readings` value, and JUCE's String(float, 2) is
 * the parameter `render`.  Text that goes to the logger is returned and
 * kept in the ghost log `csvLog`.
 */
module AudioFilePlayer {
  import opened Numeric
  import opened Text
  import MB = MeterBallistics

  /** The name shown for a crest factor: the three K-System scales, anything else is "normal". */
  function CrestFactorName(crestFactor: int): (name: string)
    ensures name == "K-20" <==> crestFactor == 20
    ensures name == "K-14" <==> crestFactor == 14
    ensures name == "K-12" <==> crestFactor == 12
    ensures name == "NORM" <==> crestFactor != 20 && crestFactor != 14 && crestFactor != 12
  {
    if crestFactor == 20 then "K-20"
    else if crestFactor == 14 then "K-14"
    else if crestFactor == 12 then "K-12"
    else "NORM"
  }

  /** The seven quantities a report can contain. */
  datatype Quantity =
    | AverageMeterLevel | PeakMeterLevel | TruePeakMeterLevel | MaximumPeakLevel | MaximumTruePeakLevel
    | StereoMeterValue | PhaseCorrelation

  /** Which quantities are reported. */
  datatype Reporters = Reporters(averageMeterLevel: bool, peakMeterLevel: bool, maximumPeakLevel: bool,
                                 truePeakMeterLevel: bool, maximumTruePeakLevel: bool,
                                 stereoMeterValue: bool, phaseCorrelation: bool)

  /** The position of a quantity's columns in a report. */
  function Rank(q: Quantity): nat
  {
    match q
    case AverageMeterLevel => 0
    case PeakMeterLevel => 1
    case TruePeakMeterLevel => 2
    case MaximumPeakLevel => 3
    case MaximumTruePeakLevel => 4
    case StereoMeterValue => 5
    case PhaseCorrelation => 6
  }

  predicate IsEnabled(r: Reporters, q: Quantity)
  {
    match q
    case AverageMeterLevel => r.averageMeterLevel
    case PeakMeterLevel => r.peakMeterLevel
    case TruePeakMeterLevel => r.truePeakMeterLevel
    case MaximumPeakLevel => r.maximumPeakLevel
    case MaximumTruePeakLevel => r.maximumTruePeakLevel
    case StereoMeterValue => r.stereoMeterValue
    case PhaseCorrelation => r.phaseCorrelation
  }

  /** The stereo meter and the phase correlation are single values; the others have a column per channel. */
  predicate PerChannel(q: Quantity)
  {
    q != StereoMeterValue && q != PhaseCorrelation
  }

  function Only(flag: bool, q: Quantity): seq<Quantity>
  {
    if flag then [q] else []
  }

  const NumberOfQuantities: nat := 7

  /** The quantity whose columns come k-th. */
  function OfRank(k: nat): (q: Quantity)
    requires k < NumberOfQuantities
    ensures Rank(q) == k
  {
    if k == 0 then AverageMeterLevel
    else if k == 1 then PeakMeterLevel
    else if k == 2 then TruePeakMeterLevel
    else if k == 3 then MaximumPeakLevel
    else if k == 4 then MaximumTruePeakLevel
    else if k == 5 then StereoMeterValue
    else PhaseCorrelation
  }

  lemma RankOf(q: Quantity)
    ensures Rank(q) < NumberOfQuantities && OfRank(Rank(q)) == q
  {
  }

  /** The reported quantities among the first n in column order. */
  function EnabledUpTo(r: Reporters, n: nat): seq<Quantity>
    requires n <= NumberOfQuantities
  {
    if n == 0 then [] else EnabledUpTo(r, n - 1) + Only(IsEnabled(r, OfRank(n - 1)), OfRank(n - 1))
  }

  /** The reported quantities, in column order. */
  function Enabled(r: Reporters): seq<Quantity>
  {
    EnabledUpTo(r, NumberOfQuantities)
  }

  /** Column ranks strictly increase along qs. */
  predicate Ascending(qs: seq<Quantity>)
  {
    forall i, j :: 0 <= i < j < |qs| ==> Rank(qs[i]) < Rank(qs[j])
  }

  predicate Below(qs: seq<Quantity>, n: nat)
  {
    forall i :: 0 <= i < |qs| ==> Rank(qs[i]) < n
  }

  lemma AscendingStep(qs: seq<Quantity>, flag: bool, q: Quantity)
    requires Ascending(qs) && Below(qs, Rank(q))
    ensures Ascending(qs + Only(flag, q)) && Below(qs + Only(flag, q), Rank(q) + 1)
  {
  }

  lemma {:induction false} EnabledUpToAscending(r: Reporters, n: nat)
    requires n <= NumberOfQuantities
    ensures Ascending(EnabledUpTo(r, n)) && Below(EnabledUpTo(r, n), n)
  {
    if n > 0 {
      EnabledUpToAscending(r, n - 1);
      AscendingStep(EnabledUpTo(r, n - 1), IsEnabled(r, OfRank(n - 1)), OfRank(n - 1));
    }
  }

  /** The quantities are reported in column order, so each at most once. */
  lemma EnabledAscending(r: Reporters)
    ensures Ascending(Enabled(r))
  {
    EnabledUpToAscending(r, NumberOfQuantities);
  }

  lemma {:induction false} EnabledUpToMembers(r: Reporters, n: nat, q: Quantity)
    requires n <= NumberOfQuantities
    ensures q in EnabledUpTo(r, n) <==> IsEnabled(r, q) && Rank(q) < n
  {
    if n > 0 {
      EnabledUpToMembers(r, n - 1, q);
      RankOf(q);
    }
  }

  /** A quantity is reported exactly when its flag is set. */
  lemma EnabledMembers(r: Reporters, q: Quantity)
    ensures q in Enabled(r) <==> IsEnabled(r, q)
  {
    EnabledUpToMembers(r, NumberOfQuantities, q);
    RankOf(q);
  }

  /** setReporters' bReports: whether anything is reported at all. */
  predicate AnyReport(r: Reporters)
  {
    r.averageMeterLevel || r.peakMeterLevel || r.maximumPeakLevel || r.truePeakMeterLevel
    || r.maximumTruePeakLevel || r.stereoMeterValue || r.phaseCorrelation
  }

  /** The channels a report covers: all of them for a negative report channel, else that one. */
  function ReportChannels(reportChannel: int, numberOfChannels: nat): (channels: seq<int>)
    ensures reportChannel < 0 ==> |channels| == numberOfChannels && forall c :: 0 <= c < numberOfChannels ==> channels[c] == c
    ensures reportChannel >= 0 ==> channels == [reportChannel]
  {
    if reportChannel < 0 then seq(numberOfChannels, c => c) else [reportChannel]
  }

  /** One column of a report: a quantity and, for the per-channel quantities, the channel. */
  datatype Column = Column(quantity: Quantity, channel: int)

  /** The columns of one quantity: one per channel, or a single one. */
  function QuantityColumns(q: Quantity, channels: seq<int>): seq<Column>
  {
    if PerChannel(q) then seq(|channels|, i requires 0 <= i < |channels| => Column(q, channels[i])) else [Column(q, 0)]
  }

  /** The elements' sequences, one after the other. */
  function FlatMap<T, U>(xs: seq<T>, g: T -> seq<U>): seq<U>
  {
    if xs == [] then [] else FlatMap(xs[..|xs| - 1], g) + g(xs[|xs| - 1])
  }

  function ColumnsOf(channels: seq<int>): Quantity -> seq<Column>
  {
    q => QuantityColumns(q, channels)
  }

  /** The columns of the quantities, quantity by quantity. */
  function Columns(qs: seq<Quantity>, channels: seq<int>): seq<Column>
  {
    FlatMap(qs, ColumnsOf(channels))
  }

  function Prefix(q: Quantity): string
  {
    match q
    case AverageMeterLevel => "avg_"
    case PeakMeterLevel => "pk_"
    case TruePeakMeterLevel => "tru_"
    case MaximumPeakLevel => "max_"
    case MaximumTruePeakLevel => "mxt_"
    case StereoMeterValue => "stereo"
    case PhaseCorrelation => "corr"
  }

  /** A column's name; channel numbers in names start at 1. */
  function Name(column: Column): string
  {
    if PerChannel(column.quantity) then Prefix(column.quantity) + IntToString(column.channel + 1) else Prefix(column.quantity)
  }

  /** The meter readings the report reads, as the meter's getters return them. */
  datatype Readings = Readings(averageMeterLevel: int -> real, peakMeterLevel: int -> real,
                               truePeakMeterLevel: int -> real, maximumPeakLevel: int -> real,
                               maximumTruePeakLevel: int -> real, stereoMeterValue: real, phaseCorrelation: real)

  function Reading(readings: Readings, q: Quantity, channel: int): real
  {
    match q
    case AverageMeterLevel => readings.averageMeterLevel(channel)
    case PeakMeterLevel => readings.peakMeterLevel(channel)
    case TruePeakMeterLevel => readings.truePeakMeterLevel(channel)
    case MaximumPeakLevel => readings.maximumPeakLevel(channel)
    case MaximumTruePeakLevel => readings.maximumTruePeakLevel(channel)
    case StereoMeterValue => readings.stereoMeterValue
    case PhaseCorrelation => readings.phaseCorrelation
  }

  /** The value under a column; levels are shown on the K-System scale, i.e. plus the crest factor. */
  function Value(column: Column, crestFactor: real, readings: Readings): real
  {
    if PerChannel(column.quantity) then crestFactor + Reading(readings, column.quantity, column.channel)
    else Reading(readings, column.quantity, 0)
  }

  /** The texts of the elements, one after the other. */
  function Concat<T>(xs: seq<T>, f: T -> string): string
  {
    if xs == [] then [] else Concat(xs[..|xs| - 1], f) + f(xs[|xs| - 1])
  }

  /** Number of tab characters, i.e. of tab-terminated fields. */
  function Tabs(s: string): nat
  {
    multiset(s)['\t']
  }

  predicate TabFree(s: string)
  {
    '\t' !in s
  }

  /** A column's quoted, tab-terminated header field. */
  function HeaderField(column: Column): string
  {
    "\"" + Name(column) + "\"\t"
  }

  const TimecodeColumn: string := "\"timecode\"\t"

  /** The CSV header for the given columns. */
  function CsvHeader(columns: seq<Column>): string
  {
    TimecodeColumn + Concat(columns, HeaderField)
  }

  predicate IsHeader(s: string)
  {
    |s| >= |TimecodeColumn| && s[..|TimecodeColumn|] == TimecodeColumn
  }

  /** What one CSV report writes to the logger: the header unless it is out already, then the data line. */
  function ReportLines(header: string, line: string, headerDone: bool): seq<string>
  {
    (if headerDone then [] else [header]) + [line]
  }

  lemma ReportLinesAppend(log: seq<string>, header: string, line: string, headerDone: bool)
    ensures log + (if headerDone then [] else [header]) + [line] == log + ReportLines(header, line, headerDone)
  {
  }

  /** Line i of the log looks like the header. */
  predicate HeaderAt(log: seq<string>, i: nat)
    requires i < |log|
  {
    IsHeader(log[i])
  }

  /** The header is the first line of a log, and no other line looks like one. */
  predicate HeaderFirst(log: seq<string>)
  {
    (log != [] ==> HeaderAt(log, 0)) && forall i: nat :: 1 <= i < |log| ==> !HeaderAt(log, i)
  }

  lemma HeaderFirstAppend(log: seq<string>, line: string)
    requires HeaderFirst(log) && log != [] && !IsHeader(line)
    ensures HeaderFirst(log + [line])
  {
    assert HeaderAt(log + [line], 0) == HeaderAt(log, 0);
    forall i: nat | 1 <= i < |log| + 1
      ensures !HeaderAt(log + [line], i)
    {
      if i < |log| {
        assert HeaderAt(log + [line], i) == HeaderAt(log, i);
      }
    }
  }

  /** A data line appended to a log that starts with its header keeps the header first. */
  lemma LogDataLine(log: seq<string>, line: string, time: real, columns: seq<Column>, crestFactor: real,
                    readings: Readings, render: Render)
    requires HeaderFirst(log) && log != [] && time >= 0.0
    requires line == CsvLine(FormatTime(time), columns, crestFactor, readings, render)
    ensures HeaderFirst(log + [line]) && log + [line] != []
  {
    DataLineIsNoHeader(time, columns, crestFactor, readings, render);
    HeaderFirstAppend(log, line);
  }

  /** String(float, 2): a value rendered with two decimals. */
  type Render = real -> string

  ghost predicate RendersTabFree(render: Render)
  {
    forall v: real :: TabFree(render(v))
  }

  /** formatValue: the value with a "+" in front when it is not negative, then a tab. */
  function FormatValue(value: real, render: Render): string
  {
    (if value < 0.0 then render(value) else "+" + render(value)) + "\t"
  }

  /** The data field under a column. */
  function LineField(crestFactor: real, readings: Readings, render: Render): Column -> string
  {
    column => FormatValue(Value(column, crestFactor, readings), render)
  }

  /** One data line of the CSV report: the quoted time code and one field per column. */
  function CsvLine(time: string, columns: seq<Column>, crestFactor: real, readings: Readings, render: Render): string
  {
    "\"" + time + "\"\t" + Concat(columns, LineField(crestFactor, readings, render))
  }

  /** A "+" is put in front of a value exactly when it is not negative; the rendering and a tab follow. */
  lemma FormatValueSign(value: real, render: Render)
    ensures var s := FormatValue(value, render); var text := render(value);
      (value >= 0.0 <==> |s| == |text| + 2) && (value >= 0.0 ==> s[0] == '+')
      && s[|s| - 1] == '\t' && s[|s| - 1 - |text|..|s| - 1] == text
  {
    var text := render(value);
    var signed := if value < 0.0 then text else "+" + text;
    assert signed[|signed| - |text|..] == text;
    assert (signed + "\t")[|signed| - |text|..|signed|] == signed[|signed| - |text|..];
  }

  /** The elapsed time position / rate; 0 / 0 is NaN, which formatTime reads as 0. */
  function ElapsedTime(position: nat, rate: real): (t: real)
    requires rate > 0.0 || position == 0
    ensures t >= 0.0
    ensures position == 0 ==> t == 0.0
    ensures rate > 0.0 ==> t * rate == position as real
  {
    if position == 0 then 0.0 else position as real / rate
  }

  /** minutes:seconds.milliseconds, padded with zeros to at least 2, 2 and 3 digits. */
  function Clock(minutes: int, seconds: int, milliseconds: int): string
  {
    PadLeft(IntToString(minutes), '0', 2) + ":" + PadLeft(IntToString(seconds), '0', 2) + "."
    + PadLeft(IntToString(milliseconds), '0', 3)
  }

  /** formatTime as written: whole seconds truncated, the fraction rounded to milliseconds on its own. */
  function WrittenParts(time: real): (int, int, int)
    requires time >= 0.0
  {
    var seconds := Trunc(time);
    (seconds / 60, seconds % 60, Trunc(1000.0 * (time - seconds as real) + 0.5))
  }

  function FormatTimeAsWritten(time: real): string
    requires time >= 0.0
  {
    var parts := WrittenParts(time);
    Clock(parts.0, parts.1, parts.2)
  }

  /** 0.9996 s: no whole second, and a fraction that rounds to 1000 milliseconds. */
  lemma AsWrittenParts()
    ensures FormatTimeAsWritten(0.9996) == Clock(0, 0, 1000)
  {
    assert Trunc(0.9996) == 0;
    assert Trunc(1000.0 * 0.9996 + 0.5) == 1000;
  }

  lemma ThousandText()
    ensures Clock(0, 0, 1000) == "00:00.1000"
  {
    assert NatToString(1) == "1";
    assert NatToString(10) == NatToString(1) + "0";
    assert NatToString(100) == NatToString(10) + "0";
    assert NatToString(1000) == NatToString(100) + "0";
    assert IntToString(0) == "0";
    assert PadLeft("0", '0', 2) == "00";
    assert PadLeft("1000", '0', 3) == "1000";
  }

  /**
   * A fraction of 0.9995 s or more rounds to 1000 milliseconds, which is
   * printed as a four-digit field instead of carrying into the seconds.
   */
  lemma FormatTimeAsWrittenMissesCarry()
    ensures FormatTimeAsWritten(0.9996) == "00:00.1000"
  {
    AsWrittenParts();
    ThousandText();
  }

  /** The time rounded to whole milliseconds first, then split into minutes, seconds and milliseconds. */
  function TimeParts(time: real): (parts: (nat, nat, nat))
    requires time >= 0.0
    ensures parts.1 < 60 && parts.2 < 1000
    ensures parts.0 * 60000 + parts.1 * 1000 + parts.2 == Trunc(1000.0 * time + 0.5)
  {
    var total := Trunc(1000.0 * time + 0.5);
    (total / 60000, total / 1000 % 60, total % 1000)
  }

  /** formatTime with the milliseconds carried into seconds and minutes. */
  function FormatTime(time: real): string
    requires time >= 0.0
  {
    var parts := TimeParts(time);
    Clock(parts.0, parts.1, parts.2)
  }

  /**
   * Where the fraction does not round up to a whole second, formatTime as
   * written splits the time into the same parts as the corrected one, so
   * the two time codes are the same text: they differ only in the carry.
   */
  lemma AsWrittenAgrees(time: real)
    requires time >= 0.0 && WrittenParts(time).2 < 1000
    ensures WrittenParts(time) == (TimeParts(time).0, TimeParts(time).1, TimeParts(time).2)
    ensures FormatTimeAsWritten(time) == FormatTime(time)
  {
    var seconds := Trunc(time);
    var milliseconds := WrittenParts(time).2;
    RoundingShift(time, seconds, milliseconds);
    SplitMilliseconds(Trunc(1000.0 * time + 0.5), seconds, milliseconds);
  }

  /** Rounding the whole time equals the whole seconds plus the rounded fraction. */
  lemma RoundingShift(time: real, seconds: int, milliseconds: int)
    requires time >= 0.0 && seconds == Trunc(time) && milliseconds == Trunc(1000.0 * (time - seconds as real) + 0.5)
    ensures Trunc(1000.0 * time + 0.5) == 1000 * seconds + milliseconds
  {
    assert 1000.0 * time + 0.5 == (1000 * seconds) as real + (1000.0 * (time - seconds as real) + 0.5);
  }

  /** Milliseconds made of whole seconds and a part below 1000 split back into those seconds. */
  lemma SplitMilliseconds(total: int, seconds: int, milliseconds: int)
    requires seconds >= 0 && 0 <= milliseconds < 1000 && total == 1000 * seconds + milliseconds
    ensures total / 60000 == seconds / 60 && total / 1000 % 60 == seconds % 60 && total % 1000 == milliseconds
  {
    UniqueDivision(total, 1000, seconds, milliseconds);
    UniqueDivision(seconds, 60, seconds / 60, seconds % 60);
    UniqueDivision(total, 60000, seconds / 60, 1000 * (seconds % 60) + milliseconds);
  }

  /** A number below 10^k has at most k digits. */
  lemma NatToStringShort(n: nat, k: nat, bound: nat)
    requires n < bound && ((k == 1 && bound == 10) || (k == 2 && bound == 100) || (k == 3 && bound == 1000))
    ensures |NatToString(n)| <= k
  {
    if n >= 10 {
      assert NatToString(n) == NatToString(n / 10) + [DigitChar(n % 10)];
      NatToStringShort(n / 10, k - 1, bound / 10);
    }
  }

  /** The digits of a natural number, padded with zeros to `width`, read back as the number. */
  lemma PaddedField(n: nat, width: nat)
    ensures var p := PadLeft(IntToString(n), '0', width); |p| >= width && Reads(p, n)
  {
    NatToStringRoundTrip(n);
    PadZerosValue(NatToString(n), width);
  }

  /** A field of decimal digits that reads as n. */
  predicate Reads(field: string, n: nat)
  {
    AllDigits(field) && DigitsValue(field) == n
  }

  /** The mm:ss.mmm shape with exactly two digits of seconds and three of milliseconds, each field reading as its part. */
  predicate IsClock(t: string, minutes: nat, seconds: nat, milliseconds: nat)
  {
    |t| >= 9 && t[|t| - 7] == ':' && t[|t| - 4] == '.'
    && Reads(t[..|t| - 7], minutes) && Reads(t[|t| - 6..|t| - 4], seconds) && Reads(t[|t| - 3..], milliseconds)
  }

  /** Three digit fields joined by ':' and '.' form a clock text when the last two have two and three digits. */
  lemma ClockShape(m: string, s: string, ms: string, minutes: nat, seconds: nat, milliseconds: nat)
    requires |m| >= 2 && |s| == 2 && |ms| == 3 && Reads(m, minutes) && Reads(s, seconds) && Reads(ms, milliseconds)
    ensures IsClock(m + [':'] + s + ['.'] + ms, minutes, seconds, milliseconds)
  {
    var t := m + [':'] + s + ['.'] + ms;
    assert t[..|t| - 7] == m;
    assert t[|t| - 6..|t| - 4] == s;
    assert t[|t| - 3..] == ms;
  }

  /** The clock text reads back as the minutes, seconds and milliseconds it shows. */
  lemma ClockFields(minutes: nat, seconds: nat, milliseconds: nat)
    requires seconds < 60 && milliseconds < 1000
    ensures IsClock(Clock(minutes, seconds, milliseconds), minutes, seconds, milliseconds)
  {
    var m := PadLeft(IntToString(minutes), '0', 2);
    var s := PadLeft(IntToString(seconds), '0', 2);
    var ms := PadLeft(IntToString(milliseconds), '0', 3);
    PaddedField(minutes, 2);
    PaddedField(seconds, 2);
    PaddedField(milliseconds, 3);
    NatToStringShort(seconds, 2, 100);
    NatToStringShort(milliseconds, 3, 1000);
    assert Clock(minutes, seconds, milliseconds) == m + [':'] + s + ['.'] + ms;
    ClockShape(m, s, ms, minutes, seconds, milliseconds);
  }

  /**
   * formatTime, corrected: seconds always two digits and milliseconds
   * always three, and the three fields together give the elapsed time
   * rounded to the millisecond.
   */
  lemma FormatTimeFields(time: real)
    requires time >= 0.0
    ensures var parts := TimeParts(time);
      IsClock(FormatTime(time), parts.0, parts.1, parts.2)
      && parts.1 < 60 && parts.0 * 60000 + parts.1 * 1000 + parts.2 == Trunc(1000.0 * time + 0.5)
  {
    var parts := TimeParts(time);
    ClockFields(parts.0, parts.1, parts.2);
  }


  lemma IntToStringTabFree(i: int)
    ensures TabFree(IntToString(i))
  {
    var d := NatToString(if i < 0 then -i else i);
    assert forall k :: 0 <= k < |d| ==> IsDigit(d[k]);
    if i < 0 {
      assert IntToString(i) == "-" + d;
    }
  }

  lemma DigitsTabFree(s: string)
    requires AllDigits(s)
    ensures TabFree(s)
  {
    assert forall k :: 0 <= k < |s| ==> IsDigit(s[k]);
  }

  /** A clock text has no tab and starts with a digit. */
  lemma ClockStart(minutes: nat, seconds: nat, milliseconds: nat)
    ensures TabFree(Clock(minutes, seconds, milliseconds))
    ensures |Clock(minutes, seconds, milliseconds)| > 0 && IsDigit(Clock(minutes, seconds, milliseconds)[0])
  {
    var m := PadLeft(IntToString(minutes), '0', 2);
    var s := PadLeft(IntToString(seconds), '0', 2);
    var ms := PadLeft(IntToString(milliseconds), '0', 3);
    PaddedField(minutes, 2);
    PaddedField(seconds, 2);
    PaddedField(milliseconds, 3);
    DigitsTabFree(m);
    DigitsTabFree(s);
    DigitsTabFree(ms);
    assert Clock(minutes, seconds, milliseconds) == m + [':'] + s + ['.'] + ms;
  }

  /** A data line starts with a quote and a digit, so it is never taken for the header. */
  lemma DataLineIsNoHeader(time: real, columns: seq<Column>, crestFactor: real, readings: Readings, render: Render)
    requires time >= 0.0
    ensures !IsHeader(CsvLine(FormatTime(time), columns, crestFactor, readings, render))
  {
    var parts := TimeParts(time);
    ClockStart(parts.0, parts.1, parts.2);
    var t := FormatTime(time);
    QuotedStart(t, Concat(columns, LineField(crestFactor, readings, render)));
    NoHeaderStart(CsvLine(t, columns, crestFactor, readings, render));
  }

  lemma QuotedStart(t: string, rest: string)
    requires |t| > 0
    ensures |"\"" + t + "\"\t" + rest| > 1 && ("\"" + t + "\"\t" + rest)[1] == t[0]
  {
  }

  /** Only a text whose second character is the 't' of "timecode" can be a header. */
  lemma NoHeaderStart(line: string)
    requires |line| > 1 && line[1] != 't'
    ensures !IsHeader(line)
  {
    if |line| >= |TimecodeColumn| {
      assert line[..|TimecodeColumn|][1] == line[1];
      assert TimecodeColumn[1] == 't';
    }
  }

  /** The header starts with the time code column. */
  lemma HeaderIsHeader(columns: seq<Column>)
    ensures IsHeader(CsvHeader(columns))
  {
    assert CsvHeader(columns)[..|TimecodeColumn|] == TimecodeColumn;
  }

  lemma ConcatStep<T>(xs: seq<T>, x: T, f: T -> string)
    ensures Concat(xs + [x], f) == Concat(xs, f) + f(x)
  {
    assert (xs + [x])[..|xs|] == xs;
  }

  /** One element more of a prefix. */
  lemma ConcatPrefixStep<T>(xs: seq<T>, n: nat, f: T -> string)
    requires n < |xs|
    ensures Concat(xs[..n + 1], f) == Concat(xs[..n], f) + f(xs[n])
  {
    assert xs[..n + 1][..n] == xs[..n];
  }

  lemma ConcatSingle<T>(x: T, f: T -> string)
    ensures Concat([x], f) == f(x)
  {
    assert [x][..0] == [];
  }

  lemma {:induction false} ConcatAppend<T>(xs: seq<T>, ys: seq<T>, f: T -> string)
    ensures Concat(xs + ys, f) == Concat(xs, f) + Concat(ys, f)
    decreases |ys|
  {
    if ys == [] {
      assert xs + ys == xs;
    } else {
      var n := |ys| - 1;
      ConcatAppend(xs, ys[..n], f);
      assert (xs + ys)[..|xs + ys| - 1] == xs + ys[..n];
    }
  }

  /** Joining fields of one tab each gives one tab per element. */
  lemma {:induction false} ConcatTabs<T>(xs: seq<T>, f: T -> string)
    requires forall i :: 0 <= i < |xs| ==> Tabs(f(xs[i])) == 1
    ensures Tabs(Concat(xs, f)) == |xs|
  {
    if xs != [] {
      ConcatTabs(xs[..|xs| - 1], f);
    }
  }

  lemma {:induction false} FlatMapAppend<T, U>(xs: seq<T>, ys: seq<T>, g: T -> seq<U>)
    ensures FlatMap(xs + ys, g) == FlatMap(xs, g) + FlatMap(ys, g)
    decreases |ys|
  {
    if ys == [] {
      assert xs + ys == xs;
    } else {
      var n := |ys| - 1;
      FlatMapAppend(xs, ys[..n], g);
      assert (xs + ys)[..|xs + ys| - 1] == xs + ys[..n];
    }
  }

  lemma ColumnsAppend(qs: seq<Quantity>, more: seq<Quantity>, channels: seq<int>)
    ensures Columns(qs + more, channels) == Columns(qs, channels) + Columns(more, channels)
  {
    FlatMapAppend(qs, more, ColumnsOf(channels));
  }

  /** The fields of one quantity's columns if its flag is set, else nothing. */
  function Section(flag: bool, q: Quantity, channels: seq<int>, f: Column -> string): string
  {
    if flag then Concat(QuantityColumns(q, channels), f) else ""
  }

  lemma SectionStep(qs: seq<Quantity>, flag: bool, q: Quantity, channels: seq<int>, f: Column -> string)
    ensures Concat(Columns(qs + Only(flag, q), channels), f) == Concat(Columns(qs, channels), f) + Section(flag, q, channels, f)
  {
    if flag {
      assert (qs + [q])[..|qs|] == qs;
      ConcatAppend(Columns(qs, channels), QuantityColumns(q, channels), f);
    } else {
      assert qs + [] == qs;
    }
  }

  /** The sections of the first n quantities in column order. */
  function SectionsUpTo(r: Reporters, n: nat, channels: seq<int>, f: Column -> string): string
    requires n <= NumberOfQuantities
  {
    if n == 0 then "" else SectionsUpTo(r, n - 1, channels, f) + Section(IsEnabled(r, OfRank(n - 1)), OfRank(n - 1), channels, f)
  }

  /** The fields of the reported columns are the sections one after the other. */
  lemma {:induction false} EnabledSections(r: Reporters, n: nat, channels: seq<int>, f: Column -> string)
    requires n <= NumberOfQuantities
    ensures Concat(Columns(EnabledUpTo(r, n), channels), f) == SectionsUpTo(r, n, channels, f)
  {
    if n > 0 {
      EnabledSections(r, n - 1, channels, f);
      SectionStep(EnabledUpTo(r, n - 1), IsEnabled(r, OfRank(n - 1)), OfRank(n - 1), channels, f);
    }
  }

  lemma Regroup(a: string, b: string, c: string)
    ensures a + b + c == a + (b + c)
  {
  }

  /** A single-value quantity's section is its one field. */
  lemma SingleSection(q: Quantity, channels: seq<int>, f: Column -> string)
    requires !PerChannel(q)
    ensures Section(true, q, channels, f) == f(Column(q, 0))
  {
    ConcatSingle(Column(q, 0), f);
  }

  lemma TabsAppend(a: string, b: string)
    ensures Tabs(a + b) == Tabs(a) + Tabs(b)
  {
  }

  /** A tab-free text, quoted and followed by a tab, is one field. */
  lemma QuotedTabs(s: string)
    requires TabFree(s)
    ensures Tabs("\"" + s + "\"\t") == 1
  {
    assert multiset(s)['\t'] == 0;
  }

  /** A header field is one tab-terminated field: names hold no tab. */
  lemma HeaderFieldTabs(column: Column)
    ensures Tabs(HeaderField(column)) == 1
  {
    IntToStringTabFree(column.channel + 1);
    assert TabFree(Prefix(column.quantity));
    assert TabFree(Name(column));
    QuotedTabs(Name(column));
  }

  lemma LineFieldTabs(value: real, render: Render)
    requires RendersTabFree(render)
    ensures Tabs(FormatValue(value, render)) == 1
  {
    var text := render(value);
    assert TabFree(text);
    assert multiset(text)['\t'] == 0;
    if value < 0.0 {
      TabsAppend(text, "\t");
    } else {
      TabsAppend("+" + text, "\t");
      TabsAppend("+", text);
    }
  }

  /**
   * The header and every data line have the same number of tab-terminated
   * fields: the time code plus one per column.
   */
  lemma HeaderMatchesLine(columns: seq<Column>, crestFactor: real, readings: Readings, time: real, render: Render)
    requires time >= 0.0 && RendersTabFree(render)
    ensures Tabs(CsvHeader(columns)) == 1 + |columns|
    ensures Tabs(CsvLine(FormatTime(time), columns, crestFactor, readings, render)) == 1 + |columns|
  {
    HeaderTabs(columns);
    var parts := TimeParts(time);
    ClockStart(parts.0, parts.1, parts.2);
    LineTabs(FormatTime(time), columns, crestFactor, readings, render);
  }

  lemma HeaderTabs(columns: seq<Column>)
    ensures Tabs(CsvHeader(columns)) == 1 + |columns|
  {
    TimecodeTabs();
    HeaderFieldsTabs(columns);
    TabsAppend(TimecodeColumn, Concat(columns, HeaderField));
  }

  lemma TimecodeTabs()
    ensures Tabs(TimecodeColumn) == 1
  {
    assert TimecodeColumn == "\"" + "timecode" + "\"\t";
    QuotedTabs("timecode");
  }

  lemma HeaderFieldsTabs(columns: seq<Column>)
    ensures Tabs(Concat(columns, HeaderField)) == |columns|
  {
    forall i | 0 <= i < |columns|
      ensures Tabs(HeaderField(columns[i])) == 1
    {
      HeaderFieldTabs(columns[i]);
    }
    ConcatTabs(columns, HeaderField);
  }

  lemma LineTabs(time: string, columns: seq<Column>, crestFactor: real, readings: Readings, render: Render)
    requires TabFree(time) && RendersTabFree(render)
    ensures Tabs(CsvLine(time, columns, crestFactor, readings, render)) == 1 + |columns|
  {
    var field := LineField(crestFactor, readings, render);
    forall i | 0 <= i < |columns|
      ensures Tabs(field(columns[i])) == 1
    {
      LineFieldTabs(Value(columns[i], crestFactor, readings), render);
    }
    ConcatTabs(columns, field);
    QuotedTabs(time);
    TabsAppend("\"" + time + "\"\t", Concat(columns, field));
  }

  lemma {:induction false} NoColumnsWithoutQuantities(qs: seq<Quantity>, channels: seq<int>)
    requires channels != []
    ensures Columns(qs, channels) == [] <==> qs == []
  {
    if qs != [] {
      NoColumnsWithoutQuantities(qs[..|qs| - 1], channels);
    }
  }

  /** Something is reported exactly when the header has a column besides the time code. */
  lemma ReportsIffColumns(r: Reporters, reportChannel: int, numberOfChannels: nat)
    requires numberOfChannels > 0
    ensures AnyReport(r) <==> Columns(Enabled(r), ReportChannels(reportChannel, numberOfChannels)) != []
  {
    NoColumnsWithoutQuantities(Enabled(r), ReportChannels(reportChannel, numberOfChannels));
    if Enabled(r) != [] {
      EnabledMembers(r, Enabled(r)[0]);
    }
    if AnyReport(r) {
      var q := if r.averageMeterLevel then AverageMeterLevel
        else if r.peakMeterLevel then PeakMeterLevel
        else if r.maximumPeakLevel then MaximumPeakLevel
        else if r.truePeakMeterLevel then TruePeakMeterLevel
        else if r.maximumTruePeakLevel then MaximumTruePeakLevel
        else if r.stereoMeterValue then StereoMeterValue
        else PhaseCorrelation;
      EnabledMembers(r, q);
    }
  }

  /**
   * With every channel reported, the average levels come first, one column
   * per channel named with the channel number counted from 1, and the
   * value under each is that channel's level on the K-System scale.
   */
  lemma AverageColumnsFirst(r: Reporters, numberOfChannels: nat, crestFactor: real, readings: Readings, c: nat)
    requires r.averageMeterLevel && c < numberOfChannels
    ensures var columns := Columns(Enabled(r), ReportChannels(-1, numberOfChannels));
      c < |columns| && Name(columns[c]) == "avg_" + IntToString(c + 1)
      && Value(columns[c], crestFactor, readings) == crestFactor + readings.averageMeterLevel(c)
  {
    var channels := ReportChannels(-1, numberOfChannels);
    AverageColumnsLead(r, NumberOfQuantities, channels);
    assert channels[c] == c;
  }

  /** The average level's columns lead every prefix of the report that contains them. */
  lemma {:induction false} AverageColumnsLead(r: Reporters, n: nat, channels: seq<int>)
    requires r.averageMeterLevel && 1 <= n <= NumberOfQuantities
    ensures var columns := Columns(EnabledUpTo(r, n), channels);
      |channels| <= |columns| && forall i :: 0 <= i < |channels| ==> columns[i] == Column(AverageMeterLevel, channels[i])
  {
    if n == 1 {
      assert EnabledUpTo(r, 1) == [AverageMeterLevel];
      assert [AverageMeterLevel][..0] == [];
    } else {
      AverageColumnsLead(r, n - 1, channels);
      ColumnsAppend(EnabledUpTo(r, n - 1), Only(IsEnabled(r, OfRank(n - 1)), OfRank(n - 1)), channels);
    }
  }

  /** The audio file as the player sees it: its length and its sample rate. */
  datatype AudioFile = AudioFile(totalLength: nat, sampleRate: real)

  /** Seconds of silence the player appends after the file. */
  const PauseAfterPlayback: nat := 20

  class AudioFilePlayer {
    const numberOfChannels: nat
    /** Whether the audio file could be opened. */
    const fileOpened: bool
    const numberOfSamples: int
    const fileSampleRate: real
    const sampleRatesMatch: bool
    var playing: bool
    var headerIsWritten: bool
    var crestFactor: int
    var meterMinimumDecibel: real
    var crestFactorName: string
    var reportChannel: int
    var reports: bool
    var reportCsv: bool
    var reporters: Reporters
    /** Everything the CSV report has written to the logger, oldest first. */
    ghost var csvLog: seq<string>

    /**
     * bReports is only set together with a reported quantity, and the log
     * holds the header first and only there, once it is written.
     */
    ghost predicate Valid()
      reads this
    {
      (fileOpened ==> fileSampleRate > 0.0)
      && (reports ==> AnyReport(reporters))
      && (headerIsWritten <==> csvLog != [])
      && HeaderFirst(csvLog)
    }

    /** The player: nothing reported, the header still to come; it plays only if the file was opened. */
    constructor (file: Option<AudioFile>, sampleRate: int, channels: nat, crest: int)
      requires file.Some? ==> file.value.sampleRate > 0.0
      ensures Valid() && numberOfChannels == channels && fileOpened == file.Some?
      ensures crestFactor == crest && crestFactorName == CrestFactorName(crest)
      ensures meterMinimumDecibel == MB.MeterMinimumDecibel + crest as real
      ensures reportChannel == -1 && !reports && !reportCsv && !AnyReport(reporters) && !headerIsWritten && csvLog == []
      ensures playing == file.Some?
      ensures file.Some? ==> numberOfSamples == file.value.totalLength + PauseAfterPlayback * sampleRate
      ensures file.Some? ==> fileSampleRate == file.value.sampleRate
      ensures sampleRatesMatch <==> file.None? || file.value.sampleRate == sampleRate as real
    {
      numberOfChannels := channels;
      reportChannel := -1;
      reports := false;
      reportCsv := false;
      reporters := Reporters(false, false, false, false, false, false, false);
      headerIsWritten := false;
      csvLog := [];
      fileOpened := file.Some?;
      if file.Some? {
        playing := true;
        numberOfSamples := file.value.totalLength + PauseAfterPlayback * sampleRate;
        fileSampleRate := file.value.sampleRate;
        sampleRatesMatch := file.value.sampleRate == sampleRate as real;
      } else {
        playing := false;
        numberOfSamples := 0;
        fileSampleRate := 0.0;
        sampleRatesMatch := true;
      }
      new;
      SetCrestFactor(crest);
    }

    /** setCrestFactor: the K-System scale's name and the floor of the scale. */
    method SetCrestFactor(crest: int)
      modifies this
      ensures crestFactor == crest && crestFactorName == CrestFactorName(crest)
      ensures meterMinimumDecibel == MB.MeterMinimumDecibel + crest as real
      ensures playing == old(playing) && headerIsWritten == old(headerIsWritten) && reportChannel == old(reportChannel)
      ensures reports == old(reports) && reportCsv == old(reportCsv) && reporters == old(reporters) && csvLog == old(csvLog)
    {
      crestFactor := crest;
      meterMinimumDecibel := MB.MeterMinimumDecibel + crest as real;
      if crest == 20 {
        crestFactorName := "K-20";
      } else if crest == 14 {
        crestFactorName := "K-14";
      } else if crest == 12 {
        crestFactorName := "K-12";
      } else {
        crestFactorName := "NORM";
      }
    }

    /** setReporters: the flags are taken as given, and bReports is whether any quantity is reported. */
    method SetReporters(channel: int, csv: bool, selected: Reporters)
      requires Valid()
      modifies this
      ensures Valid()
      ensures reportChannel == channel && reportCsv == csv && reporters == selected
      ensures reports == AnyReport(selected)
      ensures playing == old(playing) && headerIsWritten == old(headerIsWritten) && csvLog == old(csvLog)
      ensures crestFactor == old(crestFactor) && crestFactorName == old(crestFactorName)
      ensures meterMinimumDecibel == old(meterMinimumDecibel)
    {
      reportCsv := csv;
      reportChannel := channel;
      reporters := selected;
      reports := selected.averageMeterLevel || selected.peakMeterLevel || selected.maximumPeakLevel
        || selected.truePeakMeterLevel || selected.maximumTruePeakLevel || selected.stereoMeterValue
        || selected.phaseCorrelation;
    }

    /**
     * isPlaying: true while the read position is before the end; the first
     * call at or after the end stops playback and reporting for good.
     */
    method IsPlaying(readPosition: int) returns (isPlaying: bool)
      requires Valid()
      modifies this`playing, this`reports
      ensures Valid()
      ensures isPlaying <==> old(playing) && readPosition < numberOfSamples
      ensures playing == isPlaying
      ensures old(playing) ==> reports == (old(reports) && isPlaying)
      ensures !old(playing) ==> reports == old(reports)
    {
      if playing {
        if readPosition < numberOfSamples {
          return true;
        } else {
          playing := false;
          reports := false;
          return false;
        }
      } else {
        return false;
      }
    }

    function Channels(): seq<int>
      reads this`reportChannel
    {
      ReportChannels(reportChannel, numberOfChannels)
    }

    /**
     * The fields of one per-channel quantity, channel by channel: every
     * channel for a negative report channel, else the report channel.
     */
    method AppendFields(output: string, q: Quantity, field: Column -> string) returns (result: string)
      requires PerChannel(q)
      ensures result == output + Concat(QuantityColumns(q, Channels()), field)
    {
      var columns := QuantityColumns(q, Channels());
      if reportChannel < 0 {
        result := output;
        var channel := 0;
        while channel < numberOfChannels
          invariant channel <= numberOfChannels
          invariant result == output + Concat(columns[..channel], field)
        {
          ConcatPrefixStep(columns, channel, field);
          result := result + field(Column(q, channel));
          channel := channel + 1;
        }
        assert columns[..channel] == columns;
      } else {
        ConcatSingle(columns[0], field);
        result := output + field(Column(q, reportChannel));
      }
    }

    /**
     * The k-th of the flag-driven blocks: the fields of the quantity with
     * column rank k if its flag is set; `base` is where the report started.
     */
    method AppendSection(ghost base: string, output: string, k: nat, field: Column -> string) returns (result: string)
      requires k < NumberOfQuantities && output == base + SectionsUpTo(reporters, k, Channels(), field)
      ensures result == base + SectionsUpTo(reporters, k + 1, Channels(), field)
    {
      var q := OfRank(k);
      if !IsEnabled(reporters, q) {
        result := output;
      } else if PerChannel(q) {
        result := AppendFields(output, q, field);
      } else {
        SingleSection(q, Channels(), field);
        result := output + field(Column(q, 0));
      }
      Regroup(base, SectionsUpTo(reporters, k, Channels(), field), Section(IsEnabled(reporters, q), q, Channels(), field));
    }

    /**
     * The blocks shared by the CSV header and the CSV line: for each
     * quantity in column order, its fields if it is reported.
     */
    method AppendReported(output: string, field: Column -> string) returns (result: string)
      ensures result == output + Concat(Columns(Enabled(reporters), Channels()), field)
    {
      assert output == output + SectionsUpTo(reporters, 0, Channels(), field);
      result := AppendSection(output, output, 0, field);
      result := AppendSection(output, result, 1, field);
      result := AppendSection(output, result, 2, field);
      result := AppendSection(output, result, 3, field);
      result := AppendSection(output, result, 4, field);
      result := AppendSection(output, result, 5, field);
      result := AppendSection(output, result, 6, field);
      EnabledSections(reporters, NumberOfQuantities, Channels(), field);
    }

    /** outputReportCSVHeader: the time code column and one column per reported quantity and channel. */
    method ReportCsvHeader() returns (output: string)
      requires Valid() && !headerIsWritten
      modifies this`headerIsWritten, this`csvLog
      ensures Valid()
      ensures output == CsvHeader(Columns(Enabled(reporters), Channels()))
      ensures headerIsWritten && csvLog == old(csvLog) + [output]
    {
      headerIsWritten := true;
      output := AppendReported(TimecodeColumn, HeaderField);
      HeaderIsHeader(Columns(Enabled(reporters), Channels()));
      assert HeaderFirst([] + [output]);
      csvLog := csvLog + [output];
    }

    /**
     * outputReportCSVLine: the header first if it is still to be written,
     * then the time code and the values.  The time code is the corrected
     * FormatTime.
     */
    method ReportCsvLine(readPosition: nat, readings: Readings, render: Render) returns (line: string)
      requires Valid() && fileOpened
      modifies this`headerIsWritten, this`csvLog
      ensures Valid() && headerIsWritten
      ensures line == CsvLine(FormatTime(ElapsedTime(readPosition, fileSampleRate)),
                              Columns(Enabled(reporters), Channels()), crestFactor as real, readings, render)
      ensures csvLog == old(csvLog) + ReportLines(CsvHeader(Columns(Enabled(reporters), Channels())),
        CsvLine(FormatTime(ElapsedTime(readPosition, fileSampleRate)), Columns(Enabled(reporters), Channels()), crestFactor as real, readings, render), old(headerIsWritten))
    {
      ghost var log, header := csvLog, CsvHeader(Columns(Enabled(reporters), Channels()));
      ReportCsvHeaderOnce();
      line := ReportDataLine(readPosition, readings, render);
      ReportLinesAppend(log, header, line, old(headerIsWritten));
    }

    /** The header, unless it has been written already. */
    method ReportCsvHeaderOnce()
      requires Valid()
      modifies this`headerIsWritten, this`csvLog
      ensures Valid() && headerIsWritten
      ensures csvLog == old(csvLog) + (if old(headerIsWritten) then [] else [CsvHeader(Columns(Enabled(reporters), Channels()))])
    {
      if !headerIsWritten {
        var header := ReportCsvHeader();
      }
    }

    /** The data line, written once the header is out. */
    method ReportDataLine(readPosition: nat, readings: Readings, render: Render) returns (line: string)
      requires Valid() && fileOpened && headerIsWritten
      modifies this`csvLog
      ensures Valid()
      ensures line == CsvLine(FormatTime(ElapsedTime(readPosition, fileSampleRate)),
                              Columns(Enabled(reporters), Channels()), crestFactor as real, readings, render)
      ensures csvLog == old(csvLog) + [line]
    {
      line := FormatDataLine(readPosition, readings, render);
      LogLine(line, ElapsedTime(readPosition, fileSampleRate), Columns(Enabled(reporters), Channels()),
              crestFactor as real, readings, render);
    }

    /** What the logger has been given: one line more, a data line. */
    ghost method LogLine(line: string, time: real, columns: seq<Column>, crest: real, readings: Readings, render: Render)
      requires Valid() && headerIsWritten && time >= 0.0
      requires line == CsvLine(FormatTime(time), columns, crest, readings, render)
      modifies this`csvLog
      ensures Valid() && csvLog == old(csvLog) + [line]
    {
      LogDataLine(csvLog, line, time, columns, crest, readings, render);
      csvLog := csvLog + [line];
    }

    /** The data line of outputReportCSVLine: the quoted time code, then the reported values. */
    method FormatDataLine(readPosition: nat, readings: Readings, render: Render) returns (line: string)
      requires fileOpened && Valid()
      ensures line == CsvLine(FormatTime(ElapsedTime(readPosition, fileSampleRate)),
                              Columns(Enabled(reporters), Channels()), crestFactor as real, readings, render)
    {
      ghost var columns := Columns(Enabled(reporters), Channels());
      ghost var field := LineField(crestFactor as real, readings, render);
      var values := AppendReported("", LineField(crestFactor as real, readings, render));
      assert values == Concat(columns, field) by {
        assert "" + Concat(columns, field) == Concat(columns, field);
      }
      var time := ElapsedTime(readPosition, fileSampleRate);
      line := "\"" + FormatTime(time) + "\"\t" + values;
    }

    /** The CSV part of copyTo's reporting: nothing unless CSV reports are on. */
    method ReportReadings(readPosition: nat, readings: Readings, render: Render)
      requires Valid() && (reports && reportCsv ==> fileOpened)
      modifies this`headerIsWritten, this`csvLog
      ensures Valid()
      ensures headerIsWritten == (old(headerIsWritten) || old(reports && reportCsv))
      ensures csvLog == old(csvLog) + old(if reports && reportCsv
        then ReportLines(CsvHeader(Columns(Enabled(reporters), Channels())),
          CsvLine(FormatTime(ElapsedTime(readPosition, fileSampleRate)), Columns(Enabled(reporters), Channels()), crestFactor as real, readings, render), headerIsWritten)
        else [])
    {
      if reports && reportCsv {
        var line := ReportCsvLine(readPosition, readings, render);
      }
    }

    /**
     * copyTo: report the previous readings if anything is reported (the
     * plain-text report is not part of this model), then check whether the
     * file still plays.
     */
    method CopyTo(readPosition: nat, readings: Readings, render: Render) returns (isPlaying: bool)
      requires Valid() && (reports && reportCsv ==> fileOpened)
      modifies this`playing, this`reports, this`headerIsWritten, this`csvLog
      ensures Valid()
      ensures isPlaying <==> old(playing) && readPosition < numberOfSamples
      ensures playing == isPlaying
      ensures old(playing) ==> reports == (old(reports) && isPlaying)
      ensures !old(playing) ==> reports == old(reports)
      ensures headerIsWritten == (old(headerIsWritten) || old(reports && reportCsv))
      ensures csvLog == old(csvLog) + old(if reports && reportCsv
        then ReportLines(CsvHeader(Columns(Enabled(reporters), Channels())),
          CsvLine(FormatTime(ElapsedTime(readPosition, fileSampleRate)), Columns(Enabled(reporters), Channels()), crestFactor as real, readings, render), headerIsWritten)
        else [])
    {
      ReportReadings(readPosition, readings, render);
      isPlaying := IsPlaying(readPosition);
    }
  }
}
