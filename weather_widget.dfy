/** The marine weather widget: the buoy text parser and wave trend, the
    next-tide selector, the surf and wind-chop classifiers, the trend bar
    glyphs, the render gate, and the component state the fetches update. */
module WeatherWidget {
  import opened Js

  /** The NDBC buoy whose realtime spectral-wave file the widget reads. */
  const BuoyStation: string := "44065"
  const WeatherError: string := "Weather data unavailable"
  const TideError: string := "Tide data unavailable"

  /** The token positions the code reads from a buoy row. */
  const WaveHeightColumn: nat := 6
  const WaterTempColumn: nat := 9

  // ---------------------------------------------------------------------------
  // Buoy text
  // ---------------------------------------------------------------------------

  /** A line the parser keeps: not blank and not a '#' comment. */
  predicate IsDataLine(line: string) {
    line != [] && line[0] != '#'
  }

  /** The text split at newlines, without blank and comment lines. */
  function DataLines(text: string): (lines: seq<string>)
    ensures forall i :: 0 <= i < |lines| ==> IsDataLine(lines[i]) && '\n' !in lines[i]
  {
    Filter(Split(text, '\n'), IsDataLine)
  }

  /** The whitespace-separated tokens of a trimmed line: none of them holds
      white space, and a line of fields separated by runs of white space
      yields exactly those fields (TokensOfRow). */
  function Tokens(line: string): (r: seq<string>)
    ensures |r| >= 1
    ensures forall i, k :: 0 <= i < |r| && 0 <= k < |r[i]| ==> !IsSpace(r[i][k])
  {
    Fields(Trim(line))
  }

  /** One bar of the trend chart: the row's hour and wave height tokens. */
  datatype TrendPoint = TrendPoint(hour: Option<string>, wvht: Option<string>)

  /** The guard of the trend loop `for (i = 1; i <= 6 && i < lines.length; i++)`. */
  predicate TrendGuard(i: int, lineCount: nat) {
    i <= 6 && i < lineCount
  }

  /** Where the trend loop stops: the first i from 1 on at which its guard fails. */
  function TrendEnd(lineCount: nat): (k: nat)
    ensures k >= 1
    ensures forall i :: 1 <= i < k ==> TrendGuard(i, lineCount)
    ensures !TrendGuard(k, lineCount)
  {
    if lineCount <= 1 then 1 else if lineCount < 7 then lineCount else 7
  }

  /** The point the trend loop pushes for a row: its hour token 3 and its
      height token. */
  function PointOf(line: string, heightColumn: nat): TrendPoint {
    var row := Tokens(line);
    TrendPoint(At(row, 3), At(row, heightColumn))
  }

  /** The points the trend loop has pushed once it reaches row n: one for
      each of rows 1..n-1, in that order. */
  function CollectedUpTo(lines: seq<string>, heightColumn: nat, n: nat): (r: seq<TrendPoint>)
    requires n <= 1 || n <= |lines|
    ensures |r| == if n <= 1 then 0 else n - 1
    ensures forall j :: 0 <= j < |r| ==> r[j] == PointOf(lines[j + 1], heightColumn)
    decreases n
  {
    if n <= 1 then [] else CollectedUpTo(lines, heightColumn, n - 1) + [PointOf(lines[n - 1], heightColumn)]
  }

  /** The points the trend loop pushes, in the order it pushes them. */
  function Collected(lines: seq<string>, heightColumn: nat): (r: seq<TrendPoint>)
    ensures |r| == TrendEnd(|lines|) - 1
    ensures forall j :: 0 <= j < |r| ==> r[j] == PointOf(lines[j + 1], heightColumn)
  {
    CollectedUpTo(lines, heightColumn, TrendEnd(|lines|))
  }

  /** The trend the widget shows: the pushed points reversed. */
  function Trend(lines: seq<string>, heightColumn: nat): seq<TrendPoint> {
    Reverse(Collected(lines, heightColumn))
  }

  /** The trend has at most 6 points and at most one per row after the first,
      and lists the points of rows k-1 down to 1, each with the hour from
      token 3 and the height from token 6 of its row. */
  lemma TrendShape(lines: seq<string>)
    ensures |Trend(lines, 6)| <= 6
    ensures |lines| >= 1 ==> |Trend(lines, 6)| <= |lines| - 1
    ensures forall j :: 0 <= j < |Trend(lines, 6)| ==>
      Trend(lines, 6)[j] == PointOf(lines[TrendEnd(|lines|) - 1 - j], 6)
  {
    ReversedPoints(Collected(lines, 6), lines, 6, TrendEnd(|lines|));
  }

  /** Reversing the points of rows 1..k-1 lists the points of rows k-1 down to 1. */
  lemma ReversedPoints(c: seq<TrendPoint>, lines: seq<string>, heightColumn: nat, k: nat)
    requires |c| + 1 == k && (|c| == 0 || k <= |lines|)
    requires forall j :: 0 <= j < |c| ==> c[j] == PointOf(lines[j + 1], heightColumn)
    ensures forall j :: 0 <= j < |c| ==> Reverse(c)[j] == PointOf(lines[k - 1 - j], heightColumn)
  {
    forall j | 0 <= j < |c| ensures Reverse(c)[j] == PointOf(lines[k - 1 - j], heightColumn) {
      var i := |c| - 1 - j;
      assert i + 1 == k - 1 - j;
      assert Reverse(c)[j] == c[i];
      assert c[i] == PointOf(lines[i + 1], heightColumn);
    }
  }

  /** The for loop of the wave fetch: push a point for each of rows 1..6 that
      exists, then reverse. */
  method BuildTrend(lines: seq<string>) returns (trend: seq<TrendPoint>)
    ensures trend == Trend(lines, WaveHeightColumn)
  {
    var pushed: seq<TrendPoint> := [];
    var i := 1;
    while i <= 6 && i < |lines|
      invariant 1 <= i <= TrendEnd(|lines|)
      invariant pushed == CollectedUpTo(lines, WaveHeightColumn, i)
    {
      var row := Tokens(lines[i]);
      var hour := At(row, 3);
      var wvht := At(row, WaveHeightColumn);
      assert TrendPoint(hour, wvht) == PointOf(lines[i], WaveHeightColumn);
      pushed := pushed + [TrendPoint(hour, wvht)];
      i := i + 1;
    }
    assert i == TrendEnd(|lines|);
    assert pushed == Collected(lines, WaveHeightColumn);
    trend := Reverse(pushed);
  }

  /** x.toFixed(1) read back as a number: the nearest tenth, ties upward. */
  function RoundTenth(x: real): (r: real)
    ensures x - 0.05 < r <= x + 0.05
    ensures (r * 10.0).Floor as real == r * 10.0
  {
    (x * 10.0 + 0.5).Floor as real / 10.0
  }

  /** parseFloat of a token that may be missing. */
  function NumberOf(token: Option<string>): Option<real> {
    match token
    case None => None
    case Some(s) => ParseFloat(s)
  }

  /** The wave section: the height token in metres, the height in feet
      (metres times 3.281, to one decimal) and the station. */
  datatype WaveReading = WaveReading(heightM: Option<string>, heightFt: Option<real>, station: string)

  /** The water temperature section: the Celsius token and the Fahrenheit
      value (C * 9/5 + 32, to one decimal). */
  datatype WaterTemp = WaterTemp(celsius: string, fahrenheit: Option<real>)

  function FeetOf(heightM: Option<string>): (r: Option<real>)
    ensures r.None? <==> NumberOf(heightM).None?
    ensures r.Some? ==> var ft := NumberOf(heightM).value * 3.281;
                        ft - 0.05 < r.value <= ft + 0.05
  {
    match NumberOf(heightM)
    case None => None
    case Some(m) => Some(RoundTenth(m * 3.281))
  }

  /** The water temperature for a token: none when it is missing or "MM". */
  function WaterTempOf(token: Option<string>): (r: Option<WaterTemp>)
    ensures r.None? <==> token == None || token == Some("MM")
    ensures r.Some? ==> r.value.celsius == token.value
    ensures r.Some? ==> (r.value.fahrenheit.Some? <==> NumberOf(token).Some?)
    ensures r.Some? && NumberOf(token).Some? ==>
      var f := NumberOf(token).value * 9.0 / 5.0 + 32.0;
      f - 0.05 < r.value.fahrenheit.value <= f + 0.05
  {
    if token.Some? && token.value != "MM" then
      var f := match NumberOf(token)
        case None => None
        case Some(c) => Some(RoundTenth(c * 9.0 / 5.0 + 32.0));
      Some(WaterTemp(token.value, f))
    else None
  }

  /** What the wave fetch sets when its text arrives: nothing unless at least
      two data lines remain; otherwise the wave, the water temperature (read
      from the given columns of data line 1) and the trend. */
  datatype BuoyUpdate =
    | NoRows
    | Rows(wave: WaveReading, waterTemp: Option<WaterTemp>, trend: seq<TrendPoint>)

  function ParseBuoyColumns(text: string, heightColumn: nat, tempColumn: nat): BuoyUpdate {
    var lines := DataLines(text);
    if |lines| > 1 then
      var latest := Tokens(lines[1]);
      var waveHeight := At(latest, heightColumn);
      Rows(WaveReading(waveHeight, FeetOf(waveHeight), BuoyStation),
           WaterTempOf(At(latest, tempColumn)),
           Trend(lines, heightColumn))
    else NoRows
  }

  /** The buoy parser as the code has it. Nothing is set unless two data
      lines remain; then the wave height is token 6 of data line 1, its feet
      value is FeetOf that token, the station is 44065, the water temperature
      is WaterTempOf token 9 (absent exactly when it is missing or "MM"), and
      the trend is the reversed rows, at most six. */
  function ParseBuoy(text: string): (r: BuoyUpdate)
    ensures r.Rows? <==> |DataLines(text)| > 1
    ensures r.Rows? ==>
      var latest := Tokens(DataLines(text)[1]);
      && r.wave.heightM == At(latest, 6)
      && r.wave.heightFt == FeetOf(r.wave.heightM)
      && r.wave.station == "44065"
      && r.waterTemp == WaterTempOf(At(latest, 9))
      && r.trend == Trend(DataLines(text), 6)
      && |r.trend| <= 6
  {
    ParseBuoyColumns(text, WaveHeightColumn, WaterTempColumn)
  }

  /** For a feed made of newline-separated rows, the data lines are exactly
      the rows that are neither blank nor comments, in order. */
  lemma DataLinesOfRows(rows: seq<string>)
    requires |rows| >= 1
    requires forall i :: 0 <= i < |rows| ==> '\n' !in rows[i]
    ensures DataLines(Join(rows, '\n')) == Filter(rows, IsDataLine)
  {
    SplitJoin(rows, '\n');
  }

  /** A line made of fields separated by runs of white space, with white
      space allowed before the first field and after the last. */
  predicate IsRowOf(line: string, lead: string, fields: seq<string>, gaps: seq<string>, trail: string) {
    && |fields| == |gaps| + 1
    && (forall i :: 0 <= i < |fields| ==> IsWord(fields[i]))
    && (forall i :: 0 <= i < |gaps| ==> IsRun(gaps[i]))
    && AllSpace(lead) && AllSpace(trail)
    && line == lead + Separated(fields, gaps) + trail
  }

  /** Such a line tokenizes into exactly its fields. */
  lemma TokensOfRow(line: string, lead: string, fields: seq<string>, gaps: seq<string>, trail: string)
    requires IsRowOf(line, lead, fields, gaps, trail)
    ensures Tokens(line) == fields
  {
    FieldsSeparated(fields, gaps);
    SeparatedEnds(fields, gaps);
    TrimPadded(lead, Separated(fields, gaps), trail);
  }

  /** On a data row written that way, the buoy parser reads the height and
      temperature from the given field positions. */
  lemma ParseBuoyColumnsOfRow(text: string, lead: string, fields: seq<string>, gaps: seq<string>, trail: string,
                              heightColumn: nat, tempColumn: nat)
    requires |DataLines(text)| > 1 && IsRowOf(DataLines(text)[1], lead, fields, gaps, trail)
    ensures ParseBuoyColumns(text, heightColumn, tempColumn).Rows?
    ensures ParseBuoyColumns(text, heightColumn, tempColumn).wave.heightM == At(fields, heightColumn)
    ensures ParseBuoyColumns(text, heightColumn, tempColumn).waterTemp == WaterTempOf(At(fields, tempColumn))
  {
    TokensOfRow(DataLines(text)[1], lead, fields, gaps, trail);
  }

  // ---------------------------------------------------------------------------
  // Finding: the buoy columns
  // ---------------------------------------------------------------------------

  /** The row layout the code's own comment gives: YY MM DD hh mm WVHT SwH SwP WTP. */
  const WvhtField: nat := 5
  const WtpField: nat := 8

  /** The buoy parser reading the columns that layout names: as ParseBuoy,
      with token 5 for the height and token 8 for the temperature. */
  function ParseBuoyIntended(text: string): (r: BuoyUpdate)
    ensures r.Rows? <==> |DataLines(text)| > 1
    ensures r.Rows? ==>
      var latest := Tokens(DataLines(text)[1]);
      && r.wave.heightM == At(latest, 5)
      && r.wave.heightFt == FeetOf(r.wave.heightM)
      && r.wave.station == "44065"
      && r.waterTemp == WaterTempOf(At(latest, 8))
      && r.trend == Trend(DataLines(text), 5)
      && |r.trend| <= 6
  {
    ParseBuoyColumns(text, WvhtField, WtpField)
  }

  /** With that layout the intended parser reports WVHT as the wave height and
      WTP as the water temperature. */
  lemma IntendedColumnsReadWvhtAndWtp(text: string, lead: string, fields: seq<string>, gaps: seq<string>,
                                       trail: string)
    requires |DataLines(text)| > 1 && IsRowOf(DataLines(text)[1], lead, fields, gaps, trail)
    requires |fields| > WtpField && fields[WtpField] != "MM"
    ensures ParseBuoyIntended(text).Rows?
    ensures ParseBuoyIntended(text).wave.heightM == Some(fields[WvhtField])
    ensures ParseBuoyIntended(text).waterTemp.Some?
    ensures ParseBuoyIntended(text).waterTemp.value.celsius == fields[WtpField]
    ensures ParseBuoyIntended(text).trend == Trend(DataLines(text), WvhtField)
  {
    ParseBuoyColumnsOfRow(text, lead, fields, gaps, trail, WvhtField, WtpField);
  }

  /** The parser as written reports SwH, the field after WVHT, as the wave
      height, and finds no water temperature in a nine-field row; a row
      "24 06 15 12 00 1.2 0.8 8.0 19.5" reads as 0.8 m where WVHT is 1.2 m. */
  lemma AsWrittenColumnsMissWvhtAndWtp(text: string, lead: string, fields: seq<string>, gaps: seq<string>,
                                        trail: string)
    requires |DataLines(text)| > 1 && IsRowOf(DataLines(text)[1], lead, fields, gaps, trail)
    requires |fields| == 9
    ensures ParseBuoy(text).Rows?
    ensures ParseBuoy(text).wave.heightM == Some(fields[WvhtField + 1])
    ensures fields[WvhtField] != fields[WvhtField + 1] ==>
      ParseBuoy(text).wave.heightM != ParseBuoyIntended(text).wave.heightM
    ensures ParseBuoy(text).waterTemp.None?
  {
    ParseBuoyColumnsOfRow(text, lead, fields, gaps, trail, WaveHeightColumn, WaterTempColumn);
    ParseBuoyColumnsOfRow(text, lead, fields, gaps, trail, WvhtField, WtpField);
  }

  // ---------------------------------------------------------------------------
  // Next tide
  // ---------------------------------------------------------------------------

  /** A high/low prediction: its local timestamp "YYYY-MM-DD HH:MM" and its type. */
  datatype Prediction = Prediction(t: string, kind: string)

  /** The key the code compares with the clock: parseInt of characters 8..11
      of the timestamp with every ':' removed. Read from at most four
      characters, it lies between -999 and 9999; on a well-formed timestamp
      it is the day of the month (TideKeyIsDayOfMonth). */
  function TideKey(t: string): (r: Option<int>)
    ensures r.Some? ==> -999 <= r.value <= 9999
  {
    var digits := Slice(RemoveChar(t, ':'), 8, 12);
    ParseIntShort(digits);
    ParseInt(digits)
  }

  predicate KeyAfter(key: Option<int>, now: int) {
    key.Some? && key.value > now
  }

  /** find(pred => key(pred.t) > now) || predictions[0]. */
  function NextTideBy(preds: seq<Prediction>, key: string -> Option<int>, now: int): (r: Option<Prediction>)
    ensures r.None? <==> preds == []
    ensures (exists i :: 0 <= i < |preds| && KeyAfter(key(preds[i].t), now)) ==>
      exists i :: 0 <= i < |preds| && r == Some(preds[i]) && KeyAfter(key(preds[i].t), now)
                  && forall j :: 0 <= j < i ==> !KeyAfter(key(preds[j].t), now)
    ensures (forall i :: 0 <= i < |preds| ==> !KeyAfter(key(preds[i].t), now)) && preds != [] ==>
      r == Some(preds[0])
  {
    match Find(preds, (p: Prediction) => KeyAfter(key(p.t), now))
    case Some(p) => Some(p)
    case None => if preds == [] then None else Some(preds[0])
  }

  /** The clock as the code reads it: hours * 100 + minutes. */
  function NowTime(hours: int, minutes: int): int {
    hours * 100 + minutes
  }

  /** The next tide as the code selects it, at the clock reading nowTime:
      the first prediction whose key is past nowTime, every earlier one
      having a key at or before it; with none past it the first prediction;
      nothing only for an empty list. */
  function NextTide(preds: seq<Prediction>, nowTime: int): (r: Option<Prediction>)
    ensures r.None? <==> preds == []
    ensures (exists i :: 0 <= i < |preds| && KeyAfter(TideKey(preds[i].t), nowTime)) ==>
      exists i :: 0 <= i < |preds| && r == Some(preds[i]) && KeyAfter(TideKey(preds[i].t), nowTime)
                  && forall j :: 0 <= j < i ==> !KeyAfter(TideKey(preds[j].t), nowTime)
    ensures (forall i :: 0 <= i < |preds| ==> !KeyAfter(TideKey(preds[i].t), nowTime)) && preds != [] ==>
      r == Some(preds[0])
  {
    NextTideBy(preds, TideKey, nowTime)
  }

  // ---------------------------------------------------------------------------
  // Finding: the tide key is the day of the month
  // ---------------------------------------------------------------------------

  predicate IsDate(date: string) {
    |date| == 10 && AllDigits(date[..4]) && date[4] == '-'
    && AllDigits(date[5..7]) && date[7] == '-' && AllDigits(date[8..])
  }

  predicate IsTwoDigits(s: string) {
    |s| == 2 && AllDigits(s)
  }

  /** The timestamp format of the tide predictions: "YYYY-MM-DD HH:MM". */
  function Timestamp(date: string, hh: string, mm: string): string {
    date + " " + hh + ":" + mm
  }

  /** Removing ':' from a timestamp leaves "YYYY-MM-DD HHMM". */
  lemma StripColons(date: string, hh: string, mm: string)
    requires IsDate(date) && IsTwoDigits(hh) && IsTwoDigits(mm)
    ensures RemoveChar(Timestamp(date, hh, mm), ':') == date + " " + hh + mm
  {
    assert ':' !in date by {
      forall i | 0 <= i < |date| ensures date[i] != ':' {
        if i < 4 { assert date[..4][i] == date[i]; }
        else if 5 <= i < 7 { assert date[5..7][i - 5] == date[i]; }
        else if 8 <= i { assert date[8..][i - 8] == date[i]; }
      }
    }
    assert ':' !in hh && ':' !in mm && ':' !in " ";
    RemoveCharAppend(date + " " + hh, ":" + mm, ':');
    RemoveCharAppend(date + " ", hh, ':');
    RemoveCharAppend(date, " ", ':');
    RemoveCharAppend(":", mm, ':');
    assert RemoveChar(":", ':') == [];
    AppendAssoc(date + " " + hh, ":", mm);
  }

  /** As written, the key of a "YYYY-MM-DD HH:MM" timestamp is its day of the month. */
  lemma TideKeyIsDayOfMonth(date: string, hh: string, mm: string)
    requires IsDate(date) && IsTwoDigits(hh) && IsTwoDigits(mm)
    ensures TideKey(Timestamp(date, hh, mm)) == Some(DigitsValue(date[8..], 10))
    ensures TideKey(Timestamp(date, hh, mm)).value <= 99
  {
    StripColons(date, hh, mm);
    DaySlice(date, hh, mm);
    ParseIntDecimal(date[8..], " " + hh[..1]);
    TwoDigitsAtMost99(date[8..]);
  }

  /** Characters 8..11 of "YYYY-MM-DD HHMM" are "DD H". */
  lemma DaySlice(date: string, hh: string, mm: string)
    requires |date| == 10 && |hh| == 2 && |mm| == 2
    ensures Slice(date + " " + hh + mm, 8, 12) == date[8..] + (" " + hh[..1])
  {
    var u := date + " " + hh + mm;
    assert u[8..12] == date[8..] + (" " + hh[..1]);
  }

  lemma TwoDigitsAtMost99(s: string)
    requires IsTwoDigits(s)
    ensures DigitsValue(s, 10) == 10 * DigitValue(s[0]) + DigitValue(s[1]) <= 99
  {
    assert s[..1][..0] == [];
    assert DigitsValue(s[..1], 10) == DigitValue(s[0]);
    assert DigitsValue(s, 10) == DigitsValue(s[..1], 10) * 10 + DigitValue(s[1]);
  }

  /** As written, from 01:00 on (a clock reading of 99 or more) no well-formed
      prediction has a key past the clock, so the first prediction is chosen. */
  lemma AsWrittenPicksFirst(preds: seq<Prediction>, now: int)
    requires preds != []
    requires forall i :: 0 <= i < |preds| ==> exists date, hh, mm ::
      IsDate(date) && IsTwoDigits(hh) && IsTwoDigits(mm) && preds[i].t == Timestamp(date, hh, mm)
    requires now >= 99
    ensures NextTide(preds, now) == Some(preds[0])
  {
    forall i | 0 <= i < |preds|
      ensures !KeyAfter(TideKey(preds[i].t), now)
    {
      var date, hh, mm :| IsDate(date) && IsTwoDigits(hh) && IsTwoDigits(mm)
                          && preds[i].t == Timestamp(date, hh, mm);
      TideKeyIsDayOfMonth(date, hh, mm);
    }
  }

  /** The evidently intended key: the clock time HHMM, characters 11..14 once
      ':' is removed. It too lies between -999 and 9999; on a well-formed
      timestamp it is HH*100 + MM (ClockKeyIsClockTime). */
  function ClockKey(t: string): (r: Option<int>)
    ensures r.Some? ==> -999 <= r.value <= 9999
  {
    var digits := Slice(RemoveChar(t, ':'), 11, 15);
    ParseIntShort(digits);
    ParseInt(digits)
  }

  /** Appending digits to a numeral shifts it left by their count. */
  lemma {:induction false} DigitsValueAppend(a: string, b: string)
    ensures DigitsValue(a + b, 10) == DigitsValue(a, 10) * Pow10(|b|) + DigitsValue(b, 10)
  {
    if b == [] {
      assert a + b == a;
    } else {
      var b' := b[..|b| - 1];
      var d := DigitValue(b[|b| - 1]);
      DigitsValueLast(a, b);
      DigitsValueAppend(a, b');
      assert DigitsValue(b, 10) == DigitsValue(b', 10) * 10 + d;
      assert Pow10(|b|) == Pow10(|b'|) * 10;
      ShiftDigit(DigitsValue(a, 10), DigitsValue(b', 10), Pow10(|b'|), d);
    }
  }

  lemma ShiftDigit(x: int, y: int, p: int, d: int)
    ensures (x * p + y) * 10 + d == x * (p * 10) + (y * 10 + d)
  {
  }

  lemma DigitsValueLast(a: string, b: string)
    requires b != []
    ensures DigitsValue(a + b, 10) == DigitsValue(a + b[..|b| - 1], 10) * 10 + DigitValue(b[|b| - 1])
  {
    assert (a + b)[..|a + b| - 1] == a + b[..|b| - 1];
    assert (a + b)[|a + b| - 1] == b[|b| - 1];
  }

  /** parseInt of a bare decimal numeral is its value. */
  lemma ParseIntDigits(ds: string)
    requires ds != [] && AllDigits(ds)
    ensures ParseInt(ds) == Some(DigitsValue(ds, 10))
  {
    assert ds + [] == ds;
    ParseIntDecimal(ds, []);
  }

  /** Characters 11..14 of "YYYY-MM-DD HHMM" are HHMM. */
  lemma ClockSlice(date: string, hh: string, mm: string)
    requires |date| == 10 && |hh| == 2 && |mm| == 2
    ensures Slice(date + " " + hh + mm, 11, 15) == hh + mm
  {
    var u := date + " " + hh + mm;
    assert u[11..15] == hh + mm;
  }

  lemma TwoPlusTwoDigits(hh: string, mm: string)
    requires IsTwoDigits(hh) && IsTwoDigits(mm)
    ensures AllDigits(hh + mm)
  {
    var clock := hh + mm;
    forall i | 0 <= i < 4 ensures IsDigit(clock[i]) {
      if i < 2 { assert clock[i] == hh[i]; } else { assert clock[i] == mm[i - 2]; }
    }
  }

  /** The intended key of a "YYYY-MM-DD HH:MM" timestamp is HH*100 + MM. */
  lemma ClockKeyIsClockTime(date: string, hh: string, mm: string)
    requires IsDate(date) && IsTwoDigits(hh) && IsTwoDigits(mm)
    ensures ClockKey(Timestamp(date, hh, mm)) == Some(DigitsValue(hh, 10) * 100 + DigitsValue(mm, 10))
  {
    var t := Timestamp(date, hh, mm);
    var u := date + " " + hh + mm;
    StripColons(date, hh, mm);
    ClockSlice(date, hh, mm);
    ParseClock(hh, mm);
    assert RemoveChar(t, ':') == u;
    assert Slice(u, 11, 15) == hh + mm;
    assert ClockKey(t) == ParseInt(hh + mm);
  }

  /** parseInt of "HHMM" is HH*100 + MM. */
  lemma ParseClock(hh: string, mm: string)
    requires IsTwoDigits(hh) && IsTwoDigits(mm)
    ensures ParseInt(hh + mm) == Some(DigitsValue(hh, 10) * 100 + DigitsValue(mm, 10))
  {
    var clock := hh + mm;
    TwoPlusTwoDigits(hh, mm);
    ParseIntDigits(clock);
    FourDigitClock(hh, mm);
    var v := DigitsValue(clock, 10);
    assert v == DigitsValue(hh, 10) * 100 + DigitsValue(mm, 10);
    assert ParseInt(clock) == Some(v);
  }

  /** The value of HHMM is HH*100 + MM. */
  lemma FourDigitClock(hh: string, mm: string)
    requires |mm| == 2
    ensures DigitsValue(hh + mm, 10) == DigitsValue(hh, 10) * 100 + DigitsValue(mm, 10)
  {
    DigitsValueAppend(hh, mm);
    assert Pow10(|mm|) == 100;
  }

  /** The next tide selected by clock time: the first prediction whose
      clock key is past nowTime, or the first prediction when there is none. */
  function NextTideIntended(preds: seq<Prediction>, nowTime: int): (r: Option<Prediction>)
    ensures r.None? <==> preds == []
    ensures (exists i :: 0 <= i < |preds| && KeyAfter(ClockKey(preds[i].t), nowTime)) ==>
      exists i :: 0 <= i < |preds| && r == Some(preds[i]) && KeyAfter(ClockKey(preds[i].t), nowTime)
                  && forall j :: 0 <= j < i ==> !KeyAfter(ClockKey(preds[j].t), nowTime)
    ensures (forall i :: 0 <= i < |preds| ==> !KeyAfter(ClockKey(preds[i].t), nowTime)) && preds != [] ==>
      r == Some(preds[0])
  {
    NextTideBy(preds, ClockKey, nowTime)
  }

  /** A prediction past now, with none before it, is the one selected. */
  lemma NextTideByFirst(preds: seq<Prediction>, key: string -> Option<int>, now: int, i: nat)
    requires i < |preds| && KeyAfter(key(preds[i].t), now)
    requires forall j :: 0 <= j < i ==> !KeyAfter(key(preds[j].t), now)
    ensures NextTideBy(preds, key, now) == Some(preds[i])
  {
    var r := NextTideBy(preds, key, now);
    var k :| 0 <= k < |preds| && r == Some(preds[k]) && KeyAfter(key(preds[k].t), now)
             && forall j :: 0 <= j < k ==> !KeyAfter(key(preds[j].t), now);
    assert !(k < i) && !(i < k);
  }

  /** With clock keys HH*100+MM, the intended selector picks the first
      prediction whose clock time is after nowTime. */
  lemma NextTideIntendedByClock(preds: seq<Prediction>, clocks: seq<int>, now: int, i: nat)
    requires |clocks| == |preds|
    requires forall j :: 0 <= j < |preds| ==> ClockKey(preds[j].t) == Some(clocks[j])
    requires i < |preds| && clocks[i] > now
    requires forall j :: 0 <= j < i ==> clocks[j] <= now
    ensures NextTideIntended(preds, now) == Some(preds[i])
  {
    NextTideByFirst(preds, ClockKey, now, i);
  }

  lemma ClockTimes()
    ensures DigitsValue("06", 10) * 100 + DigitsValue("00", 10) == 600
    ensures DigitsValue("12", 10) * 100 + DigitsValue("30", 10) == 1230
    ensures DigitsValue("18", 10) * 100 + DigitsValue("45", 10) == 1845
  {
    TwoDigitsAtMost99("06");
    TwoDigitsAtMost99("00");
    TwoDigitsAtMost99("12");
    TwoDigitsAtMost99("30");
    TwoDigitsAtMost99("18");
    TwoDigitsAtMost99("45");
  }

  /** The example of a day with tides at 06:00 (H), 12:30 (L) and 18:45 (H)
      looked up at 14:00: the code selects the 06:00 tide, the intended key
      selects the 18:45 one. */
  lemma TideAtTwoPm(date: string)
    requires IsDate(date)
    ensures var preds := [Prediction(Timestamp(date, "06", "00"), "H"),
                          Prediction(Timestamp(date, "12", "30"), "L"),
                          Prediction(Timestamp(date, "18", "45"), "H")];
      && NextTide(preds, NowTime(14, 0)) == Some(preds[0])
      && NextTideIntended(preds, NowTime(14, 0)) == Some(preds[2])
  {
    TwoDigitSamples();
    ClockTimes();
    ThreeTides(date, "06", "00", "H", "12", "30", "L", "18", "45", "H", 1400);
  }

  /** Three tides of one day, the first two at or before the clock and the
      third after it: the code picks the first, the intended key the third. */
  lemma ThreeTides(date: string, h0: string, m0: string, k0: string, h1: string, m1: string, k1: string,
                   h2: string, m2: string, k2: string, now: int)
    requires IsDate(date) && IsTwoDigits(h0) && IsTwoDigits(m0)
    requires IsTwoDigits(h1) && IsTwoDigits(m1) && IsTwoDigits(h2) && IsTwoDigits(m2)
    requires now >= 99
    requires DigitsValue(h0, 10) * 100 + DigitsValue(m0, 10) <= now
    requires DigitsValue(h1, 10) * 100 + DigitsValue(m1, 10) <= now
    requires DigitsValue(h2, 10) * 100 + DigitsValue(m2, 10) > now
    ensures var preds := [Prediction(Timestamp(date, h0, m0), k0),
                          Prediction(Timestamp(date, h1, m1), k1),
                          Prediction(Timestamp(date, h2, m2), k2)];
      && NextTide(preds, now) == Some(preds[0])
      && NextTideIntended(preds, now) == Some(preds[2])
  {
    ThreeTidesAsWritten(date, h0, m0, k0, h1, m1, k1, h2, m2, k2, now);
    ThreeTidesIntended(date, h0, m0, k0, h1, m1, k1, h2, m2, k2, now);
  }

  /** From 01:00 on the code picks the first of three tides of one day. */
  lemma ThreeTidesAsWritten(date: string, h0: string, m0: string, k0: string, h1: string, m1: string, k1: string,
                            h2: string, m2: string, k2: string, now: int)
    requires IsDate(date) && IsTwoDigits(h0) && IsTwoDigits(m0)
    requires IsTwoDigits(h1) && IsTwoDigits(m1) && IsTwoDigits(h2) && IsTwoDigits(m2)
    requires now >= 99
    ensures var preds := [Prediction(Timestamp(date, h0, m0), k0),
                          Prediction(Timestamp(date, h1, m1), k1),
                          Prediction(Timestamp(date, h2, m2), k2)];
      NextTide(preds, now) == Some(preds[0])
  {
    var t0, t1, t2 := Timestamp(date, h0, m0), Timestamp(date, h1, m1), Timestamp(date, h2, m2);
    TideKeyIsDayOfMonth(date, h0, m0);
    TideKeyIsDayOfMonth(date, h1, m1);
    TideKeyIsDayOfMonth(date, h2, m2);
    assert !KeyAfter(TideKey(t0), now) && !KeyAfter(TideKey(t1), now) && !KeyAfter(TideKey(t2), now);
    NoneAfterOfThree(Prediction(t0, k0), Prediction(t1, k1), Prediction(t2, k2), TideKey, now);
  }

  /** The intended key picks the first of three tides whose clock time is
      after now. */
  lemma ThreeTidesIntended(date: string, h0: string, m0: string, k0: string, h1: string, m1: string, k1: string,
                           h2: string, m2: string, k2: string, now: int)
    requires IsDate(date) && IsTwoDigits(h0) && IsTwoDigits(m0)
    requires IsTwoDigits(h1) && IsTwoDigits(m1) && IsTwoDigits(h2) && IsTwoDigits(m2)
    requires DigitsValue(h0, 10) * 100 + DigitsValue(m0, 10) <= now
    requires DigitsValue(h1, 10) * 100 + DigitsValue(m1, 10) <= now
    requires DigitsValue(h2, 10) * 100 + DigitsValue(m2, 10) > now
    ensures var preds := [Prediction(Timestamp(date, h0, m0), k0),
                          Prediction(Timestamp(date, h1, m1), k1),
                          Prediction(Timestamp(date, h2, m2), k2)];
      NextTideIntended(preds, now) == Some(preds[2])
  {
    var t0, t1, t2 := Timestamp(date, h0, m0), Timestamp(date, h1, m1), Timestamp(date, h2, m2);
    ClockKeyIsClockTime(date, h0, m0);
    ClockKeyIsClockTime(date, h1, m1);
    ClockKeyIsClockTime(date, h2, m2);
    assert !KeyAfter(ClockKey(t0), now) && !KeyAfter(ClockKey(t1), now) && KeyAfter(ClockKey(t2), now);
    ThirdAfterOfThree(Prediction(t0, k0), Prediction(t1, k1), Prediction(t2, k2), ClockKey, now);
  }

  /** With only the third of three predictions past now, it is selected. */
  lemma ThirdAfterOfThree(p0: Prediction, p1: Prediction, p2: Prediction, key: string -> Option<int>, now: int)
    requires !KeyAfter(key(p0.t), now) && !KeyAfter(key(p1.t), now) && KeyAfter(key(p2.t), now)
    ensures NextTideBy([p0, p1, p2], key, now) == Some(p2)
  {
    var preds := [p0, p1, p2];
    assert forall j :: 0 <= j < 2 ==> !KeyAfter(key(preds[j].t), now);
    NextTideByFirst(preds, key, now, 2);
  }

  /** With none of three predictions past now, the first one is selected. */
  lemma NoneAfterOfThree(p0: Prediction, p1: Prediction, p2: Prediction, key: string -> Option<int>, now: int)
    requires !KeyAfter(key(p0.t), now) && !KeyAfter(key(p1.t), now) && !KeyAfter(key(p2.t), now)
    ensures NextTideBy([p0, p1, p2], key, now) == Some(p0)
  {
    var preds := [p0, p1, p2];
    assert forall j :: 0 <= j < |preds| ==> !KeyAfter(key(preds[j].t), now);
  }

  lemma TwoDigitSamples()
    ensures IsTwoDigits("06") && IsTwoDigits("00") && IsTwoDigits("12")
    ensures IsTwoDigits("30") && IsTwoDigits("18") && IsTwoDigits("45")
  {
  }

  // ---------------------------------------------------------------------------
  // Surf summary
  // ---------------------------------------------------------------------------

  datatype SurfBand = NoSurfData | FlatPoor | FunGood | SolidVeryGood | ExpertOnly

  /** The surf band of a wave height in feet (None is NaN): lower bounds
      inclusive at 1, 2.5 and 4. */
  function SurfBandOf(waveFt: Option<real>): (b: SurfBand)
    ensures b == NoSurfData <==> waveFt.None?
    ensures b == FlatPoor <==> waveFt.Some? && waveFt.value < 1.0
    ensures b == FunGood <==> waveFt.Some? && 1.0 <= waveFt.value < 2.5
    ensures b == SolidVeryGood <==> waveFt.Some? && 2.5 <= waveFt.value < 4.0
    ensures b == ExpertOnly <==> waveFt.Some? && 4.0 <= waveFt.value
  {
    if waveFt.None? then NoSurfData
    else if waveFt.value < 1.0 then FlatPoor
    else if waveFt.value < 2.5 then FunGood
    else if waveFt.value < 4.0 then SolidVeryGood
    else ExpertOnly
  }

  function SurfRank(b: SurfBand): nat {
    match b
    case NoSurfData => 0
    case FlatPoor => 1
    case FunGood => 2
    case SolidVeryGood => 3
    case ExpertOnly => 4
  }

  /** A higher wave never gets a milder band. */
  lemma SurfBandMonotone(a: real, b: real)
    requires a <= b
    ensures SurfRank(SurfBandOf(Some(a))) <= SurfRank(SurfBandOf(Some(b)))
  {
  }

  /** The wind text for a wind speed in km/h (None is null): none without a
      value, then the bands below 15, below 25 and from 25 on. */
  function WindText(windKmh: Option<real>): (s: string)
    ensures s == "" <==> windKmh.None?
    ensures s == "Clean conditions" <==> windKmh.Some? && windKmh.value < 15.0
    ensures s == "Some chop" <==> windKmh.Some? && 15.0 <= windKmh.value < 25.0
    ensures s == "Very choppy" <==> windKmh.Some? && 25.0 <= windKmh.value
  {
    if windKmh.None? then ""
    else if windKmh.value < 15.0 then "Clean conditions"
    else if windKmh.value < 25.0 then "Some chop"
    else "Very choppy"
  }

  datatype SurfReport = SurfReport(surfText: string, color: string, advice: string, windText: string)

  /** The SurfSummary component's text, colour and advice for each wave
      band, and its wind text for each chop band; no wind value, no wind text. */
  function SurfSummary(waveFt: Option<real>, windKmh: Option<real>): (r: SurfReport)
    ensures r.surfText == "No surf data" <==> waveFt.None?
    ensures r.surfText == "Flat / Poor" <==> waveFt.Some? && waveFt.value < 1.0
    ensures r.surfText == "Fun / Good" <==> waveFt.Some? && 1.0 <= waveFt.value < 2.5
    ensures r.surfText == "Solid / Very Good" <==> waveFt.Some? && 2.5 <= waveFt.value < 4.0
    ensures r.surfText == "Caution / Expert Only" <==> waveFt.Some? && 4.0 <= waveFt.value
    ensures waveFt.None? ==> r.color == "#888" && r.advice == ""
    ensures waveFt.Some? && waveFt.value < 1.0 ==> r.color == "#bdbdbd" && r.advice == "Not much surf today."
    ensures waveFt.Some? && 1.0 <= waveFt.value < 2.5 ==>
      r.color == "#4caf50" && r.advice == "Great for beginners, SUP, or family fun!"
    ensures waveFt.Some? && 2.5 <= waveFt.value < 4.0 ==>
      r.color == "#2196f3" && r.advice == "Good surf for intermediate/advanced riders."
    ensures waveFt.Some? && 4.0 <= waveFt.value ==>
      r.color == "#e53935" && r.advice == "Big surf—use caution or watch from the beach!"
    ensures r.windText == "" <==> windKmh.None?
    ensures r.windText == "Clean conditions" <==> windKmh.Some? && windKmh.value < 15.0
    ensures r.windText == "Some chop" <==> windKmh.Some? && 15.0 <= windKmh.value < 25.0
    ensures r.windText == "Very choppy" <==> windKmh.Some? && 25.0 <= windKmh.value
  {
    var windText := WindText(windKmh);
    match SurfBandOf(waveFt)
    case NoSurfData => SurfReport("No surf data", "#888", "", windText)
    case FlatPoor => SurfReport("Flat / Poor", "#bdbdbd", "Not much surf today.", windText)
    case FunGood => SurfReport("Fun / Good", "#4caf50", "Great for beginners, SUP, or family fun!", windText)
    case SolidVeryGood =>
      SurfReport("Solid / Very Good", "#2196f3", "Good surf for intermediate/advanced riders.", windText)
    case ExpertOnly =>
      SurfReport("Caution / Expert Only", "#e53935", "Big surf—use caution or watch from the beach!", windText)
  }

  /** wind.speed ? parseFloat(wind.speed) : null: a falsy speed, 0 included, is null. */
  function WindInput(speed: Option<real>): (r: Option<real>)
    ensures r.None? <==> speed.None? || speed.value == 0.0
    ensures r.Some? ==> r == speed
  {
    if speed.None? || speed.value == 0.0 then None else speed
  }

  /** A calm reading of 0 km/h shows no chop text at all. */
  lemma CalmWindHasNoChopText(waveFt: Option<real>)
    ensures SurfSummary(waveFt, WindInput(Some(0.0))).windText == ""
  {
  }

  // ---------------------------------------------------------------------------
  // Trend chart
  // ---------------------------------------------------------------------------

  datatype Bar = Blank | Level1 | Level2 | Level3 | Level4 | Full

  /** The bar for a point's height token: blank for NaN or "MM", then the
      bands below 1, 2, 3, 4 and from 4 on. */
  function BarOf(wvht: Option<string>): (b: Bar)
    ensures b == Blank <==> NumberOf(wvht).None? || wvht == Some("MM")
    ensures b == Level1 <==> wvht != Some("MM") && NumberOf(wvht).Some? && NumberOf(wvht).value < 1.0
    ensures b == Level2 <==> wvht != Some("MM") && NumberOf(wvht).Some? && 1.0 <= NumberOf(wvht).value < 2.0
    ensures b == Level3 <==> wvht != Some("MM") && NumberOf(wvht).Some? && 2.0 <= NumberOf(wvht).value < 3.0
    ensures b == Level4 <==> wvht != Some("MM") && NumberOf(wvht).Some? && 3.0 <= NumberOf(wvht).value < 4.0
    ensures b == Full <==> wvht != Some("MM") && NumberOf(wvht).Some? && 4.0 <= NumberOf(wvht).value
  {
    var h := NumberOf(wvht);
    if h.None? || wvht == Some("MM") then Blank
    else if h.value < 1.0 then Level1
    else if h.value < 2.0 then Level2
    else if h.value < 3.0 then Level3
    else if h.value < 4.0 then Level4
    else Full
  }

  /** "MM" is already NaN to parseFloat, so the explicit "MM" test never
      changes the bar. */
  lemma MissingMarkerIsNotANumber()
    ensures NumberOf(Some("MM")).None?
  {
    ParseFloatNotANumber("MM");
  }

  /** The character the chart draws for a bar. */
  function Glyph(b: Bar): string {
    match b
    case Blank => "▫️"
    case Level1 => "▁"
    case Level2 => "▂"
    case Level3 => "▃"
    case Level4 => "▄"
    case Full => "█"
  }

  /** The glyph the chart draws for a point's height token: "▫️" for NaN or
      "MM", then "▁", "▂", "▃", "▄" for the bands below 1, 2, 3, 4 and "█"
      from 4 on. */
  function BarGlyph(wvht: Option<string>): (g: string)
    ensures g == "▫️" <==> NumberOf(wvht).None? || wvht == Some("MM")
    ensures g == "▁" <==> wvht != Some("MM") && NumberOf(wvht).Some? && NumberOf(wvht).value < 1.0
    ensures g == "▂" <==> wvht != Some("MM") && NumberOf(wvht).Some? && 1.0 <= NumberOf(wvht).value < 2.0
    ensures g == "▃" <==> wvht != Some("MM") && NumberOf(wvht).Some? && 2.0 <= NumberOf(wvht).value < 3.0
    ensures g == "▄" <==> wvht != Some("MM") && NumberOf(wvht).Some? && 3.0 <= NumberOf(wvht).value < 4.0
    ensures g == "█" <==> wvht != Some("MM") && NumberOf(wvht).Some? && 4.0 <= NumberOf(wvht).value
  {
    GlyphInjective(BarOf(wvht));
    Glyph(BarOf(wvht))
  }

  /** Different bars draw different glyphs. */
  lemma GlyphInjective(b: Bar)
    ensures forall c :: Glyph(c) == Glyph(b) ==> c == b
  {
  }

  /** trend.map: one glyph per point, in order. */
  function TrendBars(trend: seq<TrendPoint>): (bars: seq<string>)
    ensures |bars| == |trend|
    ensures forall i :: 0 <= i < |trend| ==> bars[i] == BarGlyph(trend[i].wvht)
  {
    seq(|trend|, i requires 0 <= i < |trend| => BarGlyph(trend[i].wvht))
  }

  // ---------------------------------------------------------------------------
  // Render gate and component state
  // ---------------------------------------------------------------------------

  datatype Gate = ShowLoading | ShowError(message: string) | ShowSections

  /** Loading wins over the error view, which wins over the sections; an
      error shows only when its message is a non-empty string. */
  function RenderGate(loading: bool, error: Option<string>): (g: Gate)
    ensures g == ShowLoading <==> loading
    ensures g.ShowError? <==> !loading && error.Some? && error.value != ""
    ensures g.ShowError? ==> g.message == error.value
    ensures g == ShowSections <==> !loading && (error.None? || error.value == "")
  {
    if loading then ShowLoading
    else if error.Some? && error.value != "" then ShowError(error.value)
    else ShowSections
  }

  /** The current conditions the weather fetch reads. */
  datatype Weather = Weather(tempC: Option<real>, summary: Option<string>, icon: Option<string>)
  datatype Wind = Wind(speedKmh: Option<real>, directionDeg: Option<real>)

  /** The latest observation as the fetch sees it. A part that is None is
      missing from the payload, so reading it throws. */
  datatype Observation = Observation(
    weather: Option<Weather>, wind: Option<Wind>, visibility: Option<Option<real>>)

  /** The surf summary shown when both a wave and a wind reading are set. */
  function SurfPanel(wave: Option<WaveReading>, wind: Option<Wind>): (r: Option<SurfReport>)
    ensures r.Some? <==> wave.Some? && wind.Some?
    ensures r.Some? ==> r.value == SurfSummary(wave.value.heightFt, WindInput(wind.value.speedKmh))
  {
    if wave.Some? && wind.Some? then Some(SurfSummary(wave.value.heightFt, WindInput(wind.value.speedKmh)))
    else None
  }

  datatype Screen =
    | LoadingScreen
    | ErrorScreen(message: string)
    | Panel(weather: Option<Weather>, wind: Option<Wind>, tide: Option<Prediction>,
            wave: Option<WaveReading>, surf: Option<SurfReport>, visibility: Option<real>,
            waterTemp: Option<WaterTemp>, bars: seq<string>)

  /** The widget's component state and the updates its fetches make. */
  class MarineWidget {
    var weather: Option<Weather>
    var wind: Option<Wind>
    var visibility: Option<real>
    var tide: Option<Prediction>
    var wave: Option<WaveReading>
    var waterTemp: Option<WaterTemp>
    var waveTrend: seq<TrendPoint>
    var loading: bool
    var error: Option<string>

    /** What the widget renders in its current state: the loading view while
      loading, then the error view with the error message, and otherwise the
      panel showing the state's weather, wind, tide, wave, visibility and
      water temperature, the surf summary and the trend bars. */
    function View(): (s: Screen)
      reads this
      ensures s == LoadingScreen <==> loading
      ensures s.ErrorScreen? <==> !loading && error.Some? && error.value != ""
      ensures s.ErrorScreen? ==> s.message == error.value
      ensures s.Panel? <==> !loading && (error.None? || error.value == "")
      ensures s.Panel? ==> s.weather == weather && s.wind == wind && s.tide == tide && s.wave == wave
      ensures s.Panel? ==> s.visibility == visibility && s.waterTemp == waterTemp
      ensures s.Panel? ==> s.surf == SurfPanel(wave, wind) && s.bars == TrendBars(waveTrend)
    {
      match RenderGate(loading, error)
      case ShowLoading => LoadingScreen
      case ShowError(m) => ErrorScreen(m)
      case ShowSections =>
        Panel(weather, wind, tide, wave, SurfPanel(wave, wind), visibility, waterTemp,
              TrendBars(waveTrend))
    }

    constructor ()
      ensures weather.None? && wind.None? && visibility.None? && tide.None?
      ensures wave.None? && waterTemp.None? && waveTrend == []
      ensures loading && error.None?
      ensures View() == LoadingScreen
    {
      weather, wind, visibility, tide := None, None, None, None;
      wave, waterTemp, waveTrend := None, None, [];
      loading, error := true, None;
    }

    /** The weather fetch: None is a failed request. It sets the weather, the
      wind and the visibility in turn, and stops with the weather error at
      the first part that is missing. It leaves loading alone. */
    method FetchWeather(obs: Option<Observation>)
      modifies this`weather, this`wind, this`visibility, this`error
      ensures obs.None? ==> error == Some(WeatherError) && weather == old(weather)
                            && wind == old(wind) && visibility == old(visibility)
      ensures obs.Some? ==>
        && weather == (if obs.value.weather.Some? then obs.value.weather else old(weather))
        && wind == (if obs.value.weather.Some? && obs.value.wind.Some? then obs.value.wind else old(wind))
        && visibility == (if obs.value.weather.Some? && obs.value.wind.Some? && obs.value.visibility.Some?
                          then obs.value.visibility.value else old(visibility))
        && error == (if obs.value.weather.Some? && obs.value.wind.Some? && obs.value.visibility.Some?
                     then old(error) else Some(WeatherError))
    {
      if obs.None? {
        error := Some(WeatherError);
        return;
      }
      var o := obs.value;
      if o.weather.None? {
        error := Some(WeatherError);
        return;
      }
      weather := o.weather;
      if o.wind.None? {
        error := Some(WeatherError);
        return;
      }
      wind := o.wind;
      if o.visibility.None? {
        error := Some(WeatherError);
        return;
      }
      visibility := o.visibility.value;
    }

    /** The tide fetch: None is a failed request or a payload without
      predictions. It sets the next tide at local time hours:minutes, or the
      tide error, and then clears loading. */
    method FetchTide(predictions: Option<seq<Prediction>>, hours: int, minutes: int)
      modifies this`tide, this`error, this`loading
      ensures predictions.None? ==> error == Some(TideError) && tide == old(tide)
      ensures predictions.Some? ==> tide == NextTide(predictions.value, NowTime(hours, minutes)) && error == old(error)
      ensures !loading
    {
      if predictions.None? {
        error := Some(TideError);
      } else {
        var nowTime := NowTime(hours, minutes);
        tide := NextTide(predictions.value, nowTime);
      }
      loading := false;
    }

    /** The wave fetch: None is a failed request, which clears the wave, the
      water temperature and the trend. Text that leaves fewer than two data
      lines changes none of them. It then clears loading. */
    method FetchWave(text: Option<string>)
      modifies this`wave, this`waterTemp, this`waveTrend, this`loading
      ensures text.None? ==> wave.None? && waterTemp.None? && waveTrend == []
      ensures text.Some? && ParseBuoy(text.value).NoRows? ==>
        wave == old(wave) && waterTemp == old(waterTemp) && waveTrend == old(waveTrend)
      ensures text.Some? && ParseBuoy(text.value).Rows? ==>
        && wave == Some(ParseBuoy(text.value).wave)
        && waterTemp == ParseBuoy(text.value).waterTemp
        && waveTrend == ParseBuoy(text.value).trend
      ensures !loading
    {
      if text.None? {
        wave := None;
        waterTemp := None;
        waveTrend := [];
      } else {
        var lines := DataLines(text.value);
        if |lines| > 1 {
          var latest := Tokens(lines[1]);
          var waveHeight := At(latest, WaveHeightColumn);
          var trend := BuildTrend(lines);
          assert trend == Trend(lines, WaveHeightColumn);
          assert ParseBuoy(text.value) == Rows(WaveReading(waveHeight, FeetOf(waveHeight), BuoyStation),
                                              WaterTempOf(At(latest, WaterTempColumn)), trend);
          wave := Some(WaveReading(waveHeight, FeetOf(waveHeight), BuoyStation));
          waterTemp := WaterTempOf(At(latest, WaterTempColumn));
          waveTrend := trend;
        } else {
          assert ParseBuoy(text.value) == NoRows;
        }
      }
      loading := false;
    }
  }

  /** Every feed failing, settled in the order weather, tide, wave: the
      widget shows the tide error and none of its sections. */
  method AllFeedsFail() returns (s: Screen)
    ensures s == ErrorScreen(TideError)
  {
    var widget := new MarineWidget();
    widget.FetchWeather(None);
    widget.FetchTide(None, 14, 0);
    widget.FetchWave(None);
    s := widget.View();
  }
}
