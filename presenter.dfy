/**
 * What `setupUI` puts on the screen, as functions of the stored record, the
 * device settings it consults and the screen as it was before. The imperative
 * `MainActivity.SetupUI` is proved to compute `Present`.
 */
module Presenter {
  import opened Wrappers
  import opened Models
  import opened Decimal

  /** The drawables the icon table refers to. */
  datatype Drawable = Sunny | Cloud | Rain | Storm | Snowflake

  /** The image view: the image the layout was inflated with, or a drawable set later. */
  datatype Image = LayoutImage | Res(drawable: Drawable)

  /** The view-binding fields `setupUI` writes. */
  datatype Screen = Screen(
    main: string, description: string, icon: Image,
    temp: string, sunrise: string, sunset: string,
    humidity: string, min: string, max: string,
    speed: string, name: string, country: string)

  /**
   * The device settings `setupUI` reads: whether the SDK level is at least N,
   * the configured locales (each already rendered as `Locale.toString` does),
   * and the default time zone's offset from UTC in seconds.
   */
  datatype Device = Device(sdkAtLeastN: bool, locales: seq<string>, tzOffset: int)

  const Celsius := "°C"
  const Fahrenheit := "°F"

  /** The `when (weather.icon)` table; a code outside it leaves the image alone. */
  const IconTable: map<string, Drawable> := map[
    "01d" := Sunny, "02d" := Cloud, "03d" := Cloud, "04d" := Cloud, "04n" := Cloud,
    "10d" := Rain, "11d" := Storm, "13d" := Snowflake, "01n" := Cloud, "02n" := Cloud,
    "03n" := Cloud, "10n" := Cloud, "11n" := Rain, "13n" := Snowflake, "50d" := Cloud]

  /** The region codes whose unit label is Fahrenheit. */
  const FahrenheitRegions: set<string> := {"US", "LR", "MM"}

  /** `getUnit`: Fahrenheit exactly for the three region codes, Celsius for every other string. */
  function GetUnit(v: string): (unit: string)
    ensures unit == Fahrenheit <==> v in FahrenheitRegions
    ensures unit == Celsius <==> v !in FahrenheitRegions
  {
    if v == "US" || v == "LR" || v == "MM" then Fahrenheit else Celsius
  }

  function JoinWithCommas(tags: seq<string>): string
    decreases |tags|
  {
    if |tags| == 0 then ""
    else if |tags| == 1 then tags[0]
    else tags[0] + "," + JoinWithCommas(tags[1..])
  }

  /** `LocaleList.toString`: the tags between brackets, separated by commas. */
  function LocaleListString(tags: seq<string>): (s: string)
    ensures |s| >= 2 && s[0] == '[' && s[|s| - 1] == ']'
  {
    "[" + JoinWithCommas(tags) + "]"
  }

  /**
   * The unit label of lines 245-248: Celsius below N, otherwise `getUnit` of
   * the rendered locale list. Because that rendering is bracketed it is never
   * one of the bare region codes, so the label is Celsius on every device.
   */
  function TemperatureUnit(dev: Device): (unit: string)
    ensures unit == Celsius
    ensures dev.sdkAtLeastN ==> LocaleListString(dev.locales) !in FahrenheitRegions
  {
    if dev.sdkAtLeastN then GetUnit(LocaleListString(dev.locales)) else Celsius
  }

  const SecondsPerDay := 86400

  /**
   * `unixTime`: the `HH:mm` wall-clock time of epoch second `t` in a zone
   * `offset` seconds ahead of UTC. The minute shown is the one that contains
   * the local second of the day.
   */
  function UnixTime(t: int, offset: int): (r: string)
    ensures |r| == 5 && r[2] == ':' && AllDigits(r[..2]) && AllDigits(r[3..])
    ensures Value(r[..2]) < 24 && Value(r[3..]) < 60
    ensures var clock := Value(r[..2]) * 3600 + Value(r[3..]) * 60;
            clock <= (t + offset) % SecondsPerDay < clock + 60
  {
    var secs := (t + offset) % SecondsPerDay;
    var hh, mm := TwoDigits(secs / 3600), TwoDigits(secs % 3600 / 60);
    var r := hh + ":" + mm;
    assert r[..2] == hh && r[3..] == mm;
    r
  }

  /** One iteration of the loop over `weatherList.weather`. */
  function ApplyCondition(s: Screen, c: Condition): Screen
  {
    s.(main := c.main, description := c.description,
       icon := if c.icon in IconTable then Res(IconTable[c.icon]) else s.icon)
  }

  /** The loop over all conditions, in list order. */
  function ApplyConditions(s: Screen, ws: seq<Condition>): Screen
    decreases |ws|
  {
    if ws == [] then s else ApplyCondition(ApplyConditions(s, ws[..|ws| - 1]), ws[|ws| - 1])
  }

  /** The fields written after the loop. */
  function Render(rec: WeatherRecord, dev: Device, prev: Screen): Screen
  {
    ApplyConditions(prev, rec.weather).(
      temp := rec.main.temp + TemperatureUnit(dev),
      sunrise := UnixTime(rec.sys.sunrise, dev.tzOffset),
      sunset := UnixTime(rec.sys.sunset, dev.tzOffset),
      humidity := IntToString(rec.main.humidity) + "%",
      min := rec.main.tempMin + " min",
      max := rec.main.tempMax + " max",
      speed := rec.wind.speed,
      name := rec.name,
      country := rec.sys.country)
  }

  /** `setupUI`: nothing happens when the slot is empty. */
  function Present(stored: Option<WeatherRecord>, dev: Device, prev: Screen): Screen
  {
    match stored
    case None => prev
    case Some(rec) => Render(rec, dev, prev)
  }

  /**
   * The loop over the conditions touches only main, description and icon;
   * main and description end up as the last condition's, and an empty list
   * changes nothing.
   */
  lemma {:induction false} ConditionsLoopText(s: Screen, ws: seq<Condition>)
    ensures ApplyConditions(s, ws).(main := s.main, description := s.description, icon := s.icon) == s
    ensures ws == [] ==> ApplyConditions(s, ws) == s
    ensures ws != [] ==> (ApplyConditions(s, ws).main == ws[|ws| - 1].main &&
                          ApplyConditions(s, ws).description == ws[|ws| - 1].description)
    decreases |ws|
  {
    if ws != [] {
      ConditionsLoopText(s, ws[..|ws| - 1]);
    }
  }

  /**
   * The icon after the loop is the table entry of the last condition whose
   * code is in the table, or the previous image when no code is.
   */
  lemma {:induction false} ConditionsLoopIcon(s: Screen, ws: seq<Condition>)
    ensures (forall k :: 0 <= k < |ws| ==> ws[k].icon !in IconTable) ==> ApplyConditions(s, ws).icon == s.icon
    ensures forall j :: 0 <= j < |ws| && ws[j].icon in IconTable
                        && (forall k :: j < k < |ws| ==> ws[k].icon !in IconTable)
                        ==> ApplyConditions(s, ws).icon == Res(IconTable[ws[j].icon])
    decreases |ws|
  {
    if ws != [] {
      var n := |ws| - 1;
      var front := ws[..n];
      ConditionsLoopIcon(s, front);
      var before, last := ApplyConditions(s, front), ws[n];
      assert ApplyConditions(s, ws) == ApplyCondition(before, last);
      if last.icon in IconTable {
        // whichever j the second clause picks, it can only be the last index
        assert ApplyConditions(s, ws).icon == Res(IconTable[last.icon]);
      } else {
        assert ApplyConditions(s, ws).icon == before.icon;
        assert forall k :: 0 <= k < n ==> front[k] == ws[k];
      }
    }
  }

  /**
   * `setupUI` as a whole: an empty slot leaves the screen as it was; for a
   * record, main, description and icon follow the conditions loop, the
   * temperature text is its own rendering followed by the Celsius
   * label, humidity is the integer's numeral and a percent sign, the times
   * are the local clock readings, and the other texts are copied.
   */
  lemma PresentFields(stored: Option<WeatherRecord>, dev: Device, prev: Screen)
    ensures stored.None? ==> Present(stored, dev, prev) == prev
    ensures stored.Some? ==>
      var rec, r := stored.value, Present(stored, dev, prev);
      && ((forall k :: 0 <= k < |rec.weather| ==> rec.weather[k].icon !in IconTable) ==> r.icon == prev.icon)
      && (forall j :: 0 <= j < |rec.weather| && rec.weather[j].icon in IconTable
                      && (forall k :: j < k < |rec.weather| ==> rec.weather[k].icon !in IconTable)
                      ==> r.icon == Res(IconTable[rec.weather[j].icon]))
      && (rec.weather != [] ==> (r.main == rec.weather[|rec.weather| - 1].main &&
                                 r.description == rec.weather[|rec.weather| - 1].description))
      && (rec.weather == [] ==> r.main == prev.main && r.description == prev.description && r.icon == prev.icon)
      && r.temp == rec.main.temp + Celsius
      && r.humidity == IntToString(rec.main.humidity) + "%"
      && r.min == rec.main.tempMin + " min" && r.max == rec.main.tempMax + " max"
      && r.sunrise == UnixTime(rec.sys.sunrise, dev.tzOffset)
      && r.sunset == UnixTime(rec.sys.sunset, dev.tzOffset)
      && r.speed == rec.wind.speed && r.name == rec.name && r.country == rec.sys.country
  {
    if stored.Some? {
      ConditionsLoopText(prev, stored.value.weather);
      ConditionsLoopIcon(prev, stored.value.weather);
    }
  }

  /** The Fahrenheit label would follow a bare region code, had one been passed. */
  lemma GetUnitExamples()
    ensures GetUnit("US") == Fahrenheit && GetUnit("LR") == Fahrenheit && GetUnit("MM") == Fahrenheit
    ensures GetUnit("FR") == Celsius && GetUnit("[en_US]") == Celsius && GetUnit("") == Celsius
  {
  }

  /** Entries of the icon table worth naming, and a code outside it. */
  lemma IconTableExamples()
    ensures IconTable["01d"] == Sunny && IconTable["10d"] == Rain && IconTable["10n"] == Cloud
    ensures IconTable["11n"] == Rain && IconTable["01n"] == Cloud && "99x" !in IconTable
  {
  }

  /** Midnight and one o'clock at UTC. */
  lemma UnixTimeExamples()
    ensures UnixTime(0, 0) == "00:00" && UnixTime(3600, 0) == "01:00"
  {
  }

  /** Humidity 55 is shown as "55%". */
  lemma HumidityExample(rec: WeatherRecord, dev: Device, prev: Screen)
    requires rec.main.humidity == 55
    ensures Present(Some(rec), dev, prev).humidity == "55%"
  {
    assert NatToString(55) == "55";
  }
}
