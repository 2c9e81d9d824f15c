/**
 * `processForecastData` of src/components/Forecast.jsx:69-135: the hourly
 * view (the first eight samples) and the daily view (one summary per day
 * label, for the first five labels met) of a forecast list.
 *
 * The locale formatting calls are parameters: `timeLabel(dt)` stands for
 * `new Date(dt * 1000).toLocaleTimeString(...)` and `dayKey(dt)` for
 * `new Date(dt * 1000).toLocaleDateString([], { weekday: "short" })`.
 */
module Forecast {
  import opened Samples
  import opened ObjectKeys
  import opened ModeSelection
  import opened Stats
  import opened DailyGrouping

  /** `forecastList.slice(0, 8)` */
  const HourlyCount := 8
  /** `Object.keys(dailyMap).slice(0, 5)` */
  const DailyCount := 5

  datatype HourlyEntry = HourlyEntry(time: string, temp: real, icon: string, description: string)

  datatype DailyEntry = DailyEntry(day: string, temp: real, icon: string, description: string)

  /** The `.map` callback of the hourly view, applied to every sample in turn. */
  function HourlyEntries(samples: seq<Sample>, timeLabel: int -> string): (r: seq<HourlyEntry>)
    ensures |r| == |samples|
    ensures forall i :: 0 <= i < |samples| ==>
      r[i] == HourlyEntry(timeLabel(samples[i].dt), samples[i].temp, samples[i].icon, samples[i].description)
  {
    if samples == [] then []
    else
      var s := samples[0];
      [HourlyEntry(timeLabel(s.dt), s.temp, s.icon, s.description)] + HourlyEntries(samples[1..], timeLabel)
  }

  /**
   * The hourly view: one entry per sample for the first eight samples (fewer
   * when the list is shorter), in list order.
   */
  function HourlyView(list: seq<Sample>, timeLabel: int -> string): (r: seq<HourlyEntry>)
    ensures |r| == Min(HourlyCount, |list|)
    ensures forall i :: 0 <= i < |r| ==>
      && r[i].time == timeLabel(list[i].dt)
      && r[i].temp == list[i].temp
      && r[i].icon == list[i].icon
      && r[i].description == list[i].description
  {
    HourlyEntries(list[..Min(HourlyCount, |list|)], timeLabel)
  }

  /** The `.map` callback of the daily view for one day label. */
  function Summary(list: seq<Sample>, dayKey: int -> string, day: string): (e: DailyEntry)
    requires day in Days(list, dayKey)
    ensures e.day == day
    ensures e.icon in GroupOf(list, dayKey, day).icons
    ensures e.description in GroupOf(list, dayKey, day).descriptions
  {
    GroupShape(list, dayKey, day);
    var g := GroupOf(list, dayKey, day);
    DailyEntry(day, Mean(g.temps), Mode(g.icons), Mode(g.descriptions))
  }

  /** The daily view: a summary for each of the first five day labels, in first-seen order. */
  function DailyView(list: seq<Sample>, dayKey: int -> string): seq<DailyEntry>
  {
    var days := Days(list, dayKey);
    var n := Min(DailyCount, |days|);
    seq(n, j requires 0 <= j < n => Summary(list, dayKey, days[j]))
  }

  /**
   * The `.map` callback of the daily view, run on the day's entry of the group
   * table: the two count tables are filled in place, then reduced to their
   * most common key, and the temperatures are averaged.
   */
  method SummarizeDay(list: seq<Sample>, dayKey: int -> string, day: string, g: DayData) returns (e: DailyEntry)
    requires day in Days(list, dayKey)
    requires g == GroupOf(list, dayKey, day)
    ensures e == Summary(list, dayKey, day)
  {
    GroupShape(list, dayKey, day);
    assert g.icons[0] in InsertionKeys(g.icons) && g.descriptions[0] in InsertionKeys(g.descriptions);
    var iconKeys, iconCounts := CountValues(g.icons);
    var icon := MostCommon(iconKeys, iconCounts);
    var descriptionKeys, descriptionCounts := CountValues(g.descriptions);
    var description := MostCommon(descriptionKeys, descriptionCounts);
    e := DailyEntry(day, Mean(g.temps), icon, description);
  }

  /** The daily view has one entry per shown day, and entry `j` summarizes the `j`-th day. */
  lemma DailyViewAt(list: seq<Sample>, dayKey: int -> string, j: nat)
    requires j < Min(DailyCount, |Days(list, dayKey)|)
    ensures |DailyView(list, dayKey)| == Min(DailyCount, |Days(list, dayKey)|)
    ensures DailyView(list, dayKey)[j] == Summary(list, dayKey, Days(list, dayKey)[j])
  {
  }

  /** A sequence that summarizes the first five days, one by one, is the daily view. */
  lemma DailyViewFromSummaries(list: seq<Sample>, dayKey: int -> string, daily: seq<DailyEntry>)
    requires |daily| == Min(DailyCount, |Days(list, dayKey)|)
    requires forall j :: 0 <= j < |daily| ==> daily[j] == Summary(list, dayKey, Days(list, dayKey)[j])
    ensures daily == DailyView(list, dayKey)
  {
  }

  /**
   * `dailyForecast`: the group table is filled in place, then the first five
   * of its keys are summarized in the order `Object.keys` gives them.
   */
  method DailyForecast(list: seq<Sample>, dayKey: int -> string) returns (daily: seq<DailyEntry>)
    ensures daily == DailyView(list, dayKey)
  {
    var days, table := BuildDailyMap(list, dayKey);
    daily := SummarizeDays(list, dayKey, days, table);
  }

  /** The `.map` over the first five keys of a filled group table. */
  method SummarizeDays(list: seq<Sample>, dayKey: int -> string, days: seq<string>, table: map<string, DayData>)
    returns (daily: seq<DailyEntry>)
    requires days == Days(list, dayKey)
    requires forall d :: d in days ==> d in table && table[d] == GroupOf(list, dayKey, d)
    ensures daily == DailyView(list, dayKey)
  {
    var n := Min(DailyCount, |days|);
    daily := [];
    for j := 0 to n
      invariant |daily| == j
      invariant forall k :: 0 <= k < j ==> daily[k] == Summary(list, dayKey, days[k])
    {
      var day := days[j];
      var e := SummarizeDay(list, dayKey, day, table[day]);
      daily := daily + [e];
    }
    DailyViewFromSummaries(list, dayKey, daily);
  }

  /** `processForecastData`: both views of one forecast list. */
  method ProcessForecastData(list: seq<Sample>, dayKey: int -> string, timeLabel: int -> string)
    returns (hourly: seq<HourlyEntry>, daily: seq<DailyEntry>)
    ensures hourly == HourlyView(list, timeLabel)
    ensures daily == DailyView(list, dayKey)
  {
    hourly := HourlyView(list, timeLabel);
    daily := DailyForecast(list, dayKey);
  }

  /**
   * The daily view has one entry per distinct day label, capped at five: at
   * most five entries and never more than the list has distinct labels.
   */
  lemma DailyViewSize(list: seq<Sample>, dayKey: int -> string)
    ensures |DailyView(list, dayKey)| == Min(DailyCount, |Days(list, dayKey)|)
    ensures |DailyView(list, dayKey)| <= DailyCount
    ensures |DailyView(list, dayKey)| <= |set d | d in DayLabels(list, dayKey)|
  {
    InsertionKeysCardinality(DayLabels(list, dayKey));
  }

  /**
   * Entry `j` of the daily view is labelled with the `j`-th day first met;
   * the labels are labels of samples, pairwise distinct, and in the order
   * their days are first met in the list.
   */
  lemma DailyViewDays(list: seq<Sample>, dayKey: int -> string)
    ensures var dv, labels := DailyView(list, dayKey), DayLabels(list, dayKey);
      && (forall j :: 0 <= j < |dv| ==> dv[j].day == Days(list, dayKey)[j])
      && (forall j :: 0 <= j < |dv| ==> dv[j].day in labels)
      && (forall a, b :: 0 <= a < b < |dv| ==> dv[a].day != dv[b].day)
      && (forall a, b :: 0 <= a < b < |dv| ==> FirstIndex(labels, dv[a].day) < FirstIndex(labels, dv[b].day))
  {
    var dv, labels, days := DailyView(list, dayKey), DayLabels(list, dayKey), Days(list, dayKey);
    InsertionKeysInFirstSeenOrder(labels);
    assert forall j :: 0 <= j < |dv| ==> dv[j].day == days[j];
  }

  /**
   * The shown days are the first ones met: every label first met no later
   * than a shown day's label is itself shown, at or before that entry.
   */
  lemma DailyViewShowsFirstDays(list: seq<Sample>, dayKey: int -> string)
    ensures var dv, labels := DailyView(list, dayKey), DayLabels(list, dayKey);
      forall l, j :: l in labels && 0 <= j < |dv| && FirstIndex(labels, l) <= FirstIndex(labels, dv[j].day) ==>
        exists i :: 0 <= i <= j && dv[i].day == l
  {
    var dv, labels, days := DailyView(list, dayKey), DayLabels(list, dayKey), Days(list, dayKey);
    InsertionKeysInFirstSeenOrder(labels);
    forall l, j | l in labels && 0 <= j < |dv| && FirstIndex(labels, l) <= FirstIndex(labels, dv[j].day)
      ensures exists i :: 0 <= i <= j && dv[i].day == l
    {
      DailyViewAt(list, dayKey, j);
      var a :| 0 <= a < |days| && days[a] == l;
      DailyViewAt(list, dayKey, a);
      assert dv[a].day == l;
    }
  }

  /** With at most five distinct day labels, every sample's day has an entry. */
  lemma DailyViewCoversFewDays(list: seq<Sample>, dayKey: int -> string, i: nat)
    requires i < |list|
    requires |Days(list, dayKey)| <= DailyCount
    ensures exists j :: 0 <= j < |DailyView(list, dayKey)| && DailyView(list, dayKey)[j].day == dayKey(list[i].dt)
  {
    var dv, days := DailyView(list, dayKey), Days(list, dayKey);
    EverySampleFiled(list, dayKey, i);
    var j :| 0 <= j < |days| && days[j] == dayKey(list[i].dt);
    assert dv[j].day == days[j];
  }

  /**
   * A day's temperature is the sum of its samples' temperatures divided by
   * their number, so it lies between the day's lowest and highest temperature.
   */
  lemma DailyTemp(list: seq<Sample>, dayKey: int -> string, j: nat)
    requires j < |DailyView(list, dayKey)|
    ensures var e := DailyView(list, dayKey)[j];
      var temps := Temps(SamplesOn(list, dayKey, e.day));
      && |temps| > 0
      && e.temp == Sum(temps) / (|temps| as real)
      && Smallest(temps) <= e.temp <= Largest(temps)
  {
    var days := Days(list, dayKey);
    var e := DailyView(list, dayKey)[j];
    assert e == Summary(list, dayKey, days[j]);
    GroupShape(list, dayKey, e.day);
    MeanBetweenExtremes(Temps(SamplesOn(list, dayKey, e.day)));
  }

  /**
   * A day's icon occurs among its samples' icons, no icon occurs more often,
   * and of the icons that occur as often the one first seen latest is chosen;
   * no other icon has these properties.
   */
  lemma DailyIcon(list: seq<Sample>, dayKey: int -> string, j: nat)
    requires j < |DailyView(list, dayKey)|
    ensures var e := DailyView(list, dayKey)[j];
      forall m :: IsLatestMode(Icons(SamplesOn(list, dayKey, e.day)), m) <==> m == e.icon
  {
    var days := Days(list, dayKey);
    var e := DailyView(list, dayKey)[j];
    assert e == Summary(list, dayKey, days[j]);
    GroupShape(list, dayKey, e.day);
    forall m ensures IsLatestMode(Icons(SamplesOn(list, dayKey, e.day)), m) <==> m == e.icon {
      ModeIsLatestMode(Icons(SamplesOn(list, dayKey, e.day)), m);
    }
  }

  /**
   * The same rule, applied on its own to the descriptions: a day's
   * description is a most frequent one, ties going to the one first seen latest.
   */
  lemma DailyDescription(list: seq<Sample>, dayKey: int -> string, j: nat)
    requires j < |DailyView(list, dayKey)|
    ensures var e := DailyView(list, dayKey)[j];
      forall m :: IsLatestMode(Descriptions(SamplesOn(list, dayKey, e.day)), m) <==> m == e.description
  {
    var days := Days(list, dayKey);
    var e := DailyView(list, dayKey)[j];
    assert e == Summary(list, dayKey, days[j]);
    GroupShape(list, dayKey, e.day);
    forall m ensures IsLatestMode(Descriptions(SamplesOn(list, dayKey, e.day)), m) <==> m == e.description {
      ModeIsLatestMode(Descriptions(SamplesOn(list, dayKey, e.day)), m);
    }
  }

  /** A non-empty list within one day gives one entry whose temperature is the mean of all temperatures. */
  lemma SingleDay(list: seq<Sample>, dayKey: int -> string)
    requires |list| > 0
    requires forall i :: 0 <= i < |list| ==> dayKey(list[i].dt) == dayKey(list[0].dt)
    ensures |DailyView(list, dayKey)| == 1
    ensures DailyView(list, dayKey)[0].day == dayKey(list[0].dt)
    ensures DailyView(list, dayKey)[0].temp == Mean(Temps(list))
  {
    var k := dayKey(list[0].dt);
    var labels := DayLabels(list, dayKey);
    assert labels == seq(|list|, i => k);
    SingleLabelKeys(labels, k);
    SamplesOnWholeList(list, dayKey, k);
  }

  lemma {:induction false} SingleLabelKeys(labels: seq<string>, k: string)
    requires |labels| > 0
    requires forall i :: 0 <= i < |labels| ==> labels[i] == k
    ensures InsertionKeys(labels) == [k]
  {
    if |labels| > 1 {
      SingleLabelKeys(labels[..|labels| - 1], k);
    }
  }

  lemma {:induction false} SamplesOnWholeList(list: seq<Sample>, dayKey: int -> string, k: string)
    requires forall i :: 0 <= i < |list| ==> dayKey(list[i].dt) == k
    ensures SamplesOn(list, dayKey, k) == list
  {
    if list != [] {
      var n := |list| - 1;
      SamplesOnWholeList(list[..n], dayKey, k);
      assert list == list[..n] + [list[n]];
    }
  }
}
