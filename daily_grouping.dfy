/**
 * The `dailyMap` of src/components/Forecast.jsx:82-99: one pass over the
 * forecast list that files every sample under its day label, creating the
 * day's entry on first sight and pushing the sample's temperature, icon and
 * description onto that entry's three arrays.
 */
module DailyGrouping {
  import opened Samples
  import opened ObjectKeys

  /** The value `dailyMap[day]`: three arrays filled side by side. */
  datatype DayData = DayData(temps: seq<real>, icons: seq<string>, descriptions: seq<string>)

  /** The day label of every sample, in list order. */
  function DayLabels(list: seq<Sample>, dayKey: int -> string): seq<string>
  {
    seq(|list|, i requires 0 <= i < |list| => dayKey(list[i].dt))
  }

  /** The day labels in the order `Object.keys(dailyMap)` reports them. */
  function Days(list: seq<Sample>, dayKey: int -> string): (ds: seq<string>)
    ensures Distinct(ds)
    ensures forall d :: d in ds <==> d in DayLabels(list, dayKey)
  {
    InsertionKeys(DayLabels(list, dayKey))
  }

  /** The samples whose day label is `day`, in list order. */
  function SamplesOn(list: seq<Sample>, dayKey: int -> string, day: string): (g: seq<Sample>)
    ensures |g| <= |list|
  {
    if list == [] then []
    else
      var s := list[|list| - 1];
      SamplesOn(list[..|list| - 1], dayKey, day) + (if dayKey(s.dt) == day then [s] else [])
  }

  /** The temperatures, icons and descriptions of a run of samples, in order. */
  function Temps(g: seq<Sample>): seq<real>
  {
    seq(|g|, i requires 0 <= i < |g| => g[i].temp)
  }

  function Icons(g: seq<Sample>): seq<string>
  {
    seq(|g|, i requires 0 <= i < |g| => g[i].icon)
  }

  function Descriptions(g: seq<Sample>): seq<string>
  {
    seq(|g|, i requires 0 <= i < |g| => g[i].description)
  }

  /** What `dailyMap[day]` holds once the whole list has been filed. */
  function GroupOf(list: seq<Sample>, dayKey: int -> string, day: string): (g: DayData)
    ensures |g.temps| == |g.icons| == |g.descriptions| <= |list|
  {
    var samples := SamplesOn(list, dayKey, day);
    DayData(Temps(samples), Icons(samples), Descriptions(samples))
  }

  lemma DayLabelsOfPrefix(list: seq<Sample>, dayKey: int -> string, n: nat)
    requires n < |list|
    ensures DayLabels(list[..n + 1], dayKey) == DayLabels(list[..n], dayKey) + [dayKey(list[n].dt)]
  {
  }

  /** A day has samples exactly when some sample carries its label. */
  lemma {:induction false} SamplesOnEmpty(list: seq<Sample>, dayKey: int -> string, day: string)
    ensures SamplesOn(list, dayKey, day) == [] <==> day !in DayLabels(list, dayKey)
  {
    if list != [] {
      var n := |list| - 1;
      SamplesOnEmpty(list[..n], dayKey, day);
      assert list[..n + 1] == list;
      DayLabelsOfPrefix(list, dayKey, n);
    }
  }

  /** Every sample is filed under its own label and under no other. */
  lemma {:induction false} SamplesOnMembers(list: seq<Sample>, dayKey: int -> string, day: string)
    ensures forall s :: s in SamplesOn(list, dayKey, day) <==> s in list && dayKey(s.dt) == day
  {
    if list != [] {
      var n := |list| - 1;
      SamplesOnMembers(list[..n], dayKey, day);
      assert list == list[..n] + [list[n]];
    }
  }

  /** `dailyMap[day].temps.push(...)` and its two companions. */
  function Push(g: DayData, s: Sample): DayData
  {
    DayData(g.temps + [s.temp], g.icons + [s.icon], g.descriptions + [s.description])
  }

  /** Filing one more sample pushes its three values onto its own day's arrays and leaves other days alone. */
  lemma GroupOfAppend(list: seq<Sample>, dayKey: int -> string, n: nat, day: string)
    requires n < |list|
    ensures GroupOf(list[..n + 1], dayKey, day) ==
      if dayKey(list[n].dt) == day then Push(GroupOf(list[..n], dayKey, day), list[n])
      else GroupOf(list[..n], dayKey, day)
  {
    assert list[..n + 1][..n] == list[..n];
  }

  /**
   * The reduce that builds `dailyMap`: `days` are its keys in the order
   * `Object.keys` gives them, `table` its entries.
   */
  method BuildDailyMap(list: seq<Sample>, dayKey: int -> string) returns (days: seq<string>, table: map<string, DayData>)
    ensures days == Days(list, dayKey)
    ensures forall d :: d in table <==> d in days
    ensures forall d :: d in table ==> table[d] == GroupOf(list, dayKey, d)
  {
    days, table := [], map[];
    for i := 0 to |list|
      invariant days == Days(list[..i], dayKey)
      invariant forall d :: d in table <==> d in days
      invariant forall d :: d in table ==> table[d] == GroupOf(list[..i], dayKey, d)
    {
      var s := list[i];
      var day := dayKey(s.dt);
      DayLabelsOfPrefix(list, dayKey, i);
      ghost var labels := DayLabels(list[..i + 1], dayKey);
      assert labels[..i] == DayLabels(list[..i], dayKey) && labels[i] == day;
      var g := DayData([], [], []);
      if day in table {
        g := table[day];
      } else {
        SamplesOnEmpty(list[..i], dayKey, day);
        assert GroupOf(list[..i], dayKey, day) == g;
        days := days + [day];
      }
      table := table[day := Push(g, s)];
      forall d | d in table
        ensures table[d] == GroupOf(list[..i + 1], dayKey, d)
      {
        GroupOfAppend(list, dayKey, i, d);
      }
    }
    assert list[..|list|] == list;
  }

  /** Every sample is filed, under the label of its own day, which is one of the days. */
  lemma EverySampleFiled(list: seq<Sample>, dayKey: int -> string, i: nat)
    requires i < |list|
    ensures dayKey(list[i].dt) in Days(list, dayKey)
    ensures list[i] in SamplesOn(list, dayKey, dayKey(list[i].dt))
  {
    assert DayLabels(list, dayKey)[i] == dayKey(list[i].dt);
    SamplesOnMembers(list, dayKey, dayKey(list[i].dt));
  }

  /** A listed day has a non-empty entry whose three arrays have one element per sample of that day. */
  lemma GroupShape(list: seq<Sample>, dayKey: int -> string, day: string)
    ensures var g := GroupOf(list, dayKey, day);
      && |g.temps| == |g.icons| == |g.descriptions| == |SamplesOn(list, dayKey, day)|
      && (day in Days(list, dayKey) <==> |g.temps| > 0)
  {
    SamplesOnEmpty(list, dayKey, day);
  }

  /** The number of samples filed under the days `ds`. */
  function TotalSize(list: seq<Sample>, dayKey: int -> string, ds: seq<string>): nat
  {
    if ds == [] then 0
    else TotalSize(list, dayKey, ds[..|ds| - 1]) + |SamplesOn(list, dayKey, ds[|ds| - 1])|
  }

  /** One more sample adds one to the total of any list of distinct days that includes its day. */
  lemma {:induction false} TotalSizeAppend(list: seq<Sample>, dayKey: int -> string, s: Sample, ds: seq<string>)
    requires Distinct(ds)
    ensures TotalSize(list + [s], dayKey, ds) == TotalSize(list, dayKey, ds) + (if dayKey(s.dt) in ds then 1 else 0)
  {
    if ds != [] {
      var n := |ds| - 1;
      assert Distinct(ds[..n]);
      TotalSizeAppend(list, dayKey, s, ds[..n]);
      assert (list + [s])[..|list|] == list;
      assert forall d :: d in ds <==> d in ds[..n] || d == ds[n];
    }
  }

  /**
   * The days partition the list: the entries of all days hold, between them,
   * exactly as many samples as the list has (each sample is in exactly one
   * entry, by SamplesOnMembers).
   */
  lemma {:induction false} DaysPartitionList(list: seq<Sample>, dayKey: int -> string)
    ensures TotalSize(list, dayKey, Days(list, dayKey)) == |list|
  {
    if list != [] {
      var n := |list| - 1;
      var p, s := list[..n], list[n];
      var k := dayKey(s.dt);
      DaysPartitionList(p, dayKey);
      assert list == p + [s];
      DayLabelsOfPrefix(list, dayKey, n);
      assert DayLabels(list, dayKey)[..n] == DayLabels(p, dayKey);
      var dp := Days(p, dayKey);
      TotalSizeAppend(p, dayKey, s, dp);
      if k !in dp {
        assert Days(list, dayKey) == dp + [k];
        assert (dp + [k])[..|dp|] == dp;
        SamplesOnEmpty(p, dayKey, k);
        assert SamplesOn(list, dayKey, k) == [s];
      }
    }
  }
}
