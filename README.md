# Forecast views of a weather dashboard, in Dafny

This project models how the dashboard turns the weather provider's forecast
list (samples three hours apart) into the views it shows:

- `processForecastData` in `src/components/Forecast.jsx`. It builds the
  **hourly view**, which is the first eight samples as `{time, temp, icon, description}`.
  It also builds the **daily view**:
  - every sample is filed under its weekday label in a table (`dailyMap`),
    which creates a day's entry the first time the day is seen and pushes the
    sample's temperature, icon and description onto that entry;
  - the first five labels, in the order `Object.keys` gives them, are each
    summarised as the mean temperature, the most common icon and the most
    common description;
  - "most common" is a count table followed by
    `keys.reduce((a, b) => counts[a] > counts[b] ? a : b)`.
- the `nextHours` list in `src/components/HourlyForecast.jsx`: the samples
  whose `dt_txt` instant is strictly after `Date.now()`, in list order, cut to
  six.

Modules, one per concern:

| module | file | models |
|---|---|---|
| `Samples` | samples.dfy | the forecast entry (`dt`, `dt_txt`, `main.temp`, `weather[0].icon`, `weather[0].description`) |
| `ObjectKeys` | object_keys.dfy | the insertion order of a JS object's keys |
| `ModeSelection` | mode_selection.dfy | count tables and the most-common `reduce` |
| `Stats` | stats.dfy | sum and mean of temperatures |
| `DailyGrouping` | daily_grouping.dfy | the `dailyMap` group table |
| `Forecast` | forecast.dfy | `processForecastData` and its two views |
| `HourlyForecast` | hourly_forecast.dfy | `nextHours` |

The source fills its group table and its count tables in place, so those
steps are methods. `BuildDailyMap` and `CountValues` are loops that fill a
table, and `SummarizeDays` is the loop over the first five days.
`SummarizeDay`, `DailyForecast` and `ProcessForecastData` call them without
looping themselves. Each method is proved equal to a declarative definition,
and the lemmas state the properties of those definitions. The hourly view,
the most-common `reduce`, the mean and `nextHours` are pure functions, as they
are in the source.

Parameters stand for the calls the model cannot see:
- `dayKey(dt)` is `new Date(dt * 1000).toLocaleDateString([], { weekday: "short" })`;
- `timeLabel(dt)` is `new Date(dt * 1000).toLocaleTimeString(...)`;
- `parse(text)` is `new Date(text).getTime()`, with `None` for an invalid date;
- `now` is the value of `Date.now()`.

## Behaviour worth noting

- **Ties for the most common icon or description.** One might expect the
  value seen first to win a tie. The reduce at `Forecast.jsx:112` keeps the
  running key only when its count is *strictly* larger, so the tied value
  first seen *latest* wins: `[a, b, a, b]` gives `b`
  (`TieGoesToLaterFirstSeen`). The model states and proves this rule
  (`IsLatestMode`).
- **Empty lists.** An empty forecast list is not rejected. It gives two empty
  views, and the model does the same.
- **Hourly window length.** `Forecast.jsx` shows 8 entries and
  `HourlyForecast.jsx` shows 6. Both are modelled, each with its own constant.
- **Hourly filtering.** `Forecast.jsx`'s hourly view does not filter by the
  current time. Only `HourlyForecast.jsx` does, and it reads `dt_txt` rather
  than `dt`.
- **Grouping key.** Days are grouped by the localized weekday label, not by
  calendar date. Two dates with the same weekday would share one group.

## Model

| member | source | states |
|---|---|---|
| `ObjectKeys.InsertionKeys` | src/components/Forecast.jsx:101 | the keys of a table filled in order `xs` are exactly the distinct values of `xs`, each once |
| `ObjectKeys.InsertionKeysInFirstSeenOrder` | src/components/Forecast.jsx:82-101 | of two listed keys, the one listed first occurs first in the input |
| `ObjectKeys.InsertionKeysCardinality` | src/components/Forecast.jsx:101-102 | there are as many keys as distinct input values |
| `ModeSelection.CountTable` | src/components/Forecast.jsx:107-110 | the finished count table maps each value that occurs to its number of occurrences; every count is positive and at most the input length |
| `ModeSelection.CountTableAppend` | src/components/Forecast.jsx:108 | counting one more value adds one to its count, or creates it at 1, and gives the count table of the longer input |
| `ModeSelection.CountValues` | src/components/Forecast.jsx:107-110 | the in-place count loop yields the count of every value, and its keys in first-seen order |
| `ModeSelection.MostCommon` | src/components/Forecast.jsx:112 | the reduce over the keys returns one of the keys |
| `ModeSelection.MostCommonIsLastMaximal` | src/components/Forecast.jsx:112 | the reduce returns a key of maximal count, and every key listed after it has a strictly smaller count |
| `ModeSelection.Mode` | src/components/Forecast.jsx:107-112 | count, then reduce over the keys in first-seen order; the chosen value occurs in the non-empty input |
| `ModeSelection.ModeSatisfiesLatestMode` | src/components/Forecast.jsx:107-112 | the chosen value occurs, has maximal count, and of the tied values it is first seen latest |
| `ModeSelection.ModeIsLatestMode` | src/components/Forecast.jsx:107-121 | a value is the chosen one if and only if it occurs, has maximal count and is first seen latest among the tied values |
| `ModeSelection.TieGoesToLaterFirstSeen` | src/components/Forecast.jsx:112 | `[a, b, a, b]` resolves to `b` |
| `Stats.Sum` | src/components/Forecast.jsx:124 | the reduce from `0` adding each temperature: `0` for no temperatures, the temperature itself for one |
| `Stats.Mean` | src/components/Forecast.jsx:124 | the sum divided by the (non-zero) count: the mean times the count gives back the sum |
| `Stats.MeanBetween` | src/components/Forecast.jsx:124 | the mean of values between `lo` and `hi` is between `lo` and `hi` |
| `Stats.MeanBetweenExtremes` | src/components/Forecast.jsx:124 | the mean lies between the smallest and the largest temperature |
| `Stats.MeanOfConstant` | src/components/Forecast.jsx:124 | equal temperatures average to that temperature |
| `DailyGrouping.Days` | src/components/Forecast.jsx:82-101 | the keys of `dailyMap`: pairwise distinct, and exactly the day labels of the samples |
| `DailyGrouping.SamplesOn` | src/components/Forecast.jsx:82-96 | the samples filed under one day, in list order; never more than the list holds |
| `DailyGrouping.GroupOf` | src/components/Forecast.jsx:82-96 | a day's entry of `dailyMap`: temperatures, icons and descriptions of that day's samples, three arrays of one length, at most the list length |
| `DailyGrouping.Push` | src/components/Forecast.jsx:94-96 | the three `push` calls: a sample's temperature, icon and description appended to the entry's arrays |
| `DailyGrouping.SamplesOnEmpty` | src/components/Forecast.jsx:86-92 | a day has an entry with samples if and only if some sample carries its label |
| `DailyGrouping.SamplesOnMembers` | src/components/Forecast.jsx:82-96 | a sample is filed under a day if and only if it is in the list and carries that day's label |
| `DailyGrouping.GroupOfAppend` | src/components/Forecast.jsx:94-96 | one more sample pushes its temperature, icon and description onto its own day only |
| `DailyGrouping.BuildDailyMap` | src/components/Forecast.jsx:82-99 | the in-place reduce yields the day labels in first-seen order and, for each, the temperatures, icons and descriptions of exactly that day's samples in list order |
| `DailyGrouping.EverySampleFiled` | src/components/Forecast.jsx:82-96 | every sample's label is a day of the table, and the sample is filed there |
| `DailyGrouping.GroupShape` | src/components/Forecast.jsx:86-96 | an entry's three arrays have one element per sample of the day, and they are non-empty exactly for the listed days |
| `DailyGrouping.DaysPartitionList` | src/components/Forecast.jsx:82-99 | the entries of all days together hold exactly as many samples as the list |
| `Forecast.HourlyEntries` | src/components/Forecast.jsx:71-79 | the map gives one entry per sample, built from that sample |
| `Forecast.HourlyView` | src/components/Forecast.jsx:71-79 | the hourly view has `min(8, n)` entries, and entry `i` carries the time label, temperature, icon and description of sample `i` |
| `Forecast.Summary` | src/components/Forecast.jsx:103-131 | the summary of one listed day: labelled with the day, its icon one of the day's icons and its description one of the day's descriptions |
| `Forecast.DailyView` | src/components/Forecast.jsx:101-132 | the summaries of the first five keys of `dailyMap`, in key order |
| `Forecast.SummarizeDay` | src/components/Forecast.jsx:103-131 | the in-place count tables and reduces of one day give that day's summary |
| `Forecast.DailyViewAt` | src/components/Forecast.jsx:101-132 | the daily view has `min(5, d)` entries, and entry `j` is the summary of the `j`-th key |
| `Forecast.DailyViewFromSummaries` | src/components/Forecast.jsx:101-132 | a sequence of `min(5, d)` entries whose entry `j` summarises the `j`-th key is the daily view |
| `Forecast.SummarizeDays` | src/components/Forecast.jsx:101-132 | the `.map` loop over the first five keys of a filled table yields the daily view |
| `Forecast.DailyForecast` | src/components/Forecast.jsx:82-132 | filling the table, then summarising its first five keys, gives the daily view |
| `Forecast.ProcessForecastData` | src/components/Forecast.jsx:69-135 | returns the hourly view and the daily view |
| `Forecast.DailyViewSize` | src/components/Forecast.jsx:101-102 | the daily view has `min(5, d)` entries for `d` distinct labels: at most 5 and at most `d` |
| `Forecast.DailyViewDays` | src/components/Forecast.jsx:82-102 | entry `j` is labelled with the `j`-th day label first met; the labels are labels of samples, pairwise distinct, and ordered by where they are first met |
| `Forecast.DailyViewShowsFirstDays` | src/components/Forecast.jsx:82-102 | every label first met no later than a shown day's label is itself shown, at or before that entry: the shown days are the first ones met |
| `Forecast.DailyViewCoversFewDays` | src/components/Forecast.jsx:101-102 | with at most five distinct labels, every sample's day has an entry |
| `Forecast.DailyTemp` | src/components/Forecast.jsx:124 | a day's temperature is the sum of its samples' temperatures over their (non-zero) number, between their minimum and maximum |
| `Forecast.DailyIcon` | src/components/Forecast.jsx:107-112 | a day's icon is the unique icon of the day with maximal count that is first seen latest among the tied ones |
| `Forecast.DailyDescription` | src/components/Forecast.jsx:114-121 | the same rule, applied independently to the day's descriptions |
| `Forecast.SingleDay` | src/components/Forecast.jsx:101-128 | a non-empty list within one day gives one entry, labelled with that day, whose temperature is the mean of all temperatures |
| `HourlyForecast.IsUpcoming` | src/components/HourlyForecast.jsx:9 | the filter test: the parsed `dt_txt` instant is strictly after `now`, and an invalid date never passes |
| `HourlyForecast.Upcoming` | src/components/HourlyForecast.jsx:8-9 | the filtered list: no longer than the list, and each kept sample belongs to the list and passes the test |
| `HourlyForecast.NextHours` | src/components/HourlyForecast.jsx:8-10 | the filtered list cut to six: each shown sample belongs to the list and passes the test |
| `HourlyForecast.UpcomingPositions` | src/components/HourlyForecast.jsx:9 | the positions of the upcoming samples are increasing, each upcoming, and include every upcoming position |
| `HourlyForecast.UpcomingAtPositions` | src/components/HourlyForecast.jsx:8-9 | the filter yields exactly the samples at the upcoming positions, in order |
| `HourlyForecast.NextHoursArePositionsPrefix` | src/components/HourlyForecast.jsx:8-10 | `nextHours` has `min(6, k)` entries for `k` upcoming samples, and its `j`-th entry is the sample at the `j`-th upcoming position |
| `HourlyForecast.NextHoursAfterNow` | src/components/HourlyForecast.jsx:9 | every shown sample's instant is strictly after `now`; a sample at or before `now`, or with an invalid date, is never shown |
| `HourlyForecast.NextHoursAtMostSix` | src/components/HourlyForecast.jsx:10 | at most six samples are shown |
| `HourlyForecast.NextHoursSkipsNothing` | src/components/HourlyForecast.jsx:8-10 | every upcoming sample before a shown one is itself shown earlier |
| `HourlyForecast.NextHoursWhenFew` | src/components/HourlyForecast.jsx:10 | with fewer than six upcoming samples, all of them are shown, with no padding |
| `HourlyForecast.NextHoursAllUpcoming` | src/components/HourlyForecast.jsx:9-10 | when every sample is after `now`, the first `min(6, n)` samples are shown |
| `HourlyForecast.UpcomingOfAllUpcoming` | src/components/HourlyForecast.jsx:9 | when every sample is after `now`, the filter keeps the whole list |
| `HourlyForecast.NextHoursSkipsPast` | src/components/HourlyForecast.jsx:8-10 | samples at `now - 1`, `now`, `now + 1` and `now + 2` show only the last two |

## Left out

- Rendering is not modelled. This covers the JSX of both components, the
  daily/hourly tab state, the `if (!forecast || !forecast.list) return null`
  guards and `Math.round` on displayed temperatures. None of it derives data.
- Locale formatting and date parsing are parameters (`dayKey`, `timeLabel`,
  `parse`) because they are calls into the browser's libraries.
  `Date.now()` is the parameter `now`.
- DailyTemp: temperatures are exact reals, and IEEE double rounding of the
  sum and the division is not modelled.
- `Object.keys` lists integer-like keys (such as `"10"`) first, in numeric
  order. The model assumes insertion order for every key. Weekday labels,
  icon codes such as `"10d"` and descriptions are never integer-like.
- Keys that collide with `Object.prototype` members (`"constructor"`,
  `"__proto__"`, ...) behave differently in the source's `{}` tables. The
  model assumes no day label, icon or description is such a name.
- A forecast entry without `main` or with an empty `weather` array makes the
  source throw a `TypeError`. In the model every sample carries all its
  fields, so that failure is not modelled.
- The rest of the repository is not part of this model. That is the fetch
  calls in `src/utils/api.js`, the state, effects and `localStorage` use in
  `src/App.jsx`, and the remaining presentational components. It is network
  I/O, browser storage and rendering.
