/**
 * The `nextHours` list of src/components/HourlyForecast.jsx:6-10: the
 * samples whose `dt_txt` instant is strictly after `now`, keeping list order,
 * cut to the first six.
 *
 * `parse(text)` stands for `new Date(text).getTime()`: `Some(ms)` for a text
 * the date parser accepts, `None` for an invalid date, whose `NaN` compares
 * false against `now`. `now` is the value `Date.now()` returned.
 */
module HourlyForecast {
  import opened Samples

  /** `.slice(0, 6)` */
  const NextHoursCount := 6

  /** The filter condition `new Date(dt_txt).getTime() > now`. */
  predicate IsUpcoming(s: Sample, parse: string -> Option<int>, now: int)
    ensures IsUpcoming(s, parse, now) ==> parse(s.dtText).Some? && parse(s.dtText).value > now
    ensures parse(s.dtText) == None ==> !IsUpcoming(s, parse, now)
  {
    match parse(s.dtText)
    case Some(t) => t > now
    case None => false
  }

  /** `list.filter(...)`: the upcoming samples, in list order. */
  function Upcoming(list: seq<Sample>, parse: string -> Option<int>, now: int): (r: seq<Sample>)
    ensures |r| <= |list|
    ensures forall s :: s in r ==> s in list && IsUpcoming(s, parse, now)
  {
    if list == [] then []
    else
      var n := |list| - 1;
      Upcoming(list[..n], parse, now) + (if IsUpcoming(list[n], parse, now) then [list[n]] else [])
  }

  /**
   * The positions of the upcoming samples: increasing, each one upcoming,
   * and no upcoming position left out.
   */
  function UpcomingPositions(list: seq<Sample>, parse: string -> Option<int>, now: int): (ps: seq<nat>)
    ensures forall j :: 0 <= j < |ps| ==> ps[j] < |list| && IsUpcoming(list[ps[j]], parse, now)
    ensures forall a, b :: 0 <= a < b < |ps| ==> ps[a] < ps[b]
    ensures forall i :: 0 <= i < |list| && IsUpcoming(list[i], parse, now) ==> i in ps
  {
    if list == [] then []
    else
      var n := |list| - 1;
      var ps0 := UpcomingPositions(list[..n], parse, now);
      assert forall j :: 0 <= j < |ps0| ==> list[..n][ps0[j]] == list[ps0[j]];
      ps0 + (if IsUpcoming(list[n], parse, now) then [n] else [])
  }

  /** The filter picks exactly the samples at the upcoming positions. */
  lemma {:induction false} UpcomingAtPositions(list: seq<Sample>, parse: string -> Option<int>, now: int)
    ensures var u, ps := Upcoming(list, parse, now), UpcomingPositions(list, parse, now);
      |u| == |ps| && forall j :: 0 <= j < |u| ==> u[j] == list[ps[j]]
  {
    if list != [] {
      var n := |list| - 1;
      UpcomingAtPositions(list[..n], parse, now);
    }
  }

  /** `nextHours`: the first six upcoming samples, or all of them when fewer qualify. */
  function NextHours(list: seq<Sample>, parse: string -> Option<int>, now: int): (r: seq<Sample>)
    ensures forall s :: s in r ==> s in list && IsUpcoming(s, parse, now)
  {
    var u := Upcoming(list, parse, now);
    u[..Min(NextHoursCount, |u|)]
  }

  /**
   * `nextHours` is exactly the first `min(6, k)` upcoming samples, `k` being
   * how many samples are upcoming: its `j`-th entry is the sample at the
   * `j`-th upcoming position.
   */
  lemma NextHoursArePositionsPrefix(list: seq<Sample>, parse: string -> Option<int>, now: int)
    ensures var r, ps := NextHours(list, parse, now), UpcomingPositions(list, parse, now);
      && |r| == Min(NextHoursCount, |ps|)
      && forall j :: 0 <= j < |r| ==> r[j] == list[ps[j]]
  {
    UpcomingAtPositions(list, parse, now);
  }

  /** Every shown sample lies strictly after `now`; a sample at or before `now`, or with an invalid date, is never shown. */
  lemma NextHoursAfterNow(list: seq<Sample>, parse: string -> Option<int>, now: int)
    ensures forall s :: s in NextHours(list, parse, now) ==>
      parse(s.dtText).Some? && parse(s.dtText).value > now
    ensures forall i :: 0 <= i < |list| && !IsUpcoming(list[i], parse, now) ==>
      list[i] !in NextHours(list, parse, now)
  {
    var r, ps := NextHours(list, parse, now), UpcomingPositions(list, parse, now);
    NextHoursArePositionsPrefix(list, parse, now);
    assert forall s :: s in r ==> IsUpcoming(s, parse, now);
  }

  /** At most six samples are shown. */
  lemma NextHoursAtMostSix(list: seq<Sample>, parse: string -> Option<int>, now: int)
    ensures |NextHours(list, parse, now)| <= NextHoursCount
  {
  }

  /**
   * The shown samples keep list order, and no upcoming sample before a shown
   * one is skipped: every upcoming position before the `j`-th shown position
   * is one of the earlier shown positions.
   */
  lemma NextHoursSkipsNothing(list: seq<Sample>, parse: string -> Option<int>, now: int)
    ensures var r, ps := NextHours(list, parse, now), UpcomingPositions(list, parse, now);
      forall j, i :: 0 <= j < |ps| && j < |r| && 0 <= i < ps[j] && IsUpcoming(list[i], parse, now) ==> i in ps[..j]
  {
    var r, ps := NextHours(list, parse, now), UpcomingPositions(list, parse, now);
    NextHoursArePositionsPrefix(list, parse, now);
    forall j, i | 0 <= j < |ps| && j < |r| && 0 <= i < ps[j] && IsUpcoming(list[i], parse, now)
      ensures i in ps[..j]
    {
      var m :| 0 <= m < |ps| && ps[m] == i;
      assert ps[..j][m] == i;
    }
  }

  /** When fewer than six samples are upcoming, all of them are shown, with no padding. */
  lemma NextHoursWhenFew(list: seq<Sample>, parse: string -> Option<int>, now: int)
    requires |UpcomingPositions(list, parse, now)| < NextHoursCount
    ensures NextHours(list, parse, now) == Upcoming(list, parse, now)
    ensures forall i :: 0 <= i < |list| && IsUpcoming(list[i], parse, now) ==> list[i] in NextHours(list, parse, now)
  {
    var r, ps := NextHours(list, parse, now), UpcomingPositions(list, parse, now);
    NextHoursArePositionsPrefix(list, parse, now);
    UpcomingAtPositions(list, parse, now);
    forall i | 0 <= i < |list| && IsUpcoming(list[i], parse, now)
      ensures list[i] in r
    {
      var m :| 0 <= m < |ps| && ps[m] == i;
      assert r[m] == list[i];
    }
  }

  /** When every sample lies after `now`, the first six samples (or all) are shown. */
  lemma {:induction false} NextHoursAllUpcoming(list: seq<Sample>, parse: string -> Option<int>, now: int)
    requires forall i :: 0 <= i < |list| ==> IsUpcoming(list[i], parse, now)
    ensures NextHours(list, parse, now) == list[..Min(NextHoursCount, |list|)]
  {
    UpcomingOfAllUpcoming(list, parse, now);
  }

  lemma {:induction false} UpcomingOfAllUpcoming(list: seq<Sample>, parse: string -> Option<int>, now: int)
    requires forall i :: 0 <= i < |list| ==> IsUpcoming(list[i], parse, now)
    ensures Upcoming(list, parse, now) == list
  {
    if list != [] {
      var n := |list| - 1;
      assert forall i :: 0 <= i < n ==> list[..n][i] == list[i];
      UpcomingOfAllUpcoming(list[..n], parse, now);
      assert list == list[..n] + [list[n]];
    }
  }

  /** Samples at `now - 1`, `now`, `now + 1`, `now + 2`: only the last two are shown. */
  lemma NextHoursSkipsPast(list: seq<Sample>, parse: string -> Option<int>, now: int)
    requires |list| == 4
    requires forall i :: 0 <= i < 4 ==> parse(list[i].dtText) == Some(now - 1 + i)
    ensures NextHours(list, parse, now) == list[2..]
  {
    assert !IsUpcoming(list[0], parse, now) && !IsUpcoming(list[1], parse, now);
    assert IsUpcoming(list[2], parse, now) && IsUpcoming(list[3], parse, now);
    assert list[..1][..0] == [] && list[..2][..1] == list[..1] && list[..3][..2] == list[..2];
    assert list[..4][..3] == list[..3] && list[..4] == list;
    assert Upcoming(list[..1], parse, now) == [];
    assert Upcoming(list[..2], parse, now) == [];
    assert Upcoming(list[..3], parse, now) == [list[2]];
    assert Upcoming(list, parse, now) == [list[2], list[3]];
  }
}
