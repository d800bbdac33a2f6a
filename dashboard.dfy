/**
 * The dashboard: the greeting, the status counts, the list of pending drafts,
 * and the twelve-week activity heatmap. The clock enters as parameters: the
 * hour of the day, and `dayString(n)`, the date `n` days before today as the
 * drafts write dates.
 */
module Overview {
  import opened Model
  import Seqs

  // ---------------------------------------------------------------------
  // Activity heatmap
  // ---------------------------------------------------------------------

  /** How many drafts carry date `day`. */
  function DateCount(items: seq<Draft>, day: string): nat
  {
    Seqs.Count(items, (d: Draft) => d.date == day)
  }

  /** Some draft carries date `day`. */
  ghost predicate Dated(items: seq<Draft>, day: string)
  {
    exists i :: 0 <= i < |items| && items[i].date == day
  }

  lemma DatedSnoc(items: seq<Draft>, x: Draft, day: string)
    ensures Dated(items + [x], day) <==> Dated(items, day) || x.date == day
  {
    var s := items + [x];
    if Dated(items, day) {
      var i :| 0 <= i < |items| && items[i].date == day;
      assert s[i] == items[i];
    }
    if Dated(s, day) && x.date != day {
      var i :| 0 <= i < |s| && s[i].date == day;
      assert s[i] == items[i];
    }
    assert s[|items|] == x;
  }

  lemma DateCountSnoc(items: seq<Draft>, x: Draft, day: string)
    ensures DateCount(items + [x], day) == DateCount(items, day) + (if x.date == day then 1 else 0)
  {
    assert (items + [x])[..|items|] == items;
  }

  /** A date no draft carries counts zero. */
  lemma {:induction false} UndatedCountsZero(items: seq<Draft>, day: string)
    requires !Dated(items, day)
    ensures DateCount(items, day) == 0
  {
    if items != [] {
      var front := items[..|items| - 1];
      assert forall i :: 0 <= i < |front| ==> front[i] == items[i];
      UndatedCountsZero(front, day);
      assert items[|items| - 1].date != day;
    }
  }

  /**
   * `activityMap`: one entry per date some draft carries, holding how many
   * drafts carry it; drafts without a date are not counted.
   */
  method ActivityMap(items: seq<Draft>) returns (m: map<string, nat>)
    ensures forall day :: day in m <==> day != "" && Dated(items, day)
    ensures forall day :: day in m ==> m[day] == DateCount(items, day)
  {
    m := map[];
    var i := 0;
    while i < |items|
      invariant 0 <= i <= |items|
      invariant forall day :: day in m <==> day != "" && Dated(items[..i], day)
      invariant forall day :: day in m ==> m[day] == DateCount(items[..i], day)
    {
      var x := items[i];
      assert items[..i + 1] == items[..i] + [x];
      forall day
        ensures Dated(items[..i] + [x], day) <==> Dated(items[..i], day) || x.date == day
        ensures DateCount(items[..i] + [x], day) == DateCount(items[..i], day) + (if x.date == day then 1 else 0)
      {
        DatedSnoc(items[..i], x, day);
        DateCountSnoc(items[..i], x, day);
      }
      if x.date != "" {
        if x.date !in m {
          UndatedCountsZero(items[..i], x.date);
        }
        m := m[x.date := (if x.date in m then m[x.date] else 0) + 1];
      }
      i := i + 1;
    }
    assert items[..i] == items;
  }

  /** `activityMap[dateStr] || 0`. */
  function CountOn(m: map<string, nat>, day: string): nat
  {
    if day in m then m[day] else 0
  }

  /** The shade of a cell: 0 for no draft, then one step for every two more, capped at 4. */
  function Intensity(count: nat): (r: nat)
    ensures r <= 4
    ensures r == 0 <==> count == 0
    ensures r == 4 <==> count >= 7
    ensures 0 < count <= 6 ==> r == (count + 1) / 2
  {
    if count > 6 then 4
    else if count > 4 then 3
    else if count > 2 then 2
    else if count > 0 then 1
    else 0
  }

  /** More drafts never give a lighter cell. */
  lemma IntensityMonotone(a: nat, b: nat)
    requires a <= b
    ensures Intensity(a) <= Intensity(b)
  {
  }

  const Weeks: nat := 12
  const Days: nat := 7

  /** How many days before today cell (`w`, `d`) shows: the last column is this week, its last row today. */
  function DaysAgo(w: nat, d: nat): (r: nat)
    requires w < Weeks && d < Days
    ensures r < Weeks * Days
    ensures r == 0 <==> w == Weeks - 1 && d == Days - 1
  {
    (Weeks - 1 - w) * Days + (Days - 1 - d)
  }

  /** The 84 cells show the 84 days from today back, each once, the last cell being today. */
  lemma DaysAgoCoversEachDayOnce()
    ensures DaysAgo(Weeks - 1, Days - 1) == 0
    ensures forall w: nat, d: nat :: w < Weeks && d < Days ==> DaysAgo(w, d) < Weeks * Days
    ensures forall w1: nat, d1: nat, w2: nat, d2: nat ::
      w1 < Weeks && d1 < Days && w2 < Weeks && d2 < Days && DaysAgo(w1, d1) == DaysAgo(w2, d2) ==> w1 == w2 && d1 == d2
    ensures forall n: nat :: n < Weeks * Days ==> DaysAgo(Weeks - 1 - n / Days, Days - 1 - n % Days) == n
  {
    forall w: nat, d: nat | w < Weeks && d < Days
      ensures DaysAgo(w, d) / Days == Weeks - 1 - w && DaysAgo(w, d) % Days == Days - 1 - d
    {
      DivMod7(Weeks - 1 - w, Days - 1 - d);
    }
  }

  lemma DivMod7(k: nat, r: nat)
    requires r < 7
    ensures (k * 7 + r) / 7 == k && (k * 7 + r) % 7 == r
  {
  }

  /**
   * The heatmap: twelve columns of seven cells, the cell of column `w` and
   * row `d` shaded by the drafts dated `DaysAgo(w, d)` days before today.
   */
  method Grid(activity: map<string, nat>, dayString: nat -> string) returns (grid: seq<seq<nat>>)
    ensures |grid| == Weeks
    ensures forall w :: 0 <= w < Weeks ==> |grid[w]| == Days
    ensures forall w, d :: 0 <= w < Weeks && 0 <= d < Days ==>
      grid[w][d] == Intensity(CountOn(activity, dayString(DaysAgo(w, d))))
  {
    grid := [];
    var w := 0;
    while w < Weeks
      invariant 0 <= w <= Weeks && |grid| == w
      invariant forall v :: 0 <= v < w ==> |grid[v]| == Days
      invariant forall v, d :: 0 <= v < w && 0 <= d < Days ==>
        grid[v][d] == Intensity(CountOn(activity, dayString(DaysAgo(v, d))))
    {
      var week: seq<nat> := [];
      var d := 0;
      while d < Days
        invariant 0 <= d <= Days && |week| == d
        invariant forall e :: 0 <= e < d ==> week[e] == Intensity(CountOn(activity, dayString(DaysAgo(w, e))))
      {
        var count := CountOn(activity, dayString(DaysAgo(w, d)));
        week := week + [Intensity(count)];
        d := d + 1;
      }
      grid := grid + [week];
      w := w + 1;
    }
  }

  /** Today's cell is the last cell of the last column and is shaded by the drafts dated today. */
  lemma TodayCell(items: seq<Draft>, activity: map<string, nat>, dayString: nat -> string, grid: seq<seq<nat>>)
    requires forall day :: day in activity <==> day != "" && Dated(items, day)
    requires forall day :: day in activity ==> activity[day] == DateCount(items, day)
    requires dayString(0) != ""
    requires |grid| == Weeks && (forall w :: 0 <= w < Weeks ==> |grid[w]| == Days)
    requires forall w, d :: 0 <= w < Weeks && 0 <= d < Days ==>
      grid[w][d] == Intensity(CountOn(activity, dayString(DaysAgo(w, d))))
    ensures grid[Weeks - 1][Days - 1] == Intensity(DateCount(items, dayString(0)))
  {
    var today := dayString(0);
    assert DaysAgo(Weeks - 1, Days - 1) == 0;
    if today !in activity {
      UndatedCountsZero(items, today);
    }
  }

  // ---------------------------------------------------------------------
  // Greeting and counts
  // ---------------------------------------------------------------------

  datatype Greeting = GoodMorning | GoodAfternoon | GoodEvening | LateNight

  /** The greeting for the hour of the day. */
  function GreetingAt(hour: int): (r: Greeting)
    ensures r == GoodMorning <==> 5 <= hour < 12
    ensures r == GoodAfternoon <==> 12 <= hour < 18
    ensures r == GoodEvening <==> 18 <= hour < 22
    ensures r == LateNight <==> hour < 5 || hour >= 22
  {
    if 5 <= hour < 12 then GoodMorning
    else if 12 <= hour < 18 then GoodAfternoon
    else if 18 <= hour < 22 then GoodEvening
    else LateNight
  }

  function PendingItems(items: seq<Draft>): (r: seq<Draft>)
    ensures forall d :: d in r <==> d in items && d.status == Pending
    ensures Seqs.IsSubsequence(r, items)
    ensures forall d :: multiset(r)[d] == if d.status == Pending then multiset(items)[d] else 0
  {
    var p := (d: Draft) => d.status == Pending;
    Seqs.FilterIsSubsequence(items, p);
    Seqs.FilterKeepsCopies(items, p);
    Seqs.Filter(items, p)
  }

  /** The stat cards: published, pending and collected. */
  datatype Stats = Stats(published: nat, pending: nat, total: nat)

  function StatsOf(items: seq<Draft>): (r: Stats)
    ensures r.total == |items|
    ensures r.published == Seqs.Count(items, (d: Draft) => d.status == Published)
    ensures r.pending == |PendingItems(items)|
  {
    var p := (d: Draft) => d.status == Pending;
    Seqs.FilterLength(items, p);
    Stats(Seqs.Count(items, (d: Draft) => d.status == Published), Seqs.Count(items, p), |items|)
  }

  /** No draft is both published and pending: the two counts never exceed the total. */
  lemma {:induction false} StatsWithinTotal(items: seq<Draft>)
    ensures StatsOf(items).published + StatsOf(items).pending <= StatsOf(items).total
  {
    if items != [] {
      var front := items[..|items| - 1];
      StatsWithinTotal(front);
      Seqs.FilterLength(items, (d: Draft) => d.status == Pending);
      Seqs.FilterLength(front, (d: Draft) => d.status == Pending);
    }
  }

  /** The pending list on the dashboard: the first five pending drafts, in order. */
  function PendingPreview(items: seq<Draft>): (r: seq<Draft>)
    ensures |r| == if |PendingItems(items)| < 5 then |PendingItems(items)| else 5
    ensures r == PendingItems(items)[..|r|]
    ensures forall d :: d in r ==> d in items && d.status == Pending
  {
    var p := PendingItems(items);
    var r := if |p| < 5 then p else p[..5];
    assert forall d :: d in r ==> d in p;
    r
  }
}
