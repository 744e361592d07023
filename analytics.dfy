/** The analytics service: per-funnel session metrics (status counts,
    revenue, conversions, a per-day breakdown, the most recent sessions) and
    a per-user roll-up over all of a user's funnels. Dates are the sessions'
    `startedAt` instants; the calendar day of an instant is given as a
    function `dayOf`, standing for the date part of its ISO form. */
module Analytics {
  import opened Common
  import opened Entities
  import opened Store
  import Tables
  import Funnels

  // ---------------------------------------------------------------------
  // Counting sessions

  predicate IsCompleted(s: Session) { s.status == SessionStatus.Completed || s.status == SessionStatus.Paid }
  predicate IsPaid(s: Session) { s.status == SessionStatus.Paid }
  predicate IsAbandoned(s: Session) { s.status == SessionStatus.Abandoned }
  predicate IsActive(s: Session) { s.status == SessionStatus.Active }

  /** `sessions.filter(p).length`. */
  function CountWhere(ss: seq<Session>, p: Session -> bool): (n: nat)
    ensures n <= |ss|
    decreases |ss|
  {
    if ss == [] then 0
    else CountWhere(ss[..|ss| - 1], p) + (if p(ss[|ss| - 1]) then 1 else 0)
  }

  /** Counting a weaker test never gives less. */
  lemma {:induction false} CountWhereMonotone(ss: seq<Session>, p: Session -> bool, q: Session -> bool)
    requires forall s :: p(s) ==> q(s)
    ensures CountWhere(ss, p) <= CountWhere(ss, q)
    decreases |ss|
  {
    if ss != [] {
      CountWhereMonotone(ss[..|ss| - 1], p, q);
    }
  }

  /** Every session is active, completed (which takes in paid) or abandoned, and only one of them. */
  lemma {:induction false} StatusPartition(ss: seq<Session>)
    ensures CountWhere(ss, IsActive) + CountWhere(ss, IsCompleted) + CountWhere(ss, IsAbandoned) == |ss|
    decreases |ss|
  {
    if ss != [] {
      StatusPartition(ss[..|ss| - 1]);
    }
  }

  /** The summary's revenue: `paidAmount` added up over every session that has
      a non-zero one, whatever its status. */
  function SummaryRevenue(ss: seq<Session>): int
    decreases |ss|
  {
    if ss == [] then 0
    else
      var s := ss[|ss| - 1];
      SummaryRevenue(ss[..|ss| - 1]) + (if TruthyNum(s.paidAmount) then s.paidAmount.value else 0)
  }

  /** A percentage `toFixed(2)` would print: "0.00" when nothing was started,
      otherwise the ratio `part / whole` (the decimal rendering is not modelled). */
  datatype Conversion = NoneStarted | Ratio(part: nat, whole: nat)

  function ConversionOf(part: nat, whole: nat): (c: Conversion)
    ensures c.NoneStarted? <==> whole == 0
    ensures c.Ratio? ==> c.part == part && c.whole == whole && whole > 0
  {
    if whole > 0 then Ratio(part, whole) else NoneStarted
  }

  datatype Summary = Summary(
    totalStarted: nat,
    completed: nat,
    paid: nat,
    abandoned: nat,
    active: nat,
    totalRevenue: int,
    conversionToComplete: Conversion,
    conversionToPaid: Conversion)

  /** The `summary` of `getFunnelAnalytics` over the selected sessions. */
  function Summarize(ss: seq<Session>): (r: Summary)
    ensures r.totalStarted == |ss|
    ensures r.paid <= r.completed <= r.totalStarted
    ensures r.active + r.completed + r.abandoned == r.totalStarted
    ensures r.completed == CountWhere(ss, IsCompleted) && r.paid == CountWhere(ss, IsPaid)
    ensures r.abandoned == CountWhere(ss, IsAbandoned) && r.active == CountWhere(ss, IsActive)
    ensures r.totalRevenue == SummaryRevenue(ss)
    ensures r.conversionToComplete == ConversionOf(r.completed, |ss|)
    ensures r.conversionToPaid == ConversionOf(r.paid, |ss|)
  {
    CountWhereMonotone(ss, IsPaid, IsCompleted);
    StatusPartition(ss);
    var completed := CountWhere(ss, IsCompleted);
    var paid := CountWhere(ss, IsPaid);
    Summary(|ss|, completed, paid, CountWhere(ss, IsAbandoned), CountWhere(ss, IsActive),
            SummaryRevenue(ss), ConversionOf(completed, |ss|), ConversionOf(paid, |ss|))
  }

  // ---------------------------------------------------------------------
  // Recent sessions

  const RecentLimit := 20
  const AnonymousName := "Аноним"

  datatype RecentSession = RecentSession(
    id: string,
    visitorName: string,
    status: SessionStatus,
    startedAt: int,
    completedAt: Option<int>,
    paidAmount: Option<int>)

  /** `recentSessions`: the first twenty sessions of the list, a visitor without
      a name shown as "Аноним". */
  function Recent(ss: seq<Session>): (r: seq<RecentSession>)
    ensures |r| == if |ss| < RecentLimit then |ss| else RecentLimit
    ensures forall i :: 0 <= i < |r| ==>
      && r[i].id == ss[i].id && r[i].status == ss[i].status && r[i].startedAt == ss[i].startedAt
      && r[i].completedAt == ss[i].completedAt && r[i].paidAmount == ss[i].paidAmount
      && r[i].visitorName == OrString(ss[i].visitorName, AnonymousName)
  {
    var n := if |ss| < RecentLimit then |ss| else RecentLimit;
    seq(n, i requires 0 <= i < n =>
      var s := ss[i];
      RecentSession(s.id, OrString(s.visitorName, AnonymousName), s.status, s.startedAt, s.completedAt, s.paidAmount))
  }

  // ---------------------------------------------------------------------
  // The per-day breakdown

  datatype DayStats = DayStats(started: nat, completed: nat, paid: nat, revenue: int)

  const EmptyDay := DayStats(0, 0, 0, 0)

  /** One session added to its day's counters: the day's revenue takes the
      amount of a PAID session only (0 when it has none). */
  function Bump(t: DayStats, s: Session): DayStats {
    DayStats(t.started + 1,
             t.completed + (if IsCompleted(s) then 1 else 0),
             t.paid + (if IsPaid(s) then 1 else 0),
             t.revenue + (if IsPaid(s) then s.paidAmount.GetOr(0) else 0))
  }

  /** The counters of day `day` over the sessions `ss`. */
  function Tally(ss: seq<Session>, dayOf: int -> string, day: string): (t: DayStats)
    ensures t.paid <= t.completed <= t.started
    ensures t.started <= |ss|
    decreases |ss|
  {
    if ss == [] then EmptyDay
    else
      var s := ss[|ss| - 1];
      var t := Tally(ss[..|ss| - 1], dayOf, day);
      if dayOf(s.startedAt) == day then Bump(t, s) else t
  }

  /** The days on which some session of `ss` started. */
  ghost function DaysOf(ss: seq<Session>, dayOf: int -> string): set<string> {
    set i | 0 <= i < |ss| :: dayOf(ss[i].startedAt)
  }

  /** A day no session started on has no counters. */
  lemma {:induction false} TallyOtherDay(ss: seq<Session>, dayOf: int -> string, day: string)
    requires day !in DaysOf(ss, dayOf)
    ensures Tally(ss, dayOf, day) == EmptyDay
    decreases |ss|
  {
    if ss != [] {
      var init := ss[..|ss| - 1];
      assert DaysOf(init, dayOf) <= DaysOf(ss, dayOf) by {
        forall d | d in DaysOf(init, dayOf) ensures d in DaysOf(ss, dayOf) {
          var i :| 0 <= i < |init| && dayOf(init[i].startedAt) == d;
          assert ss[i] == init[i];
        }
      }
      TallyOtherDay(init, dayOf, day);
      assert dayOf(ss[|ss| - 1].startedAt) in DaysOf(ss, dayOf);
    }
  }

  datatype DailyStat = DailyStat(date: string, stats: DayStats)

  /** The dates strictly ascend, so each comes once. */
  predicate Ascending(days: seq<DailyStat>) {
    forall i, j :: 0 <= i < j < |days| ==> StrLt(days[i].date, days[j].date)
  }

  /** Puts `d` into the ascending `days` at its place. */
  function InsertDay(days: seq<DailyStat>, d: DailyStat): (r: seq<DailyStat>)
    requires Ascending(days) && forall i :: 0 <= i < |days| ==> days[i].date != d.date
    ensures Ascending(r)
    ensures forall x :: x in r <==> x in days || x == d
    ensures |r| == |days| + 1
    decreases |days|
  {
    if days == [] || StrLt(d.date, days[0].date) then
      assert forall j :: 0 < j < |days| ==> StrLt(days[0].date, days[j].date);
      forall j | 0 <= j < |days| ensures StrLt(d.date, days[j].date) {
        if j > 0 { StrLtTransitive(d.date, days[0].date, days[j].date); }
      }
      [d] + days
    else
      StrLtTotal(d.date, days[0].date);
      var tail := InsertDay(days[1..], d);
      assert forall k :: 0 <= k < |tail| ==> tail[k] in days[1..] || tail[k] == d;
      [days[0]] + tail
  }

  /** The days of a list one session longer. */
  lemma DaysOfStep(ss: seq<Session>, n: nat, dayOf: int -> string)
    requires n < |ss|
    ensures DaysOf(ss[..n + 1], dayOf) == DaysOf(ss[..n], dayOf) + {dayOf(ss[n].startedAt)}
  {
    forall d | d in DaysOf(ss[..n + 1], dayOf) ensures d in DaysOf(ss[..n], dayOf) + {dayOf(ss[n].startedAt)} {
      var i :| 0 <= i < n + 1 && dayOf(ss[..n + 1][i].startedAt) == d;
      if i < n { assert ss[..n][i] == ss[..n + 1][i]; }
    }
    forall d | d in DaysOf(ss[..n], dayOf) ensures d in DaysOf(ss[..n + 1], dayOf) {
      var i :| 0 <= i < n && dayOf(ss[..n][i].startedAt) == d;
      assert ss[..n + 1][i] == ss[..n][i];
    }
    assert ss[..n + 1][n] == ss[n];
  }

  /** The `forEach` of `groupByDay`: the counters of every day some session
      started on, keyed by day. */
  method Group(ss: seq<Session>, dayOf: int -> string) returns (grouped: map<string, DayStats>)
    ensures grouped.Keys == DaysOf(ss, dayOf)
    ensures forall d :: d in grouped ==> grouped[d] == Tally(ss, dayOf, d)
  {
    grouped := map[];
    var n := 0;
    while n < |ss|
      invariant n <= |ss|
      invariant grouped.Keys == DaysOf(ss[..n], dayOf)
      invariant forall d :: d in grouped ==> grouped[d] == Tally(ss[..n], dayOf, d)
    {
      var s := ss[n];
      var day := dayOf(s.startedAt);
      assert ss[..n + 1][..n] == ss[..n];
      if day !in grouped {
        TallyOtherDay(ss[..n], dayOf, day);
        grouped := grouped[day := EmptyDay];
      }
      grouped := grouped[day := Bump(grouped[day], s)];
      DaysOfStep(ss, n, dayOf);
      n := n + 1;
    }
    assert ss[..n] == ss;
  }

  /** The entries of `grouped` as a list, dates ascending. */
  method SortDays(grouped: map<string, DayStats>) returns (days: seq<DailyStat>)
    ensures Ascending(days)
    ensures forall d :: d in grouped <==> exists i :: 0 <= i < |days| && days[i].date == d
    ensures forall i :: 0 <= i < |days| ==> days[i].date in grouped && days[i].stats == grouped[days[i].date]
  {
    days := [];
    var rest := grouped.Keys;
    while rest != {}
      invariant rest <= grouped.Keys
      invariant Ascending(days)
      invariant forall d :: d in grouped && d !in rest <==> exists i :: 0 <= i < |days| && days[i].date == d
      invariant forall i :: 0 <= i < |days| ==> days[i].date in grouped && days[i].stats == grouped[days[i].date]
      decreases |rest|
    {
      var d :| d in rest;
      var entry := DailyStat(d, grouped[d]);
      var before := days;
      days := InsertDay(days, entry);
      forall x | x in grouped && x !in rest - {d} ensures exists i :: 0 <= i < |days| && days[i].date == x {
        if x == d {
          assert entry in days;
        } else {
          var i :| 0 <= i < |before| && before[i].date == x;
          assert before[i] in days;
        }
      }
      forall i | 0 <= i < |days|
        ensures days[i].date in grouped && days[i].date !in rest - {d} && days[i].stats == grouped[days[i].date]
      {
        assert days[i] in before || days[i] == entry;
      }
      rest := rest - {d};
    }
  }

  /** `groupByDay`: one entry per day some session started on, dates ascending,
      each with that day's counters. */
  method GroupByDay(ss: seq<Session>, dayOf: int -> string) returns (days: seq<DailyStat>)
    ensures Ascending(days)
    ensures forall d :: d in DaysOf(ss, dayOf) <==> exists i :: 0 <= i < |days| && days[i].date == d
    ensures forall i :: 0 <= i < |days| ==> days[i].stats == Tally(ss, dayOf, days[i].date)
  {
    var grouped := Group(ss, dayOf);
    days := SortDays(grouped);
  }

  // ---------------------------------------------------------------------
  // Every session is counted on exactly one day.

  function SumStarted(days: seq<DailyStat>): int
    decreases |days|
  {
    if days == [] then 0 else SumStarted(days[..|days| - 1]) + days[|days| - 1].stats.started
  }

  /** The `started` of day `day` summed over a list of days. */
  function SumTallyStarted(dates: seq<string>, ss: seq<Session>, dayOf: int -> string): int
    decreases |dates|
  {
    if dates == [] then 0
    else SumTallyStarted(dates[..|dates| - 1], ss, dayOf) + Tally(ss, dayOf, dates[|dates| - 1]).started
  }

  function Occurrences(dates: seq<string>, d: string): nat
    decreases |dates|
  {
    if dates == [] then 0 else Occurrences(dates[..|dates| - 1], d) + (if dates[|dates| - 1] == d then 1 else 0)
  }

  lemma {:induction false} SumTallyStep(dates: seq<string>, ss: seq<Session>, s: Session, dayOf: int -> string)
    ensures SumTallyStarted(dates, ss + [s], dayOf) == SumTallyStarted(dates, ss, dayOf) + Occurrences(dates, dayOf(s.startedAt))
    decreases |dates|
  {
    assert (ss + [s])[..|ss|] == ss;
    if dates != [] {
      SumTallyStep(dates[..|dates| - 1], ss, s, dayOf);
    }
  }

  lemma {:induction false} OccursOnce(dates: seq<string>, d: string)
    requires forall i, j :: 0 <= i < j < |dates| ==> dates[i] != dates[j]
    ensures Occurrences(dates, d) == (if d in dates then 1 else 0)
    decreases |dates|
  {
    if dates != [] {
      var init := dates[..|dates| - 1];
      OccursOnce(init, d);
      assert d in dates <==> d in init || dates[|dates| - 1] == d;
    }
  }

  /** Summed over a list of distinct days that takes in every day of `ss`, the
      days' `started` counters add up to the number of sessions. */
  lemma {:induction false} StartedSumsToSessions(dates: seq<string>, ss: seq<Session>, dayOf: int -> string)
    requires forall i, j :: 0 <= i < j < |dates| ==> dates[i] != dates[j]
    requires DaysOf(ss, dayOf) <= set d | d in dates
    ensures SumTallyStarted(dates, ss, dayOf) == |ss|
    decreases |ss|
  {
    if ss == [] {
      ZeroSum(dates, dayOf);
    } else {
      var init := ss[..|ss| - 1];
      var s := ss[|ss| - 1];
      assert init + [s] == ss;
      assert DaysOf(init, dayOf) <= DaysOf(ss, dayOf) by {
        forall d | d in DaysOf(init, dayOf) ensures d in DaysOf(ss, dayOf) {
          var i :| 0 <= i < |init| && dayOf(init[i].startedAt) == d;
          assert ss[i] == init[i];
        }
      }
      StartedSumsToSessions(dates, init, dayOf);
      SumTallyStep(dates, init, s, dayOf);
      assert dayOf(s.startedAt) in DaysOf(ss, dayOf);
      OccursOnce(dates, dayOf(s.startedAt));
    }
  }

  lemma {:induction false} ZeroSum(dates: seq<string>, dayOf: int -> string)
    ensures SumTallyStarted(dates, [], dayOf) == 0
    decreases |dates|
  {
    if dates != [] {
      ZeroSum(dates[..|dates| - 1], dayOf);
    }
  }

  /** The dates of a breakdown. */
  function Dates(days: seq<DailyStat>): (r: seq<string>)
    ensures |r| == |days| && forall i :: 0 <= i < |days| ==> r[i] == days[i].date
  {
    seq(|days|, i requires 0 <= i < |days| => days[i].date)
  }

  /** Over the breakdown `groupByDay` returns, the days' `started` counters add
      up to the number of sessions: each session is counted on exactly one day. */
  lemma GroupByDayCountsEverySession(ss: seq<Session>, dayOf: int -> string, days: seq<DailyStat>)
    requires Ascending(days)
    requires forall d :: d in DaysOf(ss, dayOf) <==> exists i :: 0 <= i < |days| && days[i].date == d
    requires forall i :: 0 <= i < |days| ==> days[i].stats == Tally(ss, dayOf, days[i].date)
    ensures SumStarted(days) == |ss|
  {
    var dates := Dates(days);
    forall i, j | 0 <= i < j < |dates| ensures dates[i] != dates[j] {
      StrLtIrreflexive(dates[i]);
    }
    forall d | d in DaysOf(ss, dayOf) ensures d in dates {
      var i :| 0 <= i < |days| && days[i].date == d;
      assert dates[i] == d;
    }
    StartedSumsToSessions(dates, ss, dayOf);
    SumStartedIsTally(days, ss, dayOf);
  }

  lemma {:induction false} SumStartedIsTally(days: seq<DailyStat>, ss: seq<Session>, dayOf: int -> string)
    requires forall i :: 0 <= i < |days| ==> days[i].stats == Tally(ss, dayOf, days[i].date)
    ensures SumStarted(days) == SumTallyStarted(Dates(days), ss, dayOf)
    decreases |days|
  {
    if days != [] {
      var init := days[..|days| - 1];
      assert Dates(days)[..|days| - 1] == Dates(init);
      SumStartedIsTally(init, ss, dayOf);
    }
  }

  // ---------------------------------------------------------------------
  // The funnel report

  /** The `from` / `to` bounds of the query, as instants; an absent or empty
      bound does not filter. */
  datatype DateRange = DateRange(from: Option<int>, to: Option<int>)

  predicate InRange(s: Session, range: DateRange) {
    (range.from.None? || s.startedAt >= range.from.value) && (range.to.None? || s.startedAt <= range.to.value)
  }

  datatype FunnelAnalytics = FunnelAnalytics(summary: Summary, dailyStats: seq<DailyStat>, recentSessions: seq<RecentSession>)

  /** `getFunnelAnalytics`: after the funnel check, the funnel's sessions in
      the date range, newest first, summarised, broken down by day, and the
      twenty newest listed. `sessions` is that list. */
  method GetFunnelAnalytics(db: Db, funnelId: string, userId: string, range: DateRange, dayOf: int -> string)
    returns (r: Result<FunnelAnalytics>, ghost sessions: seq<Session>)
    requires db.Valid()
    ensures r.Err? <==> CheckFunnelAccess(db.funnels, funnelId, userId).Err?
    ensures r.Err? ==> r.error == CheckFunnelAccess(db.funnels, funnelId, userId).error
    ensures r.Ok? ==> forall s :: s in sessions <==> s in db.sessions.Values && s.funnelId == funnelId && InRange(s, range)
    ensures r.Ok? ==> forall i, j :: 0 <= i < j < |sessions| ==> sessions[i].id != sessions[j].id
    ensures r.Ok? ==> forall i, j :: 0 <= i < j < |sessions| ==> sessions[i].startedAt >= sessions[j].startedAt
    ensures r.Ok? ==> r.value.summary == Summarize(sessions) && r.value.recentSessions == Recent(sessions)
    ensures r.Ok? ==> Ascending(r.value.dailyStats)
    ensures r.Ok? ==> forall d :: d in DaysOf(sessions, dayOf) <==> exists i :: 0 <= i < |r.value.dailyStats| && r.value.dailyStats[i].date == d
    ensures r.Ok? ==> forall i :: 0 <= i < |r.value.dailyStats| ==> r.value.dailyStats[i].stats == Tally(sessions, dayOf, r.value.dailyStats[i].date)
  {
    sessions := [];
    var access := CheckFunnelAccess(db.funnels, funnelId, userId);
    if access.Err? {
      return Err(access.error), sessions;
    }
    var rows := SessionsOf(db, funnelId, range, (s: Session) => -s.startedAt);
    sessions := rows;
    var daily := GroupByDay(rows, dayOf);
    r := Ok(FunnelAnalytics(Summarize(rows), daily, Recent(rows)));
  }

  /** The sessions of one funnel in the date range, each once, in `key` order. */
  method SessionsOf(db: Db, funnelId: string, range: DateRange, key: Session -> int) returns (rows: seq<Session>)
    requires SessionsKeyed(db.sessions)
    ensures forall s :: s in rows <==> s in db.sessions.Values && s.funnelId == funnelId && InRange(s, range)
    ensures forall i, j :: 0 <= i < j < |rows| ==> rows[i].id != rows[j].id
    ensures forall i, j :: 0 <= i < j < |rows| ==> key(rows[i]) <= key(rows[j])
  {
    var ids := Tables.FindMany(db.sessions, (s: Session) => s.funnelId == funnelId && InRange(s, range), key);
    rows := Tables.Rows(db.sessions, ids);
    forall s | s in db.sessions.Values && s.funnelId == funnelId && InRange(s, range)
      ensures s in rows
    {
      var k :| k in db.sessions && db.sessions[k] == s;
      assert k in ids;
      var i :| 0 <= i < |ids| && ids[i] == k;
      assert rows[i] == s;
    }
  }

  // ---------------------------------------------------------------------
  // The user report

  datatype FunnelStats = FunnelStats(started: nat, completed: nat, paid: nat, revenue: int, conversion: Conversion)

  /** The `stats` of one funnel over its sessions in the range. */
  function StatsOf(ss: seq<Session>): (st: FunnelStats)
    ensures st.started == |ss| && st.paid <= st.completed <= st.started
    ensures st.completed == CountWhere(ss, IsCompleted) && st.paid == CountWhere(ss, IsPaid)
    ensures st.revenue == SummaryRevenue(ss)
    ensures st.conversion == ConversionOf(st.paid, st.started)
  {
    CountWhereMonotone(ss, IsPaid, IsCompleted);
    var paid := CountWhere(ss, IsPaid);
    FunnelStats(|ss|, CountWhere(ss, IsCompleted), paid, SummaryRevenue(ss), ConversionOf(paid, |ss|))
  }

  datatype FunnelReport = FunnelReport(id: string, name: string, status: FunnelStatus, nodesCount: nat, stats: FunnelStats)

  datatype UserSummary = UserSummary(
    totalFunnels: nat,
    activeFunnels: nat,
    totalStarted: int,
    totalCompleted: int,
    totalPaid: int,
    totalRevenue: int,
    overallConversion: Conversion)

  datatype Totals = Totals(started: int, completed: int, paid: int, revenue: int)

  /** One funnel's stats added to the four running totals. */
  function AddStats(t: Totals, st: FunnelStats): Totals {
    Totals(t.started + st.started, t.completed + st.completed, t.paid + st.paid, t.revenue + st.revenue)
  }

  /** The four counters `getUserAnalytics` accumulates, over the reports so far. */
  function TotalsOf(reports: seq<FunnelReport>): Totals
    decreases |reports|
  {
    if reports == [] then Totals(0, 0, 0, 0)
    else AddStats(TotalsOf(reports[..|reports| - 1]), reports[|reports| - 1].stats)
  }

  /** Appending a report adds its stats to the totals. */
  lemma TotalsSnoc(reports: seq<FunnelReport>, report: FunnelReport)
    ensures TotalsOf(reports + [report]) == AddStats(TotalsOf(reports), report.stats)
  {
    assert (reports + [report])[..|reports|] == reports;
  }

  function ActiveCount(reports: seq<FunnelReport>): (n: nat)
    ensures n <= |reports|
    decreases |reports|
  {
    if reports == [] then 0
    else ActiveCount(reports[..|reports| - 1]) + (if reports[|reports| - 1].status == FunnelStatus.Active then 1 else 0)
  }

  /** When every funnel's paid ≤ completed ≤ started, so do the totals, and none is negative. */
  lemma {:induction false} TotalsBounds(reports: seq<FunnelReport>)
    requires forall i :: 0 <= i < |reports| ==> reports[i].stats.paid <= reports[i].stats.completed <= reports[i].stats.started
    ensures 0 <= TotalsOf(reports).paid <= TotalsOf(reports).completed <= TotalsOf(reports).started
    ensures TotalsOf(reports).started == 0 <==> forall i :: 0 <= i < |reports| ==> reports[i].stats.started == 0
    decreases |reports|
  {
    if reports != [] {
      TotalsBounds(reports[..|reports| - 1]);
    }
  }

  /** The `summary` object of `getUserAnalytics`, from the reports and the
      totals accumulated over them: the counters are the sums, paid never
      exceeds completed nor completed started, and the overall conversion is
      none exactly when no funnel started a session. */
  function SummaryOf(reports: seq<FunnelReport>, totals: Totals): (s: UserSummary)
    requires totals == TotalsOf(reports)
    requires forall i :: 0 <= i < |reports| ==> reports[i].stats.paid <= reports[i].stats.completed <= reports[i].stats.started
    ensures s.totalFunnels == |reports| && s.activeFunnels == ActiveCount(reports)
    ensures && s.totalStarted == totals.started && s.totalCompleted == totals.completed
            && s.totalPaid == totals.paid && s.totalRevenue == totals.revenue
    ensures 0 <= s.totalPaid <= s.totalCompleted <= s.totalStarted
    ensures s.overallConversion.NoneStarted? <==> forall i :: 0 <= i < |reports| ==> reports[i].stats.started == 0
    ensures s.overallConversion.Ratio? ==> s.overallConversion == Ratio(s.totalPaid, s.totalStarted)
  {
    TotalsBounds(reports);
    UserSummary(|reports|, ActiveCount(reports), totals.started, totals.completed, totals.paid, totals.revenue,
                if totals.started > 0 then Ratio(totals.paid, totals.started) else NoneStarted)
  }

  /** `report` and `group` describe funnel `f`: its columns, its node count,
      and the stats of `group`, which holds exactly its sessions in the range,
      each once. */
  ghost predicate ReportFor(nodes: map<string, Node>, sessions: map<string, Session>, f: Funnel, range: DateRange, report: FunnelReport, group: seq<Session>)
  {
    && report.id == f.id && report.name == f.name && report.status == f.status
    && report.nodesCount == Funnels.NodeCount(nodes, f.id)
    && report.stats == StatsOf(group)
    && (forall s :: s in group <==> s in sessions.Values && s.funnelId == f.id && InRange(s, range))
    && forall i, j :: 0 <= i < j < |group| ==> group[i].id != group[j].id
  }

  /** `reports` and `groups` describe, in order, the first `|reports|` funnels of `ids`. */
  ghost predicate ReportsFor(funnels: map<string, Funnel>, nodes: map<string, Node>, sessions: map<string, Session>, ids: seq<string>, range: DateRange, reports: seq<FunnelReport>, groups: seq<seq<Session>>)
    decreases |reports|
  {
    && |reports| == |groups| <= |ids|
    && (reports != [] ==>
          var n := |reports| - 1;
          && ReportsFor(funnels, nodes, sessions, ids, range, reports[..n], groups[..n])
          && ids[n] in funnels && reports[n].id == ids[n]
          && ReportFor(nodes, sessions, funnels[ids[n]], range, reports[n], groups[n])
          && reports[n].stats.paid <= reports[n].stats.completed <= reports[n].stats.started)
  }

  /** Counting and summing over a concatenation add up the parts. */
  lemma {:induction false} ConcatSums(u: seq<Session>, v: seq<Session>, p: Session -> bool)
    ensures CountWhere(u + v, p) == CountWhere(u, p) + CountWhere(v, p)
    ensures SummaryRevenue(u + v) == SummaryRevenue(u) + SummaryRevenue(v)
    decreases |v|
  {
    if v == [] {
      assert u + v == u;
    } else {
      var n := |v| - 1;
      ConcatSums(u, v[..n], p);
      assert (u + v)[..|u + v| - 1] == u + v[..n];
      assert (u + v)[|u + v| - 1] == v[n];
    }
  }

  /** Taking out the session at `j` takes out its part of the count and of the revenue. */
  lemma RemoveAtSums(b: seq<Session>, j: int, p: Session -> bool)
    requires 0 <= j < |b|
    ensures var rest := b[..j] + b[j + 1..];
      && CountWhere(b, p) == CountWhere(rest, p) + (if p(b[j]) then 1 else 0)
      && SummaryRevenue(b) == SummaryRevenue(rest) + (if TruthyNum(b[j].paidAmount) then b[j].paidAmount.value else 0)
  {
    assert b == b[..j] + ([b[j]] + b[j + 1..]);
    ConcatSums(b[..j], [b[j]] + b[j + 1..], p);
    ConcatSums([b[j]], b[j + 1..], p);
    ConcatSums(b[..j], b[j + 1..], p);
    assert [b[j]][..0] == [];
  }

  /** Dropping the session at `j` from a list of distinct sessions leaves a
      list of distinct sessions holding all the others. */
  lemma DropOne(b: seq<Session>, j: int)
    requires 0 <= j < |b|
    requires forall i, k :: 0 <= i < k < |b| ==> b[i].id != b[k].id
    ensures var b' := b[..j] + b[j + 1..];
      && (forall i, k :: 0 <= i < k < |b'| ==> b'[i].id != b'[k].id)
      && forall s :: s in b' <==> s in b && s != b[j]
  {
    var b' := b[..j] + b[j + 1..];
    forall i, k | 0 <= i < k < |b'|
      ensures b'[i].id != b'[k].id
    {
      var i' := if i < j then i else i + 1;
      var k' := if k < j then k else k + 1;
      assert b'[i] == b[i'] && b'[k] == b[k'];
    }
    forall s
      ensures s in b' <==> s in b && s != b[j]
    {
      if s in b' {
        var k :| 0 <= k < |b'| && b'[k] == s;
        if k < j { assert b[k] == s; } else { assert b[k + 1] == s; }
      }
      if s in b && s != b[j] {
        var k :| 0 <= k < |b| && b[k] == s;
        if k < j { assert b'[k] == s; } else { assert b'[k - 1] == s; }
      }
    }
  }

  lemma FirstIsMember(b: seq<Session>)
    ensures b != [] ==> b[0] in b
  {
  }

  /** Two lists holding the same sessions, each once, have the same length,
      the same count under any test and the same revenue: the order the
      sessions are listed in never matters. */
  lemma {:induction false} SameSessionsSameSums(a: seq<Session>, b: seq<Session>, p: Session -> bool)
    requires forall i, j :: 0 <= i < j < |a| ==> a[i].id != a[j].id
    requires forall i, j :: 0 <= i < j < |b| ==> b[i].id != b[j].id
    requires forall s :: s in a <==> s in b
    ensures |a| == |b| && CountWhere(a, p) == CountWhere(b, p) && SummaryRevenue(a) == SummaryRevenue(b)
    decreases |a|
  {
    FirstIsMember(b);
    if a != [] {
      var n := |a| - 1;
      var x := a[n];
      assert x in b;
      var j :| 0 <= j < |b| && b[j] == x;
      var b' := b[..j] + b[j + 1..];
      DropOne(b, j);
      DropOne(a, n);
      assert a[..n] + a[n + 1..] == a[..n];
      SameSessionsSameSums(a[..n], b', p);
      RemoveAtSums(b, j, p);
    }
  }

  /** A report is determined by its funnel, the tables and the range: two
      lists of the funnel's sessions that each satisfy `ReportFor` give the
      same report, so its counts are those of the funnel's sessions in the
      range, each counted once. */
  lemma ReportForDetermined(nodes: map<string, Node>, sessions: map<string, Session>, f: Funnel, range: DateRange,
                            report: FunnelReport, group: seq<Session>, report': FunnelReport, group': seq<Session>)
    requires ReportFor(nodes, sessions, f, range, report, group)
    requires ReportFor(nodes, sessions, f, range, report', group')
    ensures report == report'
  {
    SameSessionsSameSums(group, group', IsCompleted);
    SameSessionsSameSums(group, group', IsPaid);
  }

  lemma ReportsForSnoc(funnels: map<string, Funnel>, nodes: map<string, Node>, sessions: map<string, Session>, ids: seq<string>, range: DateRange, reports: seq<FunnelReport>, groups: seq<seq<Session>>,
                       report: FunnelReport, group: seq<Session>)
    requires ReportsFor(funnels, nodes, sessions, ids, range, reports, groups) && |reports| < |ids|
    requires ids[|reports|] in funnels && report.id == ids[|reports|]
    requires ReportFor(nodes, sessions, funnels[ids[|reports|]], range, report, group)
    requires report.stats.paid <= report.stats.completed <= report.stats.started
    ensures ReportsFor(funnels, nodes, sessions, ids, range, reports + [report], groups + [group])
  {
    assert (reports + [report])[..|reports|] == reports;
    assert (groups + [group])[..|groups|] == groups;
  }

  /** Report `i` of a `ReportsFor` list describes funnel `ids[i]`. */
  lemma {:induction false} ReportsForAt(funnels: map<string, Funnel>, nodes: map<string, Node>, sessions: map<string, Session>, ids: seq<string>, range: DateRange, reports: seq<FunnelReport>,
                                        groups: seq<seq<Session>>, i: int)
    requires ReportsFor(funnels, nodes, sessions, ids, range, reports, groups) && 0 <= i < |reports|
    ensures ids[i] in funnels && reports[i].id == ids[i]
    ensures ReportFor(nodes, sessions, funnels[ids[i]], range, reports[i], groups[i])
    ensures reports[i].stats.paid <= reports[i].stats.completed <= reports[i].stats.started
    decreases |reports|
  {
    var n := |reports| - 1;
    if i < n {
      ReportsForAt(funnels, nodes, sessions, ids, range, reports[..n], groups[..n], i);
      assert reports[..n][i] == reports[i] && groups[..n][i] == groups[i];
    }
  }

  /** One element of `funnelStats`. */
  method ReportOf(db: Db, f: Funnel, range: DateRange) returns (report: FunnelReport, ghost group: seq<Session>)
    requires SessionsKeyed(db.sessions)
    ensures report.id == f.id
    ensures ReportFor(db.nodes, db.sessions, f, range, report, group)
    ensures report.stats.paid <= report.stats.completed <= report.stats.started
  {
    var ss := SessionsOf(db, f.id, range, (s: Session) => 0);
    group := ss;
    report := FunnelReport(f.id, f.name, f.status, Funnels.NodeCount(db.nodes, f.id), StatsOf(ss));
  }

  /** The `funnels.map` of `getUserAnalytics`: a report per funnel id, and the
      four totals accumulated as it goes. */
  method Reports(db: Db, ids: seq<string>, range: DateRange)
    returns (reports: seq<FunnelReport>, ghost groups: seq<seq<Session>>, totals: Totals)
    requires SessionsKeyed(db.sessions) && forall i :: 0 <= i < |ids| ==> ids[i] in db.funnels && db.funnels[ids[i]].id == ids[i]
    ensures |reports| == |ids| && ReportsFor(db.funnels, db.nodes, db.sessions, ids, range, reports, groups)
    ensures totals == TotalsOf(reports)
  {
    totals := Totals(0, 0, 0, 0);
    reports, groups := [], [];
    var n := 0;
    while n < |ids|
      invariant n <= |ids|
      invariant |reports| == n && ReportsFor(db.funnels, db.nodes, db.sessions, ids, range, reports, groups)
      invariant totals == TotalsOf(reports)
    {
      var report;
      ghost var group;
      report, group := ReportOf(db, db.funnels[ids[n]], range);
      totals := AddStats(totals, report.stats);
      TotalsSnoc(reports, report);
      ReportsForSnoc(db.funnels, db.nodes, db.sessions, ids, range, reports, groups, report, group);
      reports, groups := reports + [report], groups + [group];
      n := n + 1;
    }
  }

  /** The reports of the user's funnels, listed once each, read as the
      contract of `getUserAnalytics` states them. */
  lemma UserReports(funnels: map<string, Funnel>, nodes: map<string, Node>, sessions: map<string, Session>, userId: string, range: DateRange, ids: seq<string>,
                    reports: seq<FunnelReport>, groups: seq<seq<Session>>)
    requires forall id :: id in ids <==> id in funnels && funnels[id].userId == userId
    requires Tables.Distinct(ids)
    requires |reports| == |ids| && ReportsFor(funnels, nodes, sessions, ids, range, reports, groups)
    ensures forall k :: k in funnels && funnels[k].userId == userId <==> exists i :: 0 <= i < |reports| && reports[i].id == k
    ensures |groups| == |reports|
    ensures forall i :: 0 <= i < |reports| ==> reports[i].id in funnels && ReportFor(nodes, sessions, funnels[reports[i].id], range, reports[i], groups[i])
    ensures forall i, j :: 0 <= i < j < |reports| ==> reports[i].id != reports[j].id
    ensures forall i :: 0 <= i < |reports| ==> reports[i].stats.paid <= reports[i].stats.completed <= reports[i].stats.started
  {
    forall i | 0 <= i < |ids|
      ensures reports[i].id == ids[i] && ReportFor(nodes, sessions, funnels[ids[i]], range, reports[i], groups[i])
      ensures reports[i].stats.paid <= reports[i].stats.completed <= reports[i].stats.started
    {
      ReportsForAt(funnels, nodes, sessions, ids, range, reports, groups, i);
    }
    forall k | k in funnels && funnels[k].userId == userId
      ensures exists i :: 0 <= i < |reports| && reports[i].id == k
    {
      var i :| 0 <= i < |ids| && ids[i] == k;
      assert reports[i].id == k;
    }
  }

  /** `getUserAnalytics`: one report per funnel of the user, with its node
      count and the stats of its sessions in the range, and the totals
      accumulated over them. `groups[i]` is the session list of funnel `i`. */
  method GetUserAnalytics(db: Db, userId: string, range: DateRange)
    returns (summary: UserSummary, reports: seq<FunnelReport>, ghost groups: seq<seq<Session>>)
    requires db.Valid()
    ensures forall k :: k in db.funnels && db.funnels[k].userId == userId <==> exists i :: 0 <= i < |reports| && reports[i].id == k
    ensures |groups| == |reports|
    ensures forall i :: 0 <= i < |reports| ==> reports[i].id in db.funnels && ReportFor(db.nodes, db.sessions, db.funnels[reports[i].id], range, reports[i], groups[i])
    ensures forall i, j :: 0 <= i < j < |reports| ==> reports[i].id != reports[j].id
    ensures forall i :: 0 <= i < |reports| ==> reports[i].stats.paid <= reports[i].stats.completed <= reports[i].stats.started
    ensures summary == SummaryOf(reports, TotalsOf(reports))
  {
    var ids := Tables.FindMany(db.funnels, (f: Funnel) => f.userId == userId, (f: Funnel) => f.createdAt);
    var totals;
    reports, groups, totals := Reports(db, ids, range);
    UserReports(db.funnels, db.nodes, db.sessions, userId, range, ids, reports, groups);
    summary := SummaryOf(reports, totals);
  }

}
