/** The dashboard figures, in paise, as they are derived from durable records. */
module Metrics {
  import opened Domain

  /** One of the four payment-failure classes. */
  type FailureClass = c: int | 1 <= c <= 4 witness 1

  /** `settledOn` is the day of the last update, as a day count. */
  datatype Transaction = Transaction(
    id: string, run: Option<string>, atRisk: bool, failureClass: FailureClass, amount: nat,
    state: LifecycleState, settledOn: int)

  datatype Audit = Audit(txn: string, dispatch: bool, channel: Option<Channel>, rule: Option<StoppingRule>)

  datatype Ticket = Ticket(txn: string, rule: Option<StoppingRule>)

  datatype Records = Records(transactions: seq<Transaction>, audits: seq<Audit>, tickets: seq<Ticket>)

  // ------------------------------------------------------------ list algebra

  function Keep<T>(xs: seq<T>, p: T -> bool): seq<T> {
    if xs == [] then []
    else Keep(xs[..|xs| - 1], p) + if p(xs[|xs| - 1]) then [xs[|xs| - 1]] else []
  }

  function Tally<T>(xs: seq<T>, p: T -> bool): nat {
    if xs == [] then 0
    else Tally(xs[..|xs| - 1], p) + if p(xs[|xs| - 1]) then 1 else 0
  }

  /** The money of the transactions that satisfy `p`. */
  function Total(ts: seq<Transaction>, p: Transaction -> bool): nat {
    if ts == [] then 0
    else Total(ts[..|ts| - 1], p) + if p(ts[|ts| - 1]) then ts[|ts| - 1].amount else 0
  }

  function Insert<T>(xs: seq<T>, x: T, k: nat): seq<T> {
    if k <= |xs| then xs[..k] + [x] + xs[k..] else xs + [x]
  }

  lemma {:induction false} InsertIsFilteredOut<T>(xs: seq<T>, x: T, k: nat, p: T -> bool)
    requires !p(x)
    ensures Keep(Insert(xs, x, k), p) == Keep(xs, p)
  {
    var whole := Insert(xs, x, k);
    var n := |whole| - 1;
    if k >= |xs| {
      assert whole[..n] == xs;
    } else {
      InsertIsFilteredOut(xs[..|xs| - 1], x, k, p);
      assert whole[..n] == Insert(xs[..|xs| - 1], x, k) && whole[n] == xs[|xs| - 1];
    }
  }

  lemma {:induction false} TotalSplits(ts: seq<Transaction>, p: Transaction -> bool, q: Transaction -> bool,
                                       r: Transaction -> bool)
    requires forall k :: 0 <= k < |ts| ==> (r(ts[k]) <==> p(ts[k]) || q(ts[k])) && !(p(ts[k]) && q(ts[k]))
    ensures Total(ts, r) == Total(ts, p) + Total(ts, q)
  {
    if ts != [] { TotalSplits(ts[..|ts| - 1], p, q, r); }
  }

  lemma {:induction false} TotalIsNothing(ts: seq<Transaction>, p: Transaction -> bool)
    requires forall k :: 0 <= k < |ts| ==> !p(ts[k])
    ensures Total(ts, p) == 0
  {
    if ts != [] { TotalIsNothing(ts[..|ts| - 1], p); }
  }

  // ------------------------------------------------------------------ scope

  function OfRun(run: Option<string>): Transaction -> bool { (t: Transaction) => t.run == run }

  function About(ids: set<string>): Audit -> bool { (a: Audit) => a.txn in ids }

  function Ids(ts: seq<Transaction>): set<string> { set k | 0 <= k < |ts| :: ts[k].id }

  /** The records a computation looks at: the transactions of one run, or of none, and
      the audits and tickets of those transactions. */
  function Scope(db: Records, run: Option<string>): Records {
    var ts := Keep(db.transactions, OfRun(run));
    var ids := Ids(ts);
    Records(ts, Keep(db.audits, About(ids)), Keep(db.tickets, (e: Ticket) => e.txn in ids))
  }

  /** A row of some other run, and where it lands in its table. */
  datatype Row =
    | TransactionRow(t: Transaction, k: nat)
    | AuditRow(a: Audit, k: nat)
    | TicketRow(e: Ticket, k: nat)

  function Add(db: Records, row: Row): Records {
    match row
    case TransactionRow(t, k) => db.(transactions := Insert(db.transactions, t, k))
    case AuditRow(a, k) => db.(audits := Insert(db.audits, a, k))
    case TicketRow(e, k) => db.(tickets := Insert(db.tickets, e, k))
  }

  function AddAll(db: Records, rows: seq<Row>): Records {
    if rows == [] then db else Add(AddAll(db, rows[..|rows| - 1]), rows[|rows| - 1])
  }

  /** A transaction of another run, or a row about a transaction outside this one. */
  predicate Foreign(row: Row, run: Option<string>, ids: set<string>) {
    match row
    case TransactionRow(t, _) => !OfRun(run)(t)
    case AuditRow(a, _) => a.txn !in ids
    case TicketRow(e, _) => e.txn !in ids
  }

  lemma ForeignRowIsOutOfScope(db: Records, row: Row, run: Option<string>)
    requires Foreign(row, run, Ids(Scope(db, run).transactions))
    ensures Scope(Add(db, row), run) == Scope(db, run)
  {
    var ids := Ids(Scope(db, run).transactions);
    match row
    case TransactionRow(t, k) => InsertIsFilteredOut(db.transactions, t, k, OfRun(run));
    case AuditRow(a, k) => InsertIsFilteredOut(db.audits, a, k, About(ids));
    case TicketRow(e, k) => InsertIsFilteredOut(db.tickets, e, k, (e: Ticket) => e.txn in ids);
  }

  /** However many rows of other runs are added, wherever they land, the records of this
      run, and with them every figure, stay the same. */
  lemma {:induction false} OtherRunsChangeNothing(db: Records, rows: seq<Row>, run: Option<string>)
    requires forall k :: 0 <= k < |rows| ==> Foreign(rows[k], run, Ids(Scope(db, run).transactions))
    ensures Scope(AddAll(db, rows), run) == Scope(db, run)
  {
    if rows != [] {
      OtherRunsChangeNothing(db, rows[..|rows| - 1], run);
      ForeignRowIsOutOfScope(AddAll(db, rows[..|rows| - 1]), rows[|rows| - 1], run);
    }
  }

  // ------------------------------------------------------------ the figures

  predicate AtRisk(t: Transaction) { t.atRisk }

  predicate Settled(t: Transaction) { t.atRisk && t.state.Recovered? }

  predicate InFlight(t: Transaction) { t.atRisk && (t.state.Intervening? || t.state.Waiting?) }

  predicate Lost(t: Transaction) { t.atRisk && t.state.Failed? }

  /** Neither recovered, nor in flight, nor lost. */
  predicate Parked(t: Transaction) {
    t.atRisk && (t.state.Pending? || t.state.Diagnosing? || t.state.Escalated? || t.state.Cancelled?)
  }

  predicate NotMoving(t: Transaction) { Lost(t) || Parked(t) }

  predicate NotSettled(t: Transaction) { InFlight(t) || NotMoving(t) }

  function OfClass(p: Transaction -> bool, c: int): Transaction -> bool {
    (t: Transaction) => p(t) && t.failureClass == c
  }

  function UpToClass(p: Transaction -> bool, c: int): Transaction -> bool {
    (t: Transaction) => p(t) && t.failureClass <= c
  }

  lemma HeadlinesCoverTheRisk(ts: seq<Transaction>)
    ensures Total(ts, AtRisk) == Total(ts, Settled) + Total(ts, InFlight) + Total(ts, Lost) + Total(ts, Parked)
  {
    TotalSplits(ts, Settled, NotSettled, AtRisk);
    TotalSplits(ts, InFlight, NotMoving, NotSettled);
    TotalSplits(ts, Lost, Parked, NotMoving);
  }

  lemma {:induction false} ClassesUpTo(ts: seq<Transaction>, p: Transaction -> bool, c: nat)
    ensures Total(ts, UpToClass(p, c)) == SumOfClasses(ts, p, c)
  {
    if c == 0 {
      TotalIsNothing(ts, UpToClass(p, 0));
    } else {
      ClassesUpTo(ts, p, c - 1);
      TotalSplits(ts, UpToClass(p, c - 1), OfClass(p, c), UpToClass(p, c));
    }
  }

  function SumOfClasses(ts: seq<Transaction>, p: Transaction -> bool, c: nat): nat {
    if c == 0 then 0 else SumOfClasses(ts, p, c - 1) + Total(ts, OfClass(p, c))
  }

  /** The breakdown by class neither loses nor doubles a paisa. */
  lemma ClassesAddUp(ts: seq<Transaction>, p: Transaction -> bool)
    ensures Total(ts, p) == Total(ts, OfClass(p, 1)) + Total(ts, OfClass(p, 2)) + Total(ts, OfClass(p, 3))
                          + Total(ts, OfClass(p, 4))
  {
    ClassesUpTo(ts, p, 4);
    var none := (t: Transaction) => false;
    TotalSplits(ts, UpToClass(p, 4), none, p);
    TotalIsNothing(ts, none);
    assert SumOfClasses(ts, p, 4) == SumOfClasses(ts, p, 3) + Total(ts, OfClass(p, 4));
    assert SumOfClasses(ts, p, 3) == SumOfClasses(ts, p, 2) + Total(ts, OfClass(p, 3));
  }

  // -------------------------------------------------------- the time series

  datatype Point = Point(date: int, recovered: nat, cumulative: nat)

  function SettledOn(day: int): Transaction -> bool { (t: Transaction) => Settled(t) && t.settledOn == day }

  function SettledBy(day: int): Transaction -> bool { (t: Transaction) => Settled(t) && t.settledOn <= day }

  predicate Increasing(days: seq<int>) { forall i, j :: 0 <= i < j < |days| ==> days[i] < days[j] }

  lemma EarliestExists(days: set<int>)
    requires |days| > 0
    ensures exists d :: d in days && forall e :: e in days ==> d <= e
    decreases |days|
  {
    assert (forall d :: d !in days) ==> days == {};
    var d :| d in days;
    var rest := days - {d};
    if rest == {} {
      assert days == {d};
    } else {
      EarliestExists(rest);
      var e :| e in rest && forall f :: f in rest ==> e <= f;
      var first := if d < e then d else e;
      forall f | f in days
        ensures first <= f
      {
        assert f == d || f in rest;
      }
      assert first in days;
    }
  }

  method SortedDays(days: set<int>) returns (sorted: seq<int>)
    ensures Increasing(sorted) && forall d :: d in sorted <==> d in days
  {
    sorted := [];
    var left := days;
    while |left| > 0
      invariant Increasing(sorted) && left <= days
      invariant forall d :: d in days <==> d in sorted || d in left
      invariant forall i, e :: 0 <= i < |sorted| && e in left ==> sorted[i] < e
      decreases |left|
    {
      EarliestExists(left);
      var d :| d in left && forall e :: e in left ==> d <= e;
      sorted, left := sorted + [d], left - {d};
    }
  }

  function DaysOf(series: seq<Point>): seq<int> { seq(|series|, k requires 0 <= k < |series| => series[k].date) }

  /** What the dashboard shows for one day. */
  function PointOn(ts: seq<Transaction>, day: int): Point {
    Point(day, Total(ts, SettledOn(day)), Total(ts, SettledBy(day)))
  }

  /** One point for every day something settled on, in order. */
  ghost predicate IsSeries(series: seq<Point>, ts: seq<Transaction>) {
    && (forall k :: 0 <= k < |series| ==> series[k] == PointOn(ts, series[k].date))
    && (forall d :: d in DaysOf(series) ==> exists i :: 0 <= i < |ts| && SettledOn(d)(ts[i]))
    && Covers(DaysOf(series), ts)
  }

  /** The first `k` points of the series over these days. */
  predicate Tabulates(series: seq<Point>, ts: seq<Transaction>, days: seq<int>, k: nat)
    requires k <= |days|
  {
    |series| == k && forall i :: 0 <= i < k ==> series[i] == PointOn(ts, days[i])
  }

  /** `days` are exactly the days something settled on, in order. */
  ghost predicate DaysOfSettlement(days: seq<int>, ts: seq<Transaction>) {
    Increasing(days) && forall d :: d in days <==> exists i :: 0 <= i < |ts| && SettledOn(d)(ts[i])
  }

  lemma DaysOfSettlementCover(days: seq<int>, ts: seq<Transaction>)
    requires DaysOfSettlement(days, ts)
    ensures Covers(days, ts)
  {
    forall i | 0 <= i < |ts| && Settled(ts[i])
      ensures ts[i].settledOn in days
    {
      assert SettledOn(ts[i].settledOn)(ts[i]);
    }
  }

  lemma TabulatedIsSeries(series: seq<Point>, ts: seq<Transaction>, days: seq<int>)
    requires DaysOfSettlement(days, ts) && Tabulates(series, ts, days, |days|)
    ensures IsSeries(series, ts)
  {
    DaysOfSettlementCover(days, ts);
    assert DaysOf(series) == days;
  }

  /** The running sum of the daily recoveries, day by day. */
  method RunningSum(ts: seq<Transaction>, days: seq<int>, perDay: map<int, nat>) returns (series: seq<Point>)
    requires Covers(days, ts)
    requires forall k :: 0 <= k < |days| ==> days[k] in perDay && perDay[days[k]] == Total(ts, SettledOn(days[k]))
    ensures Tabulates(series, ts, days, |days|)
  {
    var running := 0;
    series := [];
    for k := 0 to |days|
      invariant running == if k == 0 then 0 else Total(ts, SettledBy(days[k - 1]))
      invariant Tabulates(series, ts, days, k)
    {
      NextDay(ts, days, k);
      running := running + perDay[days[k]];
      series := series + [Point(days[k], perDay[days[k]], running)];
    }
  }

  /** The daily recoveries, then their running sum in the order of the days. */
  method TimeSeries(ts: seq<Transaction>) returns (series: seq<Point>)
    ensures IsSeries(series, ts)
  {
    var perDay := DailyTotals(ts);
    var days := SortedDays(perDay.Keys);
    DaysOfSettlementCover(days, ts);
    forall k | 0 <= k < |days|
      ensures days[k] in perDay && perDay[days[k]] == Total(ts, SettledOn(days[k]))
    {
      assert days[k] in days;
    }
    series := RunningSum(ts, days, perDay);
    TabulatedIsSeries(series, ts, days);
  }

  /** A series never falls, and it ends at everything recovered. */
  lemma SeriesClimbsToTheTotal(series: seq<Point>, ts: seq<Transaction>)
    requires IsSeries(series, ts)
    ensures forall i, j :: 0 <= i < j < |series| ==> series[i].cumulative <= series[j].cumulative
    ensures Total(ts, Settled) == if series == [] then 0 else series[|series| - 1].cumulative
  {
    forall i, j | 0 <= i < j < |series|
      ensures series[i].cumulative <= series[j].cumulative
    {
      assert DaysOf(series)[i] < DaysOf(series)[j];
      Later(ts, series[i].date, series[j].date);
    }
    var days := DaysOf(series);
    Ends(ts, days);
  }

  method DailyTotals(ts: seq<Transaction>) returns (perDay: map<int, nat>)
    ensures forall d :: d in perDay <==> exists k :: 0 <= k < |ts| && SettledOn(d)(ts[k])
    ensures forall d :: d in perDay ==> perDay[d] == Total(ts, SettledOn(d))
  {
    perDay := map[];
    for k := 0 to |ts|
      invariant forall d :: d in perDay <==> exists i :: 0 <= i < k && SettledOn(d)(ts[i])
      invariant forall d :: d in perDay ==> perDay[d] == Total(ts[..k], SettledOn(d))
    {
      var t := ts[k];
      assert ts[..k + 1][..k] == ts[..k];
      if t.atRisk && t.state.Recovered? {
        if t.settledOn !in perDay {
          TotalIsNothing(ts[..k], SettledOn(t.settledOn));
        }
        var before := if t.settledOn in perDay then perDay[t.settledOn] else 0;
        perDay := perDay[t.settledOn := before + t.amount];
      }
    }
    assert ts[..|ts|] == ts;
  }

  /** `days` are the days something settled on. */
  predicate Covers(days: seq<int>, ts: seq<Transaction>) {
    Increasing(days) && forall k :: 0 <= k < |ts| && Settled(ts[k]) ==> ts[k].settledOn in days
  }

  lemma NextDay(ts: seq<Transaction>, days: seq<int>, k: nat)
    requires Covers(days, ts) && k < |days|
    ensures Total(ts, SettledBy(days[k]))
         == (if k == 0 then 0 else Total(ts, SettledBy(days[k - 1]))) + Total(ts, SettledOn(days[k]))
  {
    var before := if k == 0 then days[0] - 1 else days[k - 1];
    forall i | 0 <= i < |ts| && Settled(ts[i]) && before < ts[i].settledOn <= days[k]
      ensures ts[i].settledOn == days[k]
    {
      var j :| 0 <= j < |days| && days[j] == ts[i].settledOn;
    }
    TotalSplits(ts, SettledBy(before), SettledOn(days[k]), SettledBy(days[k]));
    if k == 0 {
      forall i | 0 <= i < |ts|
        ensures !SettledBy(before)(ts[i])
      {
        if Settled(ts[i]) {
          var j :| 0 <= j < |days| && days[j] == ts[i].settledOn;
        }
      }
      TotalIsNothing(ts, SettledBy(before));
    }
  }

  lemma Later(ts: seq<Transaction>, a: int, b: int)
    requires a <= b
    ensures Total(ts, SettledBy(a)) <= Total(ts, SettledBy(b))
  {
    TotalSplits(ts, SettledBy(a), (t: Transaction) => Settled(t) && a < t.settledOn <= b, SettledBy(b));
  }

  lemma Ends(ts: seq<Transaction>, days: seq<int>)
    requires Covers(days, ts)
    ensures Total(ts, Settled) == if days == [] then 0 else Total(ts, SettledBy(days[|days| - 1]))
  {
    var none := (t: Transaction) => false;
    TotalIsNothing(ts, none);
    if days == [] {
      TotalIsNothing(ts, Settled);
    } else {
      TotalSplits(ts, SettledBy(days[|days| - 1]), none, Settled);
    }
  }

  // ------------------------------------------------------------- by class

  datatype ClassFigures = ClassFigures(atRisk: nat, recovered: nat, count: nat, recoveredCount: nat)

  function FiguresOf(ts: seq<Transaction>, c: int): ClassFigures {
    ClassFigures(Total(ts, OfClass(AtRisk, c)), Total(ts, OfClass(Settled, c)),
                 Tally(ts, OfClass(AtRisk, c)), Tally(ts, OfClass(Settled, c)))
  }

  method OfOneClass(ts: seq<Transaction>, c: int) returns (figures: ClassFigures)
    ensures figures == FiguresOf(ts, c)
  {
    var atRisk: nat, recovered: nat, count: nat, recoveredCount: nat := 0, 0, 0, 0;
    for k := 0 to |ts|
      invariant atRisk == Total(ts[..k], OfClass(AtRisk, c)) && count == Tally(ts[..k], OfClass(AtRisk, c))
      invariant recovered == Total(ts[..k], OfClass(Settled, c)) && recoveredCount == Tally(ts[..k], OfClass(Settled, c))
    {
      var t := ts[k];
      assert ts[..k + 1][..k] == ts[..k];
      assert OfClass(AtRisk, c)(t) <==> AtRisk(t) && t.failureClass == c;
      assert OfClass(Settled, c)(t) <==> Settled(t) && t.failureClass == c;
      if t.atRisk && t.failureClass == c {
        atRisk, count := atRisk + t.amount, count + 1;
        if t.state.Recovered? {
          recovered, recoveredCount := recovered + t.amount, recoveredCount + 1;
        }
      }
    }
    assert ts[..|ts|] == ts;
    figures := ClassFigures(atRisk, recovered, count, recoveredCount);
  }

  method ByClass(ts: seq<Transaction>) returns (figures: seq<ClassFigures>)
    ensures |figures| == 4 && forall c :: 0 <= c < 4 ==> figures[c] == FiguresOf(ts, c + 1)
    ensures figures[0].atRisk + figures[1].atRisk + figures[2].atRisk + figures[3].atRisk == Total(ts, AtRisk)
    ensures figures[0].recovered + figures[1].recovered + figures[2].recovered + figures[3].recovered == Total(ts, Settled)
  {
    figures := [];
    for c := 1 to 5
      invariant |figures| == c - 1 && forall d :: 0 <= d < c - 1 ==> figures[d] == FiguresOf(ts, d + 1)
    {
      var one := OfOneClass(ts, c);
      figures := figures + [one];
    }
    ClassesAddUp(ts, AtRisk);
    ClassesAddUp(ts, Settled);
  }

  // ----------------------------------------------------------- by channel

  /** A dispatch without a channel counts as a payment link. */
  function ChannelOf(a: Audit): Channel { a.channel.GetOr(PaymentLink) }

  function OnChannel(channel: Channel): Audit -> bool { (a: Audit) => a.dispatch && ChannelOf(a) == channel }

  function WonOn(channel: Channel, won: set<string>): Audit -> bool {
    (a: Audit) => OnChannel(channel)(a) && a.txn in won
  }

  function WonIds(ts: seq<Transaction>): set<string> {
    set k | 0 <= k < |ts| && ts[k].state.Recovered? :: ts[k].id
  }

  datatype ChannelFigures = ChannelFigures(dispatched: nat, recovered: nat)

  function OnChannels(audits: seq<Audit>, won: set<string>, channel: Channel): ChannelFigures {
    ChannelFigures(Tally(audits, OnChannel(channel)), Tally(audits, WonOn(channel, won)))
  }

  method ChannelBreakdown(ts: seq<Transaction>, audits: seq<Audit>) returns (out: map<Channel, ChannelFigures>)
    ensures forall channel ::
      (if channel in out then out[channel] else ChannelFigures(0, 0)) == OnChannels(audits, WonIds(ts), channel)
    ensures forall channel :: channel in out <==> Tally(audits, OnChannel(channel)) > 0
  {
    out := map[];
    var won := WonIds(ts);
    for k := 0 to |audits|
      invariant forall channel ::
        (if channel in out then out[channel] else ChannelFigures(0, 0)) == OnChannels(audits[..k], won, channel)
      invariant forall channel :: channel in out <==> Tally(audits[..k], OnChannel(channel)) > 0
    {
      assert audits[..k + 1][..k] == audits[..k];
      var a := audits[k];
      if a.dispatch {
        var channel := a.channel.GetOr(PaymentLink);
        var before := if channel in out then out[channel] else ChannelFigures(0, 0);
        out := out[channel := ChannelFigures(before.dispatched + 1, before.recovered + if a.txn in won then 1 else 0)];
      }
    }
    assert audits[..|audits|] == audits;
  }

  predicate IsIntervention(a: Audit) { a.dispatch }

  /** Every intervention is counted on one channel, and wins never outnumber attempts. */
  lemma {:induction false} ChannelsAddUp(audits: seq<Audit>, won: set<string>)
    ensures OnChannels(audits, won, WhatsApp).dispatched + OnChannels(audits, won, Voice).dispatched
          + OnChannels(audits, won, PaymentLink).dispatched == Tally(audits, IsIntervention)
    ensures forall channel :: OnChannels(audits, won, channel).recovered <= OnChannels(audits, won, channel).dispatched
  {
    if audits != [] {
      var front := audits[..|audits| - 1];
      ChannelsAddUp(front, won);
      forall channel
        ensures OnChannels(audits, won, channel).recovered <= OnChannels(audits, won, channel).dispatched
      {
        assert OnChannels(front, won, channel).recovered <= OnChannels(front, won, channel).dispatched;
      }
    }
  }

  // ---------------------------------------------------------- the whole

  datatype Figures = Figures(
    atRisk: nat, recovered: nat, inFlight: nat, lost: nat, byClass: seq<ClassFigures>,
    channels: map<Channel, ChannelFigures>, series: seq<Point>)

  /** The headline figures of a list of transactions. */
  method Headlines(ts: seq<Transaction>) returns (atRisk: nat, recovered: nat, inFlight: nat, lost: nat)
    ensures atRisk == Total(ts, AtRisk) && recovered == Total(ts, Settled)
    ensures inFlight == Total(ts, InFlight) && lost == Total(ts, Lost)
  {
    atRisk, recovered, inFlight, lost := 0, 0, 0, 0;
    for k := 0 to |ts|
      invariant atRisk == Total(ts[..k], AtRisk) && recovered == Total(ts[..k], Settled)
      invariant inFlight == Total(ts[..k], InFlight) && lost == Total(ts[..k], Lost)
    {
      assert ts[..k + 1][..k] == ts[..k];
      var t := ts[k];
      if AtRisk(t) { atRisk := atRisk + t.amount; }
      if Settled(t) { recovered := recovered + t.amount; }
      if InFlight(t) { inFlight := inFlight + t.amount; }
      if Lost(t) { lost := lost + t.amount; }
    }
    assert ts[..|ts|] == ts;
  }

  /** What makes a set of figures the figures of some records. */
  ghost predicate Describes(m: Figures, s: Records) {
    && m.atRisk == Total(s.transactions, AtRisk) && m.recovered == Total(s.transactions, Settled)
    && m.inFlight == Total(s.transactions, InFlight) && m.lost == Total(s.transactions, Lost)
    && |m.byClass| == 4 && (forall c :: 0 <= c < 4 ==> m.byClass[c] == FiguresOf(s.transactions, c + 1))
    && (forall channel :: (if channel in m.channels then m.channels[channel] else ChannelFigures(0, 0))
                       == OnChannels(s.audits, WonIds(s.transactions), channel))
    && (forall channel :: channel in m.channels <==> Tally(s.audits, OnChannel(channel)) > 0)
    && IsSeries(m.series, s.transactions)
  }

  lemma {:induction false} SameDaysSameOrder(xs: seq<int>, ys: seq<int>)
    requires Increasing(xs) && Increasing(ys) && forall d :: d in xs <==> d in ys
    ensures xs == ys
  {
    assert ys == [] || ys[0] in ys;
    if xs != [] {
      var n := |xs| - 1;
      assert xs[n] in xs && xs[n] in ys;
      var m := |ys| - 1;
      assert ys[m] in ys && ys[m] in xs;
      assert xs[n] == ys[m];
      forall d ensures d in xs[..n] <==> d in ys[..m] {
        assert d in xs[..n] <==> d in xs && d < xs[n];
        assert d in ys[..m] <==> d in ys && d < ys[m];
      }
      SameDaysSameOrder(xs[..n], ys[..m]);
      assert xs == xs[..n] + [xs[n]] && ys == ys[..m] + [ys[m]];
    }
  }

  lemma SeriesIsDetermined(xs: seq<Point>, ys: seq<Point>, ts: seq<Transaction>)
    requires IsSeries(xs, ts) && IsSeries(ys, ts)
    ensures xs == ys
  {
    DaysAreTheSame(xs, ys, ts);
    DaysAreTheSame(ys, xs, ts);
    SameDaysSameOrder(DaysOf(xs), DaysOf(ys));
    forall k | 0 <= k < |xs|
      ensures xs[k] == ys[k]
    {
      assert xs[k].date == DaysOf(xs)[k] == DaysOf(ys)[k] == ys[k].date;
    }
  }

  lemma DaysAreTheSame(xs: seq<Point>, ys: seq<Point>, ts: seq<Transaction>)
    requires IsSeries(xs, ts) && IsSeries(ys, ts)
    ensures forall d :: d in DaysOf(xs) ==> d in DaysOf(ys)
  {
    forall d | d in DaysOf(xs)
      ensures d in DaysOf(ys)
    {
      var i :| 0 <= i < |ts| && SettledOn(d)(ts[i]);
    }
  }

  /** The records in scope determine every figure: with them unchanged, nothing that is
      added for other runs can change any. */
  lemma FiguresAreDetermined(m: Figures, n: Figures, s: Records)
    requires Describes(m, s) && Describes(n, s)
    ensures m == n
  {
    forall channel | channel in m.channels ensures m.channels[channel] == n.channels[channel] {
      assert channel in n.channels;
    }
    assert m.channels == n.channels;
    assert m.byClass == n.byClass;
    SeriesIsDetermined(m.series, n.series, s.transactions);
  }

  // ------------------------------------------- the figures, told from the tables

  /** The at-risk money of one run in these states and classes. */
  function MoneyIn(ts: seq<Transaction>, run: Option<string>, states: set<LifecycleState>, classes: set<int>): nat {
    if ts == [] then 0
    else
      var t := ts[|ts| - 1];
      MoneyIn(ts[..|ts| - 1], run, states, classes)
      + if t.run == run && t.atRisk && t.state in states && t.failureClass in classes then t.amount else 0
  }

  /** How many transactions make up that money. */
  function CasesIn(ts: seq<Transaction>, run: Option<string>, states: set<LifecycleState>, classes: set<int>): nat {
    if ts == [] then 0
    else
      var t := ts[|ts| - 1];
      CasesIn(ts[..|ts| - 1], run, states, classes)
      + if t.run == run && t.atRisk && t.state in states && t.failureClass in classes then 1 else 0
  }

  const ALL_STATES: set<LifecycleState> :=
    {Pending, Diagnosing, Waiting, Intervening, Recovered, Escalated, Cancelled, Failed}
  const ALL_CLASSES: set<int> := {1, 2, 3, 4}

  lemma EveryTransactionHasOne()
    ensures forall t: Transaction :: t.state in ALL_STATES && t.failureClass in ALL_CLASSES
  {
    forall t: Transaction ensures t.state in ALL_STATES && t.failureClass in ALL_CLASSES {
      var s := t.state;
      assert s.Pending? || s.Diagnosing? || s.Waiting? || s.Intervening? || s.Recovered? || s.Escalated? || s.Cancelled? || s.Failed?;
      var c: int := t.failureClass;
      assert c == 1 || c == 2 || c == 3 || c == 4;
    }
  }

  ghost predicate Means(p: Transaction -> bool, states: set<LifecycleState>, classes: set<int>) {
    forall t: Transaction :: p(t) <==> t.atRisk && t.state in states && t.failureClass in classes
  }

  lemma KeptOneMore(ts: seq<Transaction>, run: Option<string>, p: Transaction -> bool)
    requires ts != []
    ensures var kept, front, t := Keep(ts, OfRun(run)), Keep(ts[..|ts| - 1], OfRun(run)), ts[|ts| - 1];
      && Total(kept, p) == Total(front, p) + (if t.run == run && p(t) then t.amount else 0)
      && Tally(kept, p) == Tally(front, p) + (if t.run == run && p(t) then 1 else 0)
  {
    var front, t := Keep(ts[..|ts| - 1], OfRun(run)), ts[|ts| - 1];
    assert (front + [t])[..|front|] == front;
    assert front + [] == front;
  }

  lemma {:induction false} ScopedTotal(ts: seq<Transaction>, run: Option<string>, p: Transaction -> bool,
                                       states: set<LifecycleState>, classes: set<int>)
    requires Means(p, states, classes)
    ensures Total(Keep(ts, OfRun(run)), p) == MoneyIn(ts, run, states, classes)
    ensures Tally(Keep(ts, OfRun(run)), p) == CasesIn(ts, run, states, classes)
  {
    if ts != [] {
      ScopedTotal(ts[..|ts| - 1], run, p, states, classes);
      KeptOneMore(ts, run, p);
    }
  }

  lemma FiltersMean(c: int)
    ensures Means(AtRisk, ALL_STATES, ALL_CLASSES) && Means(Settled, {Recovered}, ALL_CLASSES)
    ensures Means(InFlight, {Intervening, Waiting}, ALL_CLASSES) && Means(Lost, {Failed}, ALL_CLASSES)
    ensures Means(OfClass(AtRisk, c), ALL_STATES, {c}) && Means(OfClass(Settled, c), {Recovered}, {c})
  {
    EveryTransactionHasOne();
  }

  /** The headline figures sum exactly these states of the run's at-risk transactions, and the
      breakdown by class exactly the transactions of each class. */
  lemma FiguresSumTheseStates(m: Figures, db: Records, run: Option<string>)
    requires Describes(m, Scope(db, run))
    ensures m.atRisk == MoneyIn(db.transactions, run, ALL_STATES, ALL_CLASSES)
    ensures m.recovered == MoneyIn(db.transactions, run, {Recovered}, ALL_CLASSES)
    ensures m.inFlight == MoneyIn(db.transactions, run, {Intervening, Waiting}, ALL_CLASSES)
    ensures m.lost == MoneyIn(db.transactions, run, {Failed}, ALL_CLASSES)
    ensures forall c :: 0 <= c < 4 ==>
      m.byClass[c] == ClassFigures(MoneyIn(db.transactions, run, ALL_STATES, {c + 1}),
                                   MoneyIn(db.transactions, run, {Recovered}, {c + 1}),
                                   CasesIn(db.transactions, run, ALL_STATES, {c + 1}),
                                   CasesIn(db.transactions, run, {Recovered}, {c + 1}))
  {
    FiltersMean(1);
    ScopedTotal(db.transactions, run, AtRisk, ALL_STATES, ALL_CLASSES);
    ScopedTotal(db.transactions, run, Settled, {Recovered}, ALL_CLASSES);
    ScopedTotal(db.transactions, run, InFlight, {Intervening, Waiting}, ALL_CLASSES);
    ScopedTotal(db.transactions, run, Lost, {Failed}, ALL_CLASSES);
    forall c | 0 <= c < 4
      ensures m.byClass[c] == ClassFigures(MoneyIn(db.transactions, run, ALL_STATES, {c + 1}),
                                           MoneyIn(db.transactions, run, {Recovered}, {c + 1}),
                                           CasesIn(db.transactions, run, ALL_STATES, {c + 1}),
                                           CasesIn(db.transactions, run, {Recovered}, {c + 1}))
    {
      FiltersMean(c + 1);
      ScopedTotal(db.transactions, run, OfClass(AtRisk, c + 1), ALL_STATES, {c + 1});
      ScopedTotal(db.transactions, run, OfClass(Settled, c + 1), {Recovered}, {c + 1});
    }
  }

  /** The headline figures and the money of the pending, diagnosing, escalated and cancelled
      transactions, which no headline shows, add up to what is at risk. */
  lemma MoneyIsAccountedFor(m: Figures, db: Records, run: Option<string>)
    requires Describes(m, Scope(db, run))
    ensures m.atRisk == m.recovered + m.inFlight + m.lost
                      + MoneyIn(db.transactions, run, {Pending, Diagnosing, Escalated, Cancelled}, ALL_CLASSES)
  {
    HeadlinesCoverTheRisk(Scope(db, run).transactions);
    ParkedMeans();
    ScopedTotal(db.transactions, run, Parked, {Pending, Diagnosing, Escalated, Cancelled}, ALL_CLASSES);
  }

  lemma ParkedMeans()
    ensures Means(Parked, {Pending, Diagnosing, Escalated, Cancelled}, ALL_CLASSES)
  {
    EveryTransactionHasOne();
  }

  function Raise(on: bool, amount: nat): nat { if on then amount else 0 }

  lemma MoneyOneMore(ts: seq<Transaction>, t: Transaction, run: Option<string>, states: set<LifecycleState>)
    ensures MoneyIn(ts + [t], run, states, ALL_CLASSES)
         == MoneyIn(ts, run, states, ALL_CLASSES) + Raise(t.run == run && t.atRisk && t.state in states, t.amount)
  {
    EveryTransactionHasOne();
    assert (ts + [t])[..|ts|] == ts;
  }

  /** The headline figures alone. */
  predicate Heads(m: Figures, ts: seq<Transaction>, run: Option<string>) {
    && m.atRisk == MoneyIn(ts, run, ALL_STATES, ALL_CLASSES) && m.recovered == MoneyIn(ts, run, {Recovered}, ALL_CLASSES)
    && m.inFlight == MoneyIn(ts, run, {Intervening, Waiting}, ALL_CLASSES)
    && m.lost == MoneyIn(ts, run, {Failed}, ALL_CLASSES)
  }

  /** What a transaction adds to the headline figures: its amount to what is at risk when it
      belongs to the run and is at risk, and besides to exactly the figure of its state:
      recovered, in flight while it is worked on or waits, lost when it failed, and none in
      any other state. */
  predicate RaisedBy(m: Figures, n: Figures, t: Transaction, run: Option<string>) {
    var counts := t.run == run && t.atRisk;
    && n.atRisk == m.atRisk + Raise(counts, t.amount)
    && n.recovered == m.recovered + Raise(counts && t.state == Recovered, t.amount)
    && n.inFlight == m.inFlight + Raise(counts && (t.state == Intervening || t.state == Waiting), t.amount)
    && n.lost == m.lost + Raise(counts && t.state == Failed, t.amount)
  }

  lemma HeadsOneMore(m: Figures, n: Figures, ts: seq<Transaction>, t: Transaction, run: Option<string>)
    requires Heads(m, ts, run) && Heads(n, ts + [t], run)
    ensures RaisedBy(m, n, t, run)
  {
    EveryTransactionHasOne();
    MoneyOneMore(ts, t, run, ALL_STATES);
    MoneyOneMore(ts, t, run, {Recovered});
    MoneyOneMore(ts, t, run, {Intervening, Waiting});
    MoneyOneMore(ts, t, run, {Failed});
  }

  /** One more transaction in the table raises the figures by what it adds. */
  lemma OneMoreTransaction(m: Figures, n: Figures, db: Records, t: Transaction, run: Option<string>)
    requires Describes(m, Scope(db, run)) && Describes(n, Scope(db.(transactions := db.transactions + [t]), run))
    ensures RaisedBy(m, n, t, run)
  {
    FiguresSumTheseStates(m, db, run);
    FiguresSumTheseStates(n, db.(transactions := db.transactions + [t]), run);
    HeadsOneMore(m, n, db.transactions, t, run);
  }

  /** An intervention on this channel for one of these transactions; one without a channel is
      a link. */
  predicate DispatchedOn(a: Audit, chosen: set<string>, channel: Channel) {
    a.dispatch && a.txn in chosen && (a.channel == Some(channel) || (a.channel == None && channel == PaymentLink))
  }

  function DispatchesOn(audits: seq<Audit>, ids: set<string>, channel: Channel): nat {
    if audits == [] then 0
    else
      var a := audits[|audits| - 1];
      DispatchesOn(audits[..|audits| - 1], ids, channel)
      + if DispatchedOn(a, ids, channel) then 1 else 0
  }

  lemma KeptAuditOneMore(audits: seq<Audit>, ids: set<string>, p: Audit -> bool)
    requires audits != []
    ensures var a := audits[|audits| - 1];
      Tally(Keep(audits, About(ids)), p)
      == Tally(Keep(audits[..|audits| - 1], About(ids)), p) + (if a.txn in ids && p(a) then 1 else 0)
  {
    var front, a := Keep(audits[..|audits| - 1], About(ids)), audits[|audits| - 1];
    assert (front + [a])[..|front|] == front;
    assert front + [] == front;
  }

  lemma {:induction false} ScopedDispatches(audits: seq<Audit>, ids: set<string>, p: Audit -> bool, chosen: set<string>,
                                            channel: Channel)
    requires forall a: Audit :: (a.txn in ids && p(a)) <==> DispatchedOn(a, chosen, channel)
    ensures Tally(Keep(audits, About(ids)), p) == DispatchesOn(audits, chosen, channel)
  {
    if audits != [] {
      ScopedDispatches(audits[..|audits| - 1], ids, p, chosen, channel);
      KeptAuditOneMore(audits, ids, p);
    }
  }

  lemma {:induction false} KeptExactly<T>(xs: seq<T>, p: T -> bool, x: T)
    ensures x in Keep(xs, p) <==> x in xs && p(x)
  {
    if xs != [] {
      KeptExactly(xs[..|xs| - 1], p, x);
      assert xs == xs[..|xs| - 1] + [xs[|xs| - 1]];
    }
  }

  /** The ids of the run's transactions, and of those that recovered, at risk or not. */
  function RunIds(ts: seq<Transaction>, run: Option<string>): set<string> {
    set t | t in ts && t.run == run :: t.id
  }

  function RecoveredIds(ts: seq<Transaction>, run: Option<string>): set<string> {
    set t | t in ts && t.run == run && t.state == Recovered :: t.id
  }

  lemma ScopedIds(ts: seq<Transaction>, run: Option<string>)
    ensures var kept := Keep(ts, OfRun(run));
      Ids(kept) == RunIds(ts, run) && WonIds(kept) == RecoveredIds(ts, run)
  {
    var kept := Keep(ts, OfRun(run));
    forall t ensures t in kept <==> t in ts && t.run == run {
      KeptExactly(ts, OfRun(run), t);
    }
    forall id
      ensures id in Ids(kept) <==> id in RunIds(ts, run)
      ensures id in WonIds(kept) <==> id in RecoveredIds(ts, run)
    {
      if id in RunIds(ts, run) {
        var t :| t in ts && t.run == run && t.id == id;
        assert t in kept;
      }
      if id in RecoveredIds(ts, run) {
        var t :| t in ts && t.run == run && t.state == Recovered && t.id == id;
        assert t in kept;
      }
    }
  }

  /** In scope is exactly a transaction of the run, and an audit row or a ticket of one. */
  lemma InScopeExactlyWhen(db: Records, run: Option<string>, t: Transaction, a: Audit, e: Ticket)
    ensures var s, ids := Scope(db, run), RunIds(db.transactions, run);
      && (t in s.transactions <==> t in db.transactions && t.run == run)
      && (a in s.audits <==> a in db.audits && a.txn in ids)
      && (e in s.tickets <==> e in db.tickets && e.txn in ids)
  {
    var ids := Ids(Scope(db, run).transactions);
    ScopedIds(db.transactions, run);
    KeptExactly(db.transactions, OfRun(run), t);
    KeptExactly(db.audits, About(ids), a);
    KeptExactly(db.tickets, (e: Ticket) => e.txn in ids, e);
  }

  /** The breakdown by channel counts exactly the interventions of the run's transactions, and
      as won those whose transaction recovered. */
  lemma BreakdownCountsTheRunsDispatches(m: Figures, db: Records, run: Option<string>, channel: Channel)
    requires Describes(m, Scope(db, run))
    ensures var ids, won := RunIds(db.transactions, run), RecoveredIds(db.transactions, run);
      (if channel in m.channels then m.channels[channel] else ChannelFigures(0, 0))
      == ChannelFigures(DispatchesOn(db.audits, ids, channel), DispatchesOn(db.audits, won, channel))
  {
    var ids, won := RunIds(db.transactions, run), RecoveredIds(db.transactions, run);
    ScopedIds(db.transactions, run);
    ScopedDispatches(db.audits, ids, OnChannel(channel), ids, channel);
    ScopedDispatches(db.audits, ids, WonOn(channel, won), won, channel);
  }

  method ComputeMetrics(db: Records, run: Option<string>) returns (m: Figures)
    ensures Describes(m, Scope(db, run))
    ensures m.atRisk == MoneyIn(db.transactions, run, ALL_STATES, ALL_CLASSES)
    ensures m.recovered == MoneyIn(db.transactions, run, {Recovered}, ALL_CLASSES)
    ensures m.inFlight == MoneyIn(db.transactions, run, {Intervening, Waiting}, ALL_CLASSES)
    ensures m.lost == MoneyIn(db.transactions, run, {Failed}, ALL_CLASSES)
    ensures m.recovered + m.inFlight + m.lost <= m.atRisk
    ensures m.recovered == if m.series == [] then 0 else m.series[|m.series| - 1].cumulative
  {
    var s := Scope(db, run);
    var atRisk, recovered, inFlight, lost := Headlines(s.transactions);
    var byClass := ByClass(s.transactions);
    var channels := ChannelBreakdown(s.transactions, s.audits);
    var series := TimeSeries(s.transactions);
    m := Figures(atRisk, recovered, inFlight, lost, byClass, channels, series);
    HeadlinesCoverTheRisk(s.transactions);
    SeriesClimbsToTheTotal(series, s.transactions);
    FiguresSumTheseStates(m, db, run);
  }
}
