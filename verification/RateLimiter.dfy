/** The daily request cap: any number of requests interleaving at statement level over
    one table of counters, and the same four statements run by one request alone. */
module RateLimiter {

  /** Where a request is: about to look for today's row, about to insert it, about to run
      the conditional update, about to read the counter back, or answered. */
  datatype Stage =
    | Arrived
    | Missing
    | Ready
    | Updated(matched: bool)
    | Answered(allowed: bool, count: nat)

  /** The table, by day, and the stage of every request. */
  datatype World = World(rows: map<string, nat>, stages: seq<Stage>)

  /** The day each request reads once on arrival, the configured limit, and the table as
      the requests find it: a counter outlives the process that kept it. */
  datatype Setup = Setup(days: seq<string>, limit: int, found: map<string, nat>)

  function Cap(limit: int): nat { if limit < 0 then 0 else limit }

  function Counter(rows: map<string, nat>, day: string): nat { if day in rows then rows[day] else 0 }

  /** How many requests a day still has room for at the start. */
  function Room(setup: Setup, day: string): nat {
    var was := Counter(setup.found, day);
    if was < Cap(setup.limit) then Cap(setup.limit) - was else 0
  }

  /** What the counter of a day can reach: the cap, or more if it was past it already. */
  function Top(setup: Setup, day: string): nat { Counter(setup.found, day) + Room(setup, day) }

  function Initial(setup: Setup): World {
    World(setup.found, seq(|setup.days|, i => Arrived))
  }

  /** The next statement of one request. The insert loses to a row that is already there
      and leaves it alone. */
  function Act(rows: map<string, nat>, stage: Stage, day: string, limit: int): (map<string, nat>, Stage) {
    match stage
    case Arrived => (rows, if day in rows then Ready else Missing)
    case Missing => (if day in rows then rows else rows[day := 0], Ready)
    case Ready =>
      if day in rows && rows[day] < limit then (rows[day := rows[day] + 1], Updated(true)) else (rows, Updated(false))
    case Updated(matched) => (rows, Answered(matched, if day in rows then rows[day] else 0))
    case Answered(_, _) => (rows, stage)
  }

  function Step(setup: Setup, w: World, i: nat): World
    requires i < |setup.days| == |w.stages|
  {
    var (rows, stage) := Act(w.rows, w.stages[i], setup.days[i], setup.limit);
    World(rows, w.stages[i := stage])
  }

  predicate Schedule(setup: Setup, schedule: seq<nat>) {
    forall t :: 0 <= t < |schedule| ==> schedule[t] < |setup.days|
  }

  /** Run the requests in the order a scheduler picks them. */
  function Run(setup: Setup, w: World, schedule: seq<nat>): (r: World)
    requires |setup.days| == |w.stages| && Schedule(setup, schedule)
    ensures |r.stages| == |w.stages|
  {
    if schedule == [] then w
    else Step(setup, Run(setup, w, schedule[..|schedule| - 1]), schedule[|schedule| - 1])
  }

  // -------------------------------------------------------------- counting

  predicate Executed(s: Stage) { s.Updated? || s.Answered? }

  predicate Granted(s: Stage) { (s.Updated? && s.matched) || (s.Answered? && s.allowed) }

  /** How many requests of a day have reached a stage. */
  function CountOn(days: seq<string>, stages: seq<Stage>, day: string, p: Stage -> bool): nat
    requires |days| == |stages|
  {
    if days == [] then 0
    else
      var n := |days| - 1;
      CountOn(days[..n], stages[..n], day, p) + if days[n] == day && p(stages[n]) then 1 else 0
  }

  lemma {:induction false} CountAfterMove(days: seq<string>, stages: seq<Stage>, day: string, p: Stage -> bool, i: nat, s: Stage)
    requires i < |days| == |stages|
    ensures CountOn(days, stages[i := s], day, p)
         == CountOn(days, stages, day, p)
          - (if days[i] == day && p(stages[i]) then 1 else 0) + (if days[i] == day && p(s) then 1 else 0)
  {
    var n := |days| - 1;
    if i == n {
      assert stages[i := s][..n] == stages[..n];
    } else {
      assert stages[i := s][..n] == stages[..n][i := s];
      CountAfterMove(days[..n], stages[..n], day, p, i, s);
    }
  }

  lemma {:induction false} NobodyYet(days: seq<string>, stages: seq<Stage>, day: string, p: Stage -> bool)
    requires |days| == |stages| && forall i :: 0 <= i < |stages| ==> !p(stages[i])
    ensures CountOn(days, stages, day, p) == 0
  {
    if days != [] {
      NobodyYet(days[..|days| - 1], stages[..|days| - 1], day, p);
    }
  }

  function Updates(setup: Setup, w: World, day: string): nat
    requires |setup.days| == |w.stages|
  {
    CountOn(setup.days, w.stages, day, Executed)
  }

  function Grants(setup: Setup, w: World, day: string): nat
    requires |setup.days| == |w.stages|
  {
    CountOn(setup.days, w.stages, day, Granted)
  }

  function Least(a: nat, b: nat): nat { if a < b then a else b }

  // ------------------------------------------------------------- invariant

  /** What one request knows once its row must exist. */
  predicate Consistent(setup: Setup, rows: map<string, nat>, stage: Stage, day: string) {
    && (!stage.Arrived? && !stage.Missing? ==> day in rows)
    && (stage.Updated? ==>
          if stage.matched then rows[day] > Counter(setup.found, day) else rows[day] == Top(setup, day))
    && (stage.Answered? ==>
          && stage.count <= rows[day]
          && if stage.allowed then stage.count > Counter(setup.found, day) else stage.count == Top(setup, day))
  }

  /** The counter of a day is what it was and one for every grant, and the grants are the
      updates up to the room there was; before the row exists nobody got that far. */
  predicate Counted(setup: Setup, w: World, day: string)
    requires |setup.days| == |w.stages|
  {
    && Counter(w.rows, day) == Counter(setup.found, day) + Grants(setup, w, day)
    && Grants(setup, w, day) == Least(Room(setup, day), Updates(setup, w, day))
    && (day !in w.rows ==> Updates(setup, w, day) == 0)
  }

  ghost predicate Inv(setup: Setup, w: World) {
    && |setup.days| == |w.stages|
    && (forall day: string :: Counted(setup, w, day))
    && (forall i :: 0 <= i < |w.stages| ==> Consistent(setup, w.rows, w.stages[i], setup.days[i]))
  }

  /** A counter is never reset, and never passes the cap unless it was past it before. */
  lemma CountersOnlyGrow(setup: Setup, w: World, i: nat, day: string)
    requires Inv(setup, w) && i < |setup.days| && day in w.rows
    ensures day in Step(setup, w, i).rows && w.rows[day] <= Step(setup, w, i).rows[day] <= Top(setup, day)
  {
    assert Counted(setup, w, day);
  }

  lemma StepKeepsCounted(setup: Setup, w: World, i: nat, day: string)
    requires Inv(setup, w) && i < |setup.days|
    ensures Counted(setup, Step(setup, w, i), day)
  {
    assert Counted(setup, w, day);
    assert Consistent(setup, w.rows, w.stages[i], setup.days[i]);
    CountAfterMove(setup.days, w.stages, day, Executed, i, Step(setup, w, i).stages[i]);
    CountAfterMove(setup.days, w.stages, day, Granted, i, Step(setup, w, i).stages[i]);
  }

  lemma StepKeepsConsistent(setup: Setup, w: World, i: nat, k: nat)
    requires Inv(setup, w) && i < |setup.days| && k < |setup.days|
    ensures Consistent(setup, Step(setup, w, i).rows, Step(setup, w, i).stages[k], setup.days[k])
  {
    assert Consistent(setup, w.rows, w.stages[k], setup.days[k]);
    assert Counted(setup, w, setup.days[k]) && Counted(setup, w, setup.days[i]);
  }

  lemma StepKeepsInv(setup: Setup, w: World, i: nat)
    requires Inv(setup, w) && i < |setup.days|
    ensures Inv(setup, Step(setup, w, i))
  {
    var v := Step(setup, w, i);
    forall day: string ensures Counted(setup, v, day) {
      StepKeepsCounted(setup, w, i, day);
    }
    forall k | 0 <= k < |v.stages| ensures Consistent(setup, v.rows, v.stages[k], setup.days[k]) {
      StepKeepsConsistent(setup, w, i, k);
    }
  }

  lemma {:induction false} RunKeepsInv(setup: Setup, w: World, schedule: seq<nat>)
    requires Inv(setup, w) && Schedule(setup, schedule)
    ensures Inv(setup, Run(setup, w, schedule))
  {
    if schedule != [] {
      RunKeepsInv(setup, w, schedule[..|schedule| - 1]);
      StepKeepsInv(setup, Run(setup, w, schedule[..|schedule| - 1]), schedule[|schedule| - 1]);
    }
  }

  lemma InitialInv(setup: Setup)
    ensures Inv(setup, Initial(setup))
  {
    var w := Initial(setup);
    forall day: string
      ensures Counted(setup, w, day)
    {
      NobodyYet(setup.days, w.stages, day, Executed);
      NobodyYet(setup.days, w.stages, day, Granted);
    }
  }

  /** Under every interleaving of any number of requests, from any counters, the cap is
      exact: on each day as many requests were granted as updates ran, up to the room there
      was; the counter went up by that number; and whoever was refused was told what the
      counter had reached, which is the limit unless it was past it from the start. */
  lemma CapIsExact(setup: Setup, schedule: seq<nat>, day: string, i: nat)
    requires Schedule(setup, schedule) && i < |setup.days|
    ensures var w, was := Run(setup, Initial(setup), schedule), Counter(setup.found, day);
      && Grants(setup, w, day) == Least(Room(setup, day), Updates(setup, w, day))
      && Counter(w.rows, day) == was + Grants(setup, w, day)
      && (day !in w.rows ==> Updates(setup, w, day) == 0)
      && (w.stages[i].Answered? && setup.days[i] == day ==>
            && (w.stages[i].allowed ==> was < w.stages[i].count <= Cap(setup.limit))
            && (!w.stages[i].allowed ==> w.stages[i].count == if was < Cap(setup.limit) then Cap(setup.limit) else was))
  {
    InitialInv(setup);
    RunKeepsInv(setup, Initial(setup), schedule);
    var w := Run(setup, Initial(setup), schedule);
    assert Counted(setup, w, day);
    assert Consistent(setup, w.rows, w.stages[i], setup.days[i]);
  }

  // ------------------------------------------------------ one request alone

  datatype RateLimitResult = RateLimitResult(allowed: bool, count: nat, limit: int) {
    function Remaining(): nat { if limit - count < 0 then 0 else limit - count }
  }

  class UsageTable {
    var rows: map<string, nat>

    constructor ()
      ensures rows == map[]
    {
      rows := map[];
    }

    /** Count one request against a day. */
    method CheckAndIncrement(today: string, limit: int) returns (r: RateLimitResult)
      modifies this
      ensures var was := if today in old(rows) then old(rows)[today] else 0;
        && r.allowed == (was < limit) && r.limit == limit
        && rows == old(rows)[today := if r.allowed then was + 1 else was]
        && r.count == rows[today]
    {
      if today !in rows {
        rows := rows[today := 0];
      }
      var matched := rows[today] < limit;
      if matched {
        rows := rows[today := rows[today] + 1];
      }
      var current := rows[today];
      r := RateLimitResult(matched, current, limit);
    }
  }

  /** A request that nobody interrupts gets from its statements exactly what the method
      promises, whether or not today's row was there; refused, it has nothing remaining. */
  lemma AloneIsCheckAndIncrement(setup: Setup, w: World, i: nat)
    requires i < |setup.days| == |w.stages| && w.stages[i] == Arrived
    ensures var day := setup.days[i];
      var was := if day in w.rows then w.rows[day] else 0;
      var v := Run(setup, w, [i, i, i, i]);
      && v.rows == w.rows[day := if was < setup.limit then was + 1 else was]
      && day in v.rows && v.stages[i] == Answered(was < setup.limit, v.rows[day])
      && (was >= setup.limit ==> RateLimitResult(false, v.rows[day], setup.limit).Remaining() == 0)
  {
    var s := [i, i, i, i];
    assert s[..3] == [i, i, i] && s[..3][..2] == [i, i] && s[..3][..2][..1] == [i] && [i][..0] == [];
    var w1 := Step(setup, w, i);
    var w2 := Step(setup, w1, i);
    var w3 := Step(setup, w2, i);
    assert Run(setup, w, [i]) == w1;
    assert Run(setup, w, [i, i]) == w2;
    assert Run(setup, w, [i, i, i]) == w3;
  }
}
