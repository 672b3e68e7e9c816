/** The budget ledger kept under the lock (src/cost-tracking/budget.ts): spend per day and
    month, globally and per model, and reservations for work in progress. Amounts are exact
    reals and every operation reads the clock once. */
module BudgetLedger {
  import opened Wrappers

  type Model = string
  type RunId = string
  type Month = nat

  /** A day key starts with its month key. */
  datatype Day = Day(month: Month, day: nat)
  datatype Clock = Clock(today: Day, now: nat)

  datatype Reservation = Reservation(amount: real, day: Day, expiresAt: Option<nat>)
  datatype Spend = Spend(daily: map<Day, real>, monthly: map<Month, real>)

  datatype Ledger = Ledger(
    global: Spend,
    models: map<Model, Spend>,
    reservations: map<Model, seq<Reservation>>,
    runReservations: map<RunId, map<Model, real>>)

  datatype Limits = Limits(daily: Option<real>, monthly: Option<real>)
  datatype Config = Config(global: Limits, models: map<Model, Limits>, block: real)

  const RESERVATION_TTL_MS: nat := 4 * 60 * 60 * 1000

  predicate Safe(m: Model) { m !in ["__proto__", "constructor", "prototype"] }

  function Empty(): Ledger { Ledger(Spend(map[], map[]), map[], map[], map[]) }

  function Get<K>(m: map<K, real>, k: K): real { if k in m then m[k] else 0.0 }

  function AddTo<K>(m: map<K, real>, k: K, x: real): map<K, real> { m[k := Get(m, k) + x] }

  function AddSpendTo(s: Spend, day: Day, usd: real): Spend {
    Spend(AddTo(s.daily, day, usd), AddTo(s.monthly, day.month, usd))
  }

  function SpendOf(l: Ledger, m: Model): Spend {
    if m in l.models then l.models[m] else Spend(map[], map[])
  }

  function ApplySpend(l: Ledger, m: Model, usd: real, day: Day): Ledger {
    l.(global := AddSpendTo(l.global, day, usd), models := l.models[m := AddSpendTo(SpendOf(l, m), day, usd)])
  }

  // ---------------------------------------------------------------------------
  // Reservations
  // ---------------------------------------------------------------------------

  function Reservations(l: Ledger, m: Model): seq<Reservation> {
    if m in l.reservations then l.reservations[m] else []
  }

  predicate Counts(r: Reservation, c: Clock) {
    r.day == c.today && (r.expiresAt.Some? ==> r.expiresAt.value > c.now)
  }

  /** todayReservedTotal over a list of entries. */
  function Reserved(rs: seq<Reservation>, c: Clock): real {
    if rs == [] then 0.0
    else Reserved(rs[..|rs| - 1], c) + if Counts(rs[|rs| - 1], c) then rs[|rs| - 1].amount else 0.0
  }

  /** The first entry of today with this amount, or the length. */
  function FindEntry(rs: seq<Reservation>, today: Day, amount: real): (i: nat)
    ensures i <= |rs| && (i < |rs| ==> rs[i].day == today && rs[i].amount == amount)
    ensures forall j :: 0 <= j < i ==> !(rs[j].day == today && rs[j].amount == amount)
  {
    if rs == [] || (rs[0].day == today && rs[0].amount == amount) then 0
    else 1 + FindEntry(rs[1..], today, amount)
  }

  function RemoveEntry(rs: seq<Reservation>, today: Day, amount: real): seq<Reservation> {
    var i := FindEntry(rs, today, amount);
    if i == |rs| then rs else rs[..i] + rs[i + 1..]
  }

  function Unreserve(l: Ledger, m: Model, amount: real, today: Day): Ledger {
    if m in l.reservations
    then l.(reservations := l.reservations[m := RemoveEntry(l.reservations[m], today, amount)])
    else l
  }

  function OrElse(a: Option<real>, b: Option<real>): Option<real> { if a.Some? then a else b }

  function LimitsFor(cfg: Config, m: Model): Limits {
    var own := if m in cfg.models then cfg.models[m] else Limits(None, None);
    Limits(OrElse(own.daily, cfg.global.daily), OrElse(own.monthly, cfg.global.monthly))
  }

  /** The empty model name reads the global spend. */
  function SpentToday(l: Ledger, m: Model, day: Day): real {
    Get(if m != "" then SpendOf(l, m).daily else l.global.daily, day)
  }

  function SpentMonth(l: Ledger, m: Model, month: Month): real {
    Get(if m != "" then SpendOf(l, m).monthly else l.global.monthly, month)
  }

  /** (projected / limit) * 100 > block, where dividing by a zero limit gives an infinity
      with the sign of the dividend, or NaN, which compares false. */
  predicate Over(projected: real, limit: real, block: real) {
    if limit == 0.0 then projected > 0.0 else projected / limit * 100.0 > block
  }

  predicate Blocked(cfg: Config, l: Ledger, m: Model, estimated: real, c: Clock) {
    var limits := LimitsFor(cfg, m);
    var reserved := Reserved(Reservations(l, m), c);
    || (limits.daily.Some? && Over(SpentToday(l, m, c.today) + reserved + estimated, limits.daily.value, cfg.block))
    || (limits.monthly.Some?
        && Over(SpentMonth(l, m, c.today.month) + reserved + estimated, limits.monthly.value, cfg.block))
  }

  function Reserve(cfg: Config, l: Ledger, m: Model, estimated: real, c: Clock): Ledger {
    if !Safe(m) || Blocked(cfg, l, m, estimated, c) then l
    else
      var r := Reservation(estimated, c.today, Some(c.now + RESERVATION_TTL_MS));
      l.(reservations := l.reservations[m := Reservations(l, m) + [r]])
  }

  /** Give back a reservation and record what the work cost, if it cost anything. */
  function Release(l: Ledger, m: Model, estimated: real, actual: real, today: Day): Ledger {
    if !Safe(m) then l
    else
      var l1 := Unreserve(l, m, estimated, today);
      if actual > 0.0 then ApplySpend(l1, m, actual, today) else l1
  }

  function SumByModel(rs: seq<(Model, real)>): map<Model, real> {
    if rs == [] then map[] else AddTo(SumByModel(rs[..|rs| - 1]), rs[|rs| - 1].0, rs[|rs| - 1].1)
  }

  function RunEntry(l: Ledger, run: RunId): map<Model, real> {
    if run in l.runReservations then l.runReservations[run] else map[]
  }

  /** Release one model after the other against the recorded amounts. */
  function ReleaseAll(l: Ledger, reserved: map<Model, real>, entries: seq<(Model, real)>, today: Day): Ledger {
    if entries == [] then l
    else
      var most := ReleaseAll(l, reserved, entries[..|entries| - 1], today);
      var (m, actual) := entries[|entries| - 1];
      Release(most, m, Get(reserved, m), actual, today)
  }

  function ReleaseRun(l: Ledger, run: RunId, entries: seq<(Model, real)>, today: Day): Ledger {
    ReleaseAll(l, RunEntry(l, run), entries, today).(runReservations := l.runReservations - {run})
  }

  datatype Op =
    | AddSpend(model: Model, usd: real, today: Day)
    | ReserveBudget(model: Model, estimated: real, clock: Clock)
    | ReleaseReservation(model: Model, estimated: real, actual: real, today: Day)
    | RecordRun(run: RunId, reservations: seq<(Model, real)>)
    | ReleaseRunReservations(run: RunId, entries: seq<(Model, real)>, today: Day)

  function Step(cfg: Config, l: Ledger, op: Op): Ledger {
    match op
    case AddSpend(m, usd, today) => if Safe(m) then ApplySpend(l, m, usd, today) else l
    case ReserveBudget(m, estimated, c) => Reserve(cfg, l, m, estimated, c)
    case ReleaseReservation(m, estimated, actual, today) => Release(l, m, estimated, actual, today)
    case RecordRun(run, rs) => l.(runReservations := l.runReservations[run := SumByModel(rs)])
    case ReleaseRunReservations(run, entries, today) => ReleaseRun(l, run, entries, today)
  }

  function Run(cfg: Config, l: Ledger, ops: seq<Op>): Ledger {
    if ops == [] then l else Step(cfg, Run(cfg, l, ops[..|ops| - 1]), ops[|ops| - 1])
  }

  // ---------------------------------------------------------------------------
  // Conservation
  // ---------------------------------------------------------------------------

  ghost function Total<K>(m: map<K, real>): real {
    if m == map[] then 0.0 else var k :| k in m; m[k] + Total(m - {k})
  }

  lemma {:induction false} TotalExtract<K>(m: map<K, real>, k: K)
    requires k in m
    ensures Total(m) == m[k] + Total(m - {k})
  {
    var other :| other in m && Total(m) == m[other] + Total(m - {other});
    if other != k {
      TotalExtract(m - {other}, k);
      TotalExtract(m - {k}, other);
      assert m - {other} - {k} == m - {k} - {other};
    }
  }

  lemma TotalAdd<K>(m: map<K, real>, k: K, x: real)
    ensures Total(AddTo(m, k, x)) == Total(m) + x
  {
    TotalExtract(AddTo(m, k, x), k);
    if k in m {
      TotalExtract(m, k);
      assert AddTo(m, k, x) - {k} == m - {k};
    } else {
      assert AddTo(m, k, x) - {k} == m;
    }
  }

  function DaysOf(daily: map<Day, real>, month: Month): map<Day, real> {
    map d | d in daily && d.month == month :: daily[d]
  }

  function OnDay(models: map<Model, Spend>, day: Day): map<Model, real> {
    map m | m in models :: Get(models[m].daily, day)
  }

  function InMonth(models: map<Model, Spend>, month: Month): map<Model, real> {
    map m | m in models :: Get(models[m].monthly, month)
  }

  ghost predicate MonthsAreDays(s: Spend) {
    forall month :: Get(s.monthly, month) == Total(DaysOf(s.daily, month))
  }

  /** Global spend is the sum over models, and a month is the sum of its days. */
  ghost predicate Conserved(l: Ledger) {
    && MonthsAreDays(l.global)
    && (forall m :: m in l.models ==> MonthsAreDays(l.models[m]))
    && (forall day :: Get(l.global.daily, day) == Total(OnDay(l.models, day)))
    && (forall month :: Get(l.global.monthly, month) == Total(InMonth(l.models, month)))
  }

  lemma AddKeepsMonths(s: Spend, day: Day, usd: real)
    requires MonthsAreDays(s)
    ensures MonthsAreDays(AddSpendTo(s, day, usd))
  {
    hide Total;
    var s' := AddSpendTo(s, day, usd);
    forall month ensures Get(s'.monthly, month) == Total(DaysOf(s'.daily, month)) {
      if month == day.month {
        assert DaysOf(s'.daily, month) == AddTo(DaysOf(s.daily, month), day, usd);
        TotalAdd(DaysOf(s.daily, month), day, usd);
      } else {
        assert DaysOf(s'.daily, month) == DaysOf(s.daily, month);
      }
    }
  }

  lemma SpendGets(s: Spend, day: Day, usd: real, d: Day, month: Month)
    ensures Get(AddSpendTo(s, day, usd).daily, d) == Get(s.daily, d) + if d == day then usd else 0.0
    ensures Get(AddSpendTo(s, day, usd).monthly, month) == Get(s.monthly, month) + if month == day.month then usd else 0.0
  {
  }

  lemma ApplySpendByDay(l: Ledger, m: Model, usd: real, day: Day, d: Day)
    requires Get(l.global.daily, d) == Total(OnDay(l.models, d))
    ensures var l' := ApplySpend(l, m, usd, day); Get(l'.global.daily, d) == Total(OnDay(l'.models, d))
  {
    hide Total, AddSpendTo;
    var l' := ApplySpend(l, m, usd, day);
    var x := if d == day then usd else 0.0;
    SpendGets(l.global, day, usd, d, 0);
    SpendGets(SpendOf(l, m), day, usd, d, 0);
    assert OnDay(l'.models, d) == AddTo(OnDay(l.models, d), m, x);
    TotalAdd(OnDay(l.models, d), m, x);
  }

  lemma ApplySpendByMonth(l: Ledger, m: Model, usd: real, day: Day, month: Month)
    requires Get(l.global.monthly, month) == Total(InMonth(l.models, month))
    ensures var l' := ApplySpend(l, m, usd, day); Get(l'.global.monthly, month) == Total(InMonth(l'.models, month))
  {
    hide Total, AddSpendTo;
    var l' := ApplySpend(l, m, usd, day);
    var x := if month == day.month then usd else 0.0;
    SpendGets(l.global, day, usd, day, month);
    SpendGets(SpendOf(l, m), day, usd, day, month);
    assert InMonth(l'.models, month) == AddTo(InMonth(l.models, month), m, x);
    TotalAdd(InMonth(l.models, month), m, x);
  }

  lemma ApplySpendConserves(l: Ledger, m: Model, usd: real, day: Day)
    requires Conserved(l)
    ensures Conserved(ApplySpend(l, m, usd, day))
    ensures Total(ApplySpend(l, m, usd, day).global.monthly) == Total(l.global.monthly) + usd
  {
    hide Total, DaysOf, OnDay, InMonth, AddSpendTo, MonthsAreDays;
    var l' := ApplySpend(l, m, usd, day);
    AddKeepsMonths(l.global, day, usd);
    if m !in l.models { NothingSpent(); }
    AddKeepsMonths(SpendOf(l, m), day, usd);
    forall d ensures Get(l'.global.daily, d) == Total(OnDay(l'.models, d)) { ApplySpendByDay(l, m, usd, day, d); }
    forall month ensures Get(l'.global.monthly, month) == Total(InMonth(l'.models, month)) {
      ApplySpendByMonth(l, m, usd, day, month);
    }
    MonthlyTotal(l.global, day, usd);
  }

  lemma MonthlyTotal(s: Spend, day: Day, usd: real)
    ensures Total(AddSpendTo(s, day, usd).monthly) == Total(s.monthly) + usd
  {
    hide Total;
    TotalAdd(s.monthly, day.month, usd);
  }

  lemma NothingSpent()
    ensures MonthsAreDays(Spend(map[], map[]))
  {
    forall month ensures Get(map[], month) == Total(DaysOf(map[], month)) {
      assert DaysOf(map[], month) == map[];
    }
  }

  lemma SameSpend(l: Ledger, l': Ledger)
    requires Conserved(l) && l'.global == l.global && l'.models == l.models
    ensures Conserved(l')
  {
    hide Total, DaysOf, OnDay, InMonth, MonthsAreDays;
  }

  lemma ReleaseConserves(l: Ledger, m: Model, estimated: real, actual: real, today: Day)
    requires Conserved(l)
    ensures Conserved(Release(l, m, estimated, actual, today))
    ensures Total(Release(l, m, estimated, actual, today).global.monthly)
         == Total(l.global.monthly) + if Safe(m) && actual > 0.0 then actual else 0.0
  {
    hide Conserved, Total, RemoveEntry, ApplySpend, Safe;
    var l1 := Unreserve(l, m, estimated, today);
    SameSpend(l, l1);
    ApplySpendConserves(l1, m, actual, today);
  }

  /** What the entries of a run add to the ledger. */
  function Charged(entries: seq<(Model, real)>): real {
    if entries == [] then 0.0
    else
      var (m, actual) := entries[|entries| - 1];
      Charged(entries[..|entries| - 1]) + if Safe(m) && actual > 0.0 then actual else 0.0
  }

  lemma {:induction false} ReleaseAllConserves(l: Ledger, reserved: map<Model, real>, entries: seq<(Model, real)>, today: Day)
    requires Conserved(l)
    ensures var l' := ReleaseAll(l, reserved, entries, today);
            Conserved(l') && Total(l'.global.monthly) == Total(l.global.monthly) + Charged(entries)
  {
    hide Conserved, Total, Release, Safe;
    if entries != [] {
      var n := |entries| - 1;
      ReleaseAllConserves(l, reserved, entries[..n], today);
      ReleaseConserves(ReleaseAll(l, reserved, entries[..n], today), entries[n].0, Get(reserved, entries[n].0),
                       entries[n].1, today);
    }
  }

  /** The spend an operation is meant to record. */
  function Recorded(op: Op): real {
    match op
    case AddSpend(m, usd, _) => if Safe(m) then usd else 0.0
    case ReleaseReservation(m, _, actual, _) => if Safe(m) && actual > 0.0 then actual else 0.0
    case ReleaseRunReservations(_, entries, _) => Charged(entries)
    case _ => 0.0
  }

  lemma StepConserves(cfg: Config, l: Ledger, op: Op)
    requires Conserved(l)
    ensures Conserved(Step(cfg, l, op))
    ensures Total(Step(cfg, l, op).global.monthly) == Total(l.global.monthly) + Recorded(op)
  {
    hide Conserved, Total, ApplySpend, Release, Blocked, SumByModel, ReleaseAll, Charged, Safe;
    match op
    case AddSpend(m, usd, today) => ApplySpendConserves(l, m, usd, today);
    case ReserveBudget(m, estimated, c) => SameSpend(l, Step(cfg, l, op));
    case ReleaseReservation(m, estimated, actual, today) => ReleaseConserves(l, m, estimated, actual, today);
    case RecordRun(run, rs) => SameSpend(l, Step(cfg, l, op));
    case ReleaseRunReservations(run, entries, today) =>
      ReleaseAllConserves(l, RunEntry(l, run), entries, today);
      SameSpend(ReleaseAll(l, RunEntry(l, run), entries, today), Step(cfg, l, op));
  }

  function RecordedBy(ops: seq<Op>): real {
    if ops == [] then 0.0 else RecordedBy(ops[..|ops| - 1]) + Recorded(ops[|ops| - 1])
  }

  /** After any sequence of operations from the empty ledger, each day's and each month's
      global spend is the sum over models, each month is the sum of its days, and the ledger
      holds exactly the spend that was recorded. */
  lemma {:induction false} LedgerConserved(cfg: Config, ops: seq<Op>)
    ensures var l := Run(cfg, Empty(), ops);
            Conserved(l) && Total(l.global.monthly) == RecordedBy(ops)
  {
    hide Conserved, Step, Recorded;
    if ops == [] {
      EmptyConserved();
    } else {
      LedgerConserved(cfg, ops[..|ops| - 1]);
      StepConserves(cfg, Run(cfg, Empty(), ops[..|ops| - 1]), ops[|ops| - 1]);
    }
  }

  lemma EmptyConserved()
    ensures Conserved(Empty())
  {
    NothingSpent();
    forall day ensures Total(OnDay(map[], day)) == 0.0 { assert OnDay(map[], day) == map[]; }
    forall month ensures Total(InMonth(map[], month)) == 0.0 { assert InMonth(map[], month) == map[]; }
  }

  // ---------------------------------------------------------------------------
  // The reservation cap
  // ---------------------------------------------------------------------------

  /** Spent plus reserved, against the day and against the month. */
  function DayExposure(l: Ledger, m: Model, c: Clock): real {
    SpentToday(l, m, c.today) + Reserved(Reservations(l, m), c)
  }

  function MonthExposure(l: Ledger, m: Model, c: Clock): real {
    SpentMonth(l, m, c.today.month) + Reserved(Reservations(l, m), c)
  }

  predicate ValidConfig(cfg: Config) {
    && 0.0 <= cfg.block
    && ValidLimits(cfg.global) && forall m :: m in cfg.models ==> ValidLimits(cfg.models[m])
  }

  predicate ValidLimits(l: Limits) {
    (l.daily.Some? ==> l.daily.value >= 0.0) && (l.monthly.Some? ==> l.monthly.value >= 0.0)
  }

  /** The percentage test is the comparison with block percent of the limit. */
  lemma OverExact(projected: real, limit: real, block: real)
    requires limit >= 0.0
    ensures Over(projected, limit, block) <==> projected > limit * block / 100.0
  {
    if limit > 0.0 {
      assert projected == projected / limit * limit;
      var q := projected / limit;
      assert q * 100.0 > block <==> q * 100.0 * limit > block * limit;
    }
  }

  /** A model is bound by its own limit, and by the global one only when it has none. */
  predicate BoundDaily(cfg: Config, m: Model, limit: real) {
    || (m in cfg.models && cfg.models[m].daily == Some(limit))
    || (cfg.global.daily == Some(limit) && (m in cfg.models ==> cfg.models[m].daily.None?))
  }

  predicate BoundMonthly(cfg: Config, m: Model, limit: real) {
    || (m in cfg.models && cfg.models[m].monthly == Some(limit))
    || (cfg.global.monthly == Some(limit) && (m in cfg.models ==> cfg.models[m].monthly.None?))
  }

  lemma LimitsBind(cfg: Config, m: Model, limit: real)
    ensures LimitsFor(cfg, m).daily == Some(limit) <==> BoundDaily(cfg, m, limit)
    ensures LimitsFor(cfg, m).monthly == Some(limit) <==> BoundMonthly(cfg, m, limit)
  {
  }

  ghost predicate WithinCap(cfg: Config, l: Ledger, m: Model, c: Clock) {
    && (forall limit :: BoundDaily(cfg, m, limit) ==> DayExposure(l, m, c) <= limit * cfg.block / 100.0)
    && (forall limit :: BoundMonthly(cfg, m, limit) ==> MonthExposure(l, m, c) <= limit * cfg.block / 100.0)
  }

  /** A reservation is refused exactly when with it the exposure would exceed block percent of
      a limit that binds the model. */
  lemma RefusedExactly(cfg: Config, l: Ledger, m: Model, estimated: real, c: Clock)
    requires ValidConfig(cfg) && m != ""
    ensures Blocked(cfg, l, m, estimated, c) <==>
            || (exists limit :: BoundDaily(cfg, m, limit) && DayExposure(l, m, c) + estimated > limit * cfg.block / 100.0)
            || (exists limit :: BoundMonthly(cfg, m, limit) && MonthExposure(l, m, c) + estimated > limit * cfg.block / 100.0)
  {
    hide Over, Reserved, Reservations, LimitsFor, BoundDaily, BoundMonthly;
    var limits := LimitsFor(cfg, m);
    LimitsValid(cfg, m);
    forall limit
      ensures limits.daily == Some(limit) <==> BoundDaily(cfg, m, limit)
      ensures limits.monthly == Some(limit) <==> BoundMonthly(cfg, m, limit)
    {
      LimitsBind(cfg, m, limit);
    }
    if limits.daily.Some? {
      assert BoundDaily(cfg, m, limits.daily.value);
      OverExact(DayExposure(l, m, c) + estimated, limits.daily.value, cfg.block);
    }
    if limits.monthly.Some? {
      assert BoundMonthly(cfg, m, limits.monthly.value);
      OverExact(MonthExposure(l, m, c) + estimated, limits.monthly.value, cfg.block);
    }
  }

  /** Reservations that count from now until `horizon`. */
  predicate Live(rs: seq<Reservation>, day: Day, horizon: nat) {
    forall k :: 0 <= k < |rs| ==>
      rs[k].day == day && rs[k].amount >= 0.0 && (rs[k].expiresAt.Some? ==> rs[k].expiresAt.value >= horizon)
  }

  /** Taking one entry out takes out its amount. */
  lemma {:induction false} ReservedWithout(rs: seq<Reservation>, i: nat, c: Clock)
    requires i < |rs|
    ensures Reserved(rs, c) == Reserved(rs[..i] + rs[i + 1..], c) + if Counts(rs[i], c) then rs[i].amount else 0.0
  {
    hide Counts;
    var n := |rs| - 1;
    if i == n {
      assert rs[..i] + rs[i + 1..] == rs[..n];
    } else {
      ReservedWithout(rs[..n], i, c);
      assert rs[..n][..i] + rs[..n][i + 1..] == (rs[..i] + rs[i + 1..])[..n - 1];
    }
  }

  lemma {:induction false} ReservedSame(rs: seq<Reservation>, day: Day, horizon: nat, c: Clock, c': Clock)
    requires Live(rs, day, horizon) && c.today == day == c'.today && c.now < horizon && c'.now < horizon
    ensures Reserved(rs, c) == Reserved(rs, c')
  {
    if rs != [] { ReservedSame(rs[..|rs| - 1], day, horizon, c, c'); }
  }

  /** A release removes exactly one entry, of today and of that amount, when there is one. */
  lemma RemovesOneEntry(rs: seq<Reservation>, today: Day, amount: real)
    ensures var rs' := RemoveEntry(rs, today, amount);
            if exists k :: 0 <= k < |rs| && rs[k].day == today && rs[k].amount == amount
            then exists e: Reservation :: e.day == today && e.amount == amount && multiset(rs) == multiset(rs') + multiset{e}
            else rs' == rs
  {
    var i := FindEntry(rs, today, amount);
    if i < |rs| {
      assert rs == rs[..i] + [rs[i]] + rs[i + 1..];
      assert multiset(rs) == multiset(RemoveEntry(rs, today, amount)) + multiset{rs[i]};
    }
  }

  /** Exact accounting of a release, whether or not an entry matches: exposure grows by what
      was paid and shrinks by the reservation that was found. */
  lemma ReleaseAccounting(l: Ledger, m: Model, estimated: real, actual: real, day: Day, c: Clock, horizon: nat)
    requires Safe(m) && m != "" && Live(Reservations(l, m), day, horizon) && c.today == day && c.now < horizon
    ensures var l' := Release(l, m, estimated, actual, day);
            var rs := Reservations(l, m);
            var change := (if actual > 0.0 then actual else 0.0)
                          - if FindEntry(rs, day, estimated) < |rs| then estimated else 0.0;
            && DayExposure(l', m, c) == DayExposure(l, m, c) + change
            && MonthExposure(l', m, c) == MonthExposure(l, m, c) + change
            && Live(Reservations(l', m), day, horizon)
  {
    hide Safe, Reserved;
    var rs := Reservations(l, m);
    var i := FindEntry(rs, day, estimated);
    if i < |rs| { ReservedWithout(rs, i, c); }
  }

  lemma PushAccounting(cfg: Config, l: Ledger, m: Model, estimated: real, c: Clock)
    requires Safe(m) && !Blocked(cfg, l, m, estimated, c)
    ensures var l' := Reserve(cfg, l, m, estimated, c);
            && Reservations(l', m) == Reservations(l, m) + [Reservation(estimated, c.today, Some(c.now + RESERVATION_TTL_MS))]
            && Reserved(Reservations(l', m), c) == Reserved(Reservations(l, m), c) + estimated
            && l'.global == l.global && l'.models == l.models
  {
    hide Safe, Blocked;
    var rs := Reservations(l, m);
    assert (rs + [Reservation(estimated, c.today, Some(c.now + RESERVATION_TTL_MS))])[..|rs|] == rs;
  }

  lemma ReserveAccounting(cfg: Config, l: Ledger, m: Model, estimated: real, c: Clock, horizon: nat)
    requires Safe(m) && m != "" && estimated >= 0.0 && ValidConfig(cfg)
    requires Live(Reservations(l, m), c.today, horizon) && c.now < horizon <= c.now + RESERVATION_TTL_MS
    requires WithinCap(cfg, l, m, c)
    ensures var l' := Reserve(cfg, l, m, estimated, c);
            WithinCap(cfg, l', m, c) && Live(Reservations(l', m), c.today, horizon)
  {
    hide Safe, Live, Reserved, Reservations, Blocked, BoundDaily, BoundMonthly;
    RefusedExactly(cfg, l, m, estimated, c);
    if !Blocked(cfg, l, m, estimated, c) {
      PushAccounting(cfg, l, m, estimated, c);
      hide Reserve;
      PushedLive(l, m, estimated, c, horizon);
    }
  }

  lemma PushedLive(l: Ledger, m: Model, estimated: real, c: Clock, horizon: nat)
    requires Live(Reservations(l, m), c.today, horizon) && estimated >= 0.0 && horizon <= c.now + RESERVATION_TTL_MS
    ensures Live(Reservations(l, m) + [Reservation(estimated, c.today, Some(c.now + RESERVATION_TTL_MS))], c.today, horizon)
  {
    LiveAppend(Reservations(l, m), Reservation(estimated, c.today, Some(c.now + RESERVATION_TTL_MS)), c.today, horizon);
  }

  lemma LiveAppend(rs: seq<Reservation>, r: Reservation, day: Day, horizon: nat)
    requires Live(rs, day, horizon) && Live([r], day, horizon)
    ensures Live(rs + [r], day, horizon)
  {
  }

  lemma LimitsValid(cfg: Config, m: Model)
    requires ValidConfig(cfg)
    ensures ValidLimits(LimitsFor(cfg, m))
  {
  }

  /** What the cap asks of the operations on the model: no spend added behind its back, clock
      readings on one day before any reservation expires, estimates that are not negative,
      and releases of an existing reservation that cost no more than it. */
  predicate Disciplined(l: Ledger, m: Model, day: Day, horizon: nat, op: Op) {
    match op
    case AddSpend(m', _, _) => m' != m
    case ReserveBudget(m', estimated, c) => m' == m ==>
      estimated >= 0.0 && c.today == day && c.now < horizon <= c.now + RESERVATION_TTL_MS
    case ReleaseReservation(m', estimated, actual, today) => m' == m ==> OwnRelease(l, m, estimated, actual, day, today)
    case RecordRun(_, _) => true
    case ReleaseRunReservations(run, entries, today) => OwnReleases(l, m, RunEntry(l, run), entries, day, today)
  }

  predicate OwnRelease(l: Ledger, m: Model, estimated: real, actual: real, day: Day, today: Day) {
    today == day && actual <= estimated && FindEntry(Reservations(l, m), day, estimated) < |Reservations(l, m)|
  }

  predicate OwnReleases(l: Ledger, m: Model, reserved: map<Model, real>, entries: seq<(Model, real)>, day: Day, today: Day) {
    entries == [] ||
    (var n := |entries| - 1;
     && OwnReleases(l, m, reserved, entries[..n], day, today)
     && (entries[n].0 == m ==>
           OwnRelease(ReleaseAll(l, reserved, entries[..n], today), m, Get(reserved, m), entries[n].1, day, today)))
  }

  /** Within the cap at every moment until the horizon. */
  ghost predicate CapInv(cfg: Config, l: Ledger, m: Model, c: Clock, horizon: nat) {
    Live(Reservations(l, m), c.today, horizon) && WithinCap(cfg, l, m, c)
  }

  lemma CapAtAnyTime(cfg: Config, l: Ledger, m: Model, c: Clock, c': Clock, horizon: nat)
    requires CapInv(cfg, l, m, c, horizon) && c.today == c'.today && c.now < horizon && c'.now < horizon
    ensures CapInv(cfg, l, m, c', horizon)
  {
    hide Live;
    ReservedSame(Reservations(l, m), c.today, horizon, c, c');
  }

  lemma OwnReleaseKeepsCap(cfg: Config, l: Ledger, m: Model, estimated: real, actual: real, c: Clock, horizon: nat)
    requires Safe(m) && m != "" && CapInv(cfg, l, m, c, horizon) && c.now < horizon
    requires OwnRelease(l, m, estimated, actual, c.today, c.today)
    ensures CapInv(cfg, Release(l, m, estimated, actual, c.today), m, c, horizon)
  {
    hide Safe, Release, Live, DayExposure, MonthExposure, BoundDaily, BoundMonthly;
    ReleaseAccounting(l, m, estimated, actual, c.today, c, horizon);
    FoundIsPaidFor(Reservations(l, m), c.today, horizon, estimated);
    CapShrinks(cfg, l, Release(l, m, estimated, actual, c.today), m, c);
  }

  lemma FoundIsPaidFor(rs: seq<Reservation>, day: Day, horizon: nat, amount: real)
    requires Live(rs, day, horizon) && FindEntry(rs, day, amount) < |rs|
    ensures amount >= 0.0
  {
  }

  lemma CapShrinks(cfg: Config, l: Ledger, l': Ledger, m: Model, c: Clock)
    requires WithinCap(cfg, l, m, c)
    requires DayExposure(l', m, c) <= DayExposure(l, m, c) && MonthExposure(l', m, c) <= MonthExposure(l, m, c)
    ensures WithinCap(cfg, l', m, c)
  {
    hide DayExposure, MonthExposure, BoundDaily, BoundMonthly;
  }

  /** Operations on other models leave this one alone. */
  lemma OtherRelease(l: Ledger, m: Model, m': Model, estimated: real, actual: real, today: Day)
    requires m != m'
    ensures var l' := Release(l, m', estimated, actual, today);
            Reservations(l', m) == Reservations(l, m) && SpendOf(l', m) == SpendOf(l, m)
  {
  }

  lemma SameCap(cfg: Config, l: Ledger, l': Ledger, m: Model, c: Clock, horizon: nat)
    requires m != "" && CapInv(cfg, l, m, c, horizon)
    requires Reservations(l', m) == Reservations(l, m) && SpendOf(l', m) == SpendOf(l, m)
    ensures CapInv(cfg, l', m, c, horizon)
  {
  }

  lemma {:induction false} OwnReleasesKeepCap(cfg: Config, l: Ledger, m: Model, reserved: map<Model, real>,
                                              entries: seq<(Model, real)>, c: Clock, today: Day, horizon: nat)
    requires Safe(m) && m != "" && CapInv(cfg, l, m, c, horizon) && c.now < horizon
    requires OwnReleases(l, m, reserved, entries, c.today, today)
    ensures CapInv(cfg, ReleaseAll(l, reserved, entries, today), m, c, horizon)
  {
    hide Safe, Release, CapInv;
    if entries != [] {
      var n := |entries| - 1;
      OwnReleasesKeepCap(cfg, l, m, reserved, entries[..n], c, today, horizon);
      var most := ReleaseAll(l, reserved, entries[..n], today);
      var (m', actual) := entries[n];
      if m' == m {
        OwnReleaseKeepsCap(cfg, most, m, Get(reserved, m), actual, c, horizon);
      } else {
        OtherRelease(most, m, m', Get(reserved, m'), actual, today);
        SameCap(cfg, most, Release(most, m', Get(reserved, m'), actual, today), m, c, horizon);
      }
    }
  }

  lemma StepKeepsCap(cfg: Config, l: Ledger, m: Model, op: Op, c: Clock, horizon: nat)
    requires ValidConfig(cfg) && Safe(m) && m != "" && CapInv(cfg, l, m, c, horizon) && c.now < horizon
    requires Disciplined(l, m, c.today, horizon, op)
    ensures CapInv(cfg, Step(cfg, l, op), m, c, horizon)
  {
    hide Safe, Release, CapInv, ReleaseAll, SumByModel, OwnRelease, OwnReleases, Blocked, ValidConfig;
    match op
    case AddSpend(m', usd, today) => SameCap(cfg, l, Step(cfg, l, op), m, c, horizon);
    case ReserveBudget(m', estimated, c') =>
      if m' == m {
        CapAtAnyTime(cfg, l, m, c, c', horizon);
        ReserveKeepsCap(cfg, l, m, estimated, c', horizon);
        CapAtAnyTime(cfg, Reserve(cfg, l, m, estimated, c'), m, c', c, horizon);
      } else {
        SameCap(cfg, l, Step(cfg, l, op), m, c, horizon);
      }
    case ReleaseReservation(m', estimated, actual, today) =>
      if m' == m {
        assert today == c.today by { assert OwnRelease(l, m, estimated, actual, c.today, today); OwnDay(l, m, estimated, actual, c.today, today); }
        OwnReleaseKeepsCap(cfg, l, m, estimated, actual, c, horizon);
      } else {
        OtherRelease(l, m, m', estimated, actual, today);
        SameCap(cfg, l, Step(cfg, l, op), m, c, horizon);
      }
    case RecordRun(run, rs) => SameCap(cfg, l, Step(cfg, l, op), m, c, horizon);
    case ReleaseRunReservations(run, entries, today) =>
      OwnReleasesKeepCap(cfg, l, m, RunEntry(l, run), entries, c, today, horizon);
      SameCap(cfg, ReleaseAll(l, RunEntry(l, run), entries, today), Step(cfg, l, op), m, c, horizon);
  }

  lemma OwnDay(l: Ledger, m: Model, estimated: real, actual: real, day: Day, today: Day)
    requires OwnRelease(l, m, estimated, actual, day, today)
    ensures today == day
  {
  }

  lemma ReserveKeepsCap(cfg: Config, l: Ledger, m: Model, estimated: real, c: Clock, horizon: nat)
    requires ValidConfig(cfg) && Safe(m) && m != "" && estimated >= 0.0
    requires CapInv(cfg, l, m, c, horizon) && c.now < horizon <= c.now + RESERVATION_TTL_MS
    ensures CapInv(cfg, Reserve(cfg, l, m, estimated, c), m, c, horizon)
  {
    hide Safe, Reserve, WithinCap, Live;
    ReserveAccounting(cfg, l, m, estimated, c, horizon);
  }

  predicate DisciplinedRun(cfg: Config, l: Ledger, m: Model, day: Day, horizon: nat, ops: seq<Op>) {
    forall k :: 0 <= k < |ops| ==> Disciplined(Run(cfg, l, ops[..k]), m, day, horizon, ops[k])
  }

  /** For one model on one day: any disciplined sequence of operations keeps what is spent
      plus what is reserved within block percent of the daily and of the monthly limit. */
  lemma {:induction false} CapNeverExceeded(cfg: Config, l: Ledger, m: Model, ops: seq<Op>, c: Clock, horizon: nat)
    requires ValidConfig(cfg) && Safe(m) && m != "" && c.now < horizon
    requires Live(Reservations(l, m), c.today, horizon) && WithinCap(cfg, l, m, c)
    requires DisciplinedRun(cfg, l, m, c.today, horizon, ops)
    ensures CapInv(cfg, Run(cfg, l, ops), m, c, horizon)
  {
    hide Safe, Live, WithinCap, ValidConfig, Disciplined, Step;
    if ops != [] {
      var n := |ops| - 1;
      forall k | 0 <= k < n ensures Disciplined(Run(cfg, l, ops[..n][..k]), m, c.today, horizon, ops[..n][k]) {
        assert ops[..n][..k] == ops[..k];
      }
      CapNeverExceeded(cfg, l, m, ops[..n], c, horizon);
      assert Disciplined(Run(cfg, l, ops[..n]), m, c.today, horizon, ops[n]);
      StepKeepsCap(cfg, Run(cfg, l, ops[..n]), m, ops[n], c, horizon);
    }
  }

  // ---------------------------------------------------------------------------
  // Exactly when operations exceed the cap
  // ---------------------------------------------------------------------------

  /** What is added to the exposure against the day and against the month. */
  datatype Change = Change(day: real, month: real)

  function Plus(a: Change, b: Change): Change { Change(a.day + b.day, a.month + b.month) }

  function SpendChange(usd: real, today: Day, c: Clock): Change {
    Change(if today == c.today then usd else 0.0, if today.month == c.today.month then usd else 0.0)
  }

  /** A release adds what was paid, less the entry it takes out if that entry still counted. */
  function ReleaseChange(l: Ledger, m: Model, m': Model, estimated: real, actual: real, today: Day, c: Clock): Change {
    if m' != m then Change(0.0, 0.0)
    else
      var rs := Reservations(l, m);
      var i := FindEntry(rs, today, estimated);
      var back := if i < |rs| && Counts(rs[i], c) then estimated else 0.0;
      Plus(SpendChange(if actual > 0.0 then actual else 0.0, today, c), Change(-back, -back))
  }

  function ReleasesChange(l: Ledger, m: Model, reserved: map<Model, real>, entries: seq<(Model, real)>,
                          today: Day, c: Clock): Change {
    if entries == [] then Change(0.0, 0.0)
    else
      var n := |entries| - 1;
      var (m', actual) := entries[n];
      Plus(ReleasesChange(l, m, reserved, entries[..n], today, c),
           ReleaseChange(ReleaseAll(l, reserved, entries[..n], today), m, m', Get(reserved, m'), actual, today, c))
  }

  function Granted(estimated: real, c: Clock): Reservation {
    Reservation(estimated, c.today, Some(c.now + RESERVATION_TTL_MS))
  }

  /** What an operation adds to the exposure of the model, seen at the clock reading c: spend in
      full on its day, a granted reservation while it counts, and releases as above. */
  function ChangeOf(cfg: Config, l: Ledger, m: Model, op: Op, c: Clock): Change {
    match op
    case AddSpend(m', usd, today) => if m' == m then SpendChange(usd, today, c) else Change(0.0, 0.0)
    case ReserveBudget(m', estimated, c') =>
      if m' == m && !Blocked(cfg, l, m, estimated, c') && Counts(Granted(estimated, c'), c)
      then Change(estimated, estimated) else Change(0.0, 0.0)
    case ReleaseReservation(m', estimated, actual, today) => ReleaseChange(l, m, m', estimated, actual, today, c)
    case RecordRun(_, _) => Change(0.0, 0.0)
    case ReleaseRunReservations(run, entries, today) => ReleasesChange(l, m, RunEntry(l, run), entries, today, c)
  }

  function Changes(cfg: Config, l: Ledger, m: Model, ops: seq<Op>, c: Clock): Change {
    if ops == [] then Change(0.0, 0.0)
    else
      var n := |ops| - 1;
      Plus(Changes(cfg, l, m, ops[..n], c), ChangeOf(cfg, Run(cfg, l, ops[..n]), m, ops[n], c))
  }

  /** The exposure of the model has grown by `change`. */
  predicate Grows(l: Ledger, l': Ledger, m: Model, change: Change, c: Clock) {
    && DayExposure(l', m, c) == DayExposure(l, m, c) + change.day
    && MonthExposure(l', m, c) == MonthExposure(l, m, c) + change.month
  }

  lemma SameExposure(l: Ledger, l': Ledger, m: Model, c: Clock)
    requires m != "" && Reservations(l', m) == Reservations(l, m) && SpendOf(l', m) == SpendOf(l, m)
    ensures Grows(l, l', m, Change(0.0, 0.0), c)
  {
  }

  lemma SpendChanges(l: Ledger, m: Model, m': Model, usd: real, today: Day, c: Clock)
    requires m != ""
    ensures Grows(l, ApplySpend(l, m', usd, today), m,
                  if m' == m then SpendChange(usd, today, c) else Change(0.0, 0.0), c)
  {
    hide Reserved;
  }

  lemma ReserveChanges(cfg: Config, l: Ledger, m: Model, m': Model, estimated: real, c': Clock, c: Clock)
    requires Safe(m) && m != ""
    ensures Grows(l, Reserve(cfg, l, m', estimated, c'), m, ChangeOf(cfg, l, m, ReserveBudget(m', estimated, c'), c), c)
  {
    hide Counts, Blocked, Safe;
    if m' == m && !Blocked(cfg, l, m, estimated, c') {
      var rs, r := Reservations(l, m), Granted(estimated, c');
      PushAccounting(cfg, l, m, estimated, c');
      assert (rs + [r])[..|rs|] == rs;
    }
  }

  lemma ReleaseChanges(l: Ledger, m: Model, m': Model, estimated: real, actual: real, today: Day, c: Clock)
    requires Safe(m) && m != ""
    ensures Grows(l, Release(l, m', estimated, actual, today), m, ReleaseChange(l, m, m', estimated, actual, today, c), c)
  {
    hide Grows, Release, Reserved, Counts, FindEntry, Safe, SpendChange;
    if m' != m {
      OtherRelease(l, m, m', estimated, actual, today);
      SameExposure(l, Release(l, m', estimated, actual, today), m, c);
    } else {
      OwnReleaseChanges(l, m, estimated, actual, today, c);
    }
  }

  /** The entry first, then what was paid. */
  lemma OwnReleaseChanges(l: Ledger, m: Model, estimated: real, actual: real, today: Day, c: Clock)
    requires Safe(m) && m != ""
    ensures Grows(l, Release(l, m, estimated, actual, today), m, ReleaseChange(l, m, m, estimated, actual, today, c), c)
  {
    hide DayExposure, MonthExposure, Counts, FindEntry, Safe, Unreserve, ApplySpend;
    var l1 := Unreserve(l, m, estimated, today);
    UnreserveChanges(l, m, estimated, today, c);
    SpendChanges(l1, m, m, actual, today, c);
  }

  lemma UnreserveChanges(l: Ledger, m: Model, estimated: real, today: Day, c: Clock)
    requires m != ""
    ensures var rs := Reservations(l, m);
            var i := FindEntry(rs, today, estimated);
            var back := if i < |rs| && Counts(rs[i], c) then estimated else 0.0;
            Grows(l, Unreserve(l, m, estimated, today), m, Change(-back, -back), c)
  {
    hide Reserved, Counts;
    var rs := Reservations(l, m);
    var i := FindEntry(rs, today, estimated);
    if i < |rs| { ReservedWithout(rs, i, c); }
  }

  lemma {:induction false} ReleasesChanges(l: Ledger, m: Model, reserved: map<Model, real>, entries: seq<(Model, real)>,
                                           today: Day, c: Clock)
    requires Safe(m) && m != ""
    ensures Grows(l, ReleaseAll(l, reserved, entries, today), m, ReleasesChange(l, m, reserved, entries, today, c), c)
  {
    hide DayExposure, MonthExposure, Safe, Release, ReleaseChange;
    if entries != [] {
      var n := |entries| - 1;
      ReleasesChanges(l, m, reserved, entries[..n], today, c);
      ReleaseChanges(ReleaseAll(l, reserved, entries[..n], today), m, entries[n].0, Get(reserved, entries[n].0),
                     entries[n].1, today, c);
    }
  }

  lemma ExposureChanges(cfg: Config, l: Ledger, m: Model, op: Op, c: Clock)
    requires Safe(m) && m != ""
    ensures Grows(l, Step(cfg, l, op), m, ChangeOf(cfg, l, m, op, c), c)
  {
    hide Grows, Safe, Reserve, Release, ReleaseAll, ApplySpend, SumByModel, SpendChange, ReleaseChange, ReleasesChange;
    match op
    case AddSpend(m', usd, today) =>
      SpendChanges(l, m, m', usd, today, c);
      SameExposure(l, l, m, c);
    case ReserveBudget(m', estimated, c') => ReserveChanges(cfg, l, m, m', estimated, c', c);
    case ReleaseReservation(m', estimated, actual, today) => ReleaseChanges(l, m, m', estimated, actual, today, c);
    case RecordRun(run, rs) => SameExposure(l, Step(cfg, l, op), m, c);
    case ReleaseRunReservations(run, entries, today) =>
      ReleasesChanges(l, m, RunEntry(l, run), entries, today, c);
      ForgetRun(l, ReleaseAll(l, RunEntry(l, run), entries, today), Step(cfg, l, op), m,
                ReleasesChange(l, m, RunEntry(l, run), entries, today, c), c);
  }

  lemma ForgetRun(l: Ledger, l1: Ledger, l': Ledger, m: Model, change: Change, c: Clock)
    requires Grows(l, l1, m, change, c) && l' == l1.(runReservations := l'.runReservations)
    ensures Grows(l, l', m, change, c)
  {
  }

  /** The exposure with a change stays within block percent of both limits. */
  ghost predicate Fits(cfg: Config, l: Ledger, m: Model, change: Change, c: Clock) {
    && (forall limit :: BoundDaily(cfg, m, limit) ==> DayExposure(l, m, c) + change.day <= limit * cfg.block / 100.0)
    && (forall limit :: BoundMonthly(cfg, m, limit) ==> MonthExposure(l, m, c) + change.month <= limit * cfg.block / 100.0)
  }

  lemma FitsExactly(cfg: Config, l: Ledger, l': Ledger, m: Model, change: Change, c: Clock)
    requires Grows(l, l', m, change, c)
    ensures WithinCap(cfg, l', m, c) <==> Fits(cfg, l, m, change, c)
  {
    hide DayExposure, MonthExposure, BoundDaily, BoundMonthly;
  }

  /** After one operation the cap holds if and only if the exposure before and what the
      operation adds are within it. */
  lemma CapKeptExactly(cfg: Config, l: Ledger, m: Model, op: Op, c: Clock)
    requires Safe(m) && m != ""
    ensures WithinCap(cfg, Step(cfg, l, op), m, c) <==> Fits(cfg, l, m, ChangeOf(cfg, l, m, op, c), c)
  {
    hide Grows, Fits, WithinCap, Step, ChangeOf, Safe;
    ExposureChanges(cfg, l, m, op, c);
    FitsExactly(cfg, l, Step(cfg, l, op), m, ChangeOf(cfg, l, m, op, c), c);
  }

  lemma {:induction false} ExposureAfter(cfg: Config, l: Ledger, m: Model, ops: seq<Op>, c: Clock)
    requires Safe(m) && m != ""
    ensures Grows(l, Run(cfg, l, ops), m, Changes(cfg, l, m, ops, c), c)
  {
    hide DayExposure, MonthExposure, Step, ChangeOf, Safe;
    if ops != [] {
      var n := |ops| - 1;
      ExposureAfter(cfg, l, m, ops[..n], c);
      ExposureChanges(cfg, Run(cfg, l, ops[..n]), m, ops[n], c);
    }
  }

  /** Over any operations, on this and on other models, disciplined or not, the cap holds after
      each of them if and only if the exposure at the start and every sum of what the first few
      of them add are within it. */
  lemma CapThroughoutExactly(cfg: Config, l: Ledger, m: Model, ops: seq<Op>, c: Clock)
    requires Safe(m) && m != ""
    ensures (forall k :: 0 <= k <= |ops| ==> WithinCap(cfg, Run(cfg, l, ops[..k]), m, c))
            <==> (forall k :: 0 <= k <= |ops| ==> Fits(cfg, l, m, Changes(cfg, l, m, ops[..k], c), c))
  {
    hide Grows, Fits, WithinCap, Run, Changes, Safe;
    forall k | 0 <= k <= |ops|
      ensures WithinCap(cfg, Run(cfg, l, ops[..k]), m, c) <==> Fits(cfg, l, m, Changes(cfg, l, m, ops[..k], c), c)
    {
      ExposureAfter(cfg, l, m, ops[..k], c);
      FitsExactly(cfg, l, Run(cfg, l, ops[..k]), m, Changes(cfg, l, m, ops[..k], c), c);
    }
  }

  // Three ways past a daily limit of a hundred, from the empty ledger.

  function DailyHundred(): Config { Config(Limits(Some(100.0), None), map[], 100.0) }

  function AtStart(): Clock { Clock(Day(0, 0), 0) }

  /** When the first reservation has expired. */
  function Expired(): Clock { Clock(Day(0, 0), RESERVATION_TTL_MS) }

  /** Spend that nobody reserved. */
  lemma DirectSpendExceeds(m: Model)
    requires Safe(m) && m != ""
    ensures !WithinCap(DailyHundred(), Run(DailyHundred(), Empty(), [AddSpend(m, 101.0, Day(0, 0))]), m, AtStart())
  {
    hide Safe, Step, WithinCap;
    var op := AddSpend(m, 101.0, Day(0, 0));
    OneOp(DailyHundred(), Empty(), [], op);
    EmptyExposure(m, AtStart());
    assert BoundDaily(DailyHundred(), m, 100.0);
    CapKeptExactly(DailyHundred(), Empty(), m, op, AtStart());
  }

  lemma OneOp(cfg: Config, l: Ledger, ops: seq<Op>, op: Op)
    ensures Run(cfg, l, ops + [op]) == Step(cfg, Run(cfg, l, ops), op)
    ensures ops == [] ==> Run(cfg, l, [op]) == Step(cfg, l, op)
  {
    assert (ops + [op])[..|ops|] == ops;
    assert ops == [] ==> ops + [op] == [op];
  }

  lemma EmptyExposure(m: Model, c: Clock)
    ensures DayExposure(Empty(), m, c) == 0.0 && Reservations(Empty(), m) == []
  {
  }

  /** A reservation of sixty is granted to an empty ledger. */
  lemma SixtyGranted(m: Model)
    requires Safe(m) && m != ""
    ensures var l := Step(DailyHundred(), Empty(), ReserveBudget(m, 60.0, AtStart()));
            Reservations(l, m) == [Reservation(60.0, Day(0, 0), Some(RESERVATION_TTL_MS))]
            && SpentToday(l, m, Day(0, 0)) == 0.0
  {
    hide Safe;
  }

  lemma ReservedOne(r: Reservation, c: Clock)
    ensures Reserved([r], c) == if Counts(r, c) then r.amount else 0.0
  {
    assert Reserved([r][..0], c) == 0.0;
  }

  /** Work that costs more than was reserved for it. */
  lemma OverrunExceeds(m: Model)
    requires Safe(m) && m != ""
    ensures var ops := [ReserveBudget(m, 60.0, AtStart())] + [ReleaseReservation(m, 60.0, 160.0, Day(0, 0))];
            !WithinCap(DailyHundred(), Run(DailyHundred(), Empty(), ops), m, AtStart())
  {
    hide Safe, Step, WithinCap;
    var cfg, reserve, release := DailyHundred(), ReserveBudget(m, 60.0, AtStart()), ReleaseReservation(m, 60.0, 160.0, Day(0, 0));
    var l := Step(cfg, Empty(), reserve);
    OneOp(cfg, Empty(), [], reserve);
    OneOp(cfg, Empty(), [reserve], release);
    SixtyGranted(m);
    ReservedOne(Reservations(l, m)[0], AtStart());
    assert BoundDaily(DailyHundred(), m, 100.0);
    CapKeptExactly(cfg, l, m, release, AtStart());
  }

  /** Work whose reservation has expired, and the room for it been given away. */
  lemma ExpiredReservationExceeds(m: Model)
    requires Safe(m) && m != ""
    ensures var ops := [ReserveBudget(m, 60.0, AtStart())] + [ReserveBudget(m, 60.0, Expired())]
                       + [ReleaseReservation(m, 60.0, 60.0, Day(0, 0))];
            !WithinCap(DailyHundred(), Run(DailyHundred(), Empty(), ops), m, Expired())
  {
    hide Safe, Step, WithinCap, Reserved;
    var cfg, first, second := DailyHundred(), ReserveBudget(m, 60.0, AtStart()), ReserveBudget(m, 60.0, Expired());
    var release := ReleaseReservation(m, 60.0, 60.0, Day(0, 0));
    var l1 := Step(cfg, Empty(), first);
    OneOp(cfg, Empty(), [], first);
    OneOp(cfg, Empty(), [first], second);
    OneOp(cfg, Empty(), [first] + [second], release);
    SixtyGranted(m);
    ReservedOne(Reservations(l1, m)[0], Expired());
    SecondGranted(m, l1);
    assert BoundDaily(DailyHundred(), m, 100.0);
    CapKeptExactly(cfg, Step(cfg, l1, second), m, release, Expired());
  }

  lemma SecondGranted(m: Model, l: Ledger)
    requires Safe(m) && m != "" && SpentToday(l, m, Day(0, 0)) == 0.0
    requires var r := Reservation(60.0, Day(0, 0), Some(RESERVATION_TTL_MS)); Reservations(l, m) == [r]
    ensures var l' := Step(DailyHundred(), l, ReserveBudget(m, 60.0, Expired()));
            && DayExposure(l', m, Expired()) == 60.0
            && |Reservations(l', m)| == 2 && Reservations(l', m)[0] == Reservations(l, m)[0]
  {
    hide Safe, Reserved;
    ReservedOne(Reservations(l, m)[0], Expired());
    PushAccounting(DailyHundred(), l, m, 60.0, Expired());
  }

  // ---------------------------------------------------------------------------
  // Reserving and releasing undo each other
  // ---------------------------------------------------------------------------

  /** How many entries of a day have an amount. */
  function Count(rs: seq<Reservation>, day: Day, amount: real): nat {
    if rs == [] then 0
    else
      var last := rs[|rs| - 1];
      Count(rs[..|rs| - 1], day, amount) + if last.day == day && last.amount == amount then 1 else 0
  }

  lemma {:induction false} CountWithout(rs: seq<Reservation>, i: nat, day: Day, amount: real)
    requires i < |rs|
    ensures Count(rs, day, amount)
         == Count(rs[..i] + rs[i + 1..], day, amount) + if rs[i].day == day && rs[i].amount == amount then 1 else 0
  {
    var n := |rs| - 1;
    if i == n {
      assert rs[..i] + rs[i + 1..] == rs[..n];
    } else {
      CountWithout(rs[..n], i, day, amount);
      assert rs[..n][..i] + rs[..n][i + 1..] == (rs[..i] + rs[i + 1..])[..n - 1];
    }
  }

  lemma PushThenRemove(rs: seq<Reservation>, r: Reservation, day: Day, amount: real)
    ensures Count(RemoveEntry(rs + [r], r.day, r.amount), day, amount) == Count(rs, day, amount)
  {
    hide Count;
    var more := rs + [r];
    var i := FindEntry(more, r.day, r.amount);
    assert more[|rs|] == r;
    CountWithout(more, i, day, amount);
    CountWithout(more, |rs|, day, amount);
    assert more[..|rs|] + more[|rs| + 1..] == rs;
  }

  /** An unused reservation leaves no trace: the same amounts stay reserved, nothing spent. */
  lemma ReserveThenRelease(cfg: Config, l: Ledger, m: Model, estimated: real, c: Clock)
    requires Safe(m) && !Blocked(cfg, l, m, estimated, c)
    ensures var l' := Release(Reserve(cfg, l, m, estimated, c), m, estimated, 0.0, c.today);
            && (forall day, amount :: Count(Reservations(l', m), day, amount) == Count(Reservations(l, m), day, amount))
            && (forall other :: other != m ==> Reservations(l', other) == Reservations(l, other))
            && l'.global == l.global && l'.models == l.models
  {
    hide Safe, Count, Blocked, RemoveEntry;
    var rs := Reservations(l, m);
    var r := Reservation(estimated, c.today, Some(c.now + RESERVATION_TTL_MS));
    forall day, amount ensures Count(RemoveEntry(rs + [r], r.day, r.amount), day, amount) == Count(rs, day, amount) {
      PushThenRemove(rs, r, day, amount);
    }
  }

  predicate Lists(entries: seq<(Model, real)>, m: Model) {
    exists k :: 0 <= k < |entries| && entries[k].0 == m
  }

  lemma ListsLast(entries: seq<(Model, real)>, m: Model)
    requires entries != []
    ensures Lists(entries, m) <==> Lists(entries[..|entries| - 1], m) || entries[|entries| - 1].0 == m
  {
    if k :| 0 <= k < |entries| && entries[k].0 == m {
      if k < |entries| - 1 { assert entries[..|entries| - 1][k].0 == m; }
    }
  }

  lemma ReleaseTouches(l: Ledger, m': Model, estimated: real, actual: real, today: Day, m: Model)
    ensures Reservations(Release(l, m', estimated, actual, today), m)
         == if m' == m && Safe(m) then RemoveEntry(Reservations(l, m), today, estimated) else Reservations(l, m)
  {
    hide Safe;
  }

  /** Releasing a run releases, for each of its models, the recorded amount once; models not
      in the run, and the names no ledger key may have, keep their reservations. */
  lemma {:induction false} ReleaseAllOnce(l: Ledger, reserved: map<Model, real>, entries: seq<(Model, real)>, today: Day, m: Model)
    requires forall j, k :: 0 <= j < k < |entries| ==> entries[j].0 != entries[k].0
    ensures Reservations(ReleaseAll(l, reserved, entries, today), m)
         == if Safe(m) && Lists(entries, m) then RemoveEntry(Reservations(l, m), today, Get(reserved, m))
            else Reservations(l, m)
  {
    hide Safe, RemoveEntry, Release, Reservations;
    if entries != [] {
      var n := |entries| - 1;
      var (m', actual) := entries[n];
      ReleaseAllOnce(l, reserved, entries[..n], today, m);
      ReleaseTouches(ReleaseAll(l, reserved, entries[..n], today), m', Get(reserved, m'), actual, today, m);
      ListsLast(entries, m);
      assert m' == m ==> !Lists(entries[..n], m);
    }
  }

  // ---------------------------------------------------------------------------
  // The ledger file, changed in place
  // ---------------------------------------------------------------------------

  class LedgerFile {
    var global: Spend
    var models: map<Model, Spend>
    var reservations: map<Model, seq<Reservation>>
    var runReservations: map<RunId, map<Model, real>>

    ghost function Value(): Ledger
      reads this
    {
      Ledger(global, models, reservations, runReservations)
    }

    constructor ()
      ensures Value() == Empty()
    {
      global, models, reservations, runReservations := Spend(map[], map[]), map[], map[], map[];
    }

    method ApplySpendInPlace(m: Model, usd: real, today: Day)
      modifies this
      ensures Value() == ApplySpend(old(Value()), m, usd, today)
    {
      hide AddSpendTo;
      var spent := Added(global, today, usd);
      global := spent;
      if m !in models { models := models[m := Spend(map[], map[])]; }
      var entry := Added(models[m], today, usd);
      models := models[m := entry];
      assert models == old(models)[m := entry];
    }

    method Added(s: Spend, today: Day, usd: real) returns (s': Spend)
      ensures s' == AddSpendTo(s, today, usd)
    {
      s' := s.(daily := s.daily[today := Get(s.daily, today) + usd]);
      s' := s'.(monthly := s'.monthly[today.month := Get(s'.monthly, today.month) + usd]);
    }

    method AddSpendFor(m: Model, usd: real, today: Day)
      modifies this
      ensures forall cfg :: Value() == Step(cfg, old(Value()), AddSpend(m, usd, today))
    {
      if !Safe(m) { return; }
      ApplySpendInPlace(m, usd, today);
    }

    method TodayReservedTotal(m: Model, c: Clock) returns (total: real)
      ensures total == Reserved(Reservations(Value(), m), c)
    {
      var entries := if m in reservations then reservations[m] else [];
      total := 0.0;
      for k := 0 to |entries|
        invariant total == Reserved(entries[..k], c)
      {
        assert entries[..k + 1][..k] == entries[..k];
        var entry := entries[k];
        if entry.day != c.today { continue; }
        if entry.expiresAt.Some? && entry.expiresAt.value <= c.now { continue; }
        total := total + entry.amount;
      }
      assert entries[..|entries|] == entries;
    }

    method RemoveReservationEntry(m: Model, amount: real, today: Day) returns (removed: bool)
      modifies this
      ensures Value() == Unreserve(old(Value()), m, amount, today)
      ensures var rs := Reservations(old(Value()), m); removed <==> FindEntry(rs, today, amount) < |rs|
    {
      if m !in reservations { return false; }
      var entries := reservations[m];
      var i := 0;
      while i < |entries| && !(entries[i].day == today && entries[i].amount == amount)
        invariant 0 <= i <= |entries|
        invariant forall j :: 0 <= j < i ==> !(entries[j].day == today && entries[j].amount == amount)
      {
        i := i + 1;
      }
      FindIs(entries, today, amount, i);
      if i == |entries| {
        assert reservations == reservations[m := entries];
        return false;
      }
      reservations := reservations[m := entries[..i] + entries[i + 1..]];
      removed := true;
    }

    method ReserveBudgetFor(cfg: Config, m: Model, estimated: real, c: Clock) returns (ok: bool)
      modifies this
      ensures Value() == Reserve(cfg, old(Value()), m, estimated, c)
      ensures ok <==> !Safe(m) || !Blocked(cfg, old(Value()), m, estimated, c)
    {
      hide Over, Reserved, LimitsFor, Safe, Get;
      if !Safe(m) { return true; }
      var limits := LimitsFor(cfg, m);
      var reserved := TodayReservedTotal(m, c);
      var own := if m in models then models[m] else Spend(map[], map[]);
      var spent := if m != "" then own else global;
      if limits.daily.Some? && Over(Get(spent.daily, c.today) + reserved + estimated, limits.daily.value, cfg.block) {
        return false;
      }
      if limits.monthly.Some?
         && Over(Get(spent.monthly, c.today.month) + reserved + estimated, limits.monthly.value, cfg.block) {
        return false;
      }
      if m !in reservations { reservations := reservations[m := []]; }
      var r := Reservation(estimated, c.today, Some(c.now + RESERVATION_TTL_MS));
      reservations := reservations[m := reservations[m] + [r]];
      ok := true;
    }

    method ReleaseReservationFor(m: Model, estimated: real, actual: real, today: Day)
      modifies this
      ensures Value() == Release(old(Value()), m, estimated, actual, today)
    {
      if !Safe(m) { return; }
      var removed := RemoveReservationEntry(m, estimated, today);
      if actual > 0.0 { ApplySpendInPlace(m, actual, today); }
    }

    method RecordRunReservations(run: RunId, rs: seq<(Model, real)>)
      modifies this`runReservations
      ensures forall cfg :: Value() == Step(cfg, old(Value()), RecordRun(run, rs))
    {
      var entry: map<Model, real> := map[];
      for k := 0 to |rs|
        invariant entry == SumByModel(rs[..k])
      {
        assert rs[..k + 1][..k] == rs[..k];
        entry := entry[rs[k].0 := Get(entry, rs[k].0) + rs[k].1];
      }
      assert rs[..|rs|] == rs;
      runReservations := runReservations[run := entry];
    }

    method ReleaseRunReservationsFor(run: RunId, entries: seq<(Model, real)>, today: Day)
      modifies this
      ensures Value() == ReleaseRun(old(Value()), run, entries, today)
    {
      hide Release;
      var reserved := if run in runReservations then runReservations[run] else map[];
      for k := 0 to |entries|
        invariant Value() == ReleaseAll(old(Value()), reserved, entries[..k], today)
      {
        assert entries[..k + 1][..k] == entries[..k];
        var (m, actual) := entries[k];
        ReleaseReservationFor(m, Get(reserved, m), actual, today);
      }
      assert entries[..|entries|] == entries;
      RunsUntouched(old(Value()), reserved, entries, today);
      runReservations := runReservations - {run};
    }
  }

  lemma {:induction false} FindIs(rs: seq<Reservation>, today: Day, amount: real, i: nat)
    requires i <= |rs| && (i < |rs| ==> rs[i].day == today && rs[i].amount == amount)
    requires forall j :: 0 <= j < i ==> !(rs[j].day == today && rs[j].amount == amount)
    ensures FindEntry(rs, today, amount) == i
  {
  }

  lemma {:induction false} RunsUntouched(l: Ledger, reserved: map<Model, real>, entries: seq<(Model, real)>, today: Day)
    ensures ReleaseAll(l, reserved, entries, today).runReservations == l.runReservations
  {
    if entries != [] { RunsUntouched(l, reserved, entries[..|entries| - 1], today); }
  }
}
