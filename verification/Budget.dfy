/**
 * The structured provider's money ledger (worker/providers.ts): reservations against a request, a run and a day
 * limit, settled at what the call cost; and the provider call that reserves and settles. The ledger's maps are
 * listed in the order of their entries. Amounts are whole micro-dollars.
 */
module Budget {
  import opened Options

  datatype Reservation = Reservation(id: int, cost: int, run: string, expiresAt: int)

  datatype RunSpend = RunSpend(run: string, spent: int)

  datatype Ledger = Ledger(
    day: int, spent: int, byRun: seq<RunSpend>, requests: nat, reservations: seq<Reservation>)

  datatype Limits = Limits(perRequest: int, perRun: int, perDay: int)

  datatype Error = PolicyInvalid | BudgetExceeded | UsageInvalid | ReservationMissing

  datatype Outcome<T> = Ok(value: T) | Err(error: Error)

  const RESERVATION_TTL_MS: int := 10 * 60000

  function EmptyLedger(day: int): Ledger {
    Ledger(day, 0, [], 0, [])
  }

  /** The ledger as read on a day: another day's is dropped. */
  function Read(l: Ledger, day: int): Ledger {
    if l.day == day then l else EmptyLedger(day)
  }

  function Purged(rs: seq<Reservation>, now: int): seq<Reservation> {
    if rs == [] then []
    else if rs[0].expiresAt <= now then Purged(rs[1..], now)
    else [rs[0]] + Purged(rs[1..], now)
  }

  function Reserved(rs: seq<Reservation>): int {
    if rs == [] then 0 else rs[0].cost + Reserved(rs[1..])
  }

  function ReservedFor(rs: seq<Reservation>, run: string): int {
    if rs == [] then 0 else (if rs[0].run == run then rs[0].cost else 0) + ReservedFor(rs[1..], run)
  }

  function SpentFor(byRun: seq<RunSpend>, run: string): int {
    if byRun == [] then 0 else if byRun[0].run == run then byRun[0].spent else SpentFor(byRun[1..], run)
  }

  function Charged(byRun: seq<RunSpend>, run: string, amount: int): seq<RunSpend> {
    if byRun == [] then [RunSpend(run, amount)]
    else if byRun[0].run == run then [RunSpend(run, byRun[0].spent + amount)] + byRun[1..]
    else [byRun[0]] + Charged(byRun[1..], run, amount)
  }

  function TotalSpent(byRun: seq<RunSpend>): int {
    if byRun == [] then 0 else byRun[0].spent + TotalSpent(byRun[1..])
  }

  function Find(rs: seq<Reservation>, id: int): Option<Reservation> {
    if rs == [] then None else if rs[0].id == id then Some(rs[0]) else Find(rs[1..], id)
  }

  function Without(rs: seq<Reservation>, id: int): seq<Reservation> {
    if rs == [] then [] else if rs[0].id == id then rs[1..] else [rs[0]] + Without(rs[1..], id)
  }

  predicate IsValidLimits(l: Limits) {
    l.perRequest >= 0 && l.perRun >= 0 && l.perDay >= 0
  }

  /** Reserving writes the ledger only when it succeeds; `id` is the fresh id the reservation gets. */
  function Reserve(l: Ledger, day: int, now: int, cost: int, limits: Limits, run: string, id: int): Outcome<Ledger> {
    if cost < 0 || !IsValidLimits(limits) || run == "" then Err(PolicyInvalid)
    else
      var current := Read(l, day);
      var rs := Purged(current.reservations, now);
      if cost > limits.perRequest || current.spent + Reserved(rs) + cost > limits.perDay
         || SpentFor(current.byRun, run) + ReservedFor(rs, run) + cost > limits.perRun
      then Err(BudgetExceeded)
      else Ok(current.(reservations := rs + [Reservation(id, cost, run, now + RESERVATION_TTL_MS)]))
  }

  function Max(a: int, b: int): int {
    if a >= b then a else b
  }

  /** Settling charges the run of the reservation at least what was reserved. */
  function Settle(l: Ledger, day: int, id: int, cost: int): Outcome<Ledger> {
    if cost < 0 then Err(UsageInvalid)
    else
      var current := Read(l, day);
      var item := Find(current.reservations, id);
      if item.None? then Err(ReservationMissing)
      else
        var charged := Max(item.value.cost, cost);
        Ok(Ledger(current.day, current.spent + charged, Charged(current.byRun, item.value.run, charged),
                  current.requests + 1, Without(current.reservations, id)))
  }

  /** The cost of a day's reservations not yet expired, of one run or of all. */
  function Outstanding(rs: seq<Reservation>, now: int, run: Option<string>): int {
    if rs == [] then 0
    else
      var last := rs[|rs| - 1];
      Outstanding(rs[..|rs| - 1], now, run) + if now < last.expiresAt && (run.None? || run.value == last.run) then last.cost else 0
  }

  lemma {:induction false} OutstandingOfFirst(rs: seq<Reservation>, now: int, run: Option<string>)
    requires rs != []
    ensures Outstanding(rs, now, run) == Outstanding(rs[..1], now, run) + Outstanding(rs[1..], now, run)
    decreases |rs|
  {
    if |rs| > 1 {
      var front := rs[..|rs| - 1];
      OutstandingOfFirst(front, now, run);
      assert front[..1] == rs[..1] && front[1..] == rs[1..][..|rs| - 2];
    } else {
      assert rs[..1] == rs && rs[1..] == [];
    }
  }

  lemma {:induction false} OutstandingIs(rs: seq<Reservation>, now: int, run: string)
    ensures Outstanding(rs, now, None) == Reserved(Purged(rs, now))
    ensures Outstanding(rs, now, Some(run)) == ReservedFor(Purged(rs, now), run)
    decreases |rs|
  {
    if rs != [] {
      OutstandingIs(rs[1..], now, run);
      OutstandingOfFirst(rs, now, None);
      OutstandingOfFirst(rs, now, Some(run));
      assert rs[..1][..0] == [] && rs[..1][0] == rs[0];
      var rest := Purged(rs[1..], now);
      assert ([rs[0]] + rest)[1..] == rest;
    }
  }

  /**
   * A reservation is refused as invalid exactly for a negative amount, a negative limit or no run; else as over budget exactly
   * when it is over the request's limit, or with what was spent and is still reserved today over the day's or the run's.
   */
  lemma RefusedIff(l: Ledger, day: int, now: int, cost: int, limits: Limits, run: string, id: int)
    ensures var out := Reserve(l, day, now, cost, limits, run, id);
      var invalid := cost < 0 || limits.perRequest < 0 || limits.perRun < 0 || limits.perDay < 0 || run == "";
      var rs := if l.day == day then l.reservations else [];
      var over := limits.perRequest < cost
                  || limits.perDay < (if l.day == day then l.spent else 0) + Outstanding(rs, now, None) + cost
                  || limits.perRun < (if l.day == day then SpentFor(l.byRun, run) else 0) + Outstanding(rs, now, Some(run)) + cost;
      && (out == Err(PolicyInvalid) <==> invalid) && (out == Err(BudgetExceeded) <==> !invalid && over)
      && (out.Ok? <==> !invalid && !over)
  {
    OutstandingIs(Read(l, day).reservations, now, run);
  }

  /** A settlement is refused as invalid exactly for a negative amount, and else exactly when its day has no such reservation. */
  lemma SettlementRefusedIff(l: Ledger, day: int, id: int, cost: int)
    ensures var out := Settle(l, day, id, cost);
      && (out == Err(UsageInvalid) <==> cost < 0)
      && (out == Err(ReservationMissing) <==> 0 <= cost && (l.day == day ==> forall r :: r in l.reservations ==> r.id != id))
      && (out.Err? ==> out.error == UsageInvalid || out.error == ReservationMissing)
  {
    FoundIff(Read(l, day).reservations, id);
  }

  lemma {:induction false} FoundIff(rs: seq<Reservation>, id: int)
    ensures Find(rs, id).None? <==> forall r :: r in rs ==> r.id != id
  {
    if rs != [] {
      FoundIff(rs[1..], id);
      assert forall r :: r in rs <==> r == rs[0] || r in rs[1..];
    }
  }

  // ----------------------------------------------------------------------------------------
  // Sums
  // ----------------------------------------------------------------------------------------

  predicate CostsOk(rs: seq<Reservation>) {
    forall i :: 0 <= i < |rs| ==> rs[i].cost >= 0
  }

  predicate IdsDistinct(rs: seq<Reservation>) {
    forall i, j :: 0 <= i < j < |rs| ==> rs[i].id != rs[j].id
  }

  predicate RunsDistinct(byRun: seq<RunSpend>) {
    forall i, j :: 0 <= i < j < |byRun| ==> byRun[i].run != byRun[j].run
  }

  lemma {:induction false} PurgedIds(rs: seq<Reservation>, now: int)
    requires IdsDistinct(rs)
    ensures IdsDistinct(Purged(rs, now)) && forall i :: 0 <= i < |Purged(rs, now)| ==> Purged(rs, now)[i] in rs
  {
    if rs != [] {
      var tail := rs[1..];
      assert forall i :: 0 <= i < |tail| ==> tail[i] == rs[i + 1];
      PurgedIds(tail, now);
      PrefixedIds(rs[0], tail, Purged(tail, now));
      assert rs == [rs[0]] + tail;
    }
  }

  lemma PrefixedIds(r: Reservation, tail: seq<Reservation>, rest: seq<Reservation>)
    requires IdsDistinct([r] + tail) && IdsDistinct(rest) && forall i :: 0 <= i < |rest| ==> rest[i] in tail
    ensures IdsDistinct([r] + rest) && forall i :: 0 <= i < |rest| + 1 ==> ([r] + rest)[i] in [r] + tail
  {
    forall i | 0 <= i < |rest|
      ensures rest[i] in [r] + tail && rest[i].id != r.id
    {
      var j :| 0 <= j < |tail| && tail[j] == rest[i];
      assert ([r] + tail)[j + 1] == rest[i] && ([r] + tail)[0] == r;
    }
  }

  lemma {:induction false} PurgingFrees(rs: seq<Reservation>, now: int, run: string)
    requires CostsOk(rs) && IdsDistinct(rs)
    ensures CostsOk(Purged(rs, now)) && IdsDistinct(Purged(rs, now))
    ensures Reserved(Purged(rs, now)) <= Reserved(rs) && ReservedFor(Purged(rs, now), run) <= ReservedFor(rs, run)
    ensures forall i :: 0 <= i < |Purged(rs, now)| ==> Purged(rs, now)[i] in rs
  {
    PurgedIds(rs, now);
    PurgedCosts(rs, now, run);
    var rest := Purged(rs, now);
    forall i | 0 <= i < |rest|
      ensures rest[i].cost >= 0
    {
      var j :| 0 <= j < |rs| && rs[j] == rest[i];
    }
  }

  lemma {:induction false} PurgedCosts(rs: seq<Reservation>, now: int, run: string)
    requires CostsOk(rs)
    ensures Reserved(Purged(rs, now)) <= Reserved(rs) && ReservedFor(Purged(rs, now), run) <= ReservedFor(rs, run)
  {
    if rs != [] {
      var tail := rs[1..];
      assert forall i :: 0 <= i < |tail| ==> tail[i] == rs[i + 1];
      PurgedCosts(tail, now, run);
      var rest := Purged(tail, now);
      assert ([rs[0]] + rest)[1..] == rest;
    }
  }

  lemma {:induction false} ReservedAppends(rs: seq<Reservation>, r: Reservation, run: string)
    ensures Reserved(rs + [r]) == Reserved(rs) + r.cost
    ensures ReservedFor(rs + [r], run) == ReservedFor(rs, run) + if r.run == run then r.cost else 0
  {
    if rs == [] {
      assert [r][1..] == [] && rs + [r] == [r];
    } else {
      assert (rs + [r])[1..] == rs[1..] + [r];
      ReservedAppends(rs[1..], r, run);
    }
  }

  lemma {:induction false} RemovingFrees(rs: seq<Reservation>, id: int, run: string)
    requires Find(rs, id).Some?
    ensures var r := Find(rs, id).value;
      && Reserved(Without(rs, id)) == Reserved(rs) - r.cost
      && ReservedFor(Without(rs, id), run) == ReservedFor(rs, run) - if r.run == run then r.cost else 0
  {
    if rs[0].id != id {
      RemovingFrees(rs[1..], id, run);
      assert Without(rs, id)[1..] == Without(rs[1..], id);
    }
  }

  lemma {:induction false} FoundIsListed(rs: seq<Reservation>, id: int)
    requires Find(rs, id).Some?
    ensures Find(rs, id).value in rs && Find(rs, id).value.id == id
  {
    if rs[0].id != id {
      FoundIsListed(rs[1..], id);
      assert forall r :: r in rs[1..] ==> r in rs;
    }
  }

  /** Removing keeps what was left, in order. */
  lemma {:induction false} RemovingKeeps(rs: seq<Reservation>, id: int) returns (n: nat)
    requires Find(rs, id).Some?
    ensures n < |rs| && rs[n] == Find(rs, id).value && Without(rs, id) == rs[..n] + rs[n + 1..]
  {
    RemovingFirst(rs, id);
    hide Without, Find;
    if rs[0].id == id {
      n := 0;
      assert rs[..0] + rs[1..] == rs[1..];
    } else {
      var first, rest := rs[0], rs[1..];
      assert rs == [first] + rest;
      var m := RemovingKeeps(rest, id);
      n := m + 1;
      LeavingOut(first, rest, m);
    }
  }

  lemma RemovingFirst(rs: seq<Reservation>, id: int)
    requires Find(rs, id).Some?
    ensures rs != []
    ensures if rs[0].id == id then Find(rs, id) == Some(rs[0]) && Without(rs, id) == rs[1..]
            else Find(rs, id) == Find(rs[1..], id) && Without(rs, id) == [rs[0]] + Without(rs[1..], id)
  {
  }

  lemma LeavingOut(r: Reservation, rs: seq<Reservation>, m: nat)
    requires m < |rs|
    ensures var all := [r] + rs;
      all[m + 1] == rs[m] && all[..m + 1] + all[m + 2..] == [r] + (rs[..m] + rs[m + 1..])
  {
    var all := [r] + rs;
    assert all[..m + 1] == [r] + rs[..m] && all[m + 2..] == rs[m + 1..];
  }

  lemma {:induction false} ChargingAdds(byRun: seq<RunSpend>, run: string, amount: int, other: string)
    requires RunsDistinct(byRun)
    ensures var after := Charged(byRun, run, amount);
      && TotalSpent(after) == TotalSpent(byRun) + amount && RunsDistinct(after)
      && SpentFor(after, other) == SpentFor(byRun, other) + (if other == run then amount else 0)
      && (forall i :: 0 <= i < |after| ==> after[i].run == run || exists j :: 0 <= j < |byRun| && byRun[j].run == after[i].run)
  {
    if byRun == [] {
      assert [RunSpend(run, amount)][1..] == [];
    } else if byRun[0].run == run {
      assert Charged(byRun, run, amount)[1..] == byRun[1..];
    } else {
      assert RunsDistinct(byRun[1..]);
      ChargingAdds(byRun[1..], run, amount, other);
      assert Charged(byRun, run, amount)[1..] == Charged(byRun[1..], run, amount);
      var after := Charged(byRun, run, amount);
      forall i | 0 < i < |after|
        ensures after[i].run != byRun[0].run
        ensures after[i].run == run || exists j :: 0 <= j < |byRun| && byRun[j].run == after[i].run
      {
        assert after[i] == Charged(byRun[1..], run, amount)[i - 1];
        if after[i].run != run {
          var j :| 0 <= j < |byRun[1..]| && byRun[1..][j].run == after[i].run;
          assert byRun[j + 1].run == after[i].run;
        }
      }
      assert after[0] == byRun[0];
    }
  }

  // ----------------------------------------------------------------------------------------
  // Every reachable ledger keeps its limits
  // ----------------------------------------------------------------------------------------

  /** Spent money and every open reservation together fit the day, and each run's share fits the run. */
  ghost predicate WithinLimits(l: Ledger, limits: Limits) {
    && l.spent + Reserved(l.reservations) <= limits.perDay
    && (forall run :: SpentFor(l.byRun, run) + ReservedFor(l.reservations, run) <= limits.perRun)
  }

  ghost predicate Inv(l: Ledger, limits: Limits) {
    && WithinLimits(l, limits) && l.spent == TotalSpent(l.byRun)
    && CostsOk(l.reservations) && IdsDistinct(l.reservations) && RunsDistinct(l.byRun)
  }

  lemma ReadKeepsInv(l: Ledger, day: int, limits: Limits)
    requires Inv(l, limits) && IsValidLimits(limits)
    ensures Inv(Read(l, day), limits)
  {
  }

  predicate IsFreshId(l: Ledger, id: int) {
    forall i :: 0 <= i < |l.reservations| ==> l.reservations[i].id != id
  }

  lemma ReserveKeepsInv(l: Ledger, day: int, now: int, cost: int, limits: Limits, run: string, id: int)
    requires Inv(l, limits) && IsFreshId(l, id) && Reserve(l, day, now, cost, limits, run, id).Ok?
    ensures Inv(Reserve(l, day, now, cost, limits, run, id).value, limits)
  {
    ReadKeepsInv(l, day, limits);
    var current := Read(l, day);
    var rs := Purged(current.reservations, now);
    var r := Reservation(id, cost, run, now + RESERVATION_TTL_MS);
    PurgingFrees(current.reservations, now, run);
    forall other: string
      ensures SpentFor(current.byRun, other) + ReservedFor(rs + [r], other) <= limits.perRun
    {
      PurgingFrees(current.reservations, now, other);
      ReservedAppends(rs, r, other);
    }
    ReservedAppends(rs, r, run);
    forall i | 0 <= i < |rs|
      ensures rs[i].id != id
    {
      assert rs[i] in current.reservations;
    }
  }

  /** A settlement no larger than its reservation keeps the limits. */
  lemma SettleKeepsInv(l: Ledger, day: int, id: int, cost: int, limits: Limits)
    requires Inv(l, limits) && IsValidLimits(limits) && Settle(l, day, id, cost).Ok?
    requires cost <= Find(Read(l, day).reservations, id).value.cost
    ensures Inv(Settle(l, day, id, cost).value, limits)
  {
    ReadKeepsInv(l, day, limits);
    var current := Read(l, day);
    var item := Find(current.reservations, id).value;
    var after := Settle(l, day, id, cost).value;
    RemovingFrees(current.reservations, id, item.run);
    ChargingAdds(current.byRun, item.run, item.cost, item.run);
    forall run: string
      ensures SpentFor(after.byRun, run) + ReservedFor(after.reservations, run) <= limits.perRun
    {
      RemovingFrees(current.reservations, id, run);
      ChargingAdds(current.byRun, item.run, item.cost, run);
    }
    RemovingKeepsOk(current.reservations, id);
    FoundIsListed(current.reservations, id);
    hide Without, Find, Reserved, ReservedFor, Charged, SpentFor;
  }

  lemma RemovingKeepsOk(rs: seq<Reservation>, id: int)
    requires Find(rs, id).Some? && CostsOk(rs) && IdsDistinct(rs)
    ensures CostsOk(Without(rs, id)) && IdsDistinct(Without(rs, id))
  {
    var n := RemovingKeeps(rs, id);
    hide Without, Find;
  }

  datatype Action =
    | DoReserve(day: int, now: int, cost: int, run: string, id: int)
    | DoSettle(day: int, id: int, cost: int)

  /** A failing call leaves the stored ledger as it was. */
  function Step(l: Ledger, limits: Limits, a: Action): Ledger {
    var out := match a
      case DoReserve(day, now, cost, run, id) => Reserve(l, day, now, cost, limits, run, id)
      case DoSettle(day, id, cost) => Settle(l, day, id, cost);
    if out.Ok? then out.value else l
  }

  function After(l: Ledger, limits: Limits, acts: seq<Action>): Ledger
    decreases acts
  {
    if acts == [] then l else After(Step(l, limits, acts[0]), limits, acts[1..])
  }

  /** Ids are fresh, and nothing is settled above its reservation. */
  ghost predicate Fair(l: Ledger, limits: Limits, acts: seq<Action>)
    decreases acts
  {
    acts == [] || (IsFair(l, acts[0]) && Fair(Step(l, limits, acts[0]), limits, acts[1..]))
  }

  predicate IsFair(l: Ledger, a: Action) {
    match a
    case DoReserve(_, _, _, _, id) => IsFreshId(l, id)
    case DoSettle(day, id, cost) =>
      var item := Find(Read(l, day).reservations, id);
      item.Some? ==> cost <= item.value.cost
  }

  lemma StepKeepsInv(l: Ledger, limits: Limits, a: Action)
    requires Inv(l, limits) && IsValidLimits(limits) && IsFair(l, a)
    ensures Inv(Step(l, limits, a), limits)
  {
    hide Inv, Reserve, Settle;
    match a
    case DoReserve(day, now, cost, run, id) =>
      if Reserve(l, day, now, cost, limits, run, id).Ok? {
        ReserveKeepsInv(l, day, now, cost, limits, run, id);
      }
    case DoSettle(day, id, cost) =>
      if Settle(l, day, id, cost).Ok? {
        SettledItem(l, day, id, cost);
        SettleKeepsInv(l, day, id, cost, limits);
      }
  }

  lemma SettledItem(l: Ledger, day: int, id: int, cost: int)
    requires Settle(l, day, id, cost).Ok?
    ensures Find(Read(l, day).reservations, id).Some?
  {
  }

  /** In every run, on any days and clocks, the ledger keeps its limits and its runs add up to its total. */
  lemma {:induction false} LedgerKeepsLimits(l: Ledger, limits: Limits, acts: seq<Action>)
    requires Inv(l, limits) && IsValidLimits(limits) && Fair(l, limits, acts)
    ensures Inv(After(l, limits, acts), limits)
    decreases acts
  {
    hide Inv, Step;
    if acts != [] {
      StepKeepsInv(l, limits, acts[0]);
      LedgerKeepsLimits(Step(l, limits, acts[0]), limits, acts[1..]);
    }
  }

  /** What a settlement of a reservation of the ledger's day charges: the larger of what was reserved and what it came to. */
  function Charge(l: Ledger, a: Action): seq<int> {
    if a.DoReserve? || a.cost < 0 || Find(l.reservations, a.id).None? then []
    else
      var reserved := Find(l.reservations, a.id).value.cost;
      [if reserved < a.cost then a.cost else reserved]
  }

  function Charges(l: Ledger, limits: Limits, acts: seq<Action>): seq<int>
    decreases acts
  {
    if acts == [] then [] else Charge(l, acts[0]) + Charges(Step(l, limits, acts[0]), limits, acts[1..])
  }

  function Sum(amounts: seq<int>): int {
    if amounts == [] then 0 else amounts[0] + Sum(amounts[1..])
  }

  lemma StepAddsUp(l: Ledger, limits: Limits, a: Action)
    requires a.day == l.day
    ensures var u := Step(l, limits, a);
      u.day == l.day && u.requests == l.requests + |Charge(l, a)| && u.spent == l.spent + Sum(Charge(l, a))
  {
    assert Charge(l, a) != [] ==> Charge(l, a)[1..] == [];
  }

  lemma {:induction false} SumOfBoth(a: seq<int>, b: seq<int>)
    requires |a| <= 1
    ensures Sum(a + b) == Sum(a) + Sum(b)
  {
    if a == [] {
      assert a + b == b;
    } else {
      assert (a + b)[1..] == b && a[1..] == [];
    }
  }

  /** Over the operations of one day, the ledger's spending grows by what the settlements charge, and its requests by one for each. */
  lemma {:induction false} DayAddsUp(l: Ledger, limits: Limits, acts: seq<Action>)
    requires forall i :: 0 <= i < |acts| ==> acts[i].day == l.day
    ensures var u, charges := After(l, limits, acts), Charges(l, limits, acts);
      u.day == l.day && u.requests == l.requests + |charges| && u.spent == l.spent + Sum(charges)
    decreases acts
  {
    if acts != [] {
      StepAddsUp(l, limits, acts[0]);
      var rest := Charges(Step(l, limits, acts[0]), limits, acts[1..]);
      SumOfBoth(Charge(l, acts[0]), rest);
      hide Step, Charge, Sum;
      DayAddsUp(Step(l, limits, acts[0]), limits, acts[1..]);
    }
  }

  lemma EmptyIsWithinLimits(day: int, limits: Limits)
    requires IsValidLimits(limits)
    ensures Inv(EmptyLedger(day), limits)
  {
  }

  /** So does every ledger that began empty. */
  lemma EmptyLedgerKeepsLimits(day: int, limits: Limits, acts: seq<Action>)
    requires IsValidLimits(limits) && Fair(EmptyLedger(day), limits, acts)
    ensures Inv(After(EmptyLedger(day), limits, acts), limits)
  {
    EmptyIsWithinLimits(day, limits);
    LedgerKeepsLimits(EmptyLedger(day), limits, acts);
  }

  // ----------------------------------------------------------------------------------------
  // Which reservations can still be settled
  // ----------------------------------------------------------------------------------------

  predicate Succeeds(l: Ledger, limits: Limits, a: Action) {
    match a
    case DoReserve(day, now, cost, run, id) => Reserve(l, day, now, cost, limits, run, id).Ok?
    case DoSettle(day, id, cost) => Settle(l, day, id, cost).Ok?
  }

  /** An operation on the same day that does not settle `id`, and reserves nothing once `id` has expired. */
  predicate Spares(a: Action, day: int, id: int, expiresAt: int) {
    && a.day == day
    && match a
       case DoReserve(_, now, _, _, _) => now < expiresAt
       case DoSettle(_, other, _) => other != id
  }

  /** Every operation that succeeds spares the reservation. */
  predicate Undisturbed(l: Ledger, limits: Limits, acts: seq<Action>, day: int, id: int, expiresAt: int)
    decreases acts
  {
    acts == [] || ((Succeeds(l, limits, acts[0]) ==> Spares(acts[0], day, id, expiresAt))
                   && Undisturbed(Step(l, limits, acts[0]), limits, acts[1..], day, id, expiresAt))
  }

  /** No operation reserves under the id: ids are random. */
  predicate OthersOnly(acts: seq<Action>, id: int) {
    forall i :: 0 <= i < |acts| && acts[i].DoReserve? ==> acts[i].id != id
  }

  predicate Holds(l: Ledger, day: int, r: Reservation) {
    l.day == day && Find(l.reservations, r.id) == Some(r)
  }

  lemma {:induction false} PurgedFind(rs: seq<Reservation>, now: int, r: Reservation)
    requires IdsDistinct(rs) && Find(rs, r.id) == Some(r)
    ensures Find(Purged(rs, now), r.id) == if r.expiresAt <= now then None else Some(r)
  {
    assert IdsDistinct(rs[1..]);
    if rs[0].id == r.id {
      PurgedMisses(rs[1..], now, r.id);
      AbsentBelow(rs, r.id);
    } else {
      PurgedFind(rs[1..], now, r);
    }
  }

  lemma AbsentBelow(rs: seq<Reservation>, id: int)
    requires IdsDistinct(rs) && rs != [] && rs[0].id == id
    ensures forall i :: 0 <= i < |rs[1..]| ==> rs[1..][i].id != id
  {
  }

  lemma {:induction false} PurgedMisses(rs: seq<Reservation>, now: int, id: int)
    ensures (forall i :: 0 <= i < |rs| ==> rs[i].id != id) ==> Find(Purged(rs, now), id).None?
    ensures Find(rs, id).None? ==> Find(Purged(rs, now), id).None?
  {
    if rs != [] {
      assert forall i :: 0 <= i < |rs[1..]| ==> rs[1..][i] == rs[i + 1];
      PurgedMisses(rs[1..], now, id);
    }
  }

  lemma {:induction false} FindAppended(rs: seq<Reservation>, r: Reservation, id: int)
    requires r.id != id
    ensures Find(rs + [r], id) == Find(rs, id)
  {
    if rs != [] {
      assert (rs + [r])[1..] == rs[1..] + [r];
      FindAppended(rs[1..], r, id);
    }
  }

  lemma {:induction false} FindWithout(rs: seq<Reservation>, other: int, id: int)
    requires IdsDistinct(rs)
    ensures Find(Without(rs, other), id) == if other == id then None else Find(rs, id)
  {
    if rs != [] {
      assert IdsDistinct(rs[1..]);
      FindWithout(rs[1..], other, id);
      if rs[0].id == other == id {
        AbsentBelow(rs, id);
        PurgedMisses(rs[1..], rs[0].expiresAt, id);
        AbsentIsNotFound(rs[1..], id);
      }
    }
  }

  lemma {:induction false} AbsentIsNotFound(rs: seq<Reservation>, id: int)
    requires forall i :: 0 <= i < |rs| ==> rs[i].id != id
    ensures Find(rs, id).None?
  {
    if rs != [] {
      AbsentIsNotFound(rs[1..], id);
    }
  }

  /** One operation leaves a reservation as it is exactly when it fails or spares it; else the reservation is gone. */
  lemma StepSpares(l: Ledger, limits: Limits, a: Action, day: int, r: Reservation)
    requires IdsDistinct(l.reservations) && Holds(l, day, r) && (a.DoReserve? ==> a.id != r.id)
    ensures if Succeeds(l, limits, a) && !Spares(a, day, r.id, r.expiresAt) then Find(Step(l, limits, a).reservations, r.id).None?
            else Holds(Step(l, limits, a), day, r)
  {
    match a
    case DoReserve(d, now, cost, run, id) =>
      if Reserve(l, d, now, cost, limits, run, id).Ok? {
        PurgedFind(l.reservations, now, r);
        FindAppended(Purged(Read(l, d).reservations, now), Reservation(id, cost, run, now + RESERVATION_TTL_MS), r.id);
      }
    case DoSettle(d, id, cost) =>
      if Settle(l, d, id, cost).Ok? {
        FindWithout(l.reservations, id, r.id);
      }
  }

  /** And what is gone stays gone. */
  lemma StepRestoresNothing(l: Ledger, limits: Limits, a: Action, id: int)
    requires IdsDistinct(l.reservations) && Find(l.reservations, id).None? && (a.DoReserve? ==> a.id != id)
    ensures Find(Step(l, limits, a).reservations, id).None?
  {
    match a
    case DoReserve(d, now, cost, run, other) =>
      PurgedMisses(Read(l, d).reservations, now, id);
      FindAppended(Purged(Read(l, d).reservations, now), Reservation(other, cost, run, now + RESERVATION_TTL_MS), id);
    case DoSettle(d, other, cost) =>
      FindWithout(Read(l, d).reservations, other, id);
  }

  lemma {:induction false} RunRestoresNothing(l: Ledger, limits: Limits, acts: seq<Action>, id: int)
    requires IdsDistinct(l.reservations) && FreshIds(l, limits, acts) && OthersOnly(acts, id) && Find(l.reservations, id).None?
    ensures Find(After(l, limits, acts).reservations, id).None?
    decreases acts
  {
    hide Step, IdsDistinct;
    if acts != [] {
      StepRestoresNothing(l, limits, acts[0], id);
      StepKeepsIds(l, limits, acts[0]);
      RunRestoresNothing(Step(l, limits, acts[0]), limits, acts[1..], id);
    }
  }

  /** Every reservation gets an id that the ledger does not hold. */
  predicate FreshIds(l: Ledger, limits: Limits, acts: seq<Action>)
    decreases acts
  {
    acts == [] || ((acts[0].DoReserve? ==> IsFreshId(l, acts[0].id)) && FreshIds(Step(l, limits, acts[0]), limits, acts[1..]))
  }

  lemma StepKeepsIds(l: Ledger, limits: Limits, a: Action)
    requires IdsDistinct(l.reservations) && (a.DoReserve? ==> IsFreshId(l, a.id))
    ensures IdsDistinct(Step(l, limits, a).reservations)
  {
    match a
    case DoReserve(d, now, cost, run, id) =>
      PurgedIds(Read(l, d).reservations, now);
    case DoSettle(d, id, cost) =>
      var rs := Read(l, d).reservations;
      if Find(rs, id).Some? {
        var n := RemovingKeeps(rs, id);
      }
  }

  /** A reservation is still held after any operations exactly when those that succeed spare it; else it is gone. */
  lemma {:induction false} HeldIff(l: Ledger, limits: Limits, acts: seq<Action>, day: int, r: Reservation)
    requires IdsDistinct(l.reservations) && FreshIds(l, limits, acts) && OthersOnly(acts, r.id) && Holds(l, day, r)
    ensures if Undisturbed(l, limits, acts, day, r.id, r.expiresAt) then Holds(After(l, limits, acts), day, r)
            else Find(After(l, limits, acts).reservations, r.id).None?
    decreases acts
  {
    hide Step, IdsDistinct, Holds, Succeeds, Spares;
    if acts != [] {
      StepSpares(l, limits, acts[0], day, r);
      StepKeepsIds(l, limits, acts[0]);
      if Succeeds(l, limits, acts[0]) && !Spares(acts[0], day, r.id, r.expiresAt) {
        RunRestoresNothing(Step(l, limits, acts[0]), limits, acts[1..], r.id);
      } else {
        HeldIff(Step(l, limits, acts[0]), limits, acts[1..], day, r);
      }
    }
  }

  /** A granted reservation is in the ledger. */
  lemma GrantedIsHeld(l: Ledger, day: int, now: int, cost: int, limits: Limits, run: string, id: int)
    requires IdsDistinct(l.reservations) && IsFreshId(l, id) && Reserve(l, day, now, cost, limits, run, id).Ok?
    ensures var after := Reserve(l, day, now, cost, limits, run, id).value;
      Holds(after, day, Reservation(id, cost, run, now + RESERVATION_TTL_MS)) && IdsDistinct(after.reservations)
  {
    var rs := Read(l, day).reservations;
    AppendedIsFound(Purged(rs, now), rs, now, id, Reservation(id, cost, run, now + RESERVATION_TTL_MS));
    PurgedIds(rs, now);
  }

  /**
   * A granted reservation can be settled, after any operations of any calls, exactly when the settlement and every
   * operation that succeeded fall on its day, none of them settles it, and none reserves once it has expired.
   */
  lemma SettlesIff(l: Ledger, limits: Limits, day: int, now: int, cost: int, run: string, id: int, acts: seq<Action>,
                   settleDay: int, actual: int)
    requires IdsDistinct(l.reservations) && IsFreshId(l, id) && actual >= 0
    requires Reserve(l, day, now, cost, limits, run, id).Ok?
    requires var granted := Reserve(l, day, now, cost, limits, run, id).value; FreshIds(granted, limits, acts) && OthersOnly(acts, id)
    ensures var granted := Reserve(l, day, now, cost, limits, run, id).value;
      var out := Settle(After(granted, limits, acts), settleDay, id, actual);
      && (out.Ok? <==> settleDay == day && Undisturbed(granted, limits, acts, day, id, now + 600000))
      && (out.Err? ==> out.error == ReservationMissing)
  {
    GrantedIsHeld(l, day, now, cost, limits, run, id);
    HeldIff(Reserve(l, day, now, cost, limits, run, id).value, limits, acts, day, Reservation(id, cost, run, now + RESERVATION_TTL_MS));
    hide Reserve, Undisturbed, IdsDistinct, FreshIds;
  }

  const DAY_MS: int := 86400000

  function UtcDay(now: int): int {
    now / DAY_MS
  }

  /** A call of any cost that reserves before a UTC midnight and settles after it is not charged, whatever it cost. */
  lemma CallAcrossMidnightIsLost(limits: Limits, cost: int, run: string, id: int, now: int, later: int, actual: int)
    requires 0 <= cost <= limits.perRequest && cost <= limits.perRun && cost <= limits.perDay && run != ""
    requires actual >= 0 && UtcDay(now) != UtcDay(later)
    ensures var reserved := Reserve(EmptyLedger(UtcDay(now)), UtcDay(now), now, cost, limits, run, id);
      && reserved.Ok? && Settle(reserved.value, UtcDay(later), id, actual) == Err(ReservationMissing)
      && Step(reserved.value, limits, DoSettle(UtcDay(later), id, actual)).spent == 0
  {
    var l := EmptyLedger(UtcDay(now));
    assert Reserve(l, UtcDay(now), now, cost, limits, run, id).Ok?;
    var granted := Reserve(l, UtcDay(now), now, cost, limits, run, id).value;
    assert After(granted, limits, []) == granted;
    SettlesIff(l, limits, UtcDay(now), now, cost, run, id, [], UtcDay(later), actual);
  }

  /** A reserved call whose reply takes longer than the reservation lasts is not charged, once another call reserves. */
  lemma ExpiredReservationIsLost()
    ensures var limits, acts := Limits(10, 100, 100), [DoReserve(0, 0, 5, "run", 1), DoReserve(0, RESERVATION_TTL_MS, 5, "run", 2)];
      && Fair(EmptyLedger(0), limits, acts)
      && Reserve(EmptyLedger(0), 0, 0, 5, limits, "run", 1).Ok?
      && Settle(After(EmptyLedger(0), limits, acts), 0, 1, 5) == Err(ReservationMissing)
      && After(EmptyLedger(0), limits, acts).spent == 0
  {
    var limits := Limits(10, 100, 100);
    var first, second := DoReserve(0, 0, 5, "run", 1), DoReserve(0, RESERVATION_TTL_MS, 5, "run", 2);
    var r := Reservation(1, 5, "run", RESERVATION_TTL_MS);
    var granted := Ledger(0, 0, [], 0, [r]);
    assert Step(EmptyLedger(0), limits, first) == granted;
    assert Purged([r], RESERVATION_TTL_MS) == [];
    var last := Ledger(0, 0, [], 0, [Reservation(2, 5, "run", 2 * RESERVATION_TTL_MS)]);
    assert Step(granted, limits, second) == last;
    assert [first, second][1..] == [second] && [second][1..] == [];
    assert After(granted, limits, [second]) == last by {
      assert After(last, limits, []) == last;
    }
    assert Fair(granted, limits, [second]);
    assert Find(last.reservations, 1).None?;
  }

  // ----------------------------------------------------------------------------------------
  // What a call costs
  // ----------------------------------------------------------------------------------------

  const MILLION: int := 1000000
  const MAX_INPUT_TOKENS: int := 100000
  const MAX_OUTPUT_TOKENS: int := 4096

  /** `Math.round` of a non-negative amount. */
  function Rounded(x: real): int {
    (x + 0.5).Floor
  }

  function MoneyMicros(usd: real): Option<int> {
    if usd < 0.0 || usd > 10000.0 then None else Some(Rounded(usd * 1000000.0))
  }

  function CeilingOfMillionths(n: int): int {
    -((-n) / MILLION)
  }

  function Cost(inputTokens: int, outputTokens: int, inputRate: int, outputRate: int): int {
    CeilingOfMillionths(inputTokens * inputRate + outputTokens * outputRate)
  }

  /** The estimate counts a token per byte of the request and the longest reply. */
  function Estimate(bytes: int, inputRate: int, outputRate: int): int {
    Cost(if bytes > 1 then bytes else 1, MAX_OUTPUT_TOKENS, inputRate, outputRate)
  }

  lemma ProductGrows(a: int, b: int, rate: int)
    requires a <= b && rate >= 0
    ensures a * rate <= b * rate
  {
  }

  lemma CeilingGrows(a: int, b: int)
    requires a <= b
    ensures CeilingOfMillionths(a) <= CeilingOfMillionths(b)
    ensures 0 <= a ==> 0 <= CeilingOfMillionths(a)
  {
  }

  /** The cost of a reply is at most the estimate when its tokens are at most the bytes sent. */
  lemma CostWithinEstimate(bytes: int, input: int, output: int, inputRate: int, outputRate: int)
    requires 0 <= inputRate && 0 <= outputRate && 0 <= input <= bytes && 0 <= output <= MAX_OUTPUT_TOKENS
    ensures 0 <= Cost(input, output, inputRate, outputRate) <= Estimate(bytes, inputRate, outputRate)
  {
    var most := if bytes > 1 then bytes else 1;
    ProductGrows(input, most, inputRate);
    ProductGrows(output, MAX_OUTPUT_TOKENS, outputRate);
    ProductGrows(0, input, inputRate);
    ProductGrows(0, output, outputRate);
    CeilingGrows(0, input * inputRate + output * outputRate);
    CeilingGrows(input * inputRate + output * outputRate, most * inputRate + MAX_OUTPUT_TOKENS * outputRate);
  }

  lemma RoundingGrows(x: real, y: real)
    requires x <= y
    ensures Rounded(x) <= Rounded(y)
  {
  }

  /** The limits of a policy, none when an amount or their order is invalid. */
  function PolicyLimits(perRequest: real, perRun: real, perDay: real): Option<Limits> {
    var a, b, c := MoneyMicros(perRequest), MoneyMicros(perRun), MoneyMicros(perDay);
    if a.None? || b.None? || c.None? || a.value > b.value || b.value > c.value then None
    else Some(Limits(a.value, b.value, c.value))
  }

  lemma MicrosInRange(usd: real)
    ensures MoneyMicros(usd).Some? ==> 0 <= MoneyMicros(usd).value <= 10000 * MILLION
    ensures MoneyMicros(usd).Some? <==> 0.0 <= usd <= 10000.0
  {
    if 0.0 <= usd <= 10000.0 {
      RoundingGrows(0.0, usd * 1000000.0);
      RoundingGrows(usd * 1000000.0, 10000.0 * 1000000.0);
    }
  }

  lemma MicrosGrow(a: real, b: real)
    requires a <= b && MoneyMicros(a).Some? && MoneyMicros(b).Some?
    ensures MoneyMicros(a).value <= MoneyMicros(b).value
  {
    RoundingGrows(a * 1000000.0, b * 1000000.0);
  }

  /** A policy with ordered amounts in range is accepted, and accepted limits are ordered and never negative. */
  lemma PolicyAccepted(perRequest: real, perRun: real, perDay: real)
    ensures 0.0 <= perRequest <= perRun <= perDay <= 10000.0 ==> PolicyLimits(perRequest, perRun, perDay).Some?
    ensures PolicyLimits(perRequest, perRun, perDay).Some? ==>
      var l := PolicyLimits(perRequest, perRun, perDay).value;
      IsValidLimits(l) && l.perRequest <= l.perRun <= l.perDay <= 10000 * MILLION
  {
    MicrosInRange(perRequest);
    MicrosInRange(perRun);
    MicrosInRange(perDay);
    if 0.0 <= perRequest <= perRun <= perDay <= 10000.0 {
      MicrosGrow(perRequest, perRun);
      MicrosGrow(perRun, perDay);
    }
  }

  // ----------------------------------------------------------------------------------------
  // The provider call
  // ----------------------------------------------------------------------------------------

  /**
   * How the request went: no response, an error status, an unreadable body, an envelope or content that is refused,
   * or a result with the tokens it reports, if it does.
   */
  datatype Response = NoResponse | ErrorStatus | Unreadable | BadEnvelope | BadContent | Good(usage: Option<(int, int)>)

  datatype Call = Call(bytes: int, inputRate: int, outputRate: int, run: string, id: int)

  datatype Result = NotReserved(error: Error) | Failed | LedgerFailed(error: Error) | Generated(cost: int)

  function ActualCost(c: Call, usage: Option<(int, int)>): int {
    if usage.Some? then Cost(usage.value.0, usage.value.1, c.inputRate, c.outputRate)
    else Cost(if c.bytes > 1 then c.bytes else 1, 0, c.inputRate, c.outputRate)
  }

  /** What the call is charged. */
  function ChargeFor(c: Call, response: Response): int {
    var estimate := Estimate(c.bytes, c.inputRate, c.outputRate);
    if response.Good? then Max(estimate, ActualCost(c, response.usage)) else estimate
  }

  predicate IsValidCall(c: Call, response: Response) {
    && 0 <= c.bytes && 0 <= c.inputRate && 0 <= c.outputRate
    && (response.Good? && response.usage.Some? ==>
          0 <= response.usage.value.0 <= MAX_INPUT_TOKENS && 0 <= response.usage.value.1 <= MAX_OUTPUT_TOKENS)
  }

  /** The amount, in millionths of a dollar, pays for the tokens at rates given for a million of them. */
  predicate PaysFor(amount: int, input: int, output: int, inputRate: int, outputRate: int) {
    input * inputRate + output * outputRate <= amount * 1000000
  }

  lemma CostIsLeast(amount: int, input: int, output: int, inputRate: int, outputRate: int)
    ensures Cost(input, output, inputRate, outputRate) <= amount <==> PaysFor(amount, input, output, inputRate, outputRate)
  {
  }

  /**
   * A call is charged the least amount that pays for a token for each byte sent, one at least, with the longest reply, and for
   * the tokens its reply reports. What it answers is the least that pays for those, or for the bytes sent when none are.
   */
  lemma ChargeIsLeast(c: Call, response: Response, amount: int)
    requires IsValidCall(c, response)
    ensures ChargeFor(c, response) <= amount
      <==> PaysFor(amount, if c.bytes == 0 then 1 else c.bytes, 4096, c.inputRate, c.outputRate)
           && (response.Good? && response.usage.Some? ==>
                 PaysFor(amount, response.usage.value.0, response.usage.value.1, c.inputRate, c.outputRate))
    ensures response.Good? ==>
      (ActualCost(c, response.usage) <= amount
       <==> if response.usage.Some? then PaysFor(amount, response.usage.value.0, response.usage.value.1, c.inputRate, c.outputRate)
            else PaysFor(amount, if c.bytes == 0 then 1 else c.bytes, 0, c.inputRate, c.outputRate))
  {
    hide PaysFor, Cost;
    var bytes := if c.bytes == 0 then 1 else c.bytes;
    CostIsLeast(amount, bytes, 4096, c.inputRate, c.outputRate);
    CostIsLeast(amount, bytes, 0, c.inputRate, c.outputRate);
    if response.Good? && response.usage.Some? {
      CostIsLeast(amount, response.usage.value.0, response.usage.value.1, c.inputRate, c.outputRate);
    } else if response.Good? {
      BytesWithinEstimate(c);
    }
  }

  lemma BytesWithinEstimate(c: Call)
    requires 0 <= c.bytes && 0 <= c.inputRate && 0 <= c.outputRate
    ensures ActualCost(c, None) <= Estimate(c.bytes, c.inputRate, c.outputRate)
  {
    var bytes := if c.bytes == 0 then 1 else c.bytes;
    ProductGrows(0, 4096, c.outputRate);
    CeilingGrows(bytes * c.inputRate + 0 * c.outputRate, bytes * c.inputRate + 4096 * c.outputRate);
  }

  class StructuredProvider {
    var ledger: Ledger

    constructor (l: Ledger)
      ensures ledger == l
    {
      ledger := l;
    }

    method ReserveCost(day: int, now: int, cost: int, limits: Limits, run: string, id: int) returns (error: Option<Error>)
      modifies this
      ensures var out := Reserve(old(ledger), day, now, cost, limits, run, id);
        if out.Ok? then error.None? && ledger == out.value else error == Some(out.error) && ledger == old(ledger)
    {
      if cost < 0 || !IsValidLimits(limits) || run == "" {
        return Some(PolicyInvalid);
      }
      var current := Read(ledger, day);
      var kept, reservedDay, reservedRun := [], 0, 0;
      var n := |current.reservations|;
      while n > 0
        invariant 0 <= n <= |current.reservations|
        invariant kept == Purged(current.reservations[n..], now)
        invariant reservedDay == Reserved(kept) && reservedRun == ReservedFor(kept, run)
      {
        n := n - 1;
        var item := current.reservations[n];
        assert current.reservations[n..] == [item] + current.reservations[n + 1..];
        if item.expiresAt > now {
          assert ([item] + kept)[1..] == kept;
          kept := [item] + kept;
          reservedDay := reservedDay + item.cost;
          if item.run == run {
            reservedRun := reservedRun + item.cost;
          }
        }
      }
      if cost > limits.perRequest || current.spent + reservedDay + cost > limits.perDay
         || SpentFor(current.byRun, run) + reservedRun + cost > limits.perRun {
        return Some(BudgetExceeded);
      }
      ledger := current.(reservations := kept + [Reservation(id, cost, run, now + RESERVATION_TTL_MS)]);
      return None;
    }

    method SettleCost(day: int, id: int, cost: int) returns (error: Option<Error>)
      modifies this
      ensures var out := Settle(old(ledger), day, id, cost);
        if out.Ok? then error.None? && ledger == out.value else error == Some(out.error) && ledger == old(ledger)
    {
      if cost < 0 {
        return Some(UsageInvalid);
      }
      var current := Read(ledger, day);
      var item := Find(current.reservations, id);
      if item.None? {
        return Some(ReservationMissing);
      }
      var charged := if item.value.cost >= cost then item.value.cost else cost;
      ledger := Ledger(current.day, current.spent + charged, Charged(current.byRun, item.value.run, charged),
                       current.requests + 1, Without(current.reservations, id));
      return None;
    }

    /** The exits of a reserved call: each settles once, and an exception tries the ledger again if it has to. */
    method Conclude(c: Call, response: Response, estimate: int, day: int) returns (result: Result)
      requires IsValidCall(c, response) && estimate == Estimate(c.bytes, c.inputRate, c.outputRate)
      modifies this
      ensures var cost := if response.Good? then ActualCost(c, response.usage) else estimate;
        var out := Settle(old(ledger), day, c.id, cost);
        if out.Ok? then ledger == out.value && result == (if response.Good? then Generated(cost) else Failed)
        else ledger == old(ledger) && (result.LedgerFailed? || result.Failed?)
    {
      CostIsNatural(c, response);
      var error: Option<Error> := None;
      match response {
        case Good(usage) =>
          error := SettleCost(day, c.id, ActualCost(c, usage));
          if error.None? {
            return Generated(ActualCost(c, usage));
          }
          var _ := SettleCost(day, c.id, estimate);
        case BadEnvelope =>
          var _ := SettleCost(day, c.id, estimate);
        case BadContent =>
          var _ := SettleCost(day, c.id, estimate);
        case _ =>
          error := SettleCost(day, c.id, estimate);
          if error.Some? {
            var _ := SettleCost(day, c.id, estimate);
          }
      }
      return if error.Some? then LedgerFailed(error.value) else Failed;
    }

    /** What other calls, in this worker or another, do to the ledger in the meantime. */
    method LetOthers(acts: seq<Action>, limits: Limits)
      modifies this
      ensures ledger == After(old(ledger), limits, acts)
    {
      hide Reserve, Settle;
      assert acts[0..] == acts;
      for n := 0 to |acts|
        invariant After(ledger, limits, acts[n..]) == After(old(ledger), limits, acts)
      {
        assert acts[n..][0] == acts[n] && acts[n..][1..] == acts[n + 1..];
        match acts[n] {
          case DoReserve(day, now, cost, run, id) =>
            var _ := ReserveCost(day, now, cost, limits, run, id);
          case DoSettle(day, id, cost) =>
            var _ := SettleCost(day, id, cost);
        }
      }
    }

    /**
     * A call, with the operations of other calls between its reservation and its reply. A call that reserves settles
     * exactly once, on every path: its reservation is gone, one request is counted and its run charged, if the day is
     * the same and the other calls spared its reservation. Else nothing is charged, and even a good result is lost.
     */
    method Generate(c: Call, response: Response, limits: Limits, reserveDay: int, now: int, others: seq<Action>, settleDay: int)
      returns (result: Result)
      requires IsValidCall(c, response) && IdsDistinct(ledger.reservations) && IsFreshId(ledger, c.id)
      requires var out := Reserve(ledger, reserveDay, now, Estimate(c.bytes, c.inputRate, c.outputRate), limits, c.run, c.id);
        out.Ok? ==> FreshIds(out.value, limits, others) && OthersOnly(others, c.id)
      modifies this
      ensures var out := Reserve(old(ledger), reserveDay, now, Estimate(c.bytes, c.inputRate, c.outputRate), limits, c.run, c.id);
        if out.Err? then result == NotReserved(out.error) && ledger == old(ledger)
        else
          var before, charge := After(out.value, limits, others), ChargeFor(c, response);
          if settleDay == reserveDay && Undisturbed(out.value, limits, others, reserveDay, c.id, now + RESERVATION_TTL_MS) then
            ledger == Ledger(before.day, before.spent + charge, Charged(before.byRun, c.run, charge), before.requests + 1,
                             Without(before.reservations, c.id))
            && result == (if response.Good? then Generated(ActualCost(c, response.usage)) else Failed)
          else ledger == before && (result.LedgerFailed? || result.Failed?)
    {
      var estimate := Estimate(c.bytes, c.inputRate, c.outputRate);
      var refused := ReserveCost(reserveDay, now, estimate, limits, c.run, c.id);
      if refused.Some? {
        return NotReserved(refused.value);
      }
      CostIsNatural(c, response);
      ghost var granted := ledger;
      GrantedIsHeld(old(ledger), reserveDay, now, estimate, limits, c.run, c.id);
      HeldIff(granted, limits, others, reserveDay, Reservation(c.id, estimate, c.run, now + RESERVATION_TTL_MS));
      hide Reserve, Undisturbed, After, IdsDistinct, FreshIds;
      LetOthers(others, limits);
      result := Conclude(c, response, estimate, settleDay);
    }
  }

  lemma CostIsNatural(c: Call, response: Response)
    requires IsValidCall(c, response)
    ensures 0 <= Estimate(c.bytes, c.inputRate, c.outputRate)
    ensures response.Good? ==> 0 <= ActualCost(c, response.usage)
  {
    var most := if c.bytes > 1 then c.bytes else 1;
    ProductGrows(0, most, c.inputRate);
    ProductGrows(0, MAX_OUTPUT_TOKENS, c.outputRate);
    CeilingGrows(0, most * c.inputRate + MAX_OUTPUT_TOKENS * c.outputRate);
    CeilingGrows(0, most * c.inputRate);
    if response.Good? && response.usage.Some? {
      ProductGrows(0, response.usage.value.0, c.inputRate);
      ProductGrows(0, response.usage.value.1, c.outputRate);
      CeilingGrows(0, response.usage.value.0 * c.inputRate + response.usage.value.1 * c.outputRate);
    }
  }

  /** The newest reservation is found by its id, and taking it out leaves the others. */
  lemma {:induction false} AppendedIsFound(rs: seq<Reservation>, all: seq<Reservation>, now: int, id: int, r: Reservation)
    requires r.id == id && forall i :: 0 <= i < |all| ==> all[i].id != id
    requires rs == Purged(all, now)
    ensures Find(rs + [r], id) == Some(r) && Without(rs + [r], id) == rs
    decreases |all|
  {
    if all == [] {
      assert rs + [r] == [r];
      assert [r][1..] == [];
    } else {
      assert forall i :: 0 <= i < |all[1..]| ==> all[1..][i] == all[i + 1];
      AppendedIsFound(Purged(all[1..], now), all[1..], now, id, r);
      if all[0].expiresAt > now {
        assert (rs + [r])[1..] == Purged(all[1..], now) + [r];
        assert (rs + [r])[0] == all[0];
      }
    }
  }
}
