/** The route planner: capacity and hazard limits, status transitions and the
    order of stops. */
module Dispatch {
  import opened Common
  import opened Sorting
  import opened Sequences
  import opened Runs
  import opened Words

  datatype Status = Planned | Loading | EnRoute | Delivered | Cancelled

  datatype Stop = Stop(id: string, lotId: string, address: string, hazard: int, weight: Word,
                       windowStart: int, windowEnd: int)
  {
    predicate Valid() {
      && !Blank(id) && !Blank(lotId) && !Blank(address) && 0 <= hazard <= 10 && weight > 0
      && windowStart != ZERO_TIME && windowEnd != ZERO_TIME && windowStart < windowEnd
    }
  }

  datatype Vehicle = Vehicle(id: string, capacity: Word, hazardLimit: int) {
    predicate Valid() { !Blank(id) && capacity > 0 && hazardLimit >= 0 }
  }

  datatype Route = Route(id: string, tenant: string, vehicle: string, stops: seq<Stop>, status: Status,
                         totalWeight: Word, maxHazard: int, version: int, createdAt: int)

  function NewRoute(id: string, tenant: string, v: Vehicle, now: int): Result<Route> {
    if Blank(id) || Blank(tenant) || !v.Valid() || now == ZERO_TIME then Failure(Invalid)
    else Success(Route(id, tenant, v.id, [], Planned, 0, 0, 1, now))
  }

  predicate Assigned(stops: seq<Stop>, s: Stop) {
    exists i | 0 <= i < |stops| :: stops[i].id == s.id || stops[i].lotId == s.lotId
  }

  function WeightOf(s: Stop): int { s.weight }

  // ------------------------------------------------------------- what a route promises

  ghost predicate IsMaxHazard(stops: seq<Stop>, m: int) {
    && (forall i | 0 <= i < |stops| :: stops[i].hazard <= m)
    && (if stops == [] then m == 0 else exists i | 0 <= i < |stops| :: stops[i].hazard == m)
  }

  function VersionOf(s: Status): int {
    match s
    case Planned => 1
    case Loading => 2
    case EnRoute => 3
    case Delivered => 4
    case Cancelled => 0
  }

  /** The aggregates agree with the stops and the vehicle's limits hold. */
  ghost predicate Sound(r: Route, v: Vehicle) {
    && r.vehicle == v.id
    && r.totalWeight == Sum(WeightOf, r.stops) <= v.capacity
    && IsMaxHazard(r.stops, r.maxHazard) && r.maxHazard <= v.hazardLimit
    && GoodStops(r.stops)
    && (r.status != Planned ==> r.stops != [])
    && r.status != Cancelled && r.version == VersionOf(r.status)
  }

  /** The running total, as the machine adds it. */
  function TotalWith(r: Route, s: Stop): Word { Wrap(r.totalWeight + s.weight) }

  predicate Overflows(r: Route, s: Stop) { !Is64(r.totalWeight + s.weight) }

  /** What the code asks before it takes a stop, of the running aggregates. */
  predicate Takes(r: Route, s: Stop, v: Vehicle) {
    && (r.status == Planned || r.status == Loading)
    && s.Valid() && !Assigned(r.stops, s)
    && TotalWith(r, s) <= v.capacity && s.hazard <= v.hazardLimit
  }

  /** When a route still has room for a stop: its status allows it, the stop is new and
      valid, and neither its weight nor its hazard breaks the vehicle's limits. */
  ghost predicate Fits(r: Route, s: Stop, v: Vehicle) {
    && (r.status == Planned || r.status == Loading)
    && s.Valid() && !Assigned(r.stops, s)
    && Sum(WeightOf, r.stops + [s]) <= v.capacity
    && forall i | 0 <= i < |r.stops + [s]| :: (r.stops + [s])[i].hazard <= v.hazardLimit
  }

  function Max(a: int, b: int): int { if a < b then b else a }

  /** The stop appended and the aggregates moved with it. */
  function WithStop(r: Route, s: Stop): Route {
    r.(stops := r.stops + [s], totalWeight := TotalWith(r, s), maxHazard := Max(r.maxHazard, s.hazard))
  }

  /** On a sound route the aggregates ask what the list asks, except that a stop
      whose weight overflows the total passes whatever the capacity. */
  lemma TakesIffFits(r: Route, s: Stop, v: Vehicle)
    requires Sound(r, v)
    ensures !Overflows(r, s) ==> (Takes(r, s, v) <==> Fits(r, s, v))
    ensures Overflows(r, s) ==> !Fits(r, s, v)
    ensures Overflows(r, s) && s.Valid() && v.Valid() ==>
      (Takes(r, s, v) <==> (r.status == Planned || r.status == Loading) && !Assigned(r.stops, s) && s.hazard <= v.hazardLimit)
  {
    SumSnoc(WeightOf, r.stops, s);
    SumNonNegative(r.stops);
    TotalWraps(r, s);
    assert forall i | 0 <= i < |r.stops| :: (r.stops + [s])[i] == r.stops[i];
    assert (r.stops + [s])[|r.stops|] == s;
  }

  lemma TotalWraps(r: Route, s: Stop)
    requires r.totalWeight >= 0
    ensures TotalWith(r, s) == r.totalWeight + s.weight <==> !Overflows(r, s)
    ensures Overflows(r, s) ==> TotalWith(r, s) == r.totalWeight + s.weight - WORD < 0
  {
    WrapExact(r.totalWeight + s.weight);
  }

  lemma {:induction false} SumNonNegative(stops: seq<Stop>)
    requires forall i | 0 <= i < |stops| :: stops[i].Valid()
    ensures Sum(WeightOf, stops) >= 0
    ensures stops != [] ==> Sum(WeightOf, stops) > 0
  {
    if stops != [] {
      SumNonNegative(stops[..|stops| - 1]);
    }
  }

  lemma WithStopSound(r: Route, s: Stop, v: Vehicle)
    requires Sound(r, v) && Fits(r, s, v) && !Overflows(r, s)
    ensures Sound(WithStop(r, s), v)
  {
    SumSnoc(WeightOf, r.stops, s);
    WrapExact(r.totalWeight + s.weight);
    MaxHazardSnoc(r.stops, r.maxHazard, s);
    StopsSnoc(r.stops, s);
  }

  /** Each stop is valid, and no two share an id or a lot. */
  ghost predicate GoodStops(stops: seq<Stop>) {
    && (forall i | 0 <= i < |stops| :: stops[i].Valid())
    && (forall i, j | 0 <= i < j < |stops| :: stops[i].id != stops[j].id && stops[i].lotId != stops[j].lotId)
  }

  lemma StopsSnoc(stops: seq<Stop>, s: Stop)
    requires GoodStops(stops) && s.Valid() && !Assigned(stops, s)
    ensures GoodStops(stops + [s])
  {
  }

  lemma MaxHazardSnoc(stops: seq<Stop>, m: int, s: Stop)
    requires IsMaxHazard(stops, m) && s.hazard >= 0
    ensures IsMaxHazard(stops + [s], Max(m, s.hazard))
  {
    var all := stops + [s];
    assert all[|stops|] == s;
    if m > s.hazard {
      var i :| 0 <= i < |stops| && stops[i].hazard == m;
      assert all[i].hazard == m;
    }
  }

  /** The transitions the planner offers: nothing leads to Cancelled. */
  function Next(r: Route, to: Status, now: int): Result<Route> {
    if (to == Loading && r.status == Planned && r.stops != [])
       || (to == EnRoute && r.status == Loading)
       || (to == Delivered && r.status == EnRoute && now != ZERO_TIME)
    then Success(r.(status := to, version := r.version + 1))
    else Failure(Invalid)
  }

  lemma NextSound(r: Route, to: Status, now: int, v: Vehicle)
    requires Sound(r, v) && Next(r, to, now).Success?
    ensures Sound(Next(r, to, now).value, v) && Next(r, to, now).value.stops == r.stops
    ensures VersionOf(to) == VersionOf(r.status) + 1
  {
  }

  /** One route's own checks of a transition. */
  method Advance(r: Route, to: Status, now: int) returns (out: Result<Route>)
    ensures out == Next(r, to, now)
    ensures out.Success? <==>
      || (to == Loading && r.status == Planned && r.stops != [])
      || (to == EnRoute && r.status == Loading)
      || (to == Delivered && r.status == EnRoute && now != ZERO_TIME)
    ensures out.Success? ==> out.value == r.(status := to, version := r.version + 1)
  {
    match to {
      case Loading =>
        if r.status != Planned || r.stops == [] {
          return Failure(Invalid);
        }
      case EnRoute =>
        if r.status != Loading {
          return Failure(Invalid);
        }
      case Delivered =>
        if r.status != EnRoute || now == ZERO_TIME {
          return Failure(Invalid);
        }
      case _ => return Failure(Invalid);
    }
    out := Success(r.(status := to, version := r.version + 1));
  }

  /** One route's own check of a stop. */
  method AddTo(r: Route, s: Stop, v: Vehicle) returns (out: Result<Route>)
    ensures out.Success? <==> Takes(r, s, v)
    ensures out.Success? ==> out.value == WithStop(r, s)
    ensures out.Success? ==>
      && out.value == r.(stops := r.stops + [s], totalWeight := out.value.totalWeight, maxHazard := out.value.maxHazard)
      && (Is64(r.totalWeight + s.weight) ==> out.value.totalWeight == r.totalWeight + s.weight)
      && out.value.totalWeight <= v.capacity && s.hazard <= v.hazardLimit
      && out.value.maxHazard == (if s.hazard > r.maxHazard then s.hazard else r.maxHazard)
    ensures Is64(r.totalWeight + s.weight) ==> (out.Success? <==>
      && (r.status == Planned || r.status == Loading)
      && !Blank(s.id) && !Blank(s.lotId) && !Blank(s.address) && 0 <= s.hazard <= 10 && s.weight > 0
      && s.windowStart != ZERO_TIME && s.windowEnd != ZERO_TIME && s.windowStart < s.windowEnd
      && r.totalWeight + s.weight <= v.capacity && s.hazard <= v.hazardLimit
      && forall i | 0 <= i < |r.stops| :: r.stops[i].id != s.id && r.stops[i].lotId != s.lotId)
    ensures Sound(r, v) && !Overflows(r, s) ==> (out.Success? <==> Fits(r, s, v))
  {
    if Sound(r, v) {
      TakesIffFits(r, s, v);
    }
    WrapExact(r.totalWeight + s.weight);
    if !(r.status == Planned || r.status == Loading) || !s.Valid() {
      return Failure(Invalid);
    }
    var total := Wrap(r.totalWeight + s.weight);
    if total > v.capacity || s.hazard > v.hazardLimit {
      return Failure(Invalid);
    }
    for i := 0 to |r.stops|
      invariant forall j | 0 <= j < i :: r.stops[j].id != s.id && r.stops[j].lotId != s.lotId
    {
      if r.stops[i].id == s.id || r.stops[i].lotId == s.lotId {
        return Failure(Invalid);
      }
    }
    var next := r.(stops := r.stops + [s], totalWeight := total);
    if s.hazard > next.maxHazard {
      next := next.(maxHazard := s.hazard);
    }
    out := Success(next);
  }

  /** The stops whose window starts at one time, in order. */
  function StartingAt(stops: seq<Stop>, t: int): seq<Stop> {
    if stops == [] then []
    else StartingAt(stops[..|stops| - 1], t) + if stops[|stops| - 1].windowStart == t then [stops[|stops| - 1]] else []
  }

  lemma {:induction false} TiedStart(stops: seq<Stop>, t: int)
    ensures Tied(WindowLe, Stop("", "", "", 0, 0, t, 0), stops) == StartingAt(stops, t)
  {
    if stops != [] {
      TiedStart(stops[..|stops| - 1], t);
    }
  }

  predicate WindowLe(a: Stop, b: Stop) { a.windowStart <= b.windowStart }

  /** Stops by start of window; stops that start together keep their order. */
  method OrderedStops(r: Route) returns (out: seq<Stop>)
    ensures IsStableSort(WindowLe, r.stops, out)
    ensures multiset(out) == multiset(r.stops)
    ensures forall i, j | 0 <= i < j < |out| :: out[i].windowStart <= out[j].windowStart
    ensures forall t :: StartingAt(out, t) == StartingAt(r.stops, t)
  {
    StableSortCorrect(WindowLe, r.stops);
    forall t ensures StartingAt(StableSort(WindowLe, r.stops), t) == StartingAt(r.stops, t) {
      TiedStart(r.stops, t);
      TiedStart(StableSort(WindowLe, r.stops), t);
    }
    out := SortStable(WindowLe, r.stops);
  }

  // ------------------------------------------------------------- the planner

  datatype Depot = Depot(vehicles: map<string, Vehicle>, routes: map<string, Route>)

  datatype Op =
    | CreateRoute(id: string, tenant: string, vehicle: string, now: int)
    | AddStop(id: string, s: Stop)
    | Transition(id: string, to: Status, now: int)

  /** What the planner answers. */
  function Answer(d: Depot, op: Op): Result<Route> {
    match op
    case CreateRoute(id, tenant, vehicle, now) =>
      if vehicle !in d.vehicles || id in d.routes then Failure(Invalid)
      else NewRoute(id, tenant, d.vehicles[vehicle], now)
    case AddStop(id, s) =>
      if id !in d.routes then Failure(NotFound)
      else if d.routes[id].vehicle in d.vehicles && Takes(d.routes[id], s, d.vehicles[d.routes[id].vehicle])
      then Success(WithStop(d.routes[id], s))
      else Failure(Invalid)
    case Transition(id, to, now) =>
      if id !in d.routes then Failure(NotFound) else Next(d.routes[id], to, now)
  }

  /** It stores what it answers, and nothing when it refuses. */
  ghost function Do(d: Depot, op: Op): Depot {
    match Answer(d, op)
    case Success(r) => d.(routes := d.routes[op.id := r])
    case Failure(_) => d
  }

  ghost function Run(d: Depot, ops: seq<Op>): Depot { Fold(Do, d, ops) }

  /** Every vehicle is valid and listed under its id, every route under its own, for a known vehicle. */
  ghost predicate Registered(d: Depot) {
    && (forall k | k in d.vehicles :: d.vehicles[k].id == k && d.vehicles[k].Valid())
    && (forall k | k in d.routes :: d.routes[k].id == k && d.routes[k].vehicle in d.vehicles)
  }

  /** Every route keeps its promise to its vehicle. */
  ghost predicate AllSound(d: Depot) {
    Registered(d) && forall k | k in d.routes :: Sound(d.routes[k], d.vehicles[d.routes[k].vehicle])
  }

  lemma DoKeepsRegistered(d: Depot, op: Op)
    requires Registered(d)
    ensures Registered(Do(d, op)) && Do(d, op).vehicles == d.vehicles
  {
  }

  // --------------------------------------- when the promises are kept, exactly

  /** The planner takes a stop whose weight overflows the route's running total. */
  predicate Overloads(d: Depot, op: Op) {
    op.AddStop? && Answer(d, op).Success? && Overflows(d.routes[op.id], op.s)
  }

  lemma AnswerSound(d: Depot, op: Op)
    requires AllSound(d) && Answer(d, op).Success? && !Overloads(d, op)
    ensures var r := Answer(d, op).value; r.id == op.id && r.vehicle in d.vehicles && Sound(r, d.vehicles[r.vehicle])
  {
    match op
    case CreateRoute(_, _, _, _) =>
    case AddStop(id, s) =>
      var v := d.vehicles[d.routes[id].vehicle];
      TakesIffFits(d.routes[id], s, v);
      WithStopSound(d.routes[id], s, v);
    case Transition(id, to, now) => NextSound(d.routes[id], to, now, d.vehicles[d.routes[id].vehicle]);
  }

  /** A route that weighs more than its vehicle carries. */
  ghost predicate Overweight(d: Depot, id: string) {
    && id in d.routes && d.routes[id].vehicle in d.vehicles
    && Sum(WeightOf, d.routes[id].stops) > d.vehicles[d.routes[id].vehicle].capacity
  }

  lemma OverloadIsOverweight(d: Depot, op: Op)
    requires AllSound(d) && Overloads(d, op)
    ensures Overweight(Do(d, op), op.id)
  {
    SumSnoc(WeightOf, d.routes[op.id].stops, op.s);
  }

  /** Stops are only ever added, and each weighs something. */
  lemma StaysOverweight(d: Depot, op: Op, id: string)
    requires Registered(d) && Overweight(d, id)
    ensures Overweight(Do(d, op), id)
  {
    if op.AddStop? && op.id == id {
      SumSnoc(WeightOf, d.routes[id].stops, op.s);
    }
  }

  /** One operation keeps every promise exactly when it does not overload a route. */
  lemma StepSoundIff(d: Depot, op: Op)
    requires AllSound(d)
    ensures AllSound(Do(d, op)) <==> !Overloads(d, op)
  {
    DoKeepsRegistered(d, op);
    if Overloads(d, op) {
      OverloadIsOverweight(d, op);
    } else if Answer(d, op).Success? {
      AnswerSound(d, op);
    }
  }

  /** No step of the run overloads a route. */
  ghost predicate NeverOverloads(d: Depot, ops: seq<Op>) {
    forall i | 0 <= i < |ops| :: !Overloads(Run(d, ops[..i]), ops[i])
  }

  lemma NeverOverloadsSnoc(d: Depot, ops: seq<Op>)
    requires ops != []
    ensures NeverOverloads(d, ops) <==>
      NeverOverloads(d, ops[..|ops| - 1]) && !Overloads(Run(d, ops[..|ops| - 1]), ops[|ops| - 1])
  {
    var front := ops[..|ops| - 1];
    assert forall i | 0 <= i < |front| :: front[..i] == ops[..i] && front[i] == ops[i];
  }

  /** Either every promise holds or some route is overweight. */
  ghost predicate Judged(d: Depot) {
    Registered(d) && (AllSound(d) <==> forall id :: !Overweight(d, id))
  }

  lemma StepJudged(d: Depot, op: Op)
    requires Judged(d)
    ensures Judged(Do(d, op)) && (AllSound(Do(d, op)) <==> AllSound(d) && !Overloads(d, op))
  {
    DoKeepsRegistered(d, op);
    if AllSound(d) {
      StepSoundIff(d, op);
      if Overloads(d, op) {
        OverloadIsOverweight(d, op);
      }
    } else {
      var id :| Overweight(d, id);
      StaysOverweight(d, op, id);
    }
  }

  /** Over any run the promises hold at the end exactly when no step overloaded a
      route; otherwise some route weighs more than its vehicle carries. */
  lemma {:induction false} RunSoundIff(d: Depot, ops: seq<Op>)
    requires AllSound(d)
    ensures Judged(Run(d, ops)) && Run(d, ops).vehicles == d.vehicles
    ensures AllSound(Run(d, ops)) <==> NeverOverloads(d, ops)
  {
    if ops != [] {
      var mid, last := Run(d, ops[..|ops| - 1]), ops[|ops| - 1];
      RunSoundIff(d, ops[..|ops| - 1]);
      NeverOverloadsSnoc(d, ops);
      DoKeepsRegistered(mid, last);
      StepJudged(mid, last);
    }
  }

  /** Stops too light to overflow a full vehicle never overload. */
  lemma {:induction false} LightStopsNeverOverload(d: Depot, ops: seq<Op>, heaviest: int)
    requires AllSound(d)
    requires forall k | k in d.vehicles :: Is64(d.vehicles[k].capacity + heaviest)
    requires forall i | 0 <= i < |ops| && ops[i].AddStop? :: ops[i].s.weight <= heaviest
    ensures NeverOverloads(d, ops)
  {
    if ops != [] {
      var mid, last := Run(d, ops[..|ops| - 1]), ops[|ops| - 1];
      LightStopsNeverOverload(d, ops[..|ops| - 1], heaviest);
      RunSoundIff(d, ops[..|ops| - 1]);
      NeverOverloadsSnoc(d, ops);
      if last.AddStop? && last.id in mid.routes {
        SumNonNegative(mid.routes[last.id].stops);
      }
    }
  }

  class Planner {
    var routes: map<string, Route>
    const vehicles: map<string, Vehicle>

    function Now(): Depot
      reads this
    {
      Depot(vehicles, routes)
    }

    ghost predicate Valid()
      reads this
    {
      Registered(Now())
    }

    constructor (vehicles: map<string, Vehicle>)
      requires forall k | k in vehicles :: vehicles[k].id == k && vehicles[k].Valid()
      ensures Valid() && this.vehicles == vehicles && routes == map[]
    {
      this.vehicles, routes := vehicles, map[];
    }

    method Create(id: string, tenant: string, vehicle: string, now: int) returns (r: Result<Route>)
      requires Valid()
      modifies this
      ensures Valid() && Now() == Do(old(Now()), CreateRoute(id, tenant, vehicle, now))
      ensures r == if vehicle !in vehicles || id in old(routes) then Failure(Invalid)
                   else NewRoute(id, tenant, vehicles[vehicle], now)
      ensures r.Success? <==>
        vehicle in vehicles && id !in old(routes) && !Blank(id) && !Blank(tenant) && now != ZERO_TIME
      ensures r.Success? ==> r.value == Route(id, tenant, vehicle, [], Planned, 0, 0, 1, now)
      ensures routes == if r.Success? then old(routes)[id := r.value] else old(routes)
    {
      DoKeepsRegistered(Now(), CreateRoute(id, tenant, vehicle, now));
      if vehicle !in vehicles || id in routes {
        return Failure(Invalid);
      }
      r := NewRoute(id, tenant, vehicles[vehicle], now);
      if r.Success? {
        routes := routes[id := r.value];
      }
    }

    method AddStop(id: string, s: Stop) returns (r: Result<Route>)
      requires Valid()
      modifies this
      ensures Valid() && Now() == Do(old(Now()), Op.AddStop(id, s))
      ensures r.Success? <==> id in old(routes) && Takes(old(routes)[id], s, vehicles[old(routes)[id].vehicle])
      ensures old(AllSound(Now())) && id in old(routes) && !Overflows(old(routes)[id], s) ==>
        (r.Success? <==> Fits(old(routes)[id], s, vehicles[old(routes)[id].vehicle]))
      ensures r.Success? ==> r.value == WithStop(old(routes)[id], s) && routes == old(routes)[id := r.value]
      ensures r.Failure? ==> routes == old(routes)
    {
      DoKeepsRegistered(Now(), Op.AddStop(id, s));
      if id !in routes {
        return Failure(NotFound);
      }
      r := AddTo(routes[id], s, vehicles[routes[id].vehicle]);
      if r.Success? {
        routes := routes[id := r.value];
      }
    }

    method Transition(id: string, to: Status, now: int) returns (r: Result<Route>)
      requires Valid()
      modifies this
      ensures Valid() && Now() == Do(old(Now()), Op.Transition(id, to, now))
      ensures r.Success? <==> id in old(routes) && Next(old(routes)[id], to, now).Success?
      ensures r.Success? ==> r == Next(old(routes)[id], to, now) && routes == old(routes)[id := r.value]
      ensures r.Failure? ==> routes == old(routes)
    {
      DoKeepsRegistered(Now(), Op.Transition(id, to, now));
      if id !in routes {
        return Failure(NotFound);
      }
      r := Advance(routes[id], to, now);
      if r.Success? {
        routes := routes[id := r.value];
      }
    }
  }

  /** Builds the vehicle table, refusing an invalid or repeated vehicle. */
  method NewPlanner(vehicles: seq<Vehicle>) returns (p: Planner?)
    ensures p == null <==> (exists i | 0 <= i < |vehicles| ::
                             Blank(vehicles[i].id) || vehicles[i].capacity <= 0 || vehicles[i].hazardLimit < 0)
                           || (exists i, j | 0 <= i < j < |vehicles| :: vehicles[i].id == vehicles[j].id)
    ensures p != null ==> fresh(p) && p.Valid() && p.routes == map[]
    ensures p != null ==> forall i | 0 <= i < |vehicles| :: vehicles[i].id in p.vehicles && p.vehicles[vehicles[i].id] == vehicles[i]
  {
    var table: map<string, Vehicle> := map[];
    for i := 0 to |vehicles|
      invariant forall j | 0 <= j < i :: vehicles[j].Valid() && vehicles[j].id in table && table[vehicles[j].id] == vehicles[j]
      invariant forall k | k in table :: table[k].id == k && table[k].Valid() && exists j | 0 <= j < i :: vehicles[j].id == k
      invariant forall j, k | 0 <= j < k < i :: vehicles[j].id != vehicles[k].id
    {
      if !vehicles[i].Valid() || vehicles[i].id in table {
        return null;
      }
      table := table[vehicles[i].id := vehicles[i]];
    }
    p := new Planner(table);
  }

  /** In every planner reached from an empty one without overloading: a route's
      weight is the sum of its stops, within its vehicle's capacity, and positive
      once it is past planned; its hazard is the greatest of its stops', zero without
      stops, and within the limit; stop ids and lot ids are distinct; the status
      fixes the version. */
  lemma RouteWithinLimits(vehicles: map<string, Vehicle>, ops: seq<Op>, id: string)
    requires forall k | k in vehicles :: vehicles[k].id == k && vehicles[k].Valid()
    requires NeverOverloads(Depot(vehicles, map[]), ops)
    requires id in Run(Depot(vehicles, map[]), ops).routes
    ensures var r := Run(Depot(vehicles, map[]), ops).routes[id];
      && r.id == id && r.vehicle in vehicles
      && Sum(WeightOf, r.stops) == r.totalWeight <= vehicles[r.vehicle].capacity
      && IsMaxHazard(r.stops, r.maxHazard) && r.maxHazard <= vehicles[r.vehicle].hazardLimit
      && (forall i, j | 0 <= i < j < |r.stops| :: r.stops[i].id != r.stops[j].id && r.stops[i].lotId != r.stops[j].lotId)
      && (r.status in {Loading, EnRoute, Delivered} ==> 0 < r.totalWeight)
      && r.status != Cancelled && r.version == VersionOf(r.status)
      && (r.status == Planned ==> r.version == 1) && (r.status == Loading ==> r.version == 2)
      && (r.status == EnRoute ==> r.version == 3) && (r.status == Delivered ==> r.version == 4)
  {
    RunSoundIff(Depot(vehicles, map[]), ops);
    SumNonNegative(Run(Depot(vehicles, map[]), ops).routes[id].stops);
  }

  const VAN := Vehicle("a", 10, 10)
  const LIGHT := Stop("a", "a", "a", 0, 1, 1, 2)
  const HEAVY := Stop("b", "b", "b", 0, HALF - 1, 1, 2)

  const EMPTY := Route("a", "a", "a", [], Planned, 0, 0, 1, 1)
  const LOADED := Route("a", "a", "a", [LIGHT], Planned, 1, 0, 1, 1)

  lemma RouteCreated() returns (ops: seq<Op>)
    ensures Run(Depot(map["a" := VAN], map[]), ops) == Depot(map["a" := VAN], map["a" := EMPTY])
  {
    Visible("a");
    ops := Then(Do, Depot(map["a" := VAN], map[]), [], CreateRoute("a", "a", "a", 1));
  }

  lemma LightTaken()
    ensures Takes(EMPTY, LIGHT, VAN) && WithStop(EMPTY, LIGHT) == LOADED
  {
    Visible("a");
  }

  lemma LightStopTaken() returns (ops: seq<Op>)
    ensures Run(Depot(map["a" := VAN], map[]), ops) == Depot(map["a" := VAN], map["a" := LOADED])
  {
    LightTaken();
    ops := RouteCreated();
    ops := Then(Do, Depot(map["a" := VAN], map[]), ops, AddStop("a", LIGHT));
  }

  /** One light stop and one of the greatest weight: the total turns negative, and
      a vehicle for ten kilograms is taken to carry both. */
  lemma HeavyStopOverloads() returns (vehicles: map<string, Vehicle>, ops: seq<Op>)
    ensures AllSound(Depot(vehicles, map[]))
    ensures var d := Run(Depot(vehicles, map[]), ops);
      Overweight(d, "a") && d.routes["a"].totalWeight == -HALF && d.vehicles[d.routes["a"].vehicle].capacity == 10
  {
    Visible("a");
    Visible("b");
    vehicles := map["a" := VAN];
    ops := LightStopTaken();
    var r := Run(Depot(vehicles, map[]), ops).routes["a"];
    assert Takes(r, HEAVY, VAN) && TotalWith(r, HEAVY) == -HALF;
    ops := Then(Do, Depot(vehicles, map[]), ops, AddStop("a", HEAVY));
    TwoWeights(LIGHT, HEAVY);
  }

  lemma Visible(s: string)
    requires s != "" && !Space(s[0])
    ensures !Blank(s)
  {
  }

  lemma TwoWeights(s: Stop, t: Stop)
    ensures Sum(WeightOf, [s] + [t]) == s.weight + t.weight && [] + [s] == [s]
  {
    SumSnoc(WeightOf, [s], t);
    SumSnoc(WeightOf, [], s);
    assert [] + [s] == [s];
  }

  /** A route that has departed keeps its stops, and its status only moves on. */
  lemma {:induction false} DepartedKeepsLoad(d: Depot, ops: seq<Op>, id: string)
    requires id in d.routes && d.routes[id].status in {EnRoute, Delivered}
    ensures id in Run(d, ops).routes && var r := Run(d, ops).routes[id];
      && r == d.routes[id].(status := r.status, version := r.version)
      && (r.status == d.routes[id].status || r.status == Delivered)
  {
    if ops != [] {
      DepartedKeepsLoad(d, ops[..|ops| - 1], id);
    }
  }
}
