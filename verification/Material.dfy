/** Recovered material: the greedy reservation, in-place pruning, the derived
    balance, and conservation of usable grams over any history. */
module Material {
  import opened Common
  import opened Sequences

  datatype Grade = A | B | C | Reject

  datatype Lot = Lot(id: string, recovery: string, tenant: string, kind: string, grams: int, grade: Grade,
                     assayedAt: int, assayer: string)
  {
    predicate Usable() { grams > 0 && grade != Reject }
  }

  datatype Balance = Balance(incoming: int, accepted: int, rejected: int, available: int)

  const MAX_GRAMS := 1_000_000
  const MAX_TENANT := 64

  function ItemsOf(lots: map<string, seq<Lot>>, tenant: string): seq<Lot> {
    if tenant in lots then lots[tenant] else []
  }

  // ------------------------------------------------------------- amounts

  function GramsOf(kind: string): Lot -> int { (l: Lot) => if l.kind == kind then l.grams else 0 }

  function UsableOf(kind: string): Lot -> int { (l: Lot) => if l.kind == kind && l.Usable() then l.grams else 0 }

  /** The usable grams of a kind in a list. */
  function Usable(items: seq<Lot>, kind: string): int { Sum(UsableOf(kind), items) }

  /** Usable grams of a kind: those of its lots that weigh something and were not graded reject. */
  lemma UsableMeans(items: seq<Lot>, l: Lot, kind: string)
    ensures Usable([], kind) == 0
    ensures Usable(items + [l], kind) ==
      Usable(items, kind) + (if l.kind == kind && l.grams > 0 && l.grade != Reject then l.grams else 0)
  {
    SumSnoc(UsableOf(kind), items, l);
  }

  /** A balance, lot by lot. */
  lemma BalanceMeans(items: seq<Lot>, l: Lot, kind: string)
    ensures BalanceOf([], kind) == Balance(0, 0, 0, 0)
    ensures var b, good := BalanceOf(items, kind), l.grams > 0 && l.grade != Reject;
      BalanceOf(items + [l], kind) ==
        if l.kind != kind then b
        else if good then Balance(b.incoming + l.grams, b.accepted + l.grams, b.rejected, b.available + l.grams)
        else Balance(b.incoming + l.grams, b.accepted, b.rejected + l.grams, b.available)
  {
    BalanceSnoc(items, l);
  }

  function Min(a: int, b: int): int { if a < b then a else b }

  function Max(a: int, b: int): int { if a < b then b else a }

  /** What the greedy plan takes from lot i: as much as is still wanted once every
      usable lot before it has been taken whole. */
  function TakeAt(items: seq<Lot>, kind: string, want: int, i: nat): int
    requires i < |items|
  {
    if items[i].kind == kind && items[i].Usable() then Min(items[i].grams, Max(0, want - Usable(items[..i], kind))) else 0
  }

  function Drained(items: seq<Lot>, kind: string, want: int): seq<Lot> {
    seq(|items|, i requires 0 <= i < |items| => items[i].(grams := items[i].grams - TakeAt(items, kind, want, i)))
  }

  /** The part of each touched lot among the first n, in list order. */
  function Selected(items: seq<Lot>, kind: string, want: int, n: nat): seq<Lot>
    requires n <= |items|
  {
    if n == 0 then [] else
      var take := TakeAt(items, kind, want, n - 1);
      Selected(items, kind, want, n - 1) + if take > 0 then [items[n - 1].(grams := take)] else []
  }

  function Weight(l: Lot): int { l.grams }

  /** Keeps, in order, what was not assayed before the cutoff. */
  function Kept(items: seq<Lot>, before: int): seq<Lot> {
    if items == [] then []
    else Kept(items[..|items| - 1], before) +
         if items[|items| - 1].assayedAt < before then [] else [items[|items| - 1]]
  }

  predicate Distinct(items: seq<Lot>) { forall i, j | 0 <= i < j < |items| :: items[i].id != items[j].id }

  predicate Acceptable(l: Lot) {
    !Blank(l.tenant) && |l.tenant| <= MAX_TENANT && l.kind != "" && 0 < l.grams <= MAX_GRAMS && l.id != ""
  }

  predicate HasId(items: seq<Lot>, id: string) { exists i | 0 <= i < |items| :: items[i].id == id }

  datatype Op =
    | Add(p: Principal, lot: Lot, cancelled: bool)
    | Reserve(p: Principal, tenant: string, kind: string, want: int, cancelled: bool)
    | Prune(before: int)

  /** Whether the operation takes effect. */
  predicate Takes(lots: map<string, seq<Lot>>, op: Op) {
    match op
    case Add(p, lot, cancelled) =>
      !cancelled && p.Can("recover") && Acceptable(lot.(tenant := p.tenant)) && !HasId(ItemsOf(lots, p.tenant), lot.id)
    case Reserve(p, tenant, kind, want, cancelled) =>
      !cancelled && p.Can("recover") && want > 0 && tenant == p.tenant && Usable(ItemsOf(lots, tenant), kind) >= want
    case Prune(_) => true
  }

  /** The inventory after an operation; a refusal changes nothing. */
  function Do(lots: map<string, seq<Lot>>, op: Op): map<string, seq<Lot>> {
    if !Takes(lots, op) then lots else
      match op
      case Add(p, lot, _) => lots[p.tenant := ItemsOf(lots, p.tenant) + [lot.(tenant := p.tenant)]]
      case Reserve(_, tenant, kind, want, _) => lots[tenant := Drained(ItemsOf(lots, tenant), kind, want)]
      case Prune(before) => map t | t in lots :: Kept(lots[t], before)
  }

  // ------------------------------------------------------------- the service

  class MaterialService {
    var lots: map<string, seq<Lot>>

    constructor ()
      ensures lots == map[]
    {
      lots := map[];
    }

    method Add(p: Principal, lot: Lot, cancelled: bool) returns (r: Result<()>)
      modifies this
      ensures lots == Do(old(lots), Op.Add(p, lot, cancelled))
      ensures r.Success? <==> Takes(old(lots), Op.Add(p, lot, cancelled))
      ensures r.Success? <==>
        && !cancelled && (p.role == "operator" || p.role == "supervisor")
        && !Blank(p.tenant) && |p.tenant| <= 64 && lot.kind != "" && 0 < lot.grams <= 1_000_000 && lot.id != ""
        && (p.tenant in old(lots) ==> forall l | l in old(lots)[p.tenant] :: l.id != lot.id)
      ensures r.Success? ==> lots == old(lots)[p.tenant :=
        (if p.tenant in old(lots) then old(lots)[p.tenant] else []) + [lot.(tenant := p.tenant)]]
      ensures r == Failure(Conflict) <==>
        !cancelled && p.Can("recover") && Acceptable(lot.(tenant := p.tenant)) && HasId(ItemsOf(old(lots), p.tenant), lot.id)
    {
      if cancelled {
        return Failure(Unavailable);
      }
      if !p.Can("recover") {
        return Failure(Forbidden);
      }
      var l := lot.(tenant := p.tenant);
      if !Acceptable(l) {
        return Failure(Invalid);
      }
      var items := ItemsOf(lots, p.tenant);
      for i := 0 to |items|
        invariant forall j | 0 <= j < i :: items[j].id != l.id
      {
        if items[i].id == l.id {
          return Failure(Conflict);
        }
      }
      lots := lots[p.tenant := items + [l]];
      r := Success(());
    }

    /** Plans over the list, then commits the plan through a map of indices in any order. */
    method Reserve(p: Principal, tenant: string, kind: string, want: int, cancelled: bool) returns (r: Result<seq<Lot>>)
      modifies this
      ensures lots == Do(old(lots), Op.Reserve(p, tenant, kind, want, cancelled))
      ensures r.Success? <==>
        && !cancelled && (p.role == "operator" || p.role == "supervisor") && want > 0 && tenant == p.tenant
        && tenant in old(lots) && Usable(old(lots)[tenant], kind) >= want
      ensures r.Success? <==> Takes(old(lots), Op.Reserve(p, tenant, kind, want, cancelled))
      ensures r.Success? ==> r.value == Selected(ItemsOf(old(lots), tenant), kind, want, |ItemsOf(old(lots), tenant)|)
    {
      if cancelled {
        return Failure(Unavailable);
      }
      if !p.Can("recover") {
        return Failure(Forbidden);
      }
      if want <= 0 {
        return Failure(Invalid);
      }
      if tenant != p.tenant {
        return Failure(Forbidden);
      }
      var ok, selected, after := Allocate(ItemsOf(lots, tenant), kind, want);
      if !ok {
        return Failure(Conflict);
      }
      lots := lots[tenant := after];
      r := Success(selected);
    }

    method Balances(tenant: string) returns (out: map<string, Balance>)
      ensures forall k :: k in out <==> exists i | 0 <= i < |ItemsOf(lots, tenant)| :: ItemsOf(lots, tenant)[i].kind == k
      ensures forall k | k in out :: out[k] == BalanceOf(ItemsOf(lots, tenant), k)
    {
      out := Tally(ItemsOf(lots, tenant));
    }

    /** Compacts every tenant's list; the map is walked in any order. */
    method Prune(before: int) returns (removed: nat)
      modifies this
      ensures lots == Do(old(lots), Op.Prune(before))
      ensures lots.Keys == old(lots).Keys
      ensures forall t | t in lots :: forall l :: l in lots[t] <==> l in old(lots)[t] && l.assayedAt >= before
      ensures removed == Size(old(lots)) - Size(lots)
    {
      removed := 0;
      ghost var was := lots;
      var todo := lots.Keys;
      while todo != {}
        invariant todo <= lots.Keys == was.Keys
        invariant forall t | t in lots :: lots[t] == if t in todo then was[t] else Kept(was[t], before)
        invariant removed == Size(was) - Size(lots)
        decreases |todo|
      {
        var t :| t in todo;
        todo := todo - {t};
        var kept, dropped := Compact(lots[t], before);
        LengthsChange(lots, t, kept);
        lots := lots[t := kept];
        removed := removed + dropped;
      }
      PruneMeans(was, before);
    }
  }

  lemma PruneMeans(lots: map<string, seq<Lot>>, before: int)
    ensures var after := Do(lots, Op.Prune(before));
      after.Keys == lots.Keys && forall t | t in after :: forall l :: l in after[t] <==> l in lots[t] && l.assayedAt >= before
  {
    forall t | t in lots ensures forall l :: l in Kept(lots[t], before) <==> l in lots[t] && l.assayedAt >= before {
      KeptElements(lots[t], before);
    }
  }

  function BalanceOf(items: seq<Lot>, kind: string): Balance {
    var incoming, usable := Sum(GramsOf(kind), items), Usable(items, kind);
    Balance(incoming, usable, incoming - usable, usable)
  }

  method Tally(items: seq<Lot>) returns (out: map<string, Balance>)
    ensures Tallied(out, items)
  {
    out := map[];
    for i := 0 to |items|
      invariant Tallied(out, items[..i])
    {
      var l := items[i];
      TalliedStep(out, items, i);
      var b := Book(if l.kind in out then out[l.kind] else Balance(0, 0, 0, 0), l);
      out := out[l.kind := b];
    }
    assert items[..|items|] == items;
  }

  method Book(before: Balance, l: Lot) returns (b: Balance)
    ensures b == Booked(before, l)
  {
    b := before.(incoming := before.incoming + l.grams);
    if l.Usable() {
      b := b.(accepted := b.accepted + l.grams, available := b.available + l.grams);
    } else {
      b := b.(rejected := b.rejected + l.grams);
    }
  }

  /** One balance for every kind among the lots, and no other. */
  ghost predicate Tallied(out: map<string, Balance>, items: seq<Lot>) {
    && (forall k :: k in out <==> exists i | 0 <= i < |items| :: items[i].kind == k)
    && (forall k :: (if k in out then out[k] else Balance(0, 0, 0, 0)) == BalanceOf(items, k))
  }

  function Booked(b: Balance, l: Lot): Balance {
    var accepted := if l.Usable() then l.grams else 0;
    Balance(b.incoming + l.grams, b.accepted + accepted, b.rejected + l.grams - accepted, b.available + accepted)
  }

  lemma TalliedStep(out: map<string, Balance>, items: seq<Lot>, i: nat)
    requires i < |items| && Tallied(out, items[..i])
    ensures var l := items[i]; var b := if l.kind in out then out[l.kind] else Balance(0, 0, 0, 0);
      Tallied(out[l.kind := Booked(b, l)], items[..i + 1])
  {
    TalliedSnoc(out, items[..i], items[i]);
    assert items[..i + 1] == items[..i] + [items[i]];
  }

  lemma TalliedSnoc(out: map<string, Balance>, items: seq<Lot>, l: Lot)
    requires Tallied(out, items)
    ensures var b := if l.kind in out then out[l.kind] else Balance(0, 0, 0, 0);
      Tallied(out[l.kind := Booked(b, l)], items + [l])
  {
    BalanceSnoc(items, l);
    assert (items + [l])[|items|] == l;
    forall k ensures k == l.kind || k in out <==> exists i | 0 <= i < |items + [l]| :: (items + [l])[i].kind == k {
      if k in out {
        var i :| 0 <= i < |items| && items[i].kind == k;
        assert (items + [l])[i].kind == k;
      }
    }
  }

  lemma BalanceSnoc(items: seq<Lot>, l: Lot)
    ensures forall k | k != l.kind :: BalanceOf(items + [l], k) == BalanceOf(items, k)
    ensures BalanceOf(items + [l], l.kind) == Booked(BalanceOf(items, l.kind), l)
  {
    assert (items + [l])[..|items|] == items;
  }

  /** How many lots there are over all tenants. */
  ghost function Size(lots: map<string, seq<Lot>>): int { SetSum(t => |ItemsOf(lots, t)|, lots.Keys) }

  lemma LengthsChange(lots: map<string, seq<Lot>>, t: string, items: seq<Lot>)
    requires t in lots
    ensures Size(lots[t := items]) == Size(lots) - |lots[t]| + |items|
  {
    var lots' := lots[t := items];
    assert lots'.Keys == lots.Keys;
    var f, g := k => |ItemsOf(lots, k)|, k => |ItemsOf(lots', k)|;
    SetSumSplit(f, lots.Keys, t);
    SetSumSplit(g, lots.Keys, t);
    SetSumSame(f, g, lots.Keys - {t});
  }

  lemma SomeIndex(s: set<nat>)
    ensures (forall i :: i !in s) ==> s == {}
  {
    if forall i :: i !in s {
      assert s == {};
    }
  }

  /** The map allots exactly what is taken of each of the first n lots. */
  ghost predicate Allots(allocations: map<nat, int>, items: seq<Lot>, kind: string, want: int, n: nat)
    requires n <= |items|
  {
    && (forall j: nat :: j in allocations <==> j < n && TakeAt(items, kind, want, j) > 0)
    && (forall j | j in allocations :: allocations[j] == TakeAt(items, kind, want, j))
  }

  /** The planning loop of a reservation. */
  method Planned(items: seq<Lot>, kind: string, want: int)
    returns (remaining: int, selected: seq<Lot>, allocations: map<nat, int>)
    requires want > 0
    ensures remaining == Max(0, want - Usable(items, kind))
    ensures selected == Selected(items, kind, want, |items|)
    ensures forall i: nat :: i in allocations <==> i < |items| && TakeAt(items, kind, want, i) > 0
    ensures forall i | i in allocations :: allocations[i] == TakeAt(items, kind, want, i)
  {
    remaining, selected, allocations := want, [], map[];
    for i := 0 to |items|
      invariant remaining == Max(0, want - Usable(items[..i], kind))
      invariant selected == Selected(items, kind, want, i)
      invariant Allots(allocations, items, kind, want, i)
    {
      RemainingStep(items, kind, want, i);
      if items[i].kind == kind && items[i].Usable() && remaining > 0 {
        var take := items[i];
        if take.grams > remaining {
          take := take.(grams := remaining);
        }
        selected := selected + [take];
        allocations := allocations[i := take.grams];
        remaining := remaining - take.grams;
      }
    }
    assert items[..|items|] == items;
  }

  /** Subtracts the planned amounts, whatever order the map gives them in. */
  method Commit(items: seq<Lot>, allocations: map<nat, int>) returns (out: seq<Lot>)
    requires forall i | i in allocations :: i < |items|
    ensures |out| == |items|
    ensures forall i: nat | i < |items| ::
      out[i] == if i in allocations then items[i].(grams := items[i].grams - allocations[i]) else items[i]
  {
    out := items;
    var todo := allocations.Keys;
    while todo != {}
      invariant todo <= allocations.Keys && |out| == |items|
      invariant forall i: nat | i < |items| :: out[i] ==
                  if i in allocations && i !in todo then items[i].(grams := items[i].grams - allocations[i]) else items[i]
      decreases |todo|
    {
      SomeIndex(todo);
      var i :| i in todo;
      todo := todo - {i};
      out := out[i := out[i].(grams := out[i].grams - allocations[i])];
    }
  }

  /** The two phases: plan first, and commit only a plan that covers the request. */
  method Allocate(items: seq<Lot>, kind: string, want: int) returns (ok: bool, selected: seq<Lot>, after: seq<Lot>)
    requires want > 0
    ensures ok <==> Usable(items, kind) >= want
    ensures ok ==> selected == Selected(items, kind, want, |items|) && after == Drained(items, kind, want)
  {
    var remaining, allocations;
    remaining, selected, allocations := Planned(items, kind, want);
    ok, after := remaining <= 0, items;
    if ok {
      after := Commit(items, allocations);
      assert after == Drained(items, kind, want);
    }
  }

  /** Moves the kept items to the front of their own array. */
  method Compact(items: seq<Lot>, before: int) returns (kept: seq<Lot>, removed: nat)
    ensures kept == Kept(items, before) && removed == |items| - |kept|
    ensures forall l :: l in kept <==> l in items && l.assayedAt >= before
  {
    var a := new Lot[|items|](i requires 0 <= i < |items| => items[i]);
    var n := 0;
    removed := 0;
    for i := 0 to a.Length
      invariant n + removed == i
      invariant a[..n] == Kept(items[..i], before)
      invariant forall j | i <= j < a.Length :: a[j] == items[j]
    {
      assert items[..i + 1][..i] == items[..i];
      if a[i].assayedAt < before {
        removed := removed + 1;
      } else {
        a[n] := a[i];
        n := n + 1;
        assert a[..n] == a[..n - 1] + [items[i]];
      }
    }
    assert items[..|items|] == items;
    kept := a[..n];
    KeptElements(items, before);
  }

  // ------------------------------------------------------------- the plan

  lemma {:induction false} UsablePrefix(items: seq<Lot>, kind: string, i: nat, j: nat)
    requires i <= j <= |items|
    ensures 0 <= Usable(items[..i], kind) <= Usable(items[..j], kind)
  {
    if i < j {
      UsablePrefix(items, kind, i, j - 1);
      assert items[..j][..j - 1] == items[..j - 1];
    } else if i > 0 {
      UsablePrefix(items, kind, i - 1, i - 1);
      assert items[..i][..i - 1] == items[..i - 1];
    }
  }

  lemma UsableStep(items: seq<Lot>, kind: string, i: nat)
    requires i < |items|
    ensures Usable(items[..i + 1], kind) == Usable(items[..i], kind) + UsableOf(kind)(items[i])
  {
    assert items[..i + 1][..i] == items[..i];
  }

  lemma RemainingStep(items: seq<Lot>, kind: string, want: int, i: nat)
    requires i < |items|
    ensures Max(0, want - Usable(items[..i + 1], kind)) == Max(0, want - Usable(items[..i], kind)) - TakeAt(items, kind, want, i)
  {
    UsableStep(items, kind, i);
  }

  /** What has been selected weighs as much as was wanted, as far as the list goes. */
  lemma {:induction false} SelectedWeight(items: seq<Lot>, kind: string, want: int, n: nat)
    requires want > 0 && n <= |items|
    ensures Sum(Weight, Selected(items, kind, want, n)) == Min(want, Usable(items[..n], kind))
  {
    if n > 0 {
      SelectedWeight(items, kind, want, n - 1);
      SelectedStep(items, kind, want, n);
      TakenStep(items, kind, want, n);
    }
  }

  lemma SelectedStep(items: seq<Lot>, kind: string, want: int, n: nat)
    requires 0 < n <= |items|
    ensures Sum(Weight, Selected(items, kind, want, n)) ==
            Sum(Weight, Selected(items, kind, want, n - 1)) + Max(0, TakeAt(items, kind, want, n - 1))
  {
    var take, front := TakeAt(items, kind, want, n - 1), Selected(items, kind, want, n - 1);
    if take > 0 {
      SumSnoc(Weight, front, items[n - 1].(grams := take));
    } else {
      assert front + [] == front;
    }
  }

  lemma TakenStep(items: seq<Lot>, kind: string, want: int, n: nat)
    requires want > 0 && 0 < n <= |items|
    ensures Min(want, Usable(items[..n], kind)) ==
            Min(want, Usable(items[..n - 1], kind)) + Max(0, TakeAt(items, kind, want, n - 1))
  {
    UsablePrefix(items, kind, n - 1, n - 1);
    UsableStep(items, kind, n - 1);
  }

  /** The selection names exactly the lots taken from, in list order. */
  lemma {:induction false} SelectedOrder(items: seq<Lot>, kind: string, want: int, n: nat) returns (at: seq<nat>)
    requires n <= |items|
    ensures |at| == |Selected(items, kind, want, n)|
    ensures forall k | 0 <= k < |at| :: at[k] < n && TakeAt(items, kind, want, at[k]) > 0
    ensures forall k | 0 <= k < |at| ::
      Selected(items, kind, want, n)[k] == items[at[k]].(grams := TakeAt(items, kind, want, at[k]))
    ensures forall j, k | 0 <= j < k < |at| :: at[j] < at[k]
    ensures forall i: nat | i < n && TakeAt(items, kind, want, i) > 0 :: i in at
  {
    at := [];
    if n > 0 {
      at := SelectedOrder(items, kind, want, n - 1);
      if TakeAt(items, kind, want, n - 1) > 0 {
        at := at + [n - 1];
      }
    }
  }

  /** A lot is touched only after every usable one before it is drained; nothing
      goes below zero and other kinds are left alone. */
  lemma DrainedInOrder(items: seq<Lot>, kind: string, want: int, i: nat)
    requires want > 0 && i < |items|
    ensures var after := Drained(items, kind, want);
      && after[i] == items[i].(grams := after[i].grams)
      && (items[i].grams >= 0 ==> 0 <= after[i].grams <= items[i].grams)
      && (items[i].kind != kind || items[i].grams <= 0 || items[i].grade == Reject ==> after[i] == items[i])
      && (forall j: nat | i < j < |items| && after[j] != items[j] && items[i].kind == kind
                          && items[i].grams > 0 && items[i].grade != Reject :: after[i].grams == 0)
  {
    UsablePrefix(items, kind, i, i);
    UsableStep(items, kind, i);
    forall j: nat | i < j < |items| && TakeAt(items, kind, want, j) > 0 && items[i].kind == kind && items[i].Usable()
      ensures TakeAt(items, kind, want, i) == items[i].grams
    {
      UsablePrefix(items, kind, i + 1, j);
    }
  }

  /** A reservation lowers the usable grams of its kind by the request and of no other kind. */
  lemma {:induction false} DrainedUsable(items: seq<Lot>, kind: string, want: int, other: string, n: nat)
    requires want > 0 && n <= |items|
    ensures Usable(Drained(items, kind, want)[..n], other) ==
      Usable(items[..n], other) - if other == kind then Min(want, Usable(items[..n], kind)) else 0
  {
    if n > 0 {
      DrainedUsable(items, kind, want, other, n - 1);
      UsablePrefix(items, kind, n - 1, n - 1);
      UsableStep(items, kind, n - 1);
      UsableStep(items, other, n - 1);
      UsableStep(Drained(items, kind, want), other, n - 1);
    }
  }

  /** A reservation that takes effect hands out exactly the request, lowers the
      usable grams of that kind by it, and leaves every other kind and tenant alone. */
  lemma ReservationIsExact(lots: map<string, seq<Lot>>, p: Principal, tenant: string, kind: string, want: int)
    requires Takes(lots, Op.Reserve(p, tenant, kind, want, false))
    ensures var items, after := ItemsOf(lots, tenant), Do(lots, Op.Reserve(p, tenant, kind, want, false));
      && Sum(Weight, Selected(items, kind, want, |items|)) == want
      && Usable(ItemsOf(after, tenant), kind) == Usable(items, kind) - want
      && (forall other | other != kind :: Usable(ItemsOf(after, tenant), other) == Usable(items, other))
      && (forall t | t != tenant :: ItemsOf(after, t) == ItemsOf(lots, t))
  {
    var items := ItemsOf(lots, tenant);
    var after := Drained(items, kind, want);
    assert items[..|items|] == items && after[..|items|] == after;
    SelectedWeight(items, kind, want, |items|);
    DrainedUsable(items, kind, want, kind, |items|);
    forall other | other != kind ensures Usable(after, other) == Usable(items, other) {
      DrainedUsable(items, kind, want, other, |items|);
    }
  }

  // ------------------------------------------------------------- conservation

  function Dropped(items: seq<Lot>, before: int): seq<Lot> {
    if items == [] then []
    else Dropped(items[..|items| - 1], before) +
         if items[|items| - 1].assayedAt < before then [items[|items| - 1]] else []
  }

  lemma {:induction false} PruneSplits(items: seq<Lot>, before: int, kind: string)
    ensures Usable(items, kind) == Usable(Kept(items, before), kind) + Usable(Dropped(items, before), kind)
  {
    if items != [] {
      var n := |items| - 1;
      PruneSplits(items[..n], before, kind);
      if items[n].assayedAt < before {
        assert Kept(items, before) == Kept(items[..n], before);
        SumSnoc(UsableOf(kind), Dropped(items[..n], before), items[n]);
      } else {
        assert Dropped(items, before) == Dropped(items[..n], before);
        SumSnoc(UsableOf(kind), Kept(items[..n], before), items[n]);
      }
    }
  }

  lemma {:induction false} KeptElements(items: seq<Lot>, before: int)
    ensures forall l :: l in Kept(items, before) <==> l in items && l.assayedAt >= before
    ensures Distinct(items) ==> Distinct(Kept(items, before))
  {
    if items != [] {
      KeptElements(items[..|items| - 1], before);
    }
  }

  /** The kept lots are those at these places of the list, in order, and the places
      are all those of a lot assayed at or after the cutoff. */
  ghost predicate Picks(at: seq<nat>, kept: seq<Lot>, items: seq<Lot>, before: int) {
    && |at| == |kept| && (forall k | 0 <= k < |at| :: at[k] < |items| && kept[k] == items[at[k]])
    && (forall j, k | 0 <= j < k < |at| :: at[j] < at[k])
    && (forall i: nat | i < |items| :: i in at <==> items[i].assayedAt >= before)
  }

  lemma PicksSnoc(at: seq<nat>, kept: seq<Lot>, items: seq<Lot>, l: Lot, before: int)
    requires Picks(at, kept, items, before)
    ensures if l.assayedAt >= before
            then Picks(at + [|items|], kept + [l], items + [l], before)
            else Picks(at, kept, items + [l], before)
  {
    var all := items + [l];
    assert all[|items|] == l && forall i | 0 <= i < |items| :: all[i] == items[i];
    assert (at + [|items|])[|at|] == |items|;
  }

  /** What is kept is every lot assayed at or after the cutoff, drained or not, each
      once for each time it is listed, in the order of the list. */
  lemma {:induction false} KeptAt(items: seq<Lot>, before: int) returns (at: seq<nat>)
    ensures Picks(at, Kept(items, before), items, before)
  {
    at := [];
    if items != [] {
      var front, l := items[..|items| - 1], items[|items| - 1];
      at := KeptAt(front, before);
      PicksSnoc(at, Kept(front, before), front, l, before);
      assert items == front + [l];
      if l.assayedAt >= before {
        at := at + [|front|];
      }
    }
  }

  /** One tenant's account of one kind. */
  datatype Ledger = Ledger(added: int, reserved: int, pruned: int)

  function Post(lots: map<string, seq<Lot>>, op: Op, tenant: string, kind: string, l: Ledger): Ledger {
    if !Takes(lots, op) then l else
      match op
      case Add(p, lot, _) =>
        if p.tenant == tenant then l.(added := l.added + UsableOf(kind)(lot.(tenant := p.tenant))) else l
      case Reserve(_, t, k, want, _) => if t == tenant && k == kind then l.(reserved := l.reserved + want) else l
      case Prune(before) => l.(pruned := l.pruned + Usable(Dropped(ItemsOf(lots, tenant), before), kind))
  }

  /** The inventory and the account after a history, from an empty service. */
  function History(ops: seq<Op>, tenant: string, kind: string): (map<string, seq<Lot>>, Ledger) {
    if ops == [] then (map[], Ledger(0, 0, 0)) else
      var (lots, l) := History(ops[..|ops| - 1], tenant, kind);
      (Do(lots, ops[|ops| - 1]), Post(lots, ops[|ops| - 1], tenant, kind, l))
  }

  ghost predicate Tidy(lots: map<string, seq<Lot>>, tenant: string) {
    var items := ItemsOf(lots, tenant);
    Distinct(items) && forall l | l in items :: l.tenant == tenant && l.grams >= 0
  }

  lemma DoKeepsTidy(lots: map<string, seq<Lot>>, op: Op, tenant: string)
    requires Tidy(lots, tenant)
    ensures Tidy(Do(lots, op), tenant)
  {
    var items := ItemsOf(lots, tenant);
    match op
    case Add(p, lot, _) =>
    case Reserve(_, t, kind, want, _) =>
      if Takes(lots, op) && t == tenant {
        forall i: nat | i < |items| ensures Drained(items, kind, want)[i].tenant == tenant && Drained(items, kind, want)[i].grams >= 0 {
          assert items[i] in items;
          DrainedInOrder(items, kind, want, i);
        }
      }
    case Prune(before) =>
      if tenant in lots {
        KeptElements(items, before);
      }
  }

  lemma DoBalances(lots: map<string, seq<Lot>>, op: Op, tenant: string, kind: string, l: Ledger)
    requires Usable(ItemsOf(lots, tenant), kind) == l.added - l.reserved - l.pruned
    ensures var l' := Post(lots, op, tenant, kind, l);
      Usable(ItemsOf(Do(lots, op), tenant), kind) == l'.added - l'.reserved - l'.pruned
  {
    var items := ItemsOf(lots, tenant);
    match op
    case Add(p, lot, _) => SumSnoc(UsableOf(kind), items, lot.(tenant := p.tenant));
    case Reserve(_, t, k, want, _) =>
      if Takes(lots, op) && t == tenant {
        DrainedUsable(items, k, want, kind, |items|);
        assert Drained(items, k, want)[..|items|] == Drained(items, k, want) && items[..|items|] == items;
      }
    case Prune(before) => PruneSplits(items, before, kind);
  }

  /** Over any history, for each tenant and kind: usable grams added are what is
      available plus what was reserved plus what was pruned; ids stay unique. */
  lemma {:induction false} Conservation(ops: seq<Op>, tenant: string, kind: string)
    ensures var (lots, l) := History(ops, tenant, kind);
      && l.added == BalanceOf(ItemsOf(lots, tenant), kind).available + l.reserved + l.pruned
      && Tidy(lots, tenant)
  {
    if ops != [] {
      Conservation(ops[..|ops| - 1], tenant, kind);
      var (lots, l) := History(ops[..|ops| - 1], tenant, kind);
      DoBalances(lots, ops[|ops| - 1], tenant, kind, l);
      DoKeepsTidy(lots, ops[|ops| - 1], tenant);
    }
  }

  /** Incoming grams are accepted or rejected, and on a tidy list what is rejected
      is the grams of lots graded so. */
  lemma {:induction false} IncomingSplits(items: seq<Lot>, kind: string)
    requires forall l | l in items :: l.grams >= 0
    ensures var b := BalanceOf(items, kind);
      b.incoming == b.accepted + b.rejected
      && b.rejected == Sum((l: Lot) => if l.kind == kind && l.grade == Reject then l.grams else 0, items)
  {
    if items != [] {
      IncomingSplits(items[..|items| - 1], kind);
    }
  }
}
