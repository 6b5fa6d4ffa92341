/** The notification queue: claiming the earliest ready message and completing it. */
module Notification {
  import opened Common
  import opened Runs
  import opened Sorting
  import opened Backoff
  import opened Words

  datatype Channel = Email | Webhook | Pager | OtherChannel(name: string)

  datatype Status = Queued | Sending | Sent | Failed

  datatype Message = Message(id: string, tenant: string, subject: string, body: string, channel: Channel,
                             status: Status, attempts: int, next: int, created: int)
  {
    predicate Ready(now: int) { status == Queued || (status == Failed && next <= now) }

    predicate Valid() {
      id != "" && tenant != "" && !Blank(subject) && !Blank(body) && !channel.OtherChannel?
    }
  }

  type Items = map<string, Message>

  /** Earliest attempt first, then by id. */
  predicate Before(a: Message, b: Message) {
    a.next < b.next || (a.next == b.next && StringLe(a.id, b.id))
  }

  lemma BeforePreorder()
    ensures Preorder(Before)
  {
    StringPreorder();
    forall a: Message, b: Message ensures Before(a, b) || Before(b, a) {
      StringLeTotal(a.id, b.id);
    }
  }

  ghost predicate Keyed(items: Items) { forall k | k in items :: items[k].id == k }

  /** The message a claim must return: ready, and before every other ready one. */
  ghost predicate IsLeast(items: Items, now: int, id: string) {
    && id in items && items[id].Ready(now)
    && forall k | k in items && items[k].Ready(now) :: Before(items[id], items[k])
  }

  /** There is only one such message, so the map's order cannot matter. */
  lemma LeastIsUnique(items: Items, now: int, a: string, b: string)
    requires Keyed(items) && IsLeast(items, now, a) && IsLeast(items, now, b)
    ensures a == b
  {
    StringLeTotal(a, b);
  }

  /** In claim order the first ready message is the least one. */
  lemma FirstIsLeast(items: Items, all: seq<Message>, now: int, i: nat)
    requires Keyed(items) && Sorted(Before, all) && forall m :: m in all <==> m.id in items && items[m.id] == m
    requires i < |all| && all[i].Ready(now) && forall j | 0 <= j < i :: !all[j].Ready(now)
    ensures IsLeast(items, now, all[i].id)
  {
    assert all[i] in all;
    forall k | k in items && items[k].Ready(now) ensures Before(all[i], items[k]) {
      assert items[k] in all;
      StringLeTotal(k, k);
    }
  }

  function Claimed(m: Message): Message { m.(status := Sending, attempts := m.attempts + 1) }

  function Completed(m: Message, ok: bool, now: int): Message {
    if ok then m.(status := Sent) else m.(status := Failed, next := now + DelayOf(m.attempts))
  }

  function Enqueued(m: Message, tenant: string, now: int): Message {
    m.(tenant := tenant, status := Queued, created := now, next := now)
  }

  class NotificationService {
    var items: Items

    ghost predicate Valid()
      reads this
    {
      Keyed(items)
    }

    constructor ()
      ensures Valid() && items == map[]
    {
      items := map[];
    }

    method Queue(p: Principal, m: Message, now: int, cancelled: bool) returns (r: Result<()>)
      requires Valid()
      modifies this
      ensures Valid()
      ensures r == if cancelled then Failure(Unavailable)
                   else if !m.(tenant := p.tenant).Valid() then Failure(Invalid)
                   else if m.id in old(items) then Failure(Conflict)
                   else Success(())
      ensures r.Success? <==>
        && !cancelled && m.id != "" && p.tenant != "" && !Blank(m.subject) && !Blank(m.body)
        && (m.channel == Email || m.channel == Webhook || m.channel == Pager) && m.id !in old(items)
      ensures items == if r.Success? then old(items)[m.id := Enqueued(m, p.tenant, now)] else old(items)
      ensures r.Success? ==>
        items == old(items)[m.id := m.(tenant := p.tenant, status := Queued, created := now, next := now)]
    {
      if cancelled {
        return Failure(Unavailable);
      }
      var own := m.(tenant := p.tenant);
      if !own.Valid() {
        return Failure(Invalid);
      }
      if own.id in items {
        return Failure(Conflict);
      }
      items := items[own.id := own.(status := Queued, created := now, next := now)];
      r := Success(());
    }

    /** Collects the messages in some map order, sorts them and takes the first ready one. */
    method Claim(now: int, cancelled: bool) returns (found: Option<Message>)
      requires Valid()
      modifies this
      ensures Valid()
      ensures found.None? <==> cancelled || forall k | k in old(items) :: !old(items)[k].Ready(now)
      ensures found.None? ==> items == old(items)
      ensures found.Some? ==>
        var id := found.value.id;
        IsLeast(old(items), now, id) && found.value == Claimed(old(items)[id]) && items == old(items)[id := found.value]
      ensures found.None? <==> cancelled || forall k | k in old(items) ::
        !(old(items)[k].status == Queued || (old(items)[k].status == Failed && old(items)[k].next <= now))
      ensures found.Some? ==> found.value.id in old(items) && var m := old(items)[found.value.id];
        && (m.status == Queued || (m.status == Failed && m.next <= now))
        && found.value == m.(status := Sending, attempts := m.attempts + 1)
        && forall k | k in old(items) && (old(items)[k].status == Queued || (old(items)[k].status == Failed && old(items)[k].next <= now)) ::
             m.next < old(items)[k].next || (m.next == old(items)[k].next && StringLe(m.id, k))
    {
      if cancelled {
        return None;
      }
      var all := Ordered();
      for i := 0 to |all|
        invariant forall j | 0 <= j < i :: !all[j].Ready(now)
      {
        var m := all[i];
        if m.Ready(now) {
          FirstIsLeast(items, all, now, i);
          var claimed := m.(status := Sending, attempts := m.attempts + 1);
          items := items[m.id := claimed];
          return Some(claimed);
        }
      }
      assert forall k | k in items :: items[k] in all;
      found := None;
    }

    /** Every message, in claim order. */
    method Ordered() returns (all: seq<Message>)
      requires Valid()
      ensures Sorted(Before, all) && forall m :: m in all <==> m.id in items && items[m.id] == m
    {
      var found := Collect();
      BeforePreorder();
      StableSortCorrect(Before, found);
      all := SortStable(Before, found);
      assert forall m :: m in all <==> m in multiset(all);
    }

    method Collect() returns (all: seq<Message>)
      requires Valid()
      ensures forall m :: m in all <==> m.id in items && items[m.id] == m
    {
      all := [];
      var todo := items.Keys;
      while todo != {}
        invariant todo <= items.Keys
        invariant forall m :: m in all <==> m.id in items && m.id !in todo && items[m.id] == m
        decreases |todo|
      {
        var id :| id in todo;
        todo := todo - {id};
        all := all + [items[id]];
      }
    }

    method Complete(id: string, ok: bool, now: int, cancelled: bool) returns (r: Result<()>)
      requires Valid()
      modifies this
      ensures Valid()
      ensures r == if cancelled then Failure(Unavailable) else if id !in old(items) then Failure(NotFound) else Success(())
      ensures items == if r.Success? then old(items)[id := Completed(old(items)[id], ok, now)] else old(items)
      ensures r.Success? && ok ==> items == old(items)[id := old(items)[id].(status := Sent)]
      ensures r.Success? && !ok && 1 <= old(items)[id].attempts <= 34 ==> var m := old(items)[id];
        items == old(items)[id := m.(status := Failed, next := now + Pow2(m.attempts - 1) * 1_000_000_000)]
    {
      if cancelled {
        return Failure(Unavailable);
      }
      if id !in items {
        return Failure(NotFound);
      }
      var m := items[id];
      if ok {
        m := m.(status := Sent);
      } else {
        var seconds := Seconds(m.attempts);
        m := m.(status := Failed, next := now + Wrap(seconds * SECOND));
      }
      FailedMessageIsDue(items[id], now);
      items := items[id := m];
      r := Success(());
    }
  }

  // ------------------------------------------------------------- runs

  datatype Op =
    | DoQueue(m: Message, tenant: string, now: int)
    | DoClaim(id: string, now: int)
    | DoComplete(id: string, ok: bool, now: int)

  /** An operation that takes effect, with the message it claims. */
  ghost predicate Enabled(items: Items, op: Op) {
    match op
    case DoQueue(m, tenant, _) => m.(tenant := tenant).Valid() && m.id !in items
    case DoClaim(id, now) => IsLeast(items, now, id)
    case DoComplete(id, _, _) => id in items
  }

  ghost function Do(items: Items, op: Op): Items {
    if !Enabled(items, op) then items else
      match op
      case DoQueue(m, tenant, now) => items[m.id := Enqueued(m, tenant, now)]
      case DoClaim(id, _) => items[id := Claimed(items[id])]
      case DoComplete(id, ok, now) => items[id := Completed(items[id], ok, now)]
  }

  ghost function Run(items: Items, ops: seq<Op>): Items { Fold(Do, items, ops) }

  /** The claims of one message that took effect. */
  ghost function Claims(items: Items, ops: seq<Op>, id: string): nat {
    if ops == [] then 0 else
      var last, front := ops[|ops| - 1], ops[..|ops| - 1];
      Claims(items, front, id) + if last.DoClaim? && last.id == id && Enabled(Run(items, front), last) then 1 else 0
  }

  /** A queued message's attempts grow by exactly its claims. */
  lemma {:induction false} AttemptsCountClaims(items: Items, ops: seq<Op>, id: string)
    requires id in items
    ensures id in Run(items, ops) && Run(items, ops)[id].attempts == items[id].attempts + Claims(items, ops, id)
  {
    if ops != [] {
      AttemptsCountClaims(items, ops[..|ops| - 1], id);
    }
  }

  /** After a claim, and until a completion of it, a message cannot be claimed again. */
  lemma {:induction false} NoSecondClaim(items: Items, claim: Op, ops: seq<Op>)
    requires claim.DoClaim? && Enabled(items, claim)
    requires forall i | 0 <= i < |ops| :: !(ops[i].DoComplete? && ops[i].id == claim.id)
    ensures var now := Run(Do(items, claim), ops);
      claim.id in now && now[claim.id] == Claimed(items[claim.id]) && Claims(Do(items, claim), ops, claim.id) == 0
  {
    if ops != [] {
      NoSecondClaim(items, claim, ops[..|ops| - 1]);
    }
  }

  /** A failed message is next due after 2^(attempts-1) seconds, a second if it was
      never claimed, as long as it has been claimed at most 34 times; its 35th
      failure makes it due at once. */
  lemma FailedMessageIsDue(m: Message, now: int)
    ensures var seconds := if m.attempts < 1 then 1 else Pow2(m.attempts - 1);
      Completed(m, false, now).next == now + seconds * SECOND <==> m.attempts <= 34
    ensures m.attempts == 35 ==> Completed(m, false, now).Ready(now)
  {
    if m.attempts >= 1 {
      DelayExactIff(m.attempts);
    }
    Attempt35IsDueAtOnce();
  }

  /** The back-off is kept: a message that failed after k claims, at most 34, is
      claimed by nobody within 2^(k-1) seconds, until it is completed anew. */
  lemma FailedMessageWaits(items: Items, id: string, t: int, ops: seq<Op>, now: int)
    requires id in items && 1 <= items[id].attempts <= 34
    requires forall i | 0 <= i < |ops| :: !(ops[i].DoComplete? && ops[i].id == id)
    requires now < t + Pow2(items[id].attempts - 1) * 1_000_000_000
    ensures var held := Run(Do(items, DoComplete(id, false, t)), ops); Do(held, DoClaim(id, now)) == held
  {
    FailedMessageIsDue(items[id], t);
    FailedStays(Do(items, DoComplete(id, false, t)), ops, id);
  }

  /** Short of a completion a failed message keeps its time, and is never queued again. */
  lemma {:induction false} FailedStays(items: Items, ops: seq<Op>, id: string)
    requires id in items && items[id].status in {Failed, Sending}
    requires forall i | 0 <= i < |ops| :: !(ops[i].DoComplete? && ops[i].id == id)
    ensures var held := Run(items, ops);
      id in held && held[id].status in {Failed, Sending} && held[id].next == items[id].next
  {
    if ops != [] {
      FailedStays(items, ops[..|ops| - 1], id);
      var last := ops[|ops| - 1];
      assert !(last.DoComplete? && last.id == id);
    }
  }
}
