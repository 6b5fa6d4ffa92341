/** The blocking queue: a mutex guards the items and the closed flag, and a
    one-slot channel carries wakeups. Each locked section and each channel
    operation is one atomic step. */
module WaitQueue {
  import opened Common
  import opened Runs

  // ------------------------------------------------------------- the protocol

  /** Where a consumer is: outside Pop, about to lock, or blocked on the channel. */
  datatype Consumer = Outside | Checking | Waiting

  /** The shared queue and its callers: the consumers, the closers between their
      locked section and their notification, and whether any closer has finished;
      and what has been accepted and popped so far. */
  datatype System<T> = System(items: seq<T>, closed: bool, token: bool,
                              consumers: map<nat, Consumer>, closing: set<nat>, finished: bool,
                              accepted: seq<T>, popped: seq<T>)

  datatype Step<T> =
    | Push(v: T)
    | Enter(c: nat)
    | Check(c: nat)
    | Wake(c: nat)
    | Cancel(c: nat)
    | SetClosed(k: nat)
    | CloseNotify(k: nat)

  function At<T>(s: System<T>, c: nat): Consumer {
    if c in s.consumers then s.consumers[c] else Outside
  }

  function Do<T>(s: System<T>, step: Step<T>): System<T> {
    match step
    case Push(v) =>
      if s.closed then s else s.(items := s.items + [v], token := true, accepted := s.accepted + [v])
    case Enter(c) =>
      if At(s, c).Outside? then s.(consumers := s.consumers[c := Checking]) else s
    case Check(c) =>
      if !At(s, c).Checking? then s
      else if s.items != [] then
        s.(items := s.items[1..], popped := s.popped + [s.items[0]], consumers := s.consumers[c := Outside])
      else s.(consumers := s.consumers[c := if s.closed then Outside else Waiting])
    case Wake(c) =>
      if At(s, c).Waiting? && s.token then s.(token := false, consumers := s.consumers[c := Checking]) else s
    case Cancel(c) =>
      if At(s, c).Waiting? then s.(consumers := s.consumers[c := Outside]) else s
    case SetClosed(k) => s.(closed := true, closing := s.closing + {k})
    case CloseNotify(k) => if k in s.closing then s.(token := true, closing := s.closing - {k}, finished := true) else s
  }

  ghost function Run<T>(s: System<T>, steps: seq<Step<T>>): System<T> { Fold(Do, s, steps) }

  function Init<T>(): System<T> { System([], false, false, map[], {}, false, [], []) }

  // ------------------------------------------------------------- the sections

  /** The object itself. Each method is one atomic section, shown to be the
      protocol's step by a ghost system `s` that the object is a picture of. */
  class Queue<T> {
    var items: seq<T>
    var closed: bool
    var token: bool

    ghost predicate Shows(s: System<T>)
      reads this
    {
      s.items == items && s.closed == closed && s.token == token
    }

    constructor ()
      ensures Shows(Init())
    {
      items, closed, token := [], false, false;
    }

    /** A non-blocking send: the slot holds at most one token. */
    method Notify()
      modifies this`token
      ensures token
    {
      if !token {
        token := true;
      }
    }

    method Push(v: T, ghost s: System<T>) returns (accepted: bool)
      requires Shows(s)
      modifies this
      ensures Shows(Do(s, Step.Push(v)))
      ensures accepted == !old(closed) && closed == old(closed)
      ensures accepted ==> items == old(items) + [v] && token
      ensures !accepted ==> items == old(items) && token == old(token)
    {
      if closed {
        return false;
      }
      items := items + [v];
      Notify();
      accepted := true;
    }

    /** The locked section of Pop: an item, or the closed flag that decides whether to wait. */
    method Take(ghost s: System<T>, ghost c: nat) returns (v: Option<T>, wasClosed: bool)
      requires Shows(s) && At(s, c).Checking?
      modifies this`items
      ensures Shows(Do(s, Check(c)))
      ensures wasClosed == closed
      ensures old(items) != [] ==> v == Some(old(items)[0]) && items == old(items)[1..]
      ensures old(items) == [] ==> v == None && items == []
      ensures Do(s, Check(c)).popped == s.popped + if v.Some? then [v.value] else []
      ensures At(Do(s, Check(c)), c) == if v.Some? || wasClosed then Outside else Waiting
    {
      wasClosed := closed;
      if |items| > 0 {
        v := Some(items[0]);
        items := items[1..];
      } else {
        v := None;
      }
    }

    /** The blocked receive of Pop, which proceeds only if the slot holds a token. */
    method Receive(ghost s: System<T>, ghost c: nat) returns (woken: bool)
      requires Shows(s) && At(s, c).Waiting?
      modifies this`token
      ensures Shows(Do(s, Wake(c))) && (At(Do(s, Wake(c)), c) == if woken then Checking else Waiting)
      ensures woken == old(token) && !token
    {
      woken := token;
      token := false;
    }

    /** The locked section of Close. */
    method MarkClosed(ghost s: System<T>, ghost k: nat)
      requires Shows(s)
      modifies this`closed
      ensures Shows(Do(s, SetClosed(k))) && closed
    {
      closed := true;
    }

    /** The notification that ends Close, after the lock is released. */
    method FinishClose(ghost s: System<T>, ghost k: nat)
      requires Shows(s) && k in s.closing
      modifies this`token
      ensures Shows(Do(s, CloseNotify(k))) && token
    {
      Notify();
    }
  }

  // ------------------------------------------------------------- its guarantees

  /** Nothing is lost, duplicated or reordered, for any number of consumers. */
  lemma {:induction false} FifoDelivery<T>(s: System<T>, steps: seq<Step<T>>)
    requires s.popped + s.items == s.accepted
    ensures Run(s, steps).popped + Run(s, steps).items == Run(s, steps).accepted
  {
    if steps != [] {
      FifoDelivery(s, steps[..|steps| - 1]);
      var mid, last := Run(s, steps[..|steps| - 1]), steps[|steps| - 1];
      if last.Push? {
        assert mid.popped + (mid.items + [last.v]) == (mid.popped + mid.items) + [last.v];
      } else if last.Check? && mid.items != [] {
        assert (mid.popped + [mid.items[0]]) + mid.items[1..] == mid.popped + mid.items;
      }
    }
  }

  /** The queue is closed exactly while some closer is at work or has finished. */
  predicate Consistent<T>(s: System<T>) {
    s.closed <==> s.closing != {} || s.finished
  }

  /** Every accepted push and every finishing closer fills the slot, only a woken
      consumer empties it, and nothing else touches it. */
  lemma TokenAfter<T>(s: System<T>, step: Step<T>)
    ensures Do(s, step).token <==>
      || (step.Push? && !s.closed)
      || (step.CloseNotify? && step.k in s.closing)
      || (s.token && !(step.Wake? && At(s, step.c) == Waiting))
  {
  }

  /** After an accepted push, whatever was in the queue and however many consumers
      there are, each blocked one can wake at once and, looking next, takes an item. */
  lemma PushWakes<T>(s: System<T>, v: T, c: nat)
    requires !s.closed && At(s, c) == Waiting
    ensures var pushed := Do(s, Push(v)); var woken := Do(pushed, Wake(c));
      && pushed.items == s.items + [v] && pushed.token
      && At(woken, c) == Checking && !woken.token
      && Do(woken, Check(c)).popped == s.popped + [(s.items + [v])[0]]
      && Do(woken, Check(c)).items == (s.items + [v])[1..]
  {
  }

  /** Two consumers blocked and two pushes, the second after the first has woken
      one of them: both items are delivered. */
  lemma SecondPushWakesToo<T>(a: T, b: T) returns (steps: seq<Step<T>>)
    ensures steps == [Enter(0), Check(0), Enter(1), Check(1), Push(a), Wake(0), Push(b), Check(0), Wake(1), Check(1)]
    ensures Run(Init(), steps).popped == [a, b] && Run(Init(), steps).items == []
  {
    steps := TwoBlocked();
    steps := Then(Do, Init(), steps, Push(a));
    steps := Then(Do, Init(), steps, Wake(0));
    steps := Then(Do, Init(), steps, Push(b));
    steps := Then(Do, Init(), steps, Check(0));
    assert Run(Init(), steps).popped == [a] && Run(Init(), steps).items == [b];
    steps := Then(Do, Init(), steps, Wake(1));
    steps := Then(Do, Init(), steps, Check(1));
  }

  /** Something a blocked consumer should be woken for: an item, or a closer that has finished. */
  predicate Wanted<T>(s: System<T>) {
    s.items != [] || s.finished
  }

  ghost predicate Blocked<T>(s: System<T>) { exists c :: At(s, c) == Waiting }

  /** A wakeup is on its way: a token, or a consumer about to look. */
  ghost predicate Awake<T>(s: System<T>) { s.token || exists c :: At(s, c) == Checking }

  ghost predicate NoLostWakeup<T>(s: System<T>) { Blocked(s) && Wanted(s) ==> Awake(s) }

  /** Only one consumer ever calls Pop. */
  ghost predicate Solo<T>(s: System<T>, me: nat) { forall c | c != me :: At(s, c) == Outside }

  predicate Admits<T>(step: Step<T>, me: nat) {
    match step
    case Enter(c) => c == me
    case _ => true
  }

  /** With one consumer no wakeup is lost: while it waits and there is an item, or
      one closer has finished, whatever other closers do, the slot holds a token. */
  lemma {:induction false} SoloConsumerIsWoken<T>(s: System<T>, steps: seq<Step<T>>, me: nat)
    requires Consistent(s) && Solo(s, me) && (At(s, me).Waiting? && Wanted(s) ==> s.token)
    requires forall i | 0 <= i < |steps| :: Admits(steps[i], me)
    ensures Consistent(Run(s, steps)) && Solo(Run(s, steps), me)
    ensures At(Run(s, steps), me).Waiting? && Wanted(Run(s, steps)) ==> Run(s, steps).token
    ensures At(Run(s, steps), me).Waiting? && Run(s, steps).closed && Run(s, steps).closing == {} ==> Run(s, steps).token
  {
    if steps != [] {
      SoloConsumerIsWoken(s, steps[..|steps| - 1], me);
      var mid, last := Run(s, steps[..|steps| - 1]), steps[|steps| - 1];
      assert Admits(last, me);
      forall c | c != me ensures At(Do(mid, last), c) == Outside {
        assert At(mid, c) == Outside;
      }
    }
  }

  /** For any number of consumers, exactly one kind of step can lose a wakeup: the
      last consumer awake leaves, without a token in the slot, while another is
      still blocked and there is still something to wake it for. */
  lemma WakeupLostIff<T>(s: System<T>, step: Step<T>)
    requires Consistent(s) && NoLostWakeup(s)
    ensures Consistent(Do(s, step))
    ensures !NoLostWakeup(Do(s, step)) <==>
      && step.Check? && At(s, step.c).Checking?
      && !s.token && Blocked(s) && (forall c | c != step.c :: At(s, c) != Checking)
      && (|s.items| > 1 || s.finished)
  {
    var s' := Do(s, step);
    assert forall c :: At(s', c) == At(s, c) || Moves(step, c);
  }

  predicate Moves<T>(step: Step<T>, c: nat) {
    (step.Enter? || step.Check? || step.Wake? || step.Cancel?) && step.c == c
  }

  lemma TwoBlocked<T>() returns (steps: seq<Step<T>>)
    ensures steps == [Enter(0), Check(0), Enter(1), Check(1)]
    ensures Run(Init<T>(), steps) == System([], false, false, map[0 := Waiting, 1 := Waiting], {}, false, [], [])
  {
    steps := Then(Do, Init(), [], Enter(0));
    steps := Then(Do, Init(), steps, Check(0));
    steps := Then(Do, Init(), steps, Enter(1));
    steps := Then(Do, Init(), steps, Check(1));
  }

  /** Two consumers break it: two pushes leave one token, the consumer it wakes
      takes one item, and the other stays blocked beside the second. */
  lemma TwoConsumersLoseAWakeup<T>(a: T, b: T) returns (steps: seq<Step<T>>)
    ensures Run(Init(), steps) == System([b], false, false, map[0 := Outside, 1 := Waiting], {}, false, [a, b], [a])
    ensures !NoLostWakeup(Run(Init(), steps))
  {
    steps := TwoBlocked();
    steps := Then(Do, Init(), steps, Push(a));
    steps := Then(Do, Init(), steps, Push(b));
    steps := Then(Do, Init(), steps, Wake(0));
    steps := Then(Do, Init(), steps, Check(0));
    assert At(Run(Init(), steps), 1) == Waiting;
  }

  /** A consumer left behind by a finished close stays blocked until its context
      is cancelled or Close is called once more. */
  lemma {:induction false} LeftBehindByClose<T>(s: System<T>, steps: seq<Step<T>>, c: nat)
    requires s.closed && s.closing == {} && !s.token && At(s, c) == Waiting
    requires forall i | 0 <= i < |steps| :: !steps[i].SetClosed? && steps[i] != Cancel(c)
    ensures var s' := Run(s, steps); At(s', c) == Waiting && !s'.token && s'.closed && s'.closing == {}
  {
    if steps != [] {
      LeftBehindByClose(s, steps[..|steps| - 1], c);
      var last := steps[|steps| - 1];
      assert !last.SetClosed? && last != Cancel(c);
    }
  }

  lemma CloseLeavesOneBehind<T>() returns (steps: seq<Step<T>>)
    ensures Run(Init<T>(), steps) == System([], true, false, map[0 := Outside, 1 := Waiting], {}, true, [], [])
  {
    steps := TwoBlocked();
    steps := Then(Do, Init(), steps, SetClosed(0));
    steps := Then(Do, Init(), steps, CloseNotify(0));
    steps := Then(Do, Init(), steps, Wake(0));
    steps := Then(Do, Init(), steps, Check(0));
  }
}
