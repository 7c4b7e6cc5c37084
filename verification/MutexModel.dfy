/**
 The mutex of coroutines as functions on values: a queue whose front owns it, between `lock`, `suspend` and `wakeup`
 of one process. Any number of coroutines may use it, suspend for other reasons, and be interrupted when the process
 exits.
 */
module MutexModel {
  import opened Common

  predicate Distinct(q: seq<Co>) {
    forall i, j :: 0 <= i < j < |q| ==> q[i] != q[j]
  }

  // ----- removing a coroutine from a queue -----

  /** `std::remove`: what is left when every occurrence of `c` is taken out. */
  function Without(q: seq<Co>, c: Co): seq<Co> {
    if q == [] then [] else (if q[0] == c then [] else [q[0]]) + Without(q[1..], c)
  }

  lemma {:induction false} WithoutAbsent(q: seq<Co>, c: Co)
    requires c !in q
    ensures Without(q, c) == q
  {
    if q == [] {
    } else {
      WithoutAbsent(q[1..], c);
    }
  }

  /** In a queue without repetitions exactly one element goes, and the others keep their order. */
  lemma {:induction false} WithoutOne(q: seq<Co>, c: Co, i: nat)
    requires Distinct(q) && i < |q| && q[i] == c
    ensures Without(q, c) == q[..i] + q[i + 1..]
    ensures Distinct(Without(q, c)) && c !in Without(q, c)
    ensures forall d :: d != c ==> (d in Without(q, c) <==> d in q)
  {
    if i == 0 {
      WithoutAbsent(q[1..], c);
    } else {
      WithoutOne(q[1..], c, i - 1);
      assert q[..i] == [q[0]] + q[1..][..i - 1];
      assert q[i + 1..] == q[1..][i..];
    }
  }

  // ----- histories -----

  datatype Event = Got(co: Co) | Left(co: Co)

  /** Who holds the mutex after a history, or nothing if it was ever given to two or left by another. */
  ghost function Holder(log: seq<Event>): Option<Option<Co>> {
    if log == [] then Some(None)
    else
      var before := Holder(log[..|log| - 1]);
      match log[|log| - 1]
      case Got(co) => if before == Some(None) then Some(Some(co)) else None
      case Left(co) => if before == Some(Some(co)) then Some(None) else None
  }

  /** The coroutines that got the mutex, in order. */
  ghost function Grants(log: seq<Event>): seq<Co> {
    if log == [] then []
    else Grants(log[..|log| - 1]) + if log[|log| - 1].Got? then [log[|log| - 1].co] else []
  }

  lemma OneMore(log: seq<Event>, e: Event)
    ensures Grants(log + [e]) == Grants(log) + if e.Got? then [e.co] else []
    ensures e.Got? && Holder(log) == Some(None) ==> Holder(log + [e]) == Some(Some(e.co))
    ensures e.Left? && Holder(log) == Some(Some(e.co)) ==> Holder(log + [e]) == Some(None)
  {
    assert (log + [e])[..|log|] == log;
  }

  lemma {:induction false} HeldOrLeft(log: seq<Event>, i: nat)
    requires Holder(log) != None && i < |log| && log[i].Got?
    ensures Holder(log) == Some(Some(log[i].co)) || exists k :: i < k < |log| && log[k] == Left(log[i].co)
  {
    var last := |log| - 1;
    if i == last {
    } else {
      HeldOrLeft(log[..last], i);
      if k :| i < k < last && log[..last][k] == Left(log[i].co) {
        assert log[k] == Left(log[i].co);
      } else if log[last].Left? {
        assert log[last] == Left(log[i].co);
      }
    }
  }

  /** Whoever got the mutex left it before anybody got it again. */
  lemma {:induction false} Exclusive(log: seq<Event>, i: nat, j: nat)
    requires Holder(log) != None && i < j < |log| && log[i].Got? && log[j].Got?
    ensures exists k :: i < k < j && log[k] == Left(log[i].co)
  {
    var last := |log| - 1;
    if j == last {
      HeldOrLeft(log[..last], i);
      var k :| i < k < last && log[..last][k] == Left(log[i].co);
      assert log[k] == Left(log[i].co);
    } else {
      Exclusive(log[..last], i, j);
      var k :| i < k < j && log[..last][k] == Left(log[i].co);
      assert log[k] == Left(log[i].co);
    }
  }

  /** `a` is `b` with some elements taken out. */
  ghost predicate Within(a: seq<Co>, b: seq<Co>) {
    || a == []
    || (b != [] && Within(a, b[..|b| - 1]))
    || (b != [] && a[|a| - 1] == b[|b| - 1] && Within(a[..|a| - 1], b[..|b| - 1]))
  }

  lemma WithinOn(a: seq<Co>, b: seq<Co>, c: Co)
    requires Within(a, b)
    ensures Within(a + [c], b + [c])
  {
    assert (a + [c])[..|a|] == a && (b + [c])[..|b|] == b;
  }

  lemma {:induction false} WithinDrop(a: seq<Co>, b: seq<Co>, i: nat)
    requires Within(a, b) && i < |a|
    ensures Within(a[..i] + a[i + 1..], b)
  {
    var n, m := |a| - 1, |b| - 1;
    if Within(a, b[..m]) {
      WithinDrop(a, b[..m], i);
    } else if i == n {
      assert a[..i] + a[i + 1..] == a[..n];
      WithinMore(a[..n], b[..m], b[m]);
      assert b[..m] + [b[m]] == b;
    } else {
      WithinDrop(a[..n], b[..m], i);
      WithinOn(a[..n][..i] + a[..n][i + 1..], b[..m], a[n]);
      assert a[..n][..i] + a[..n][i + 1..] + [a[n]] == a[..i] + a[i + 1..];
      assert b[..m] + [b[m]] == b;
    }
  }

  lemma WithinMore(a: seq<Co>, b: seq<Co>, c: Co)
    requires Within(a, b)
    ensures Within(a, b + [c])
  {
    assert (b + [c])[..|b|] == b;
  }

  // ----- the state -----

  /**
   Histories: who owns the mutex, the coroutines that asked for it, those that gave up, and when it was got and left.
   `freed`: the coroutines that were destroyed. `dangling`: one was destroyed that
   is still suspended or in the queue, and nothing is said of what happens then.
   */
  datatype Past = Past(owner: Option<Co>, arrivals: seq<Co>, withdrawn: seq<Co>, log: seq<Event>, freed: set<Co>,
                       dangling: bool)

  /**
   The queue of the mutex; the suspended, woken and dead coroutines of the process; the coroutines to which an
   exception was delivered; and those that are inside the `suspend` of `lock`.
   */
  datatype State = State(queue: seq<Co>, suspended: set<Co>, woken: seq<Co>, zombies: seq<Co>, excepted: set<Co>,
                         waiting: set<Co>, past: Past)

  const INIT := State([], {}, [], [], {}, {}, Past(None, [], [], [], {}, false))

  /** How a resumed coroutine goes on: outside `lock`, or with `lock` returning or throwing. */
  datatype Outcome = Elsewhere | Acquired | Thrown

  // ----- the operations -----

  predicate IsRunning(s: State, co: Co) {
    co !in s.suspended && co !in s.woken && co !in s.past.freed
  }

  function Grant(s: State, co: Co): State {
    s.(past := s.past.(owner := Some(co), log := s.past.log + [Got(co)]))
  }

  function Arrive(s: State, co: Co): State {
    s.(queue := s.queue + [co], past := s.past.(arrivals := s.past.arrivals + [co]))
  }

  /** `suspend`; the process buries a coroutine that has an exception although it only yields. */
  function Suspend(s: State, co: Co): State {
    s.(suspended := s.suspended + {co}, zombies := if co in s.excepted then s.zombies + [co] else s.zombies)
  }

  function Wakeup(s: State, co: Co): State {
    if co in s.suspended then s.(suspended := s.suspended - {co}, woken := s.woken + [co]) else s
  }

  /** Gets the mutex at once if the queue is empty, and waits at its end otherwise. */
  function Lock(s: State, co: Co): State {
    if s.queue == [] then Grant(Arrive(s, co), co)
    else Suspend(Arrive(s, co), co).(waiting := s.waiting + {co})
  }

  function TryLock(s: State, co: Co): State {
    if s.queue == [] then Grant(Arrive(s, co), co) else s
  }

  /** The front leaves; the next in the queue is woken. */
  function Unlock(s: State, co: Co): State
    requires s.queue != []
  {
    var s1 := s.(queue := s.queue[1..], past := s.past.(owner := None, log := s.past.log + [Left(co)]));
    if s1.queue == [] then s1 else Wakeup(s1, s1.queue[0])
  }

  function OutcomeOf(s: State, co: Co): Outcome {
    if co !in s.waiting then Elsewhere else if co in s.excepted then Thrown else Acquired
  }

  /** A waiter gives up and leaves the queue. */
  function Withdraw(s: State, co: Co): State {
    s.(queue := Without(s.queue, co), waiting := s.waiting - {co},
      past := s.past.(withdrawn := s.past.withdrawn + [co]))
  }

  /** The next woken coroutine runs; if it was inside `lock`, that call returns with the mutex or throws. */
  function ResumeNext(s: State): State
    requires s.woken != []
  {
    var co, s1 := s.woken[0], s.(woken := s.woken[1..]);
    match OutcomeOf(s, co)
    case Elsewhere => s1
    case Thrown => Withdraw(s1, co)
    case Acquired => Grant(s1.(waiting := s1.waiting - {co}), co)
  }

  /** The process exits: the suspended coroutines are woken with an exception, in the order they are found in. */
  function Interrupt(s: State, order: seq<Co>): State {
    s.(suspended := {}, woken := s.woken + order, excepted := s.excepted + s.suspended)
  }

  /** The process destroys its zombies, once no coroutine is left to resume. */
  function Sweep(s: State): State {
    s.(zombies := [],
       past := s.past.(freed := s.past.freed + (set c | c in s.zombies),
                       dangling := exists c :: c in s.zombies && (c in s.suspended || c in s.queue)))
  }

  datatype Op = Locks(co: Co) | Tries(co: Co) | Unlocks(co: Co) | Suspends(co: Co) | Wakes(co: Co) | Fails(co: Co)
    | Resumes | Exits(order: seq<Co>) | Sweeps

  /**
   What can happen next. A coroutine does not lock what it owns, nor unlock what it does not; user code leaves the
   waiters of a mutex alone; an exception is delivered to a coroutine that is blocked, not to one that is suspended.
   */
  predicate Can(s: State, op: Op) {
    && !s.past.dangling
    && match op
       case Locks(co) => IsRunning(s, co) && s.past.owner != Some(co)
       case Tries(co) => IsRunning(s, co)
       case Unlocks(co) => IsRunning(s, co) && s.past.owner == Some(co) && s.queue != []
       case Suspends(co) => IsRunning(s, co)
       case Wakes(co) => co in s.suspended && co !in s.waiting
       case Fails(co) => IsRunning(s, co)
       case Resumes => s.woken != []
       case Exits(order) => multiset(order) == multiset(s.suspended)
       case Sweeps => s.woken == []
  }

  ghost function Step(s: State, op: Op): State {
    if !Can(s, op) then s
    else
      match op
      case Locks(co) => Lock(s, co)
      case Tries(co) => TryLock(s, co)
      case Unlocks(co) => Unlock(s, co)
      case Suspends(co) => Suspend(s, co)
      case Wakes(co) => Wakeup(s, co)
      case Fails(co) => s.(excepted := s.excepted + {co})
      case Resumes => ResumeNext(s)
      case Exits(order) => Interrupt(s, order)
      case Sweeps => Sweep(s)
  }

  /** Any run: what cannot happen is skipped. */
  ghost function Run(ops: seq<Op>): State {
    if ops == [] then INIT else Step(Run(ops[..|ops| - 1]), ops[|ops| - 1])
  }

  // ----- what every run keeps -----

  /** The queue and the owner: the owner is the front, and everybody else in the queue is inside `lock`. */
  ghost predicate QueueOk(s: State) {
    && Distinct(s.queue)
    && (s.past.owner.Some? ==> s.queue != [] && s.queue[0] == s.past.owner.value)
    && (forall c :: c in s.waiting <==> c in s.queue && s.past.owner != Some(c))
  }

  /** A waiter is either suspended or woken; woken without an exception, it is the front and nobody owns. */
  ghost predicate WaitersOk(s: State) {
    && Distinct(s.woken)
    && (forall c :: c in s.woken ==> c !in s.suspended)
    && (forall c :: c in s.waiting ==> c in s.suspended || c in s.woken)
    && (forall c :: c in s.waiting && c in s.woken && c !in s.excepted ==>
          s.past.owner == None && s.queue != [] && s.queue[0] == c)
  }

  /** Those that wait for their turn, behind the owner if there is one. */
  function Behind(s: State): seq<Co> {
    if s.past.owner.Some? && s.queue != [] then s.queue[1..] else s.queue
  }

  /** The coroutines that have got the mutex, and then those that will, in order. */
  ghost function Claims(s: State): seq<Co> {
    Grants(s.past.log) + Behind(s)
  }

  /** The mutex is granted in the order in which it was asked for, to all but those that gave up. */
  ghost predicate InOrder(s: State) {
    && Within(Claims(s), s.past.arrivals)
    && multiset(s.past.arrivals) == multiset(Claims(s)) + multiset(s.past.withdrawn)
  }

  ghost predicate Inv(s: State) {
    QueueOk(s) && WaitersOk(s) && InOrder(s) && Holder(s.past.log) == Some(s.past.owner)
  }

  /** The front is the owner or has been woken, all others are suspended. */
  ghost predicate HandedOver(s: State) {
    && (s.queue != [] ==> s.past.owner == Some(s.queue[0]) || s.queue[0] in s.woken)
    && (forall i :: 1 <= i < |s.queue| ==> s.queue[i] in s.suspended)
  }

  /** A waiter throws while others wait behind it, or the process exits while somebody waits behind the front. */
  ghost predicate Breaks(s: State, op: Op) {
    && Can(s, op) && |s.queue| > 1
    && (op.Exits? || (op.Resumes? && OutcomeOf(s, s.woken[0]) == Thrown))
  }

  // ----- each operation keeps it -----

  lemma GrantOrder(s: State, co: Co)
    requires InOrder(s) && Holder(s.past.log) == Some(None) && s.past.owner == None && s.queue == []
    ensures var s' := Grant(Arrive(s, co), co); InOrder(s') && Holder(s'.past.log) == Some(Some(co))
  {
    hide Within, Holder, Grants;
    OneMore(s.past.log, Got(co));
    var s' := Grant(Arrive(s, co), co);
    assert s'.queue == [co] && Claims(s) == Grants(s.past.log);
    assert Claims(s') == Claims(s) + [co];
    WithinOn(Claims(s), s.past.arrivals, co);
  }

  lemma GrantKeeps(s: State, co: Co)
    requires Inv(s) && s.queue == []
    ensures Inv(Grant(Arrive(s, co), co)) && HandedOver(Grant(Arrive(s, co), co))
  {
    hide InOrder, Holder, Grants;
    assert s.past.owner == None && forall c :: c !in s.waiting;
    GrantOrder(s, co);
  }

  lemma WaitKeeps(s: State, co: Co)
    requires Inv(s) && IsRunning(s, co) && s.past.owner != Some(co) && s.queue != []
    ensures Inv(Lock(s, co)) && s.queue[0] != co && (HandedOver(s) ==> HandedOver(Lock(s, co)))
  {
    hide InOrder, Holder, Grants;
    assert co !in s.waiting && co !in s.queue;
    WaitOrder(s, co);
  }

  lemma WaitOrder(s: State, co: Co)
    requires InOrder(s) && s.queue != []
    ensures InOrder(Lock(s, co))
  {
    hide Within, Grants;
    assert Behind(Lock(s, co)) == Behind(s) + [co];
    assert Claims(Lock(s, co)) == Claims(s) + [co];
    WithinOn(Claims(s), s.past.arrivals, co);
  }

  /** A coroutine that runs owns the mutex exactly if it is the front of the queue. */
  lemma OwnerIsFront(s: State, co: Co)
    requires Inv(s) && IsRunning(s, co)
    ensures s.past.owner == Some(co) <==> s.queue != [] && s.queue[0] == co
  {
    if s.queue != [] && s.queue[0] == co {
      assert co !in s.waiting;
    }
  }

  lemma UnlockOrder(s: State, co: Co)
    requires InOrder(s) && Holder(s.past.log) == Some(Some(co)) && s.past.owner == Some(co) && s.queue != []
    ensures InOrder(Unlock(s, co)) && Holder(Unlock(s, co).past.log) == Some(None)
  {
    hide Within, Holder, Grants;
    OneMore(s.past.log, Left(co));
    assert Claims(Unlock(s, co)) == Claims(s);
  }

  lemma UnlockKeeps(s: State, co: Co)
    requires Inv(s) && IsRunning(s, co) && s.past.owner == Some(co)
    ensures s.queue != [] && s.queue[0] == co && Inv(Unlock(s, co)) && (HandedOver(s) ==> HandedOver(Unlock(s, co)))
  {
    hide InOrder, Holder, Grants;
    UnlockOrder(s, co);
    var s' := Unlock(s, co);
    assert s.queue == [co] + s.queue[1..];
    assert forall c :: c in s.waiting <==> c in s.queue[1..];
  }

  lemma AcquireOrder(s: State)
    requires InOrder(s) && Holder(s.past.log) == Some(None) && s.past.owner == None && s.woken != [] && s.queue != []
    requires s.queue[0] == s.woken[0] && OutcomeOf(s, s.woken[0]) == Acquired
    ensures InOrder(ResumeNext(s)) && Holder(ResumeNext(s).past.log) == Some(Some(s.woken[0]))
  {
    hide Within, Holder, Grants;
    OneMore(s.past.log, Got(s.woken[0]));
    FrontFirst(Grants(s.past.log), s.queue);
    var s' := ResumeNext(s);
    assert Claims(s') == Grants(s.past.log) + [s.queue[0]] + s.queue[1..];
  }

  lemma FrontFirst(a: seq<Co>, q: seq<Co>)
    requires q != []
    ensures a + [q[0]] + q[1..] == a + q
  {
  }

  lemma AcquireKeeps(s: State)
    requires Inv(s) && s.woken != [] && OutcomeOf(s, s.woken[0]) == Acquired
    ensures s.past.owner == None && s.queue != [] && s.queue[0] == s.woken[0]
    ensures Inv(ResumeNext(s)) && (HandedOver(s) ==> HandedOver(ResumeNext(s)))
  {
    hide InOrder, Holder, Grants;
    AcquireOrder(s);
    assert forall c :: c in s.woken <==> c == s.woken[0] || c in s.woken[1..];
  }

  lemma ThrowQueue(s: State, co: Co)
    requires QueueOk(s) && co in s.waiting
    ensures QueueOk(Withdraw(s, co)) && |Without(s.queue, co)| == |s.queue| - 1
    ensures s.queue != [] && (s.queue[0] != co ==> Without(s.queue, co) != [] && Without(s.queue, co)[0] == s.queue[0])
    ensures s.queue[0] == co ==> Without(s.queue, co) == s.queue[1..]
  {
    hide Without;
    var i :| 0 <= i < |s.queue| && s.queue[i] == co;
    WithoutOne(s.queue, co, i);
  }

  lemma ThrowBehind(s: State, co: Co) returns (k: nat)
    requires QueueOk(s) && co in s.waiting
    ensures k < |Behind(s)| && Behind(s)[k] == co && Behind(Withdraw(s, co)) == Behind(s)[..k] + Behind(s)[k + 1..]
  {
    hide Without;
    var i :| 0 <= i < |s.queue| && s.queue[i] == co;
    WithoutOne(s.queue, co, i);
    k := i;
    if s.past.owner.Some? {
      DropAfter(s.queue, i);
      k := i - 1;
    }
  }

  lemma ThrowOrder(s: State, co: Co)
    requires QueueOk(s) && InOrder(s) && co in s.waiting
    ensures InOrder(Withdraw(s, co))
  {
    hide Within, Grants, QueueOk, Behind, Without;
    var k := ThrowBehind(s, co);
    DropBehind(Grants(s.past.log), Behind(s), k);
    var n := |Grants(s.past.log)| + k;
    assert Claims(s)[n] == co;
    OneGivesUp(Claims(s), s.past.arrivals, s.past.withdrawn, n);
  }

  lemma OneGivesUp(claims: seq<Co>, arrivals: seq<Co>, withdrawn: seq<Co>, n: nat)
    requires n < |claims| && Within(claims, arrivals) && multiset(arrivals) == multiset(claims) + multiset(withdrawn)
    ensures Within(claims[..n] + claims[n + 1..], arrivals)
    ensures multiset(arrivals) == multiset(claims[..n] + claims[n + 1..]) + multiset(withdrawn + [claims[n]])
  {
    hide Within;
    WithinDrop(claims, arrivals, n);
    OneOut(claims, n);
  }

  lemma OneOut(q: seq<Co>, n: nat)
    requires n < |q|
    ensures multiset(q) == multiset(q[..n] + q[n + 1..]) + multiset{q[n]}
  {
    assert q == q[..n] + [q[n]] + q[n + 1..];
  }

  lemma DropAfter(q: seq<Co>, i: nat)
    requires 0 < i < |q|
    ensures (q[..i] + q[i + 1..])[1..] == q[1..][..i - 1] + q[1..][i..]
  {
  }

  lemma DropBehind(a: seq<Co>, b: seq<Co>, k: nat)
    requires k < |b|
    ensures a + (b[..k] + b[k + 1..]) == (a + b)[..|a| + k] + (a + b)[|a| + k + 1..]
  {
  }

  lemma ThrowWaiters(s: State)
    requires QueueOk(s) && WaitersOk(s) && s.woken != [] && OutcomeOf(s, s.woken[0]) == Thrown
    ensures WaitersOk(ResumeNext(s))
  {
    hide Without;
    ThrowQueue(s, s.woken[0]);
    assert forall c :: c in s.woken <==> c == s.woken[0] || c in s.woken[1..];
  }

  /** A waiter that throws leaves the queue. If it was handed the mutex and others wait, none of them is woken. */
  lemma ThrowHands(s: State)
    requires QueueOk(s) && WaitersOk(s) && s.woken != [] && OutcomeOf(s, s.woken[0]) == Thrown && HandedOver(s)
    ensures HandedOver(ResumeNext(s)) <==> |s.queue| == 1
  {
    hide Without;
    var co := s.woken[0];
    ThrowQueue(s, co);
    var i :| 0 <= i < |s.queue| && s.queue[i] == co;
    assert i == 0;
    var s' := ResumeNext(s);
    if |s.queue| > 1 {
      assert s.queue[1] in s.suspended;
    }
  }

  lemma ThrowKeeps(s: State)
    requires Inv(s) && s.woken != [] && OutcomeOf(s, s.woken[0]) == Thrown
    ensures Inv(ResumeNext(s)) && |ResumeNext(s).queue| == |s.queue| - 1
    ensures HandedOver(s) ==> (HandedOver(ResumeNext(s)) <==> |s.queue| == 1)
  {
    hide InOrder, WaitersOk, HandedOver, Holder, Without;
    var co := s.woken[0];
    ThrowQueue(s, co);
    ThrowWaiters(s);
    ThrowOrder(s, co);
    OrderFrame(Withdraw(s, co), ResumeNext(s));
    if HandedOver(s) {
      ThrowHands(s);
    }
  }

  lemma OrderFrame(s: State, s': State)
    requires InOrder(s) && s'.queue == s.queue && s'.past == s.past
    ensures InOrder(s')
  {
  }

  lemma ElsewhereKeeps(s: State)
    requires Inv(s) && s.woken != [] && OutcomeOf(s, s.woken[0]) == Elsewhere
    ensures Inv(ResumeNext(s)) && (HandedOver(s) ==> HandedOver(ResumeNext(s)))
  {
    assert forall c :: c in s.woken <==> c == s.woken[0] || c in s.woken[1..];
  }

  lemma InterruptKeeps(s: State, order: seq<Co>)
    requires Inv(s) && multiset(order) == multiset(s.suspended)
    ensures Inv(Interrupt(s, order)) && (HandedOver(s) ==> (HandedOver(Interrupt(s, order)) <==> |s.queue| <= 1))
  {
    hide InOrder, Holder;
    var s' := Interrupt(s, order);
    OrderFrame(s, s');
    assert forall c :: c in order <==> c in multiset(order);
    assert forall c :: c in multiset(s.suspended) <==> c in s.suspended;
    forall i, j | 0 <= i < j < |s'.woken|
      ensures s'.woken[i] != s'.woken[j]
    {
      if i < |s.woken| <= j {
        assert s.woken[i] in s.woken && order[j - |s.woken|] in order;
      } else if |s.woken| <= i {
        NoTwice(order, s.suspended, i - |s.woken|, j - |s.woken|);
      }
    }
    assert HandedOver(s) && |s.queue| > 1 ==> s.queue[1] !in s'.suspended;
  }

  lemma NoTwice(order: seq<Co>, cs: set<Co>, i: nat, j: nat)
    requires multiset(order) == multiset(cs) && i < j < |order|
    ensures order[i] != order[j]
  {
    assert order == order[..i] + [order[i]] + order[i + 1..j] + [order[j]] + order[j + 1..];
    assert multiset(cs)[order[i]] <= 1;
  }

  lemma WakeKeeps(s: State, co: Co)
    requires Inv(s) && co in s.suspended && co !in s.waiting
    ensures Inv(Wakeup(s, co)) && (HandedOver(s) ==> HandedOver(Wakeup(s, co)))
  {
  }

  /** Every operation keeps the invariant; it breaks the handover exactly when `Breaks` says so. */
  lemma StepKeeps(s: State, op: Op)
    requires Inv(s)
    ensures Inv(Step(s, op)) && (HandedOver(s) ==> (HandedOver(Step(s, op)) <==> !Breaks(s, op)))
  {
    hide Inv, HandedOver, Lock, Unlock, ResumeNext, Interrupt, Wakeup, Grant, Arrive;
    if Can(s, op) {
      match op {
        case Locks(co) => LockKeeps(s, co);
        case Tries(co) => TryKeeps(s, co);
        case Unlocks(co) => UnlockKeeps(s, co);
        case Suspends(co) => SuspendKeeps(s, co);
        case Wakes(co) => WakeKeeps(s, co);
        case Fails(co) => FailKeeps(s, co);
        case Resumes =>
          match OutcomeOf(s, s.woken[0]) {
            case Elsewhere => ElsewhereKeeps(s);
            case Thrown => ThrowKeeps(s);
            case Acquired => AcquireKeeps(s);
          }
        case Exits(order) => InterruptKeeps(s, order);
        case Sweeps => SweepKeeps(s);
      }
    }
  }

  lemma LockKeeps(s: State, co: Co)
    requires Inv(s) && IsRunning(s, co) && s.past.owner != Some(co)
    ensures Inv(Lock(s, co)) && (HandedOver(s) ==> HandedOver(Lock(s, co)))
  {
    if s.queue == [] {
      GrantKeeps(s, co);
    } else {
      WaitKeeps(s, co);
    }
  }

  lemma TryKeeps(s: State, co: Co)
    requires Inv(s)
    ensures Inv(TryLock(s, co)) && (HandedOver(s) ==> HandedOver(TryLock(s, co)))
  {
    if s.queue == [] {
      GrantKeeps(s, co);
    }
  }

  lemma SuspendKeeps(s: State, co: Co)
    requires Inv(s) && IsRunning(s, co)
    ensures Inv(Suspend(s, co)) && (HandedOver(s) ==> HandedOver(Suspend(s, co)))
  {
  }

  lemma FailKeeps(s: State, co: Co)
    requires Inv(s) && IsRunning(s, co)
    ensures var s' := s.(excepted := s.excepted + {co}); Inv(s') && (HandedOver(s) ==> HandedOver(s'))
  {
  }

  lemma SweepKeeps(s: State)
    requires Inv(s)
    ensures Inv(Sweep(s)) && (HandedOver(s) ==> HandedOver(Sweep(s)))
  {
  }

  // ----- what each operation is for -----

  /** The mutex is free, and `co` takes it. */
  ghost predicate Takes(s: State, co: Co, s': State) {
    && s.queue == [] && s'.queue == [co] && s'.past.owner == Some(co)
    && s'.past.log == s.past.log + [Got(co)] && s'.past.arrivals == s.past.arrivals + [co]
    && s' == s.(queue := s'.queue, past := s.past.(owner := s'.past.owner, log := s'.past.log,
                                                   arrivals := s'.past.arrivals))
  }

  /** The mutex is taken, and `co` waits behind all others. */
  ghost predicate Queues(s: State, co: Co, s': State) {
    && s.queue != [] && s'.queue == s.queue + [co] && s'.past == s.past.(arrivals := s.past.arrivals + [co])
    && co in s'.suspended && s'.suspended - {co} == s.suspended - {co} && s'.waiting == s.waiting + {co}
    && s'.zombies == (if co in s.excepted then s.zombies + [co] else s.zombies)
    && s'.woken == s.woken && s'.excepted == s.excepted
  }

  /** The owner goes, and the one behind it is woken if it sleeps. */
  ghost predicate Goes(s: State, co: Co, s': State) {
    && s.queue == [co] + s'.queue && s'.past == s.past.(owner := None, log := s.past.log + [Left(co)])
    && (if s'.queue != [] && s'.queue[0] in s.suspended
        then s'.woken == s.woken + [s'.queue[0]] && s'.suspended == s.suspended - {s'.queue[0]}
        else s'.woken == s.woken && s'.suspended == s.suspended)
    && s'.zombies == s.zombies && s'.excepted == s.excepted && s'.waiting == s.waiting
  }

  /** A coroutine runs on: with the mutex, out of the queue, or somewhere else. */
  ghost predicate RunsOn(s: State, co: Co, outcome: Outcome, s': State) {
    && s.woken == [co] + s'.woken && s'.suspended == s.suspended && s'.zombies == s.zombies
    && s'.excepted == s.excepted && s'.waiting == s.waiting - {co}
    && (outcome == Elsewhere <==> co !in s.waiting) && (outcome == Thrown <==> co in s.waiting && co in s.excepted)
    && match outcome
       case Elsewhere => s'.queue == s.queue && s'.past == s.past
       case Acquired =>
         s'.queue == s.queue && s'.past == s.past.(owner := Some(co), log := s.past.log + [Got(co)])
       case Thrown =>
         && co !in s'.queue && multiset(s.queue) == multiset(s'.queue) + multiset{co}
         && s'.past == s.past.(withdrawn := s.past.withdrawn + [co])
  }

  lemma LockDoes(s: State, co: Co)
    ensures if s.queue == [] then Takes(s, co, Lock(s, co)) else Queues(s, co, Lock(s, co))
    ensures if s.queue == [] then Takes(s, co, TryLock(s, co)) else TryLock(s, co) == s
  {
  }

  lemma UnlockDoes(s: State, co: Co)
    requires s.queue != [] && s.queue[0] == co
    ensures Goes(s, co, Unlock(s, co))
  {
    assert s.queue == [co] + s.queue[1..];
  }

  lemma ResumeDoes(s: State)
    requires QueueOk(s) && s.woken != []
    ensures RunsOn(s, s.woken[0], OutcomeOf(s, s.woken[0]), ResumeNext(s))
  {
    hide Without;
    var co := s.woken[0];
    assert s.woken == [co] + s.woken[1..];
    if co in s.waiting {
      var i :| 0 <= i < |s.queue| && s.queue[i] == co;
      WithoutOne(s.queue, co, i);
      OneOut(s.queue, i);
    }
  }

  /** Who is interrupted is woken behind the others, with an exception; who is swept is destroyed. */
  lemma OthersDo(s: State, op: Op)
    requires Can(s, op)
    ensures var s' := Step(s, op);
      match op
      case Suspends(co) =>
        && co in s'.suspended && s'.suspended - {co} == s.suspended - {co}
        && s'.zombies == (if co in s.excepted then s.zombies + [co] else s.zombies)
        && s' == s.(suspended := s'.suspended, zombies := s'.zombies)
      case Wakes(co) =>
        && s'.woken == s.woken + [co] && s'.suspended == s.suspended - {co}
        && s' == s.(woken := s'.woken, suspended := s'.suspended)
      case Fails(co) => s'.excepted == s.excepted + {co} && s' == s.(excepted := s'.excepted)
      case Exits(order) =>
        && s'.woken == s.woken + order && s'.suspended == {} && s'.excepted == s.excepted + s.suspended
        && s' == s.(woken := s'.woken, suspended := {}, excepted := s'.excepted)
      case Sweeps =>
        && s'.zombies == [] && (forall c :: c in s'.past.freed <==> c in s.past.freed || c in s.zombies)
        && s' == s.(zombies := [], past := s.past.(freed := s'.past.freed, dangling := s'.past.dangling))
      case _ => true
  {
  }

  /** What a coroutine that runs may do: everything but lock what it owns and unlock what it does not. */
  lemma AnyRunningMay(s: State, co: Co)
    requires Inv(s) && IsRunning(s, co) && !s.past.dangling
    ensures Can(s, Tries(co)) && Can(s, Suspends(co)) && Can(s, Fails(co))
    ensures if s.past.owner == Some(co) then Can(s, Unlocks(co)) else Can(s, Locks(co))
  {
    OwnerIsFront(s, co);
  }

  // ----- what the operations of a run come to -----

  /** Who asks for the mutex and gets it or waits for it. */
  function Asks(s: State, op: Op): seq<Co> {
    if !Can(s, op) then []
    else
      match op
      case Locks(co) => [co]
      case Tries(co) => if s.queue == [] then [co] else []
      case _ => []
  }

  /** Who gets the mutex or leaves it. */
  function Logs(s: State, op: Op): seq<Event> {
    if !Can(s, op) then []
    else
      match op
      case Locks(co) => if s.queue == [] then [Got(co)] else []
      case Tries(co) => if s.queue == [] then [Got(co)] else []
      case Unlocks(co) => [Left(co)]
      case Resumes => if s.woken[0] in s.waiting && s.woken[0] !in s.excepted then [Got(s.woken[0])] else []
      case _ => []
  }

  /** Who gives up. */
  function GivesUp(s: State, op: Op): seq<Co> {
    if Can(s, op) && op.Resumes? && s.woken[0] in s.waiting && s.woken[0] in s.excepted then [s.woken[0]] else []
  }

  ghost function AllAsked(ops: seq<Op>): seq<Co> {
    if ops == [] then [] else AllAsked(ops[..|ops| - 1]) + Asks(Run(ops[..|ops| - 1]), ops[|ops| - 1])
  }

  ghost function AllLogged(ops: seq<Op>): seq<Event> {
    if ops == [] then [] else AllLogged(ops[..|ops| - 1]) + Logs(Run(ops[..|ops| - 1]), ops[|ops| - 1])
  }

  ghost function AllGaveUp(ops: seq<Op>): seq<Co> {
    if ops == [] then [] else AllGaveUp(ops[..|ops| - 1]) + GivesUp(Run(ops[..|ops| - 1]), ops[|ops| - 1])
  }

  lemma StepRecords(s: State, op: Op)
    requires QueueOk(s)
    ensures var s' := Step(s, op);
      && s'.past.arrivals == s.past.arrivals + Asks(s, op) && s'.past.log == s.past.log + Logs(s, op)
      && s'.past.withdrawn == s.past.withdrawn + GivesUp(s, op)
  {
    hide QueueOk, Without;
    if Can(s, op) && op.Resumes? {
      ResumeRecords(s);
    }
  }

  lemma ResumeRecords(s: State)
    requires s.woken != []
    ensures var s', co := ResumeNext(s), s.woken[0];
      && s'.past.arrivals == s.past.arrivals
      && s'.past.log == s.past.log + (if co in s.waiting && co !in s.excepted then [Got(co)] else [])
      && s'.past.withdrawn == s.past.withdrawn + if co in s.waiting && co in s.excepted then [co] else []
  {
    hide Without;
  }

  /**
   Over any run, who asked, who got the mutex and left it, and who gave up follow from the operations: `lock` always
   asks, and gets the mutex if nobody has it; `try_lock` asks and gets it exactly if nobody has it; a waiter gets it
   when it is resumed, and gives up exactly if an exception was delivered to it.
   */
  lemma {:induction false} RunRecords(ops: seq<Op>)
    ensures var s := Run(ops);
      s.past.arrivals == AllAsked(ops) && s.past.log == AllLogged(ops) && s.past.withdrawn == AllGaveUp(ops)
  {
    hide Step, Asks, Logs, GivesUp, QueueOk, WaitersOk, InOrder, Holder;
    if ops == [] {
    } else {
      var init := ops[..|ops| - 1];
      RunRecords(init);
      RunKeeps(init);
      StepRecords(Run(init), ops[|ops| - 1]);
    }
  }

  // ----- over any run -----

  lemma {:induction false} RunKeeps(ops: seq<Op>)
    ensures Inv(Run(ops))
  {
    hide Inv, Step;
    if ops == [] {
      InitKeeps();
    } else {
      RunKeeps(ops[..|ops| - 1]);
      StepKeeps(Run(ops[..|ops| - 1]), ops[|ops| - 1]);
    }
  }

  lemma InitKeeps()
    ensures Inv(INIT) && HandedOver(INIT)
  {
  }

  /** Mutual exclusion: over any run, whoever got the mutex left it before anybody got it again. */
  lemma MutualExclusion(ops: seq<Op>, i: nat, j: nat)
    requires i < j < |Run(ops).past.log| && Run(ops).past.log[i].Got? && Run(ops).past.log[j].Got?
    ensures exists k :: i < k < j && Run(ops).past.log[k] == Left(Run(ops).past.log[i].co)
  {
    RunKeeps(ops);
    Exclusive(Run(ops).past.log, i, j);
  }

  /**
   First come, first served: over any run those that got the mutex and those that wait for it, in this order, are
   those that asked for it in the order in which they did, less exactly the ones that gave up.
   */
  lemma FirstComeFirstServed(ops: seq<Op>)
    ensures var s := Run(ops);
      && Within(Claims(s), s.past.arrivals)
      && multiset(s.past.arrivals) == multiset(Claims(s)) + multiset(s.past.withdrawn)
      && (s.past.withdrawn == [] <==> Claims(s) == s.past.arrivals)
  {
    hide Within, Claims;
    RunKeeps(ops);
    var s := Run(ops);
    WithinAll(Claims(s), s.past.arrivals);
    assert |s.past.arrivals| == |multiset(s.past.arrivals)| == |Claims(s)| + |s.past.withdrawn|;
  }

  lemma {:induction false} WithinAll(a: seq<Co>, b: seq<Co>)
    requires Within(a, b)
    ensures |a| <= |b| && (|a| == |b| ==> a == b)
  {
    if a == [] {
    } else if Within(a, b[..|b| - 1]) {
      WithinAll(a, b[..|b| - 1]);
    } else {
      WithinAll(a[..|a| - 1], b[..|b| - 1]);
      assert a == a[..|a| - 1] + [a[|a| - 1]] && b == b[..|b| - 1] + [b[|b| - 1]];
    }
  }

  /** At every point of the run the mutex is handed over. */
  ghost predicate AlwaysHandedOver(ops: seq<Op>) {
    forall n :: 0 <= n <= |ops| ==> HandedOver(Run(ops[..n]))
  }

  /** Some step of the run is a breaking one. */
  ghost predicate BreaksOnce(ops: seq<Op>) {
    exists n :: 0 <= n < |ops| && Breaks(Run(ops[..n]), ops[n])
  }

  lemma Prefixes(ops: seq<Op>, last: nat)
    requires last <= |ops|
    ensures forall n :: 0 <= n <= last ==> ops[..last][..n] == ops[..n]
    ensures ops[..|ops|] == ops
  {
  }

  lemma HandedOn(ops: seq<Op>)
    requires ops != []
    ensures AlwaysHandedOver(ops) <==> AlwaysHandedOver(ops[..|ops| - 1]) && HandedOver(Run(ops))
  {
    hide HandedOver, Run;
    var last := |ops| - 1;
    Prefixes(ops, last);
    if AlwaysHandedOver(ops[..last]) && HandedOver(Run(ops)) {
      forall n | 0 <= n <= |ops|
        ensures HandedOver(Run(ops[..n]))
      {
        assert n <= last ==> HandedOver(Run(ops[..last][..n]));
      }
    }
    if AlwaysHandedOver(ops) {
      assert HandedOver(Run(ops[..|ops|]));
    }
  }

  lemma BreaksOn(ops: seq<Op>)
    requires ops != []
    ensures BreaksOnce(ops)
      <==> BreaksOnce(ops[..|ops| - 1]) || Breaks(Run(ops[..|ops| - 1]), ops[|ops| - 1])
  {
    hide Breaks, Run;
    var last := |ops| - 1;
    Prefixes(ops, last);
    if n :| 0 <= n < last && Breaks(Run(ops[..last][..n]), ops[..last][n]) {
      assert Breaks(Run(ops[..n]), ops[n]);
    }
  }

  lemma AtFirst()
    ensures AlwaysHandedOver([]) && !BreaksOnce([])
  {
    InitKeeps();
    var none: seq<Op> := [];
    assert forall n :: 0 <= n <= 0 ==> none[..n] == none;
  }

  /**
   At every point of a run the front of the queue owns the mutex or has been woken and all others are suspended, if
   and only if no waiter threw while others waited behind it, and the process did not exit while somebody waited
   behind the front.
   */
  lemma {:induction false} HandedOverThroughout(ops: seq<Op>)
    ensures AlwaysHandedOver(ops) <==> !BreaksOnce(ops)
  {
    hide AlwaysHandedOver, BreaksOnce, HandedOver, Breaks, Inv, Step;
    if ops == [] {
      AtFirst();
    } else {
      var init := ops[..|ops| - 1];
      HandedOverThroughout(init);
      HandedOn(ops);
      BreaksOn(ops);
      RunKeeps(init);
      StepKeeps(Run(init), ops[|ops| - 1]);
      if AlwaysHandedOver(init) {
        HandedNow(init);
      }
    }
  }

  lemma HandedNow(ops: seq<Op>)
    requires AlwaysHandedOver(ops)
    ensures HandedOver(Run(ops))
  {
    hide HandedOver, Run;
    assert ops[..|ops|] == ops;
  }

  // ----- coroutines that are destroyed too early -----

  /** An exception is delivered to the coroutine. */
  ghost predicate Hits(s: State, op: Op, c: Co) {
    Can(s, op) && (op == Fails(c) || (op.Exits? && c in s.suspended))
  }

  /** It has happened before. */
  ghost predicate WasHit(ops: seq<Op>, c: Co) {
    ops != [] && (Hits(Run(ops[..|ops| - 1]), ops[|ops| - 1], c) || WasHit(ops[..|ops| - 1], c))
  }

  /** After an exception was delivered to it, the coroutine suspends, by itself or in `lock`. */
  ghost predicate SuspendsLate(s: State, op: Op, c: Co) {
    Can(s, op) && c in s.excepted && (op == Suspends(c) || (op == Locks(c) && s.queue != []))
  }

  /** It has suspended late, and the process has not destroyed its zombies since. */
  ghost predicate LateSince(ops: seq<Op>, c: Co) {
    && ops != []
    && var s, op := Run(ops[..|ops| - 1]), ops[|ops| - 1];
       !(Can(s, op) && op.Sweeps?) && (SuspendsLate(s, op, c) || LateSince(ops[..|ops| - 1], c))
  }

  lemma {:induction false} ExceptedExactly(ops: seq<Op>, c: Co)
    ensures c in Run(ops).excepted <==> WasHit(ops, c)
  {
    hide Can, Hits, Step;
    if ops == [] {
    } else {
      ExceptedExactly(ops[..|ops| - 1], c);
      HitStep(Run(ops[..|ops| - 1]), ops[|ops| - 1], c);
    }
  }

  lemma HitStep(s: State, op: Op, c: Co)
    ensures c in Step(s, op).excepted <==> c in s.excepted || Hits(s, op, c)
  {
  }

  /** The zombies are the coroutines that suspended although an exception had been delivered to them. */
  lemma {:induction false} BuriedExactly(ops: seq<Op>, c: Co)
    ensures c in Run(ops).zombies <==> LateSince(ops, c)
  {
    hide Can, SuspendsLate, Step;
    if ops == [] {
    } else {
      BuriedExactly(ops[..|ops| - 1], c);
      BuriedStep(Run(ops[..|ops| - 1]), ops[|ops| - 1], c);
    }
  }

  lemma BuriedStep(s: State, op: Op, c: Co)
    ensures c in Step(s, op).zombies <==> !(Can(s, op) && op.Sweeps?) && (c in s.zombies || SuspendsLate(s, op, c))
  {
  }

  /** Step `n` sweeps while a coroutine that suspended late is suspended or in the queue. */
  ghost predicate SweepsTooEarly(ops: seq<Op>, n: nat)
    requires n < |ops|
  {
    var s := Run(ops[..n]);
    && Can(s, ops[n]) && ops[n].Sweeps?
    && exists c :: LateSince(ops[..n], c) && (c in s.suspended || c in s.queue)
  }

  lemma DanglingStep(ops: seq<Op>)
    requires ops != []
    ensures Run(ops).past.dangling <==> Run(ops[..|ops| - 1]).past.dangling || SweepsTooEarly(ops, |ops| - 1)
  {
    hide LateSince, Suspend, Wakeup, Lock, TryLock, Unlock, ResumeNext, Interrupt;
    var s, op := Run(ops[..|ops| - 1]), ops[|ops| - 1];
    forall c
      ensures c in s.zombies <==> LateSince(ops[..|ops| - 1], c)
    {
      BuriedExactly(ops[..|ops| - 1], c);
    }
    if op.Sweeps? {
    } else {
      OnlySweepsDangle(s, op);
    }
  }

  lemma OnlySweepsDangle(s: State, op: Op)
    requires !op.Sweeps?
    ensures Step(s, op).past.dangling == s.past.dangling
  {
  }

  lemma EarlyBefore(ops: seq<Op>, n: nat)
    requires ops != [] && n < |ops| - 1
    ensures SweepsTooEarly(ops, n) <==> SweepsTooEarly(ops[..|ops| - 1], n)
  {
    assert ops[..|ops| - 1][..n] == ops[..n];
  }

  /**
   A run comes to destroy a coroutine that is still suspended or in the queue if and only if the process sweeps while
   one is there that had suspended, since the last sweep, after an exception was delivered to it.
   */
  lemma {:induction false} DanglingExactly(ops: seq<Op>)
    ensures Run(ops).past.dangling <==> exists n :: 0 <= n < |ops| && SweepsTooEarly(ops, n)
  {
    hide SweepsTooEarly, Step;
    if ops == [] {
    } else {
      var last := |ops| - 1;
      DanglingExactly(ops[..last]);
      DanglingStep(ops);
      forall n | 0 <= n < last
        ensures SweepsTooEarly(ops, n) <==> SweepsTooEarly(ops[..last], n)
      {
        EarlyBefore(ops, n);
      }
    }
  }

  lemma {:induction false} NoneLate(ops: seq<Op>, c: Co)
    requires forall n :: 0 <= n < |ops| ==> !SuspendsLate(Run(ops[..n]), ops[n], c)
    ensures !LateSince(ops, c)
  {
    hide SuspendsLate, Run;
    if ops == [] {
    } else {
      var last := |ops| - 1;
      assert forall n :: 0 <= n < last ==> ops[..last][..n] == ops[..n];
      NoneLate(ops[..last], c);
    }
  }

  /** So it never happens if no coroutine suspends after an exception was delivered to it. */
  lemma NeverDangles(ops: seq<Op>)
    requires forall n, c :: 0 <= n < |ops| ==> !SuspendsLate(Run(ops[..n]), ops[n], c)
    ensures !Run(ops).past.dangling
  {
    hide SuspendsLate, Run, LateSince;
    DanglingExactly(ops);
    forall n | 0 <= n < |ops|
      ensures !SweepsTooEarly(ops, n)
    {
      assert forall m :: 0 <= m < n ==> ops[..n][..m] == ops[..m];
      forall c
        ensures !LateSince(ops[..n], c)
      {
        NoneLate(ops[..n], c);
      }
    }
  }

  lemma RunOn(ops: seq<Op>, op: Op)
    ensures Run(ops + [op]) == Step(Run(ops), op)
  {
    assert (ops + [op])[..|ops|] == ops;
  }

  /** A coroutine comes with an exception and waits behind the owner. */
  lemma OneWaits()
    ensures Run([Fails(1), Locks(0), Locks(1)])
      == State([0, 1], {1}, [], [1], {1}, {1}, Past(Some(0), [0, 1], [], [Got(0)], {}, false))
  {
    var s1 := INIT.(excepted := {1});
    RunOn([], Fails(1));
    RunOn([Fails(1)], Locks(0));
    assert [] + [Fails(1)] == [Fails(1)] && [Fails(1)] + [Locks(0)] == [Fails(1), Locks(0)];
    assert Run([Fails(1), Locks(0)]) == State([0], {}, [], [], {1}, {}, Past(Some(0), [0], [], [Got(0)], {}, false));
    RunOn([Fails(1), Locks(0)], Locks(1));
    assert [Fails(1), Locks(0)] + [Locks(1)] == [Fails(1), Locks(0), Locks(1)];
  }

  /** And another behind it. */
  lemma TwoWait()
    ensures Run([Fails(1), Locks(0), Locks(1), Locks(2)])
      == State([0, 1, 2], {1, 2}, [], [1], {1}, {1, 2}, Past(Some(0), [0, 1, 2], [], [Got(0)], {}, false))
  {
    hide Run;
    OneWaits();
    RunOn([Fails(1), Locks(0), Locks(1)], Locks(2));
    assert [Fails(1), Locks(0), Locks(1)] + [Locks(2)] == [Fails(1), Locks(0), Locks(1), Locks(2)];
    assert {1} + {2} == {1, 2};
  }

  /**
   A waiter that came with an exception throws out of `lock` when it is handed the mutex: then nobody owns the
   mutex, and the next in the queue stays suspended with nobody to wake it.
   */
  lemma Stuck()
    ensures var s := Run([Fails(1), Locks(0), Locks(1), Locks(2), Unlocks(0), Resumes]);
      && s.past.owner == None && s.queue == [2] && s.suspended == {2} && s.woken == [] && !s.past.dangling
      && s.past.withdrawn == [1] && s.zombies == [1]
  {
    hide Run;
    TwoWait();
    var four := [Fails(1), Locks(0), Locks(1), Locks(2)];
    RunOn(four, Unlocks(0));
    var s := Run(four + [Unlocks(0)]);
    assert s == State([1, 2], {2}, [1], [1], {1}, {1, 2}, Past(None, [0, 1, 2], [], [Got(0), Left(0)], {}, false));
    RunOn(four + [Unlocks(0)], Resumes);
    assert four + [Unlocks(0)] + [Resumes] == [Fails(1), Locks(0), Locks(1), Locks(2), Unlocks(0), Resumes];
    assert Without([1, 2], 1) == [2];
  }

  /** A waiter that came with an exception is destroyed by the next sweep, while it is suspended and in the queue. */
  lemma Dangles()
    ensures var s := Run([Fails(1), Locks(0), Locks(1), Sweeps]);
      s.past.dangling && s.past.freed == {1} && s.suspended == {1} && s.queue == [0, 1]
  {
    hide Run;
    OneWaits();
    RunOn([Fails(1), Locks(0), Locks(1)], Sweeps);
    assert [Fails(1), Locks(0), Locks(1)] + [Sweeps] == [Fails(1), Locks(0), Locks(1), Sweeps];
    assert 1 in [1] && 1 in {1};
  }
}
