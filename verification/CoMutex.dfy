/** The mutex of coroutines as the object whose methods update its queue: every method does what `MutexModel` says. */
module CoMutex {
  import opened Common
  import opened MutexModel

  lemma WaitsBehind(s: State, co: Co)
    requires Inv(s) && IsRunning(s, co) && s.past.owner != Some(co)
    ensures s.queue != [] ==> s.queue[0] != co
  {
    OwnerIsFront(s, co);
  }

  lemma SameElements(order: seq<Co>, cs: set<Co>)
    requires multiset(order) == multiset(cs)
    ensures (set c | c in order) == cs
  {
    assert forall c :: c in order <==> c in multiset(order);
    assert forall c :: c in cs <==> c in multiset(cs);
  }

  lemma QueueHolds(s: State)
    requires Inv(s)
    ensures QueueOk(s)
  {
  }

  /** What becomes of the fields when the next coroutine runs on. */
  lemma ResumeParts(s: State)
    requires s.woken != []
    ensures var s', co, outcome := MutexModel.ResumeNext(s), s.woken[0], OutcomeOf(s, s.woken[0]);
      && s'.woken == s.woken[1..]
      && s' == s.(queue := s'.queue, woken := s'.woken, waiting := s'.waiting, past := s'.past)
      && s'.queue == (if outcome == Thrown then Without(s.queue, co) else s.queue)
      && s'.waiting == (if outcome == Elsewhere then s.waiting else s.waiting - {co})
      && s'.past == (match outcome
                     case Elsewhere => s.past
                     case Acquired => s.past.(owner := Some(co), log := s.past.log + [Got(co)])
                     case Thrown => s.past.(withdrawn := s.past.withdrawn + [co]))
  {
    hide Without;
  }

  class Mutex {
    var queue: seq<Co>
    var suspended: set<Co>        // of the process
    var woken: seq<Co>
    var zombies: seq<Co>
    var excepted: set<Co>         // coroutines to which an exception was delivered
    var waiting: set<Co>          // coroutines inside the `suspend` of `lock`
    var past: Past

    function Now(): State
      reads this
    {
      State(queue, suspended, woken, zombies, excepted, waiting, past)
    }

    constructor ()
      ensures Now() == INIT
    {
      queue, suspended, woken, zombies, excepted, waiting := [], {}, [], [], {}, {};
      past := INIT.past;
    }

    /** `suspend` of the process. */
    method Suspend(co: Co)
      modifies this`suspended, this`zombies
      ensures Now() == MutexModel.Suspend(old(Now()), co)
    {
      suspended := suspended + {co};
      if co in excepted {
        zombies := zombies + [co];
      }
    }

    method Wakeup(co: Co)
      modifies this`suspended, this`woken
      ensures Now() == MutexModel.Wakeup(old(Now()), co)
    {
      if co in suspended {
        suspended := suspended - {co};
        woken := woken + [co];
      }
    }

    method Push(co: Co)
      modifies this`queue, this`past
      ensures Now() == Arrive(old(Now()), co)
    {
      queue := queue + [co];
      past := past.(arrivals := past.arrivals + [co]);
    }

    method Own(co: Co)
      modifies this`past
      ensures Now() == Grant(old(Now()), co)
    {
      past := past.(owner := Some(co), log := past.log + [Got(co)]);
    }

    method Lock(co: Co) returns (locked: bool)
      requires Inv(Now()) && IsRunning(Now(), co) && past.owner != Some(co)
      modifies this
      ensures Now() == MutexModel.Lock(old(Now()), co) && (locked <==> old(queue) == [])
      ensures if locked then Takes(old(Now()), co, Now()) else Queues(old(Now()), co, Now())
    {
      LockDoes(Now(), co);
      WaitsBehind(Now(), co);
      locked := queue == [];
      if locked {
        Push(co);
        Own(co);
      } else {
        assert queue[0] != co;
        Push(co);
        Suspend(co);
        waiting := waiting + {co};
      }
    }

    method TryLock(co: Co) returns (locked: bool)
      requires Inv(Now()) && IsRunning(Now(), co)
      modifies this
      ensures Now() == MutexModel.TryLock(old(Now()), co) && (locked <==> old(queue) == [])
      ensures if locked then Takes(old(Now()), co, Now()) else Now() == old(Now())
      ensures locked ==> past.owner == Some(co) && queue == [co]
    {
      LockDoes(Now(), co);
      locked := queue == [];
      if locked {
        Push(co);
        Own(co);
      }
    }

    method Unlock(co: Co)
      requires Inv(Now()) && IsRunning(Now(), co) && past.owner == Some(co)
      modifies this
      ensures old(queue) != [] && Now() == MutexModel.Unlock(old(Now()), co) && Goes(old(Now()), co, Now())
    {
      OwnerIsFront(Now(), co);
      UnlockDoes(Now(), co);
      assert queue != [];
      assert queue[0] == co;
      queue := queue[1..];
      past := past.(owner := None, log := past.log + [Left(co)]);
      if queue != [] {
        Wakeup(queue[0]);
      }
    }

    /** What becomes of `lock` when its `suspend` comes back, or throws. */
    method ResumeNext() returns (co: Co, outcome: Outcome)
      requires Inv(Now()) && woken != []
      modifies this
      ensures co == old(woken)[0] && outcome == OutcomeOf(old(Now()), co) && Now() == MutexModel.ResumeNext(old(Now()))
      ensures RunsOn(old(Now()), co, outcome, Now())
    {
      hide Inv, QueueOk, Without, RunsOn, MutexModel.ResumeNext;
      ghost var s := Now();
      QueueHolds(s);
      ResumeDoes(s);
      ResumeParts(s);
      co := woken[0];
      outcome := OutcomeOf(Now(), co);
      woken := woken[1..];
      if outcome == Acquired {
        AcquireKeeps(s);
        assert queue != [];
        assert queue[0] == co;
        waiting := waiting - {co};
        Own(co);
      } else if outcome == Thrown {
        ThrowKeeps(s);
        var kept := Without(queue, co);
        assert |kept| == |queue| - 1;      // the one iterator that is erased is the last, and is valid
        queue := kept;
        waiting := waiting - {co};
        past := past.(withdrawn := past.withdrawn + [co]);
      }
    }

    method Interrupt(order: seq<Co>)
      requires multiset(order) == multiset(suspended)
      modifies this
      ensures Now() == MutexModel.Interrupt(old(Now()), order)
    {
      for i := 0 to |order|
        invariant Now() == old(Now()).(woken := old(woken) + order[..i],
          excepted := old(excepted) + set c | c in order[..i])
      {
        assert order[..i + 1] == order[..i] + [order[i]];
        woken := woken + [order[i]];
        excepted := excepted + {order[i]};
      }
      assert order[..|order|] == order;
      SameElements(order, suspended);
      suspended := {};
    }

    method Sweep()
      modifies this`zombies, this`past
      ensures Now() == MutexModel.Sweep(old(Now()))
    {
      past := past.(freed := past.freed + (set c | c in zombies),
                    dangling := exists c :: c in zombies && (c in suspended || c in queue));
      zombies := [];
    }

    method Do(op: Op)
      requires Inv(Now())
      modifies this
      ensures Now() == Step(old(Now()), op) && Inv(Now())
    {
      hide Inv, MutexModel.Lock, MutexModel.TryLock, MutexModel.Unlock, MutexModel.ResumeNext, MutexModel.Interrupt,
        MutexModel.Sweep;
      StepKeeps(Now(), op);
      if Can(Now(), op) {
        match op {
          case Locks(co) => var locked := Lock(co);
          case Tries(co) => var locked := TryLock(co);
          case Unlocks(co) => Unlock(co);
          case Suspends(co) => Suspend(co);
          case Wakes(co) => Wakeup(co);
          case Fails(co) => excepted := excepted + {co};
          case Resumes => var co, outcome := ResumeNext();
          case Exits(order) => Interrupt(order);
          case Sweeps => Sweep();
        }
      }
    }
  }

  /** Any use of the mutex, by any number of coroutines. */
  method Use(ops: seq<Op>) returns (m: Mutex)
    ensures fresh(m) && m.Now() == Run(ops)
  {
    hide Inv, Step;
    m := new Mutex();
    InitKeeps();
    for n := 0 to |ops|
      invariant fresh(m) && Inv(m.Now()) && m.Now() == Run(ops[..n])
    {
      assert ops[..n + 1][..n] == ops[..n];
      m.Do(ops[n]);
    }
    assert ops[..|ops|] == ops;
  }
}
