/** What `resume` returns, when a process goes down, and a response that goes astray. */
module ProcessEnd {
  import opened Common
  import opened ProcessModel
  import opened ProcessLife

  /** The exception that a coroutine has at the end of its turn. */
  function Leaves(r: Ran): Exception {
    if r.yielded then r.before
    else if r.turn.end.Ends? && r.turn.end.e == NoException then CoroutineExit
    else if r.turn.end.Ends? then r.turn.end.e
    else OtherException
  }

  /** The turn ends with the exception by which user code exits the process, thrown by it or delivered to it before. */
  predicate ExitsProcess(r: Ran) {
    Leaves(r) == ProcessExit
  }

  /** From one state to a later one messages may be pushed and turns run, but no message is taken. */
  ghost predicate Follows(s: State, s': State) {
    && s.past.pushed <= s'.past.pushed && s.past.ran <= s'.past.ran
    && |s'.past.pushed| - |s'.mailbox| == |s.past.pushed| - |s.mailbox|
  }

  /** A turn in between ended with the exception by which user code exits the process. */
  ghost predicate ExitedBetween(s: State, s': State) {
    exists i :: |s.past.ran| <= i < |s'.past.ran| && ExitsProcess(s'.past.ran[i])
  }

  /** None did but the last. */
  ghost predicate OnlyLastExits(s: State, s': State) {
    forall i :: |s.past.ran| <= i < |s'.past.ran| - 1 ==> !ExitsProcess(s'.past.ran[i])
  }

  lemma FollowsOn(a: State, b: State, c: State)
    requires Follows(a, b) && Follows(b, c)
    ensures Follows(a, c) && (ExitedBetween(a, c) <==> ExitedBetween(a, b) || ExitedBetween(b, c))
    ensures !ExitedBetween(a, b) && OnlyLastExits(b, c) ==> OnlyLastExits(a, c)
  {
    hide ExitsProcess;
    assert forall i :: 0 <= i < |b.past.ran| ==> b.past.ran[i] == c.past.ran[i];
    if i :| |a.past.ran| <= i < |b.past.ran| && ExitsProcess(b.past.ran[i]) {
      assert ExitsProcess(c.past.ran[i]);
    }
    if i :| |b.past.ran| <= i < |c.past.ran| && ExitsProcess(c.past.ran[i]) {
      assert |a.past.ran| <= i;
    }
  }

  lemma SameFollows(s: State, s': State)
    requires s'.past.pushed == s.past.pushed && s'.past.ran == s.past.ran && s'.mailbox == s.mailbox
    ensures Follows(s, s') && !ExitedBetween(s, s') && OnlyLastExits(s, s')
  {
  }

  // ----- a turn -----

  lemma CallFollows(s: State, call: Call, co: Co)
    ensures var s' := DoCall(s, call);
      Follows(s, s') && s'.past.ran == s.past.ran && Failure(s', co) == Failure(s, co)
  {
  }

  lemma {:induction false} CallsFollow(s: State, calls: seq<Call>, co: Co)
    ensures var s' := DoCalls(s, calls);
      Follows(s, s') && s'.past.ran == s.past.ran && Failure(s', co) == Failure(s, co)
    decreases |calls|
  {
    hide DoCall, Failure;
    if calls == [] {
    } else {
      CallsFollow(s, calls[..|calls| - 1], co);
      CallFollows(DoCalls(s, calls[..|calls| - 1]), calls[|calls| - 1], co);
    }
  }

  lemma EndFollows(s: State, co: Co, end: End)
    ensures var s' := DoEnd(s, co, end);
      && Follows(s, s') && s'.past.ran == s.past.ran
      && (Yields(s, end) ==> Failure(s', co) == Failure(s, co))
      && (!Yields(s, end) ==> forall r: Ran :: !r.yielded && r.turn.end == end ==> Failure(s', co) == Leaves(r))
  {
  }

  /** A coroutine leaves its turn with the exception that was delivered to it, or else with that which ended it. */
  lemma TurnFollows(s: State, co: Co, turn: Turn, woken: bool)
    ensures var s' := ResumeOne(s, co, turn, woken);
      && Follows(s, s') && |s'.past.ran| == |s.past.ran| + 1
      && Failure(s', co) == Leaves(s'.past.ran[|s.past.ran|])
  {
    hide DoCalls, DoEnd, Yields, Displaced, Leaves;
    var s0 := Release(s, co);
    CallsFollow(s0, turn.calls, co);
    EndFollows(DoCalls(s0, turn.calls), co, turn.end);
    LeavesYielded();
  }

  lemma LeavesYielded()
    ensures forall r: Ran :: r.yielded ==> Leaves(r) == r.before
  {
  }

  // ----- the loops -----

  /** Serving a queue is broken off exactly if a coroutine exits the process, and at once, unless it exits already. */
  lemma {:induction false} ResumeAllThrows(s: State, woken: bool, exiting: bool, turns: seq<Turn>)
    ensures var r := ResumeAll(s, woken, exiting, turns);
      Follows(s, r.s) && (!exiting ==> (r.thrown <==> ExitedBetween(s, r.s)) && OnlyLastExits(s, r.s))
    decreases |turns|
  {
    hide ResumeOne, Leaves;
    if Front(s, woken) == [] || turns == [] {
    } else {
      hide Follows;
      var co, s0 := Front(s, woken)[0], Pop(s, woken);
      var s1 := ResumeOne(s0, co, turns[0], woken);
      SameFollows(s, s0);
      TurnFollows(s0, co, turns[0], woken);
      FollowsOn(s, s0, s1);
      ResumeAllThrows(s1, woken, exiting, turns[1..]);
      FollowsOn(s, s1, ResumeAll(s1, woken, exiting, turns[1..]).s);
    }
  }

  lemma {:induction false} RunThrows(s: State, turns: seq<Turn>)
    ensures var r := Run(s, turns);
      Follows(s, r.s) && (r.thrown <==> ExitedBetween(s, r.s)) && OnlyLastExits(s, r.s)
    decreases |turns|, if s.server == None then 0 else 1
  {
    hide ResumeAll, Follows, ExitedBetween, OnlyLastExits, Sweep, WakeServer;
    if s.spawned == [] && s.woken == [] && !HasMail(s) {
      SweepFollows(s);
    } else {
      var a := ResumeAll(s, false, false, turns);
      ResumeAllThrows(s, false, false, turns);
      if a.done && !a.thrown {
        var b := ResumeAll(a.s, true, false, a.rest);
        ResumeAllThrows(a.s, true, false, a.rest);
        FollowsOn(s, a.s, b.s);
        if b.done && !b.thrown {
          SweepFollows(b.s);
          FollowsOn(s, b.s, WakeServer(b.s));
          RunGoesOn(s, turns, b.s, b.rest);
          RunThrows(WakeServer(b.s), b.rest);
          FollowsOn(s, WakeServer(b.s), Run(WakeServer(b.s), b.rest).s);
        }
      }
    }
  }

  lemma SweepFollows(s: State)
    ensures Follows(s, Sweep(s)) && !ExitedBetween(s, Sweep(s)) && OnlyLastExits(s, Sweep(s))
    ensures Follows(s, WakeServer(s)) && !ExitedBetween(s, WakeServer(s)) && OnlyLastExits(s, WakeServer(s))
  {
    hide Follows, ExitedBetween, OnlyLastExits, Wakeup;
    WakeupEffect(s, if s.server == None then 0 else s.server.value);
    SameFollows(s, Sweep(s));
    SameFollows(s, WakeServer(s));
  }

  lemma {:induction false} UnwindFollows(s: State, o: Orders, turns: seq<Turn>)
    ensures Follows(s, Unwind(s, o, turns).s)
    decreases |turns|
  {
    hide InterruptAll, ResumeAll, Follows;
    var i := InterruptAll(s, o);
    InterruptAllEffect(s, o);
    SameFollows(s, i);
    if i.woken == [] {
      SameFollows(i, Sweep(Abandon(i)));
      FollowsOn(s, i, Sweep(Abandon(i)));
    } else {
      var r := ResumeAll(i, true, true, turns);
      ResumeAllThrows(i, true, true, turns);
      FollowsOn(s, i, r.s);
      if r.done {
        UnwindFollows(r.s, o, r.rest);
        FollowsOn(s, r.s, Unwind(r.s, o, r.rest).s);
      }
    }
  }

  lemma ExitFollows(s: State, o: Orders, turns: seq<Turn>)
    ensures Follows(s, Exit(s, o, turns).s)
  {
    hide Unwind, Follows;
    var s1 := s.(past := s.past.(exited := true));
    SameFollows(s, s1);
    UnwindFollows(s1, o, turns);
    FollowsOn(s, s1, Unwind(s1, o, turns).s);
  }

  // ----- going down -----

  /** What kind of message a session makes, and which one is the kill order. */
  lemma KindsOf(m: Message)
    ensures TypeOf(m.session) == Notify <==> m.session == 0
    ensures TypeOf(m.session) == Request <==> IsSessionId(m.session)
    ensures Kills(m) <==> m.session == 0 && m.kill
  {
  }

  /** The next message was taken in between, and is the kill order. */
  ghost predicate KillTaken(s: State, s': State) {
    var n := |s.past.pushed| - |s.mailbox|;
    0 <= n < |s'.past.pushed| - |s'.mailbox| && Kills(s'.past.pushed[n])
  }

  lemma TakeAlive(s: State, c: Co)
    requires s.mailbox != [] && Alive(s, c)
    ensures Alive(TakeMessage(s), c)
  {
    hide TakeMessage;
    TakeEffect(s);
    UnblockEffect(s);
  }

  /** `dispatch` without an exit. */
  lemma DispatchEnds(s: State, o: Orders, turns: seq<Turn>)
    requires Ready(s) && IsOrder(o) && !s.past.exited && Dispatch(s, o, turns).done
    ensures var d := Dispatch(s, o, turns);
      && Follows(s, d.s)
      && (ExitedBetween(s, d.s) ==> !d.alive)
      && (!ExitedBetween(s, d.s) ==> (d.alive <==> exists c :: Alive(d.s, c)))
      && (d.alive ==> Ready(d.s))
  {
    hide Inv, Follows, ExitedBetween, IsOrder, Run, Exit, StaysBlocked, Alive;
    var d, r := Dispatch(s, o, turns), Run(s, turns);
    DispatchKeeps(s, o, turns);
    DispatchIsAlive(s, o, turns);
    RunKeeps(s, turns);
    RunThrows(s, turns);
    if r.thrown {
      ExitFollows(r.s, o, r.rest);
      FollowsOn(s, r.s, d.s);
    }
  }

  lemma ResumeEnds(s: State, o: Orders, turns: seq<Turn>)
    requires Ready(s) && IsOrder(o) && !s.past.exited && ResumeProcess(s, o, turns).done
    ensures var r := ResumeProcess(s, o, turns);
      r.result == Down <==> ExitedBetween(s, r.s) || KillTaken(s, r.s) || !exists c :: Alive(r.s, c)
  {
    hide Balanced, InTurn, SessionsOk, ResponsesOk, ServerOk, Kept, Due, InboxOk, ExitedBetween, IsOrder, Dispatch,
      Exit, TakeMessage, Alive, Kills;
    var d, r := Dispatch(s, o, turns), ResumeProcess(s, o, turns);
    DispatchEnds(s, o, turns);
    if d.alive && d.s.mailbox != [] {
      TakeEnds(s, d.s);
      if c :| Alive(d.s, c) {
        TakeAlive(d.s, c);
      }
      if Kills(d.s.mailbox[0]) {
        ExitFollows(TakeMessage(d.s), o, d.rest);
      }
    }
  }

  /** The message that is taken is the first that had not been taken. */
  lemma TakeEnds(s: State, s1: State)
    requires RequestsOk(s1) && Follows(s, s1) && s1.mailbox != [] && !ExitedBetween(s, s1)
    ensures var s', n := TakeMessage(s1), |s.past.pushed| - |s.mailbox|;
      && n >= 0 && s'.past.pushed == s1.past.pushed && s'.past.ran == s1.past.ran
      && |s'.past.pushed| - |s'.mailbox| == n + 1 && s'.past.pushed[n] == s1.mailbox[0] && !ExitedBetween(s, s')
  {
    hide TakeMessage, Kept, Due, InboxOk;
    TakeEffect(s1);
    FrontMail(s1);
  }

  /**
   In any life, a `resume` by a worker that comes to its end leaves the process down if and only if a coroutine left its
   turn with the exception that exits the process, or the message it took was the kill order, or no coroutine is alive.
   */
  lemma DownExactly(main: Co, o: Orders, events: seq<Event>, turns: seq<Turn>)
    requires IsOrder(o) && Live(main, o, events).phase == Up
    ensures var s, l := Live(main, o, events).s, Live(main, o, events + [Resumes(turns)]);
      l.phase != Stuck ==>
        (l.phase == Gone <==> ExitedBetween(s, l.s) || KillTaken(s, l.s) || !exists c :: Alive(l.s, c))
  {
    hide Inv, ResumeProcess, ExitedBetween, KillTaken, Alive, IsOrder, Over;
    assert (events + [Resumes(turns)])[..|events|] == events;
    LiveKeeps(main, o, events);
    var s := Live(main, o, events).s;
    if ResumeProcess(s, o, turns).done {
      ResumeEnds(s, o, turns);
    }
  }

  lemma ResumeResult(s: State, o: Orders, turns: seq<Turn>)
    requires Ready(s) && IsOrder(o) && !s.past.exited && ResumeProcess(s, o, turns).done
    ensures var r := ResumeProcess(s, o, turns);
      r.result != Down ==>
        && (r.result == Break <==> Taken(r.s) == Taken(s) && r.s.mailbox == [])
        && (r.result == Resume <==> Taken(r.s) == Taken(s) + 1)
  {
    hide Balanced, InTurn, SessionsOk, ResponsesOk, ServerOk, Kept, Due, InboxOk, ExitedBetween, IsOrder;
    hide Dispatch, Exit, TakeMessage, Alive, Kills;
    var d := Dispatch(s, o, turns);
    DispatchEnds(s, o, turns);
    if d.alive && d.s.mailbox != [] {
      TakeEffect(d.s);
    }
  }

  /**
   In any life, a `resume` that comes to its end and does not leave the process down says `Break` if and only if it took
   no message and none is left, and `Resume` if and only if it took one, of whatever type.
   */
  lemma ResultExactly(main: Co, o: Orders, events: seq<Event>, turns: seq<Turn>)
    requires IsOrder(o) && Live(main, o, events).phase == Up
    requires var r := ResumeProcess(Live(main, o, events).s, o, turns); r.done && r.result != Down
    ensures var s := Live(main, o, events).s;
      var r := ResumeProcess(s, o, turns);
      && (r.result == Break <==> Taken(r.s) == Taken(s) && r.s.mailbox == [])
      && (r.result == Resume <==> Taken(r.s) == Taken(s) + 1)
  {
    hide Live, Inv, ResumeProcess, IsOrder;
    LiveKeeps(main, o, events);
    ResumeResult(Live(main, o, events).s, o, turns);
  }

  // ----- a response that goes astray -----

  const REQUESTS := Turn([], Requests(1))

  /** A response to the first request of a process, whose ticket is 0 and whose session is 1. */
  const ANSWER := Mail(5, 0xffff_ffff, false, NoException, 0)

  /** The only coroutine is queued, and owns session 1 if it has made a request before. */
  ghost predicate OnlyQueued(s: State, woken: bool) {
    && s.spawned == (if woken then [] else [0]) && s.woken == (if woken then [0] else [])
    && s.suspended == {} && s.blocked == map[] && s.zombies == [] && s.inbox == [] && s.server == None
    && s.exception == map[0 := NoException]
    && ((s.held == map[] && s.sessions == {}) || (s.held == map[0 := 1] && s.sessions == {1}))
  }

  /** The only coroutine is blocked on session 1. */
  ghost predicate OnlyBlocked(s: State) {
    && s.spawned == [] && s.woken == [] && s.suspended == {} && s.blocked == map[1 := 0] && s.zombies == []
    && s.inbox == [] && s.server == None && s.exception == map[0 := NoException] && s.held == map[0 := 1]
    && s.sessions == {1}
  }

  /** What the turn leaves of the state. */
  ghost predicate Requested(s: State, s': State) {
    && OnlyBlocked(s') && s'.mailbox == s.mailbox && s'.clock == s.clock + 1
    && s'.past.delivered == s.past.delivered && s'.past.tickets == s.past.tickets[s.clock := Ticket(0, 1)]
    && s'.past.open == s.past.open[1 := s.clock]
  }

  lemma RequestsNow(s: State, woken: bool)
    requires OnlyQueued(s, woken)
    ensures Requested(s, ResumeOne(Pop(s, woken), 0, REQUESTS, woken))
  {
    var s1 := Release(Pop(s, woken), 0);
    assert DoCalls(s1, []) == s1 && s1.sessions == {} && s1.held == map[];
    assert DoEnd(s1, 0, Requests(1)) == Block(Allocate(s1, 0, 1), 0, 1);
  }

  lemma RequestsOnce(s: State, woken: bool)
    requires OnlyQueued(s, woken)
    ensures var r := ResumeAll(s, woken, false, [REQUESTS]);
      r.done && !r.thrown && r.rest == [] && Requested(s, r.s)
  {
    hide ResumeOne;
    RequestsNow(s, woken);
  }

  lemma RunRequests(s: State, woken: bool)
    requires OnlyQueued(s, woken)
    ensures var r := Run(s, [REQUESTS]); r.done && !r.thrown && r.rest == [] && Requested(s, r.s)
  {
    hide ResumeOne, Release;
    RequestsOnce(s, woken);
    var a := ResumeAll(s, false, false, [REQUESTS]);
    var b := ResumeAll(a.s, true, false, a.rest);
    assert OnlyBlocked(b.s) && b.rest == [];
    assert Run(b.s, []) == Outcome(Sweep(b.s), [], true, false);
  }

  /** The response is taken, and wakes the coroutine. */
  lemma AnswerWakes(s: State)
    requires OnlyBlocked(s) && s.mailbox != [] && s.mailbox[0].session == 0xffff_ffff && s.mailbox[0].answers == 0
    requires s.mailbox[0].failure == NoException && 1 in s.past.open
    ensures var s' := TakeMessage(s);
      && OnlyQueued(s', true) && s'.mailbox == s.mailbox[1..] && s'.clock == s.clock
      && s'.past.tickets == s.past.tickets && s'.past.open == s.past.open
      && s'.past.delivered == s.past.delivered + [Delivery(0, Some(0), Some(s.past.open[1]))]
  {
  }

  /** One `resume` with a request, and one with nothing to run. */
  lemma ResumeRequests(s: State, woken: bool, o: Orders)
    requires OnlyQueued(s, woken)
    ensures var d := Dispatch(s, o, [REQUESTS]); d.done && d.alive && Requested(s, d.s)
  {
    hide Run;
    RunRequests(s, woken);
    assert 1 in Dispatch(s, o, [REQUESTS]).s.blocked;
  }

  lemma ResumeNothing(s: State, o: Orders)
    requires OnlyBlocked(s)
    ensures var d := Dispatch(s, o, []);
      && d.done && d.alive && OnlyBlocked(d.s) && d.s.mailbox == s.mailbox && d.s.past.delivered == s.past.delivered
      && d.s.clock == s.clock && d.s.past.tickets == s.past.tickets && d.s.past.open == s.past.open
  {
    assert 1 in s.blocked;
  }

  /**
   A request is answered twice, as an abort of a process does that is destroyed with the request noted and in its
   inbox, and the requester makes another request under the same session: the second response wakes it as if it were
   the response to that one.
   */
  lemma GoesAstray(o: Orders)
    ensures
      var s := Live(0, o, [Resumes([REQUESTS]), Pushed(ANSWER), Pushed(ANSWER), Resumes([]), Resumes([REQUESTS])]).s;
      && s.past.tickets == map[0 := Ticket(0, 1), 3 := Ticket(0, 1)]
      && s.past.delivered == [Delivery(0, Some(0), Some(0)), Delivery(0, Some(0), Some(3))]
  {
    hide Dispatch, TakeMessage, Exit;
    var e1, e2, e4 := Resumes([REQUESTS]), Pushed(ANSWER), Resumes([]);
    var es := [e1, e2, e2, e4, e1];
    assert es[..4] == [e1, e2, e2, e4] && [e1][..0] == [];
    assert Live(0, o, []) == Life(Init(0), Up);
    ResumeRequests(Init(0), false, o);
    var s1 := Live(0, o, [e1]).s;
    assert Live(0, o, [e1]).phase == Up && OnlyBlocked(s1) && s1.mailbox == [] && s1.clock == 1;
    assert [e1, e2][..1] == [e1] && [e1, e2, e2][..2] == [e1, e2] && [e1, e2, e2, e4][..3] == [e1, e2, e2];
    var s3 := Push(Push(s1, ANSWER), ANSWER);
    assert Live(0, o, [e1, e2]) == Life(Push(s1, ANSWER), Up);
    assert Live(0, o, [e1, e2, e2]) == Life(s3, Up);
    ResumeNothing(s3, o);
    AnswerWakes(Dispatch(s3, o, []).s);
    var s4 := Live(0, o, [e1, e2, e2, e4]).s;
    assert OnlyQueued(s4, true) && s4.clock == 3 && s4.past.delivered == [Delivery(0, Some(0), Some(0))];
    ResumeRequests(s4, true, o);
    AnswerWakes(Dispatch(s4, o, [REQUESTS]).s);
  }
}
