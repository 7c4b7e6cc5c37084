/** What the acts of user code come to: how the state follows from the turns that were run. */
module ProcessActs {
  import opened Common
  import opened ProcessModel
  import opened ProcessLife
  import opened ProcessEnd

  // ----- a call -----

  /** `m` is what was pushed as `mail`. */
  predicate Carries(m: Message, mail: Mail) {
    && m.source == mail.source && m.session == mail.session && m.kill == mail.kill && m.failure == mail.failure
    && m.answers == mail.answers
  }

  /** What a call is for, and that it does nothing else to the coroutines, the requests and the messages. */
  ghost predicate Does(s: State, call: Call, s': State) {
    match call
    case Spawns(co) =>
      && s'.spawned == (if co in s.exception then s.spawned else s.spawned + [co])
      && Failure(s', co) == Failure(s, co) && s'.exception.Keys == s.exception.Keys + {co}
      && s' == s.(spawned := s'.spawned, exception := s'.exception, past := s'.past)
    case Wakes(co) =>
      && s'.suspended == s.suspended - {co}
      && s'.woken == (if co in s.suspended then s.woken + [co] else s.woken)
      && s' == s.(suspended := s'.suspended, woken := s'.woken, past := s'.past)
    case Responds(source, session) =>
      && s'.requests == s.requests - {(source, session)}
      && s' == s.(requests := s'.requests, past := s'.past)
    case TakesMessage =>
      && s'.past.served + s'.inbox == s.past.served + s.inbox
      && |s'.inbox| == (if s.inbox == [] then 0 else |s.inbox| - 1)
      && s' == s.(inbox := s'.inbox, past := s'.past)
    case Arrives(mail) =>
      && |s'.mailbox| == |s.mailbox| + 1 && s'.mailbox[..|s.mailbox|] == s.mailbox
      && Carries(s'.mailbox[|s.mailbox|], mail) && s.clock < s'.clock
      && s' == s.(mailbox := s'.mailbox, clock := s'.clock, past := s'.past)
  }

  lemma CallDoes(s: State, call: Call)
    ensures Does(s, call, DoCall(s, call))
  {
    if call.TakesMessage? && s.inbox != [] {
      assert s.inbox == [s.inbox[0]] + s.inbox[1..];
    }
  }

  // ----- where a coroutine is -----

  /** How its last turn ended, if it yielded. */
  function LastEnd(ran: seq<Ran>, c: Co): Option<End> {
    if ran == [] then None
    else
      var r := ran[|ran| - 1];
      if r.co != c then LastEnd(ran[..|ran| - 1], c) else if r.yielded then Some(r.turn.end) else None
  }

  lemma LastEndOn(ran: seq<Ran>, r: Ran, c: Co)
    ensures LastEnd(ran + [r], c) ==
      if r.co != c then LastEnd(ran, c) else if r.yielded then Some(r.turn.end) else None
  {
    assert (ran + [r])[..|ran|] == ran;
  }

  predicate EndsSuspended(end: Option<End>) {
    end.Some? && (end.value.Suspends? || end.value.Serves?)
  }

  predicate EndsBlocked(end: Option<End>, k: Word) {
    end.Some? && SessionOf(end.value) == Some(k)
  }

  /** A suspended coroutine has yielded by suspending, and a blocked one by blocking on that session. */
  ghost predicate PlacesOk(s: State) {
    && (forall c :: c in s.suspended ==> EndsSuspended(LastEnd(s.past.ran, c)))
    && (forall k :: k in s.blocked ==> EndsBlocked(LastEnd(s.past.ran, s.blocked[k]), k))
  }

  // ----- who was created -----

  /** The coroutines in `created`, and then those that the calls spawn and that did not exist. */
  function WithSpawned(created: seq<Co>, calls: seq<Call>): seq<Co> {
    if calls == [] then created
    else
      var before, call := WithSpawned(created, calls[..|calls| - 1]), calls[|calls| - 1];
      if call.Spawns? && call.co !in before then before + [call.co] else before
  }

  function Created(main: Co, ran: seq<Ran>): seq<Co> {
    if ran == [] then [main] else WithSpawned(Created(main, ran[..|ran| - 1]), ran[|ran| - 1].turn.calls)
  }

  lemma CreatedOn(main: Co, ran: seq<Ran>, r: Ran)
    ensures Created(main, ran + [r]) == WithSpawned(Created(main, ran), r.turn.calls)
  {
    assert (ran + [r])[..|ran|] == ran;
  }

  /** The coroutines that exist are those in `created`, and were put into the spawn queue in that order. */
  ghost predicate Exist(s: State, created: seq<Co>) {
    s.past.queued == created && forall c :: c in s.exception <==> c in created
  }

  // ----- which requests were answered -----

  /** A turn that began after message `i` was taken calls `response` for request `m`. */
  ghost predicate WasAnswered(ran: seq<Ran>, i: nat, m: Message) {
    exists n :: 0 <= n < |ran| && i < ran[n].taken && Responds(m.source, m.session) in ran[n].turn.calls
  }

  lemma AnsweredOn(ran: seq<Ran>, r: Ran, i: nat, m: Message)
    ensures WasAnswered(ran + [r], i, m)
      <==> WasAnswered(ran, i, m) || (i < r.taken && Responds(m.source, m.session) in r.turn.calls)
  {
    var ran' := ran + [r];
    if n :| 0 <= n < |ran| && i < ran[n].taken && Responds(m.source, m.session) in ran[n].turn.calls {
      assert ran'[n] == ran[n];
    }
    assert ran'[|ran|] == r;
  }

  /** A request that was taken is closed exactly if it was answered after that. */
  ghost predicate ClosedOk(s: State) {
    && (forall n :: 0 <= n < |s.past.ran| ==> s.past.ran[n].taken <= Taken(s))
    && (forall i :: 0 <= i < Taken(s) && TypeOf(s.past.pushed[i].session) == Request ==>
          (s.past.pushed[i] in s.past.closed <==> WasAnswered(s.past.ran, i, s.past.pushed[i])))
  }

  // ----- who owns a session -----

  /** The session that was allocated at the end of a turn. */
  function Allocated(end: Option<End>): Option<Word> {
    if end.Some? && (end.value.Requests? || end.value.Passes?) then Some(end.value.session) else None
  }

  /** A coroutine, but the one that runs, owns the session that it allocated to yield, and no other. */
  ghost predicate HeldOk(s: State, hand: Option<Co>) {
    forall c :: hand != Some(c) ==>
      (if c in s.held then Some(s.held[c]) else None) == Allocated(LastEnd(s.past.ran, c))
  }

  // ----- together -----

  ghost predicate ActedBut(main: Co, s: State, hand: Option<Co>) {
    && |s.mailbox| <= |s.past.pushed| && PlacesOk(s) && Exist(s, Created(main, s.past.ran)) && ClosedOk(s)
    && HeldOk(s, hand)
  }

  ghost predicate Acted(main: Co, s: State) {
    ActedBut(main, s, None)
  }

  /** Nothing that was recorded changes, and no coroutine is suspended or blocked that was not. */
  lemma ActedFrame(main: Co, s: State, s': State, hand: Option<Co>)
    requires Acted(main, s) && s'.mailbox == s.mailbox
    requires forall c :: hand != Some(c) ==>
      (c in s'.held <==> c in s.held) && (c in s.held ==> s'.held[c] == s.held[c])
    requires s'.past.pushed == s.past.pushed
    requires s'.past.ran == s.past.ran && s'.past.queued == s.past.queued && s'.past.closed == s.past.closed
    requires s'.exception.Keys == s.exception.Keys && s'.suspended <= s.suspended
    requires forall k :: k in s'.blocked ==> k in s.blocked && s'.blocked[k] == s.blocked[k]
    ensures ActedBut(main, s', hand)
  {
    hide Created, LastEnd, EndsSuspended, EndsBlocked, WasAnswered, Allocated;
  }

  // ----- the calls of a turn -----

  ghost predicate Closes(s: State, s': State, calls: seq<Call>, m: Message) {
    m in s'.past.closed <==> m in s.past.closed || Answering(m, calls)
  }

  /** What a turn leaves of the state, with `calls` the calls that were made. */
  ghost predicate After(s: State, s': State, created: seq<Co>, calls: seq<Call>) {
    && Follows(s, s') && Exist(s', WithSpawned(created, calls))
    && s'.suspended <= s.suspended && s'.blocked == s.blocked && s'.held == s.held
    && (forall i :: 0 <= i < Taken(s) && TypeOf(s.past.pushed[i].session) == Request ==>
          Closes(s, s', calls, s.past.pushed[i]))
  }

  predicate Answering(m: Message, calls: seq<Call>) {
    Responds(m.source, m.session) in calls
  }

  lemma CallCloses(s: State, call: Call, i: nat)
    requires RequestsOk(s) && i < Taken(s) && TypeOf(s.past.pushed[i].session) == Request
    ensures var m, s' := s.past.pushed[i], DoCall(s, call);
      m in s'.past.closed <==> m in s.past.closed || call == Responds(m.source, m.session)
  {
    hide RequestsOk;
    NotInMail(s, i);
  }

  lemma CallCreates(s: State, call: Call, created: seq<Co>)
    requires Exist(s, created)
    ensures
      Exist(DoCall(s, call), if call.Spawns? && call.co !in created then created + [call.co] else created)
  {
  }

  lemma CallEffect(s: State, call: Call)
    ensures var s' := DoCall(s, call);
      s'.suspended <= s.suspended && s'.blocked == s.blocked && s'.held == s.held
  {
  }

  lemma {:induction false} CallsAct(s: State, co: Co, started: seq<Co>, continued: seq<Co>, created: seq<Co>,
                                    calls: seq<Call>)
    requires RunInv(s, co, started, continued) && Exist(s, created)
    ensures After(s, DoCalls(s, calls), created, calls)
    decreases |calls|
  {
    hide RunInv, Exist, Answering, Follows;
    if calls == [] {
      SameFollows(s, s);
      assert forall m :: !Answering(m, []) by { NoCalls(); }
    } else {
      var init, call := calls[..|calls| - 1], calls[|calls| - 1];
      var s1 := DoCalls(s, init);
      CallsAct(s, co, started, continued, created, init);
      CallsKeep(s, co, started, continued, init);
      CallCreates(s1, call, WithSpawned(created, init));
      CallEffect(s1, call);
      CallFollows(s1, call, co);
      FollowsOn(s, s1, DoCall(s1, call));
      forall i | 0 <= i < Taken(s) && TypeOf(s.past.pushed[i].session) == Request
        ensures Closes(s, DoCall(s1, call), calls, s.past.pushed[i])
      {
        OneMoreCloses(s, s1, co, started, continued, created, calls, i);
      }
    }
  }

  lemma NoCalls()
    ensures forall m :: !Answering(m, [])
  {
  }

  lemma OneMoreCloses(s: State, s1: State, co: Co, started: seq<Co>, continued: seq<Co>, created: seq<Co>,
                      calls: seq<Call>, i: nat)
    requires calls != [] && After(s, s1, created, calls[..|calls| - 1]) && RunInv(s1, co, started, continued)
    requires i < Taken(s) && TypeOf(s.past.pushed[i].session) == Request && |s.mailbox| <= |s.past.pushed|
    ensures Closes(s, DoCall(s1, calls[|calls| - 1]), calls, s.past.pushed[i])
  {
    hide RequestsOk, Exist, DoCall;
    var call := calls[|calls| - 1];
    assert s1.past.pushed[i] == s.past.pushed[i];
    CallCloses(s1, call, i);
    assert calls == calls[..|calls| - 1] + [call];
  }

  // ----- a turn -----

  lemma EndActs(s: State, co: Co, end: End)
    requires co in s.exception
    ensures var s' := DoEnd(s, co, end);
      && s'.past.closed == s.past.closed && s'.past.queued == s.past.queued && s'.exception.Keys == s.exception.Keys
  {
    hide Allocate, Failure;
    if end.Requests? || end.Passes? {
      AllocateActs(s, co, end.session);
    }
  }

  lemma AllocateActs(s: State, co: Co, k: Word)
    ensures var s' := Allocate(s, co, k);
      && s'.past.closed == s.past.closed && s'.past.queued == s.past.queued && s'.exception == s.exception
      && s'.held == s.held[co := k]
  {
  }

  /** Only those that allocate a session own one more. */
  lemma EndHeld(s: State, co: Co, end: End)
    ensures DoEnd(s, co, end).held ==
      if Yields(s, end) && Allocated(Some(end)).Some? then s.held[co := Allocated(Some(end)).value] else s.held
  {
    hide Allocate, Failure;
    if end.Requests? || end.Passes? {
      AllocateActs(s, co, end.session);
    }
  }

  lemma FinishPlaces(s: State, co: Co, r: Ran)
    requires PlacesOk(s) && Balanced(s, Some(co)) && Describes(s, co, r)
    ensures PlacesOk(Finish(s, co, r))
  {
    hide Balanced, DoEnd, Yields, LastEnd;
    EndEffect(s, co, r.turn.end);
    HandNotBlocked(s, co);
    var s' := Finish(s, co, r);
    forall c
      ensures LastEnd(s'.past.ran, c) ==
        if r.co != c then LastEnd(s.past.ran, c) else if r.yielded then Some(r.turn.end) else None
    {
      LastEndOn(s.past.ran, r, c);
    }
    YieldsOnce(s, r.turn.end);
  }

  lemma FinishHeld(s: State, co: Co, r: Ran)
    requires HeldOk(s, Some(co)) && co !in s.held && Describes(s, co, r)
    ensures HeldOk(Finish(s, co, r), None)
  {
    hide DoEnd, Yields, LastEnd, Allocated;
    EndHeld(s, co, r.turn.end);
    EndEffect(s, co, r.turn.end);
    var s' := Finish(s, co, r);
    NothingAllocated();
    forall c
      ensures (if c in s'.held then Some(s'.held[c]) else None) == Allocated(LastEnd(s'.past.ran, c))
    {
      LastEndOn(s.past.ran, r, c);
    }
  }

  lemma NothingAllocated()
    ensures Allocated(None) == None
  {
  }

  /** Who yields without blocking suspends. */
  lemma YieldsOnce(s: State, end: End)
    ensures Yields(s, end) && SessionOf(end).None? ==> EndsSuspended(Some(end))
  {
  }

  lemma FinishCloses(s: State, s1: State, created: seq<Co>, r: Ran, s': State)
    requires |s.mailbox| <= |s.past.pushed| && ClosedOk(s) && After(s, s1, created, r.turn.calls) && r.taken == Taken(s)
    requires Follows(s1, s') && s'.past.closed == s1.past.closed && s'.past.ran == s.past.ran + [r]
    ensures ClosedOk(s')
  {
    hide WasAnswered, Exist;
    forall i | 0 <= i < Taken(s') && TypeOf(s'.past.pushed[i].session) == Request
      ensures s'.past.pushed[i] in s'.past.closed <==> WasAnswered(s'.past.ran, i, s'.past.pushed[i])
    {
      assert s'.past.pushed[i] == s1.past.pushed[i] == s.past.pushed[i];
      AnsweredOn(s.past.ran, r, i, s.past.pushed[i]);
      assert Closes(s, s1, r.turn.calls, s.past.pushed[i]);
    }
  }

  lemma TurnActs(main: Co, s: State, woken: bool, turn: Turn)
    requires Ready(s) && Front(s, woken) != [] && Acted(main, s)
    ensures Acted(main, ResumeOne(Pop(s, woken), Front(s, woken)[0], turn, woken))
  {
    hide Balanced, SessionsOk, RequestsOk, ResponsesOk, ServerOk, PlacesOk, Exist, ClosedOk, HeldOk, Created;
    hide Release, Yields, Displaced, DoEnd, DoCalls, Finish;
    var co, s0 := Front(s, woken)[0], Start(s, woken);
    var started := Cos(s.past.ran, false) + if woken then [] else [co];
    var continued := Cos(s.past.ran, true) + if woken then [co] else [];
    var created := Created(main, s.past.ran);
    StartKeeps(s, woken);
    StartActs(main, s, woken);
    CallsAct(s0, co, started, continued, created, turn.calls);
    CallsKeep(s0, co, started, continued, turn.calls);
    CallsLeave(s0, turn.calls, co);
    var s1 := DoCalls(s0, turn.calls);
    var r := Entry(Pop(s, woken), s1, co, turn, woken);
    EndOfTurn(main, s0, s1, co, created, r);
    ResumeOneIs(s, woken, turn);
  }

  lemma StartActs(main: Co, s: State, woken: bool)
    requires Acted(main, s) && Front(s, woken) != []
    ensures var co := Front(s, woken)[0];
      && ActedBut(main, Start(s, woken), Some(co)) && co !in Start(s, woken).held
      && Taken(Pop(s, woken)) == Taken(s) == Taken(Start(s, woken))
  {
    hide Acted;
    ReleaseLeaves(Pop(s, woken), Front(s, woken)[0]);
    ActedFrame(main, s, Start(s, woken), Some(Front(s, woken)[0]));
  }

  lemma EndOfTurn(main: Co, s: State, s1: State, co: Co, created: seq<Co>, r: Ran)
    requires ActedBut(main, s, Some(co)) && co !in s.held
    requires created == Created(main, s.past.ran) && After(s, s1, created, r.turn.calls)
    requires Balanced(s1, Some(co)) && Describes(s1, co, r) && r.taken == Taken(s) && s1.past.ran == s.past.ran
    ensures Acted(main, Finish(s1, co, r))
  {
    hide Balanced, LastEnd, EndsBlocked, EndsSuspended, ClosedOk, Exist, HeldOk, DoEnd, Yields, Created;
    hide WithSpawned;
    var s' := Finish(s1, co, r);
    EndFollows(s1, co, r.turn.end);
    EndActs(s1, co, r.turn.end);
    EndEffect(s1, co, r.turn.end);
    FinishPlaces(s1, co, r);
    HeldFrame(s, s1, Some(co));
    FinishHeld(s1, co, r);
    FinishCloses(s, s1, created, r, s');
    CreatedOn(main, s.past.ran, r);
    ExistFrame(s1, s', WithSpawned(created, r.turn.calls));
  }

  lemma HeldFrame(s: State, s': State, hand: Option<Co>)
    requires HeldOk(s, hand) && s'.held == s.held && s'.past.ran == s.past.ran
    ensures HeldOk(s', hand)
  {
  }

  lemma ExistFrame(s: State, s': State, created: seq<Co>)
    requires Exist(s, created) && s'.past.queued == s.past.queued && s'.exception.Keys == s.exception.Keys
    ensures Exist(s', created)
  {
  }

  // ----- the loops -----

  lemma {:induction false} ResumeAllActs(main: Co, s: State, woken: bool, exiting: bool, turns: seq<Turn>)
    requires Ready(s) && Acted(main, s)
    ensures Acted(main, ResumeAll(s, woken, exiting, turns).s)
    decreases |turns|
  {
    hide Inv, Acted, ResumeOne, Pop;
    if Front(s, woken) == [] || turns == [] {
    } else {
      var s1 := ResumeOne(Pop(s, woken), Front(s, woken)[0], turns[0], woken);
      TurnActs(main, s, woken, turns[0]);
      ResumeOneKeeps(s, woken, turns[0]);
      ResumeAllActs(main, s1, woken, exiting, turns[1..]);
    }
  }

  lemma SweepActs(main: Co, s: State)
    requires Acted(main, s)
    ensures Acted(main, Sweep(s)) && Acted(main, WakeServer(s)) && Acted(main, Sweep(Abandon(s)))
    ensures Acted(main, s.(past := s.past.(exited := true)))
  {
    hide PlacesOk, Exist, ClosedOk, HeldOk, Created, Wakeup;
    WakeupEffect(s, if s.server == None then 0 else s.server.value);
    ActedFrame(main, s, Sweep(s), None);
    ActedFrame(main, s, WakeServer(s), None);
    ActedFrame(main, s, Sweep(Abandon(s)), None);
    ActedFrame(main, s, s.(past := s.past.(exited := true)), None);
  }

  lemma {:induction false} RunActs(main: Co, s: State, turns: seq<Turn>)
    requires Ready(s) && Acted(main, s)
    ensures Acted(main, Run(s, turns).s)
    decreases |turns|, if s.server == None then 0 else 1
  {
    hide Inv, Acted, WakeServer, Sweep, ResumeAll;
    if s.spawned == [] && s.woken == [] && !HasMail(s) {
      SweepActs(main, s);
    } else {
      var a := ResumeAll(s, false, false, turns);
      ResumeAllKeeps(s, false, false, turns);
      ResumeAllActs(main, s, false, false, turns);
      if a.done && !a.thrown {
        var b := ResumeAll(a.s, true, false, a.rest);
        ResumeAllKeeps(a.s, true, false, a.rest);
        ResumeAllActs(main, a.s, true, false, a.rest);
        if b.done && !b.thrown {
          WakeServerKeeps(b.s);
          SweepActs(main, b.s);
          RunGoesOn(s, turns, b.s, b.rest);
          RunActs(main, WakeServer(b.s), b.rest);
        }
      }
    }
  }

  lemma InterruptActs(main: Co, s: State, o: Orders)
    requires Acted(main, s) && Balanced(s, None) && IsOrder(o)
    ensures Acted(main, InterruptAll(s, o))
  {
    hide PlacesOk, Exist, ClosedOk, HeldOk, Created, InterruptBlocked, InterruptSuspended, IsOrder, Balanced;
    InterruptAllEffect(s, o);
    InterruptedExist(s, o);
    ActedFrame(main, s, InterruptAll(s, o), None);
  }

  lemma InterruptedExist(s: State, o: Orders)
    requires Balanced(s, None) && IsOrder(o)
    ensures InterruptAll(s, o).exception.Keys == s.exception.Keys
  {
    hide Interrupt, BlockedAt;
    var s1 := InterruptBlocked(s, o);
    var keys := o.keys(s.clock, s.blocked.Keys);
    InterruptEffect(s, BlockedAt(s.blocked, keys));
    InterruptEffect(s1, o.keys(s1.clock, s1.suspended));
    OrderIsSet(o, s1.clock, s1.suspended);
    forall c
      ensures c in s.suspended || c in BlockedAt(s.blocked, keys) ==> c in s.exception
    {
      assert Balance(s, None, c);
      AllBlocked(s.blocked, keys, c);
      assert c in BlockedAt(s.blocked, keys) <==> c in multiset(BlockedAt(s.blocked, keys));
    }
  }

  lemma {:induction false} UnwindActs(main: Co, s: State, o: Orders, turns: seq<Turn>)
    requires Ready(s) && s.past.exited && IsOrder(o) && Acted(main, s)
    ensures Acted(main, Unwind(s, o, turns).s)
    decreases |turns|
  {
    hide Acted, InTurn, Balanced, SessionsOk, RequestsOk, ResponsesOk, ServerOk, IsOrder;
    hide InterruptAll, ResumeAll, Abandon, Sweep;
    InterruptKeeps(s, o);
    InterruptActs(main, s, o);
    var i := InterruptAll(s, o);
    if i.woken == [] {
      SweepActs(main, i);
    } else {
      ResumeAllKeeps(i, true, true, turns);
      ResumeAllActs(main, i, true, true, turns);
      var r := ResumeAll(i, true, true, turns);
      if r.done {
        UnwindActs(main, r.s, o, r.rest);
      }
    }
  }

  // ----- messages -----

  lemma TakeCloses(s: State)
    requires RequestsOk(s) && ClosedOk(s) && s.mailbox != []
    ensures ClosedOk(TakeMessage(s))
  {
    hide WasAnswered, InboxOk, Kept, Unanswered, TakeMessage;
    TakeEffect(s);
    FrontMail(s);
    var s', n := TakeMessage(s), Taken(s);
    assert !WasAnswered(s.past.ran, n, s.past.pushed[n]) by { NoneSince(s.past.ran, n, s.past.pushed[n]); }
    assert s.mailbox[0] in s.mailbox;
  }

  lemma NoneSince(ran: seq<Ran>, n: nat, m: Message)
    requires forall k :: 0 <= k < |ran| ==> ran[k].taken <= n
    ensures !WasAnswered(ran, n, m)
  {
  }

  lemma TakeActs(main: Co, s: State)
    requires Ready(s) && Acted(main, s) && s.mailbox != []
    ensures Acted(main, TakeMessage(s))
  {
    hide InTurn, SessionsOk, ResponsesOk, ServerOk, ClosedOk, HeldOk, Created, LastEnd, EndsBlocked, EndsSuspended;
    hide TakeMessage;
    TakeCloses(s);
    TakeEffect(s);
    UnblockEffect(s);
    FrontMail(s);
    var s' := TakeMessage(s);
    if Unblocks(s) {
      BlockedCreated(s, SessionForResponse(s.mailbox[0].session));
    }
    assert s'.past.queued == s.past.queued && s'.exception.Keys == s.exception.Keys;
    HeldFrame(s, s', None);
  }

  lemma PushActs(main: Co, s: State, mail: Mail)
    requires Acted(main, s)
    ensures Acted(main, Push(s, mail))
  {
    hide Created, LastEnd, EndsBlocked, EndsSuspended, WasAnswered;
    var s' := Push(s, mail);
    forall i | 0 <= i < Taken(s') && TypeOf(s'.past.pushed[i].session) == Request
      ensures s'.past.pushed[i] in s'.past.closed <==> WasAnswered(s'.past.ran, i, s'.past.pushed[i])
    {
      assert s'.past.pushed[i] == s.past.pushed[i];
    }
  }

  // ----- over every life -----

  lemma ExitActs(main: Co, s: State, o: Orders, turns: seq<Turn>)
    requires Ready(s) && IsOrder(o) && Acted(main, s)
    ensures Acted(main, Exit(s, o, turns).s)
  {
    hide Acted, Balanced, SessionsOk, RequestsOk, IsOrder, Unwind;
    var s' := s.(past := s.past.(exited := true));
    SameBalanced(s, s', None);
    SessionsFrame(s, s');
    RequestsFrame(s, s');
    SweepActs(main, s);
    UnwindActs(main, s', o, turns);
  }

  lemma DispatchActs(main: Co, s: State, o: Orders, turns: seq<Turn>)
    requires Ready(s) && IsOrder(o) && Acted(main, s)
    ensures Acted(main, Dispatch(s, o, turns).s)
  {
    hide Acted, Inv, IsOrder, Run, Exit;
    var r := Run(s, turns);
    RunKeeps(s, turns);
    RunActs(main, s, turns);
    if r.thrown {
      ExitActs(main, r.s, o, r.rest);
    }
  }

  lemma ResumeProcessActs(main: Co, s: State, o: Orders, turns: seq<Turn>)
    requires Ready(s) && IsOrder(o) && !s.past.exited && Acted(main, s)
    ensures Acted(main, ResumeProcess(s, o, turns).s)
  {
    hide Acted, Inv, IsOrder, Dispatch, Exit, TakeMessage;
    var d := Dispatch(s, o, turns);
    DispatchKeeps(s, o, turns);
    DispatchActs(main, s, o, turns);
    if d.done && d.alive && d.s.mailbox != [] {
      TakeKeepsReady(d.s);
      TakeActs(main, d.s);
      if Kills(d.s.mailbox[0]) {
        ExitActs(main, TakeMessage(d.s), o, d.rest);
      }
    }
  }

  lemma {:induction false} LiveActs(main: Co, o: Orders, events: seq<Event>)
    requires IsOrder(o)
    ensures Acted(main, Live(main, o, events).s)
  {
    hide Inv, Acted, IsOrder, ResumeProcess, Over, Push;
    if events == [] {
      InitActs(main);
    } else {
      var init, e := events[..|events| - 1], events[|events| - 1];
      LiveActs(main, o, init);
      LiveKeeps(main, o, init);
      var l := Live(main, o, init);
      if e.Pushed? {
        PushActs(main, l.s, e.mail);
      } else if l.phase == Up {
        ResumeProcessActs(main, l.s, o, e.turns);
      }
    }
  }

  lemma InitActs(main: Co)
    ensures Acted(main, Init(main))
  {
  }

  // ----- what it comes to -----

  /** A request that was taken is answered exactly if a turn after that called `response` for it. */
  lemma ClosedExactly(main: Co, o: Orders, events: seq<Event>, i: nat)
    requires IsOrder(o)
    requires var s := Live(main, o, events).s; i < Taken(s) && TypeOf(s.past.pushed[i].session) == Request
    ensures var s := Live(main, o, events).s;
      s.past.pushed[i] in s.past.closed <==> WasAnswered(s.past.ran, i, s.past.pushed[i])
  {
    hide Live, IsOrder, WasAnswered;
    LiveActs(main, o, events);
  }

  /** A source and session are noted exactly if a request with them was taken that no turn has answered since. */
  lemma NotedByActs(main: Co, o: Orders, events: seq<Event>, r: (Pid, Word))
    requires IsOrder(o)
    ensures var s := Live(main, o, events).s;
      r in s.requests <==> exists i ::
        0 <= i < Taken(s) && IsRequest(s.past.pushed[i], r) && !WasAnswered(s.past.ran, i, s.past.pushed[i])
  {
    hide Live, IsOrder, WasAnswered, RequestsOk, PlacesOk, Exist;
    LiveActs(main, o, events);
    LiveRequests(main, o, events);
    var s := Live(main, o, events).s;
    NotedExactly(s, r);
    if i :| 0 <= i < Taken(s) && IsRequest(s.past.pushed[i], r) && !WasAnswered(s.past.ran, i, s.past.pushed[i]) {
      assert s.past.pushed[i] !in s.past.closed;
      assert Unanswered(s, r);
    }
    if Unanswered(s, r) {
      var i :| 0 <= i < |s.past.pushed| - |s.mailbox| && IsRequest(s.past.pushed[i], r)
        && s.past.pushed[i] !in s.past.closed;
      assert !WasAnswered(s.past.ran, i, s.past.pushed[i]);
    }
  }

  /**
   The coroutines of a process are its first and those that its turns spawned, each once, and they were queued in that
   order.
   */
  lemma SpawnedExactly(main: Co, o: Orders, events: seq<Event>)
    requires IsOrder(o)
    ensures var s := Live(main, o, events).s;
      && Created(main, s.past.ran) == Cos(s.past.ran, false) + s.past.abandoned + s.spawned
      && (forall c :: c in s.exception <==> c in Created(main, s.past.ran))
  {
    hide Live, IsOrder, Created, Cos;
    LiveActs(main, o, events);
    ServedInOrder(main, o, events);
  }

  /** Whoever is suspended has yielded by that, and whoever is blocked by blocking on its session. */
  lemma PlacedByLastTurn(main: Co, o: Orders, events: seq<Event>)
    requires IsOrder(o)
    ensures var s := Live(main, o, events).s;
      && (forall c :: c in s.suspended ==> EndsSuspended(LastEnd(s.past.ran, c)))
      && (forall k :: k in s.blocked ==> EndsBlocked(LastEnd(s.past.ran, s.blocked[k]), k))
  {
    hide Live, IsOrder, LastEnd, EndsSuspended, EndsBlocked;
    LiveActs(main, o, events);
  }

  lemma LiveSessions(main: Co, o: Orders, events: seq<Event>)
    requires IsOrder(o)
    ensures var s := Live(main, o, events).s; Owned(s.held, s.sessions)
  {
    hide Live, IsOrder, Owned;
    LiveKeeps(main, o, events);
  }

  /** A session id is in use exactly as long as the coroutine that allocated it to yield has not run since. */
  lemma SessionsExactly(main: Co, o: Orders, events: seq<Event>, k: Word)
    requires IsOrder(o)
    ensures var s := Live(main, o, events).s;
      k in s.sessions <==> exists c :: Allocated(LastEnd(s.past.ran, c)) == Some(k)
  {
    hide Live, IsOrder, LastEnd, Allocated, PlacesOk, Exist, ClosedOk;
    LiveActs(main, o, events);
    LiveSessions(main, o, events);
    var s := Live(main, o, events).s;
    if k in s.sessions {
      var c :| c in s.held && s.held[c] == k;
      assert Allocated(LastEnd(s.past.ran, c)) == Some(k);
    }
    if c :| Allocated(LastEnd(s.past.ran, c)) == Some(k) {
      assert c in s.held && s.held[c] == k;
    }
  }

  /** A message that is pushed is last in the mailbox, whatever the process has come to. */
  lemma PushedArrives(main: Co, o: Orders, events: seq<Event>, mail: Mail)
    ensures var l, l' := Live(main, o, events), Live(main, o, events + [Pushed(mail)]);
      l'.phase == l.phase && Does(l.s, Arrives(mail), l'.s)
  {
    assert (events + [Pushed(mail)])[..|events|] == events;
    CallDoes(Live(main, o, events).s, Arrives(mail));
  }
}
