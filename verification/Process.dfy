/** One process, as the object whose methods update its fields: every method does what `ProcessModel` says. */
module Process {
  import opened Common
  import opened ProcessModel
  import Life = ProcessLife
  import Acts = ProcessActs

  lemma NoneInterrupted(s: State)
    ensures Interrupt(s, []) == s
  {
  }

  lemma OneInterrupted(s: State, cos: seq<Co>, co: Co)
    ensures Interrupt(s, cos + [co]) == InterruptOne(Interrupt(s, cos), co)
  {
    assert (cos + [co])[..|cos|] == cos;
  }

  class Process {
    const orders: Orders
    var spawned: seq<Co>
    var woken: seq<Co>
    var zombies: seq<Co>
    var suspended: set<Co>
    var blocked: map<Word, Co>
    var running: Option<Co>
    var exception: map<Co, Exception>
    var sessions: set<Word>
    var held: map<Co, Word>
    var mailbox: seq<Message>
    var inbox: seq<Message>
    var server: Option<Co>
    var requests: set<(Pid, Word)>
    var clock: nat
    ghost var past: Past

    ghost function Now(): State
      reads this
    {
      State(spawned, woken, zombies, suspended, blocked, exception, sessions, held, mailbox, inbox, server,
            requests, clock, past)
    }

    /** No coroutine runs. */
    ghost predicate Idle()
      reads this
    {
      running == None && IsOrder(orders)
    }

    constructor (main: Co, orders: Orders)
      requires IsOrder(orders)
      ensures Idle() && this.orders == orders && Now() == Init(main)
    {
      this.orders := orders;
      spawned, woken, zombies, suspended, blocked := [main], [], [], {}, map[];
      running, exception, sessions, held := None, map[main := NoException], {}, map[];
      mailbox, inbox, server, requests, clock := [], [], None, {}, 0;
      past := Past([], [], [], [main], [], [], [], {}, map[], map[], [], [], true, true, false, false);
    }

    // ----- calls that a running coroutine makes -----

    method PushMessage(mail: Mail)
      modifies this`mailbox, this`clock, this`past
      ensures Now() == Push(old(Now()), mail)
    {
      var m := Message(clock, mail.source, mail.session, mail.kill, mail.failure, mail.answers);
      past := Push(Now(), mail).past;
      mailbox := mailbox + [m];
      clock := clock + 1;
    }

    method Spawn(co: Co)
      modifies this`exception, this`spawned, this`past
      ensures Now() == ProcessModel.Spawn(old(Now()), co)
    {
      if co !in exception {
        exception := exception[co := NoException];
        spawned := spawned + [co];
        past := past.(queued := past.queued + [co]);
      }
    }

    method Wakeup(co: Co)
      modifies this`suspended, this`woken, this`past
      ensures Now() == ProcessModel.Wakeup(old(Now()), co)
    {
      if co in suspended {
        suspended := suspended - {co};
        woken := woken + [co];
        past := past.(rewoken := past.rewoken + [co]);
      }
    }

    method Respond(source: Pid, session: Word)
      modifies this`requests, this`past
      ensures Now() == ProcessModel.Respond(old(Now()), source, session)
    {
      past := past.(closed := past.closed + TakenWith(Now(), source, session));
      requests := requests - {(source, session)};
    }

    method TakeInbox()
      requires inbox != []
      modifies this`inbox, this`past
      ensures Now() == ProcessModel.TakeInbox(old(Now()))
    {
      past := past.(served := past.served + [inbox[0]]);
      inbox := inbox[1..];
    }

    method Perform(call: Call)
      modifies this
      ensures Now() == DoCall(old(Now()), call) && running == old(running) && Acts.Does(old(Now()), call, Now())
    {
      Acts.CallDoes(Now(), call);
      match call {
        case Spawns(co) => Spawn(co);
        case Wakes(co) => Wakeup(co);
        case Responds(source, session) => Respond(source, session);
        case TakesMessage =>
          if inbox != [] {
            TakeInbox();
          }
        case Arrives(mail) => PushMessage(mail);
      }
    }

    method PerformAll(calls: seq<Call>)
      modifies this
      ensures Now() == DoCalls(old(Now()), calls) && running == old(running)
    {
      hide DoCall;
      for i := 0 to |calls|
        invariant Now() == DoCalls(old(Now()), calls[..i]) && running == old(running)
      {
        assert calls[..i + 1][..i] == calls[..i];
        Perform(calls[i]);
      }
      assert calls[..|calls|] == calls;
    }

    // ----- how a coroutine switches back -----

    method Suspend()
      requires running.Some?
      modifies this`suspended
      ensures Now() == ProcessModel.Suspend(old(Now()), running.value)
    {
      suspended := suspended + {running.value};
    }

    method Block(session: Word)
      requires running.Some?
      modifies this`blocked
      ensures Now() == ProcessModel.Block(old(Now()), running.value, session)
    {
      blocked := blocked[session := running.value];
    }

    /** `new_session`, into the frame of the running coroutine. */
    method NewSession(session: Word)
      requires running.Some?
      modifies this`sessions, this`held, this`clock, this`past
      ensures Now() == Allocate(old(Now()), running.value, session)
    {
      past := Allocate(Now(), running.value, session).past;
      sessions := sessions + {session};
      held := held[running.value := session];
      clock := clock + 1;
    }

    /** `release_session`, when the frame is left. */
    method ReleaseSession(co: Co)
      modifies this`sessions, this`held
      ensures Now() == Release(old(Now()), co)
    {
      if co in held {
        sessions := sessions - {held[co]};
        held := held - {co};
      }
    }

    /** `yield` of the process. */
    method Pass(session: Word)
      requires running.Some? && IsSessionId(session) && session !in sessions
      modifies this
      ensures Now() == DoEnd(old(Now()), old(running.value), Passes(session)) && running == old(running)
    {
      ghost var start := Now();
      var ticket := clock;
      NewSession(session);
      PushMessage(Mail(0, SessionForResponse(session), false, NoException, ticket));
      Block(session);
    }

    /** `serve`: takes what is left in the inbox, and then waits for more. */
    method Serve()
      requires running.Some?
      modifies this`inbox, this`server, this`suspended, this`past
      ensures Now() == DoEnd(old(Now()), old(running.value), Serves)
    {
      while inbox != []
        invariant past.served + inbox == old(past.served + inbox)
        invariant Now() == old(Now()).(inbox := inbox, past := old(past).(served := past.served))
      {
        TakeInbox();
      }
      server := running;
      Suspend();
    }

    method SwitchBack(end: End)
      requires running.Some?
      modifies this
      ensures Now() == DoEnd(old(Now()), old(running.value), end) && running == old(running)
    {
      match end {
        case Requests(session) =>
          if IsSessionId(session) && session !in sessions {
            NewSession(session);
            Block(session);
          } else {
            exception := exception[running.value := OtherException];
          }
        case Passes(session) =>
          if IsSessionId(session) && session !in sessions {
            Pass(session);
          } else {
            exception := exception[running.value := OtherException];
          }
        case Blocks(session) =>
          Block(session);
          past := past.(raw := true);
        case Serves => Serve();
        case Suspends => Suspend();
        case Ends(e) => exception := exception[running.value := if e == NoException then CoroutineExit else e];
      }
    }

    /** The switch to a coroutine and back. */
    method Transfer(co: Co, turn: Turn, ghost fromWoken: bool)
      requires Idle()
      modifies this
      ensures Now() == DoTurn(old(Now()), co, turn, fromWoken) && running == Some(co)
    {
      hide DoCalls, DoEnd, Yields, Displaced;
      running := Some(co);
      ReleaseSession(co);
      PerformAll(turn.calls);
      ghost var s := Now();
      SwitchBack(turn.end);
      past := past.(ran := past.ran + [Ran(co, turn, fromWoken, Failure(old(Now()), co),
                                           Yields(s, turn.end), Displaced(s, turn.end), Taken(old(Now())))]);
    }

    // ----- running coroutines -----

    /** `resume` of a coroutine; whether it exits the process. */
    method Resume(co: Co, turn: Turn, exiting: bool, ghost fromWoken: bool) returns (thrown: bool)
      requires Idle()
      modifies this
      ensures Idle() && Now() == ResumeOne(old(Now()), co, turn, fromWoken)
      ensures thrown <==> Failure(Now(), co) == ProcessExit && !exiting
    {
      hide DoTurn;
      Transfer(co, turn, fromWoken);
      running := None;
      thrown := false;
      if co in exception && exception[co] != NoException {
        zombies := zombies + [co];
        thrown := exception[co] == ProcessExit && !exiting;
      }
    }

    /** `take_front` */
    method TakeFront(fromWoken: bool) returns (co: Co)
      requires Front(Now(), fromWoken) != []
      modifies this`spawned, this`woken
      ensures co == Front(old(Now()), fromWoken)[0] && Now() == Pop(old(Now()), fromWoken)
    {
      if fromWoken {
        co := woken[0];
        woken := woken[1..];
      } else {
        co := spawned[0];
        spawned := spawned[1..];
      }
    }

    method ResumeAll(fromWoken: bool, exiting: bool, turns: seq<Turn>)
      returns (rest: seq<Turn>, done: bool, thrown: bool)
      requires Idle()
      modifies this
      ensures Idle()
      ensures Outcome(Now(), rest, done, thrown) == ProcessModel.ResumeAll(old(Now()), fromWoken, exiting, turns)
    {
      hide ResumeOne, IsOrder;
      rest := turns;
      while (if fromWoken then woken else spawned) != []
        invariant Idle()
        invariant ProcessModel.ResumeAll(Now(), fromWoken, exiting, rest)
          == ProcessModel.ResumeAll(old(Now()), fromWoken, exiting, turns)
        decreases |rest|
      {
        if rest == [] {
          return rest, false, false;
        }
        var co := TakeFront(fromWoken);
        thrown := Resume(co, rest[0], exiting, fromWoken);
        rest := rest[1..];
        if thrown {
          return rest, true, true;
        }
      }
      return rest, true, false;
    }

    method SweepZombies()
      modifies this`zombies, this`past
      ensures Now() == Sweep(old(Now()))
    {
      for i := 0 to |zombies|
        invariant Now() == old(Now()).(past := old(past).(destroyed := old(past).destroyed + zombies[..i]))
      {
        past := past.(destroyed := past.destroyed + [zombies[i]]);
      }
      assert zombies[..|zombies|] == zombies;
      zombies := [];
    }

    method Run(turns: seq<Turn>) returns (rest: seq<Turn>, done: bool, thrown: bool)
      requires Idle()
      modifies this
      ensures Idle() && Outcome(Now(), rest, done, thrown) == ProcessModel.Run(old(Now()), turns)
    {
      hide IsOrder, Sweep, ProcessModel.WakeServer, ProcessModel.ResumeAll;
      rest := turns;
      while spawned != [] || woken != [] || (inbox != [] && server != None)
        invariant Idle() && ProcessModel.Run(Now(), rest) == ProcessModel.Run(old(Now()), turns)
        decreases |rest|, if server == None then 0 else 1
      {
        rest, done, thrown := ResumeAll(false, false, rest);
        if !done || thrown {
          return;
        }
        rest, done, thrown := ResumeAll(true, false, rest);
        if !done || thrown {
          return;
        }
        WakeServer();
      }
      SweepZombies();
      return rest, true, false;
    }

    method WakeServer()
      requires Idle()
      modifies this
      ensures Idle() && Now() == ProcessModel.WakeServer(old(Now()))
      ensures server == if old(HasMail(Now())) then None else old(server)
    {
      if inbox != [] && server != None {
        Wakeup(server.value);
        server := None;
      }
    }

    // ----- exiting -----

    method InterruptOne(co: Co)
      modifies this`woken, this`exception, this`past
      ensures Now() == ProcessModel.InterruptOne(old(Now()), co)
    {
      exception := exception[co := CoroutineExit];
      woken := woken + [co];
      past := past.(rewoken := past.rewoken + [co]);
    }

    method InterruptBlocked()
      requires IsOrder(orders)
      modifies this`woken, this`exception, this`blocked, this`clock, this`past
      ensures Now() == ProcessModel.InterruptBlocked(old(Now()), orders)
    {
      hide Interrupt, IsOrder;
      var keys := orders.keys(clock, blocked.Keys);
      Life.OrderIsSet(orders, clock, blocked.Keys);
      NoneInterrupted(Now());
      ghost var cos: seq<Co> := [];
      for i := 0 to |keys|
        invariant cos == BlockedAt(blocked, keys[..i]) && Now() == Interrupt(old(Now()), cos)
        invariant blocked == old(blocked) && clock == old(clock)
      {
        assert keys[i] in keys && keys[..i + 1][..i] == keys[..i];
        OneInterrupted(old(Now()), cos, blocked[keys[i]]);
        cos := cos + [blocked[keys[i]]];
        InterruptOne(blocked[keys[i]]);
      }
      assert keys[..|keys|] == keys;
      blocked := map[];
      clock := clock + 1;
    }

    method InterruptSuspended()
      modifies this`woken, this`exception, this`suspended, this`clock, this`past
      ensures Now() == ProcessModel.InterruptSuspended(old(Now()), orders)
    {
      hide Interrupt;
      var cos := orders.keys(clock, suspended);
      NoneInterrupted(Now());
      for i := 0 to |cos|
        invariant Now() == Interrupt(old(Now()), cos[..i]) && suspended == old(suspended) && clock == old(clock)
      {
        OneInterrupted(old(Now()), cos[..i], cos[i]);
        assert cos[..i + 1] == cos[..i] + [cos[i]];
        InterruptOne(cos[i]);
      }
      assert cos[..|cos|] == cos;
      suspended := {};
      clock := clock + 1;
    }

    method Abandon()
      modifies this`zombies, this`spawned, this`past
      ensures Now() == ProcessModel.Abandon(old(Now()))
    {
      zombies := zombies + spawned;
      past := past.(abandoned := past.abandoned + spawned);
      spawned := [];
    }

    method InterruptAll()
      requires IsOrder(orders)
      modifies this`woken, this`exception, this`blocked, this`suspended, this`clock, this`past
      ensures Now() == ProcessModel.InterruptAll(old(Now()), orders)
    {
      hide ProcessModel.InterruptSuspended, ProcessModel.InterruptBlocked, IsOrder;
      InterruptBlocked();
      InterruptSuspended();
    }

    method Exit(turns: seq<Turn>) returns (rest: seq<Turn>, done: bool)
      requires Idle()
      modifies this
      ensures Idle()
      ensures Outcome(Now(), rest, done, false) == ProcessModel.Exit(old(Now()), orders, turns)
    {
      hide ProcessModel.InterruptAll, Sweep, ProcessModel.Abandon, ProcessModel.ResumeAll, IsOrder;
      past := past.(exited := true);
      ghost var start := Now();
      rest := turns;
      while true
        invariant Idle() && Unwind(Now(), orders, rest) == Unwind(start, orders, turns)
        decreases |rest|
      {
        InterruptAll();
        if woken == [] {
          break;
        }
        var thrown: bool;
        rest, done, thrown := ResumeAll(true, true, rest);
        if !done {
          return;
        }
      }
      Abandon();
      SweepZombies();
      done := true;
    }

    /** Whether the process lives on. */
    method Dispatch(turns: seq<Turn>) returns (rest: seq<Turn>, done: bool, alive: bool)
      requires Idle()
      modifies this
      ensures Idle() && Dispatched(Now(), rest, done, alive) == ProcessModel.Dispatch(old(Now()), orders, turns)
    {
      hide ProcessModel.Run, ProcessModel.Exit;
      var thrown: bool;
      rest, done, thrown := Run(turns);
      if thrown {
        rest, done := Exit(rest);
        return rest, done, false;
      }
      alive := !(blocked == map[] && suspended == {});
    }

    // ----- messages -----

    method TakeResponse(m: Message)
      modifies this`blocked, this`woken, this`exception, this`past
      ensures Now() == ProcessModel.TakeResponse(old(Now()), m)
    {
      var session := SessionForResponse(m.session);
      ghost var latest := if session in past.open then Some(past.open[session]) else None;
      if session in blocked {
        var co := blocked[session];
        blocked := blocked - {session};
        if m.failure != NoException {
          exception := exception[co := m.failure];
        }
        woken := woken + [co];
        past := past.(rewoken := past.rewoken + [co],
                      delivered := past.delivered + [Delivery(m.answers, Some(co), latest)]);
      } else {
        past := past.(delivered := past.delivered + [Delivery(m.answers, None, latest)]);
      }
    }

    method TakeMessage() returns (m: Message)
      requires mailbox != []
      modifies this
      ensures m == old(mailbox)[0] && Now() == ProcessModel.TakeMessage(old(Now())) && running == old(running)
    {
      m := mailbox[0];
      mailbox := mailbox[1..];
      match TypeOf(m.session) {
        case Request =>
          requests := requests + {(m.source, m.session)};
          inbox := inbox + [m];
        case Response => TakeResponse(m);
        case Notify =>
          if !m.kill {
            inbox := inbox + [m];
          }
      }
    }

    method ResumeProcess(turns: seq<Turn>) returns (done: bool, result: ResumeResult)
      requires Idle()
      modifies this
      ensures Idle() && Resumed(Now(), done, result) == ProcessModel.ResumeProcess(old(Now()), orders, turns)
    {
      hide ProcessModel.Dispatch, ProcessModel.Exit, ProcessModel.TakeMessage;
      var rest, alive;
      rest, done, alive := Dispatch(turns);
      if !done || !alive {
        return done, Down;
      }
      if mailbox == [] {
        return true, Break;
      }
      var m := TakeMessage();
      if Kills(m) {
        rest, done := Exit(rest);
        return done, Down;
      }
      return true, ResumeResult.Resume;
    }

    // ----- the destructor -----

    /** `abort_request` for the requests in a queue. */
    method AbortQueue(q: seq<Message>)
      modifies this`past
      ensures Now() == old(Now()).(past := old(past).(aborts := old(past).aborts + RequestAborts(q)))
    {
      hide AbortOf;
      for i := 0 to |q|
        invariant Now() == old(Now()).(past := old(past).(aborts := old(past).aborts + RequestAborts(q[..i])))
      {
        assert q[..i + 1][..i] == q[..i];
        if TypeOf(q[i].session) == Request {
          past := past.(aborts := past.aborts + [AbortOf(q[i].source, q[i].session)]);
        }
      }
      assert q[..|q|] == q;
    }

    /** `abort_request` for the requests that are noted. */
    method AbortNoted(noted: seq<(Pid, Word)>)
      modifies this`past
      ensures Now() == old(Now()).(past := old(past).(aborts := old(past).aborts + AbortsOf(noted)))
    {
      for i := 0 to |noted|
        invariant Now() == old(Now()).(past := old(past).(aborts := old(past).aborts + AbortsOf(noted[..i])))
      {
        assert AbortsOf(noted[..i + 1]) == AbortsOf(noted[..i]) + [AbortOf(noted[i].0, noted[i].1)];
        past := past.(aborts := past.aborts + [AbortOf(noted[i].0, noted[i].1)]);
      }
      assert noted[..|noted|] == noted;
    }

    method Destroy()
      modifies this`past, this`inbox, this`mailbox
      ensures Now() == ProcessModel.Destroy(old(Now()), orders)
    {
      hide AbortsOf, RequestAborts;
      AbortNoted(orders.requests(requests));
      AbortQueue(inbox);
      inbox := [];
      AbortQueue(mailbox);
      mailbox := [];
    }
  }

  /** A life of a process: any messages from outside, and any user code whenever a worker resumes it. */
  method Live(main: Co, orders: Orders, events: seq<Event>) returns (p: Process, phase: Phase)
    requires IsOrder(orders)
    ensures fresh(p) && ProcessModel.Life(p.Now(), phase) == ProcessModel.Live(main, orders, events)
  {
    hide ProcessModel.ResumeProcess, IsOrder;
    p := new Process(main, orders);
    phase := Up;
    for i := 0 to |events|
      invariant fresh(p) && p.Idle() && p.orders == orders
      invariant ProcessModel.Life(p.Now(), phase) == ProcessModel.Live(main, orders, events[..i])
    {
      assert events[..i + 1][..i] == events[..i];
      match events[i] {
        case Pushed(mail) => p.PushMessage(mail);
        case Resumes(turns) =>
          if phase == Up {
            var done, result := p.ResumeProcess(turns);
            phase := if !done then Stuck else if result == Down then Gone else Up;
          }
      }
    }
    assert events[..|events|] == events;
  }
}
