/**
 What one process does, as functions on values: its coroutines and the containers they move between, the sessions
 they block on, and the requests it has to answer. User code is any list of turns.
 */
module ProcessModel {
  import opened Common

  type Pid = nat

  const WORD32 := 0x1_0000_0000
  const SIGN32 := 0x8000_0000

  /** What the `_exception` of a coroutine holds; only the kind matters. */
  datatype Exception = NoException | CoroutineExit | ProcessExit | OtherException

  datatype MessageType = Notify | Request | Response

  /**
   A message; its content may be the kill order, or an exception for a request that failed. The rest only names
   things: `id` the message, and `answers` the ticket of the request that a response is meant for.
   */
  datatype Message = Message(id: nat, source: Pid, session: Word, kill: bool, failure: Exception, answers: nat)

  datatype ResumeResult = Resume | Down | Break

  // ----- sessions on the wire -----

  function SessionForResponse(session: Word): Word {
    (WORD32 - session) % WORD32
  }

  function TypeOf(session: Word): MessageType {
    if 0 < session < SIGN32 then Request else if session == 0 then Notify else Response
  }

  /**
   A response names the session it answers: negation undoes itself, and it turns a request into a response
   exactly for the ids that are allocated and for 2^31, which is its own negation.
   */
  lemma ResponseRoundTrip(session: Word)
    ensures SessionForResponse(SessionForResponse(session)) == session
    ensures TypeOf(SessionForResponse(session)) == Response <==> IsSessionId(session) || session == SIGN32
    ensures IsSessionId(session) ==> TypeOf(session) == Request
    ensures SessionForResponse(session) == session <==> session == 0 || session == SIGN32
    ensures (session + SessionForResponse(session)) % WORD32 == 0
  {
  }

  // ----- user code -----

  /** What a coroutine may do while it runs; `Arrives` is a message pushed meanwhile, by itself or by any thread. */
  datatype Call =
    | Spawns(co: Co)
    | Wakes(co: Co)
    | Responds(source: Pid, session: Word)
    | TakesMessage
    | Arrives(mail: Mail)

  /** A message before it is pushed. */
  datatype Mail = Mail(source: Pid, session: Word, kill: bool, failure: Exception, answers: nat)

  /**
   How it switches back: blocked on a session it allocated for a request, or allocated and answered itself in
   `yield`, or on any other; waiting in `serve` for the inbox to fill; suspended; or at the end of its body with the
   exception that ended it.
   */
  datatype End =
    | Requests(session: Word)
    | Passes(session: Word)
    | Blocks(session: Word)
    | Serves
    | Suspends
    | Ends(e: Exception)

  /** The body of a coroutine from one switch to the next. */
  datatype Turn = Turn(calls: seq<Call>, end: End)

  // ----- the state -----

  /** A request by a coroutine that waits for the response. */
  datatype Ticket = Ticket(co: Co, session: Word)

  /**
   One turn that was run: of which coroutine, from which queue, the exception that had been delivered to it when the
   turn began, whether it yielded at the end, which coroutine lost its place to it, and how many messages had been taken
   from the mailbox.
   */
  datatype Ran = Ran(co: Co, turn: Turn, woken: bool, before: Exception, yielded: bool, displaced: Option<Co>,
                     taken: int)

  /** A response that was taken: the ticket it answers, the coroutine it woke, and the latest ticket of the session. */
  datatype Delivery = Delivery(ticket: nat, woken: Option<Co>, latest: Option<nat>)

  /**
   Histories: the coroutines destroyed, the abort messages sent, the turns run, the coroutines ever put into the
   spawn and the wakeup queue, those abandoned, the messages pushed, the requests answered, the tickets with the
   latest one of each session, the responses taken, and the messages that left the inbox. `known`: every response
   answers a request that was made. `honest`: and no two the same. `raw`: user code has blocked on a session it did
   not allocate for that. `exited`: the process has exited.
   */
  datatype Past = Past(destroyed: seq<Co>, aborts: seq<(Pid, Word)>, ran: seq<Ran>, queued: seq<Co>, rewoken: seq<Co>,
                       abandoned: seq<Co>, pushed: seq<Message>, closed: set<Message>, tickets: map<nat, Ticket>,
                       open: map<Word, nat>, delivered: seq<Delivery>, served: seq<Message>, known: bool, honest: bool,
                       raw: bool, exited: bool)

  /** The fields of a process. `held` is the `Session` in the frame of a coroutine, `clock` gives out names. */
  datatype State = State(spawned: seq<Co>, woken: seq<Co>, zombies: seq<Co>, suspended: set<Co>, blocked: map<Word, Co>,
                         exception: map<Co, Exception>, sessions: set<Word>, held: map<Co, Word>, mailbox: seq<Message>,
                         inbox: seq<Message>, server: Option<Co>, requests: set<(Pid, Word)>, clock: nat, past: Past)

  /** A process with its first coroutine. */
  function Init(main: Co): State {
    State([main], [], [], {}, map[], map[main := NoException], {}, map[], [], [], None, {}, 0,
          Past([], [], [], [main], [], [], [], {}, map[], map[], [], [], true, true, false, false))
  }

  // ----- calls -----

  function Failure(s: State, co: Co): Exception {
    if co in s.exception then s.exception[co] else NoException
  }

  /** The response `m` answers a request that was made. */
  predicate Names(s: State, m: Message) {
    m.answers in s.past.tickets && SessionForResponse(m.session) == s.past.tickets[m.answers].session
  }

  /** And nobody has answered it. */
  predicate Answers(s: State, m: Message) {
    && Names(s, m)
    && forall i :: 0 <= i < |s.past.pushed| && TypeOf(s.past.pushed[i].session) == Response ==>
        s.past.pushed[i].answers != m.answers
  }

  function Push(s: State, mail: Mail): State {
    var m := Message(s.clock, mail.source, mail.session, mail.kill, mail.failure, mail.answers);
    s.(mailbox := s.mailbox + [m], clock := s.clock + 1,
       past := s.past.(pushed := s.past.pushed + [m],
                       known := s.past.known && (TypeOf(m.session) == Response ==> Names(s, m)),
                       honest := s.past.honest && (TypeOf(m.session) == Response ==> Answers(s, m))))
  }

  function Spawn(s: State, co: Co): State {
    if co in s.exception then s
    else s.(exception := s.exception[co := NoException], spawned := s.spawned + [co],
            past := s.past.(queued := s.past.queued + [co]))
  }

  /** `wakeup`: only a suspended coroutine can be woken. */
  function Wakeup(s: State, co: Co): State {
    if co in s.suspended
    then s.(suspended := s.suspended - {co}, woken := s.woken + [co], past := s.past.(rewoken := s.past.rewoken + [co]))
    else s
  }

  /** How many messages have been taken from the mailbox. */
  function Taken(s: State): int {
    |s.past.pushed| - |s.mailbox|
  }

  /** The requests with a source and session that have left the mailbox. */
  ghost function TakenWith(s: State, source: Pid, session: Word): set<Message> {
    set m | m in s.past.pushed && TypeOf(m.session) == Request && m !in s.mailbox && m.source == source
      && m.session == session
  }

  /** `response`: the answer is sent to the requester and the request is closed. */
  ghost function Respond(s: State, source: Pid, session: Word): State {
    s.(requests := s.requests - {(source, session)},
       past := s.past.(closed := s.past.closed + TakenWith(s, source, session)))
  }

  /** `serve` takes the first message of the inbox and gives it to its handler. */
  function TakeInbox(s: State): State
    requires s.inbox != []
  {
    s.(inbox := s.inbox[1..], past := s.past.(served := s.past.served + [s.inbox[0]]))
  }

  ghost function DoCall(s: State, call: Call): State {
    match call
    case Spawns(co) => Spawn(s, co)
    case Wakes(co) => Wakeup(s, co)
    case Responds(source, session) => Respond(s, source, session)
    case TakesMessage => if s.inbox == [] then s else TakeInbox(s)
    case Arrives(mail) => Push(s, mail)
  }

  ghost function DoCalls(s: State, calls: seq<Call>): State {
    if calls == [] then s else DoCall(DoCalls(s, calls[..|calls| - 1]), calls[|calls| - 1])
  }

  // ----- one turn -----

  /** The `Session` of the call a coroutine blocked in goes out of scope when the coroutine runs on. */
  function Release(s: State, co: Co): State {
    if co in s.held then s.(sessions := s.sessions - {s.held[co]}, held := s.held - {co}) else s
  }

  /** The ends that allocate: an id that the allocator cannot give out stands for a body that throws. */
  predicate Yields(s: State, end: End) {
    match end
    case Requests(session) => IsSessionId(session) && session !in s.sessions
    case Passes(session) => IsSessionId(session) && session !in s.sessions
    case Ends(_) => false
    case _ => true
  }

  function SessionOf(end: End): Option<Word> {
    match end
    case Requests(session) => Some(session)
    case Passes(session) => Some(session)
    case Blocks(session) => Some(session)
    case _ => None
  }

  /** The coroutine that is already blocked on the session, and loses its place. */
  function Displaced(s: State, end: End): Option<Co> {
    var on := SessionOf(end);
    if Yields(s, end) && on.Some? && on.value in s.blocked then Some(s.blocked[on.value]) else None
  }

  function Block(s: State, co: Co, session: Word): State {
    s.(blocked := s.blocked[session := co])
  }

  function Suspend(s: State, co: Co): State {
    s.(suspended := s.suspended + {co})
  }

  /** A session is allocated, owned across the call, and blocked on. */
  function Allocate(s: State, co: Co, session: Word): State {
    s.(sessions := s.sessions + {session}, held := s.held[co := session], clock := s.clock + 1,
       past := s.past.(tickets := s.past.tickets[s.clock := Ticket(co, session)],
                       open := s.past.open[session := s.clock]))
  }

  function Throw(s: State, co: Co, e: Exception): State {
    s.(exception := s.exception[co := if e == NoException then CoroutineExit else e])
  }

  /** `yield` answers its own request; it pushes the response before it blocks, which comes to the same. */
  function OwnResponse(s: State, session: Word): Mail {
    Mail(0, SessionForResponse(session), false, NoException, s.clock)
  }

  function DoEnd(s: State, co: Co, end: End): State {
    if !Yields(s, end) then Throw(s, co, if end.Ends? then end.e else OtherException)
    else
      match end
      case Requests(session) => Block(Allocate(s, co, session), co, session)
      case Passes(session) => Push(Block(Allocate(s, co, session), co, session), OwnResponse(s, session))
      case Blocks(session) => Block(s, co, session).(past := s.past.(raw := true))
      case Serves =>
        Suspend(s, co).(inbox := [], server := Some(co), past := s.past.(served := s.past.served + s.inbox))
      case _ => Suspend(s, co)
  }

  function Record(s: State, r: Ran): State {
    s.(past := s.past.(ran := s.past.ran + [r]))
  }

  /** The switch to a coroutine and back. */
  ghost function DoTurn(s: State, co: Co, turn: Turn, woken: bool): State {
    var s1 := DoCalls(Release(s, co), turn.calls);
    Record(DoEnd(s1, co, turn.end),
           Ran(co, turn, woken, Failure(s, co), Yields(s1, turn.end), Displaced(s1, turn.end), Taken(s)))
  }

  /** The end of `resume`: a coroutine with an exception is buried. */
  function Settle(s: State, co: Co): State {
    if Failure(s, co) != NoException then s.(zombies := s.zombies + [co]) else s
  }

  ghost function ResumeOne(s: State, co: Co, turn: Turn, woken: bool): State {
    Settle(DoTurn(s, co, turn, woken), co)
  }

  // ----- running -----

  function Front(s: State, woken: bool): seq<Co> {
    if woken then s.woken else s.spawned
  }

  function Pop(s: State, woken: bool): State
    requires Front(s, woken) != []
  {
    if woken then s.(woken := s.woken[1..]) else s.(spawned := s.spawned[1..])
  }

  /** What a loop came to: the turns left, whether it came to its end, and whether a coroutine exits the process. */
  datatype Outcome = Outcome(s: State, rest: seq<Turn>, done: bool, thrown: bool)

  /** The coroutines of a queue are resumed from the front until it is empty, one exits, or `turns` is used up. */
  ghost function ResumeAll(s: State, woken: bool, exiting: bool, turns: seq<Turn>): (o: Outcome)
    ensures |o.rest| <= |turns| && (|o.rest| == |turns| ==> o.s == s)
    ensures o.done && Front(s, woken) != [] ==> |o.rest| < |turns|
    ensures o.thrown ==> o.done && !exiting
    ensures o.done && !o.thrown ==> Front(o.s, woken) == []
    decreases |turns|
  {
    if Front(s, woken) == [] then Outcome(s, turns, true, false)
    else if turns == [] then Outcome(s, turns, false, false)
    else
      var co := Front(s, woken)[0];
      var s' := ResumeOne(Pop(s, woken), co, turns[0], woken);
      if Failure(s', co) == ProcessExit && !exiting then Outcome(s', turns[1..], true, true)
      else ResumeAll(s', woken, exiting, turns[1..])
  }

  function Sweep(s: State): State {
    s.(zombies := [], past := s.past.(destroyed := s.past.destroyed + s.zombies))
  }

  /** The serving coroutine is woken when the inbox has something for it. */
  predicate HasMail(s: State) {
    s.inbox != [] && s.server != None
  }

  function WakeServer(s: State): State {
    if HasMail(s) then Wakeup(s, s.server.value).(server := None) else s
  }

  /** `run` */
  ghost function Run(s: State, turns: seq<Turn>): (o: Outcome)
    ensures |o.rest| <= |turns|
    ensures o.done && !o.thrown ==> o.s.spawned == [] && o.s.woken == [] && o.s.zombies == [] && !HasMail(o.s)
    ensures o.thrown ==> o.done
    decreases |turns|, if s.server == None then 0 else 1
  {
    if s.spawned == [] && s.woken == [] && !HasMail(s) then Outcome(Sweep(s), turns, true, false)
    else
      var a := ResumeAll(s, false, false, turns);
      if !a.done || a.thrown then a
      else
        var b := ResumeAll(a.s, true, false, a.rest);
        if !b.done || b.thrown then b else Run(WakeServer(b.s), b.rest)
  }

  // ----- exiting -----

  /** In which order unordered containers are walked: any order of the elements, which may differ each time. */
  datatype Orders = Orders(keys: (nat, set<nat>) -> seq<nat>, requests: set<(Pid, Word)> -> seq<(Pid, Word)>)

  ghost predicate IsOrder(o: Orders) {
    && (forall n: nat, ks: set<nat> :: multiset(o.keys(n, ks)) == multiset(ks))
    && (forall rs: set<(Pid, Word)> :: multiset(o.requests(rs)) == multiset(rs))
  }

  /** A coroutine is woken with an exit exception. */
  function InterruptOne(s: State, co: Co): State {
    s.(woken := s.woken + [co], exception := s.exception[co := CoroutineExit],
       past := s.past.(rewoken := s.past.rewoken + [co]))
  }

  function Interrupt(s: State, cos: seq<Co>): State {
    if cos == [] then s else InterruptOne(Interrupt(s, cos[..|cos| - 1]), cos[|cos| - 1])
  }

  /** The coroutines blocked on the sessions `keys`. */
  function BlockedAt(blocked: map<Word, Co>, keys: seq<nat>): seq<Co> {
    if keys == [] then []
    else
      var k := keys[|keys| - 1];
      BlockedAt(blocked, keys[..|keys| - 1]) + if k < WORD32 && k in blocked then [blocked[k]] else []
  }

  function InterruptBlocked(s: State, o: Orders): State {
    Interrupt(s, BlockedAt(s.blocked, o.keys(s.clock, s.blocked.Keys))).(blocked := map[], clock := s.clock + 1)
  }

  function InterruptSuspended(s: State, o: Orders): State {
    Interrupt(s, o.keys(s.clock, s.suspended)).(suspended := {}, clock := s.clock + 1)
  }

  function InterruptAll(s: State, o: Orders): State {
    InterruptSuspended(InterruptBlocked(s, o), o)
  }

  function Abandon(s: State): State {
    s.(zombies := s.zombies + s.spawned, spawned := [], past := s.past.(abandoned := s.past.abandoned + s.spawned))
  }

  /** `exit`: coroutines are interrupted and resumed until none is left to interrupt. */
  ghost function Unwind(s: State, o: Orders, turns: seq<Turn>): Outcome
    decreases |turns|
  {
    var i := InterruptAll(s, o);
    if i.woken == [] then Outcome(Sweep(Abandon(i)), turns, true, false)
    else
      var r := ResumeAll(i, true, true, turns);
      if !r.done then r else Unwind(r.s, o, r.rest)
  }

  ghost function Exit(s: State, o: Orders, turns: seq<Turn>): Outcome {
    Unwind(s.(past := s.past.(exited := true)), o, turns)
  }

  /** `dispatch`: the state after it, whether it came to an end, and whether the process lives on. */
  datatype Dispatched = Dispatched(s: State, rest: seq<Turn>, done: bool, alive: bool)

  ghost function Dispatch(s: State, o: Orders, turns: seq<Turn>): Dispatched {
    var r := Run(s, turns);
    if r.thrown then
      var e := Exit(r.s, o, r.rest);
      Dispatched(e.s, e.rest, e.done, false)
    else Dispatched(r.s, r.rest, r.done, r.s.blocked != map[] || r.s.suspended != {})
  }

  // ----- messages -----

  /** A response wakes the coroutine blocked on the session it answers, if there is one. */
  function TakeResponse(s: State, m: Message): State {
    var session := SessionForResponse(m.session);
    var latest := if session in s.past.open then Some(s.past.open[session]) else None;
    if session !in s.blocked
    then s.(past := s.past.(delivered := s.past.delivered + [Delivery(m.answers, None, latest)]))
    else
      var co := s.blocked[session];
      s.(blocked := s.blocked - {session}, woken := s.woken + [co],
         exception := if m.failure == NoException then s.exception else s.exception[co := m.failure],
         past := s.past.(rewoken := s.past.rewoken + [co],
                         delivered := s.past.delivered + [Delivery(m.answers, Some(co), latest)]))
  }

  /** The first message leaves the mailbox and is handled. */
  function TakeMessage(s: State): State
    requires s.mailbox != []
  {
    var m, s1 := s.mailbox[0], s.(mailbox := s.mailbox[1..]);
    match TypeOf(m.session)
    case Request => s1.(requests := s1.requests + {(m.source, m.session)}, inbox := s1.inbox + [m])
    case Response => TakeResponse(s1, m)
    case Notify => if m.kill then s1 else s1.(inbox := s1.inbox + [m])
  }

  predicate Kills(m: Message) {
    TypeOf(m.session) == Notify && m.kill
  }

  datatype Resumed = Resumed(s: State, done: bool, result: ResumeResult)

  /** `resume` of the process: run its coroutines, then handle one message. */
  ghost function ResumeProcess(s: State, o: Orders, turns: seq<Turn>): Resumed {
    var d := Dispatch(s, o, turns);
    if !d.done || !d.alive then Resumed(d.s, d.done, Down)
    else if d.s.mailbox == [] then Resumed(d.s, true, Break)
    else if Kills(d.s.mailbox[0]) then
      var e := Exit(TakeMessage(d.s), o, d.rest);
      Resumed(e.s, e.done, Down)
    else Resumed(TakeMessage(d.s), true, Resume)
  }

  // ----- the destructor -----

  function AbortOf(source: Pid, session: Word): (Pid, Word) {
    (source, SessionForResponse(session))
  }

  /** The abort messages for a list of requests. */
  function AbortsOf(requests: seq<(Pid, Word)>): seq<(Pid, Word)> {
    seq(|requests|, i requires 0 <= i < |requests| => AbortOf(requests[i].0, requests[i].1))
  }

  /** The abort messages for the requests in a queue. */
  function RequestAborts(q: seq<Message>): seq<(Pid, Word)> {
    if q == [] then []
    else
      var m := q[|q| - 1];
      RequestAborts(q[..|q| - 1]) + if TypeOf(m.session) == Request then [AbortOf(m.source, m.session)] else []
  }

  /** `~Process`: aborts every request it has not answered; one that is in the inbox as well is aborted twice. */
  function Destroy(s: State, o: Orders): State {
    s.(inbox := [], mailbox := [],
       past := s.past.(aborts := s.past.aborts + AbortsOf(o.requests(s.requests)) + RequestAborts(s.inbox)
                                 + RequestAborts(s.mailbox)))
  }

  // ----- whole lives -----

  /** What happens to a process: a message is pushed, or a worker resumes it, with `turns` its user code. */
  datatype Event = Pushed(mail: Mail) | Resumes(turns: seq<Turn>)

  /** `Stuck`: a coroutine runs and does not switch back; `Gone`: the process is down, but its handles still push. */
  datatype Phase = Up | Stuck | Gone

  datatype Life = Life(s: State, phase: Phase)

  ghost function Live(main: Co, o: Orders, events: seq<Event>): Life {
    if events == [] then Life(Init(main), Up)
    else
      var l := Live(main, o, events[..|events| - 1]);
      match events[|events| - 1]
      case Pushed(mail) => Life(Push(l.s, mail), l.phase)
      case Resumes(turns) =>
        if l.phase != Up then l
        else
          var r := ResumeProcess(l.s, o, turns);
          Life(r.s, if !r.done then Stuck else if r.result == Down then Gone else Up)
  }
}
