/**
 What holds over every life of a process: where its coroutines are and how often each was destroyed, in which order
 they ran, that no request is forgotten, and that a response reaches the coroutine that waits for it.
 */
module ProcessLife {
  import opened Common
  import opened ProcessModel

  // ----- what the turns of a coroutine came to -----

  /** How often its body ended, it yielded after an exception, and its place was taken by another. */
  datatype Tally = Tally(ended: nat, late: nat, lost: nat)

  ghost function TallyOf(ran: seq<Ran>, c: Co): Tally {
    if ran == [] then Tally(0, 0, 0)
    else
      var t, r := TallyOf(ran[..|ran| - 1], c), ran[|ran| - 1];
      Tally(t.ended + (if r.co == c && !r.yielded then 1 else 0),
            t.late + (if r.co == c && r.yielded && r.before != NoException then 1 else 0),
            t.lost + (if r.displaced == Some(c) then 1 else 0))
  }

  lemma TallyOn(ran: seq<Ran>, r: Ran, c: Co)
    ensures var t, t' := TallyOf(ran, c), TallyOf(ran + [r], c);
      && t'.ended == t.ended + (if r.co == c && !r.yielded then 1 else 0)
      && t'.late == t.late + (if r.co == c && r.yielded && r.before != NoException then 1 else 0)
      && t'.lost == t.lost + (if r.displaced == Some(c) then 1 else 0)
  {
    assert (ran + [r])[..|ran|] == ran;
  }

  /** The turn of `c` that began with an exception and yielded all the same. */
  predicate LateTurn(r: Ran, c: Co) {
    r.co == c && r.yielded && r.before != NoException
  }

  lemma {:induction false} TallyZero(ran: seq<Ran>, c: Co)
    ensures TallyOf(ran, c).late == 0 <==> forall i :: 0 <= i < |ran| ==> !LateTurn(ran[i], c)
    ensures TallyOf(ran, c).lost == 0 <==> forall i :: 0 <= i < |ran| ==> ran[i].displaced != Some(c)
    ensures TallyOf(ran, c).ended == 0 <==> forall i :: 0 <= i < |ran| && ran[i].co == c ==> ran[i].yielded
  {
    if ran == [] {
    } else {
      var init, last := ran[..|ran| - 1], ran[|ran| - 1];
      TallyZero(init, c);
      assert forall i :: 0 <= i < |init| ==> init[i] == ran[i];
    }
  }

  // ----- where the coroutines are -----

  ghost function BlockedOn(blocked: map<Word, Co>, c: Co): set<Word> {
    set s | s in blocked && blocked[s] == c
  }

  lemma BlockRemove(blocked: map<Word, Co>, s: Word, c: Co)
    requires s in blocked
    ensures |BlockedOn(blocked - {s}, c)| == |BlockedOn(blocked, c)| - if blocked[s] == c then 1 else 0
  {
    var rest := BlockedOn(blocked, c) - {s};
    assert BlockedOn(blocked, c) == if blocked[s] == c then rest + {s} else rest;
    assert BlockedOn(blocked - {s}, c) == rest;
  }

  lemma CountOne(ks: set<Word>, k: Word)
    ensures |ks| == |ks - {k}| + if k in ks then 1 else 0
  {
    assert k in ks ==> ks == ks - {k} + {k};
    assert k !in ks ==> ks == ks - {k};
  }

  lemma BlockAdd(blocked: map<Word, Co>, s: Word, co: Co, c: Co)
    ensures |BlockedOn(blocked[s := co], c)| + (if s in blocked && blocked[s] == c then 1 else 0)
      == |BlockedOn(blocked, c)| + if c == co then 1 else 0
  {
    assert BlockedOn(blocked[s := co], c) - {s} == BlockedOn(blocked, c) - {s};
    CountOne(BlockedOn(blocked[s := co], c), s);
    CountOne(BlockedOn(blocked, c), s);
  }

  /** How often `c` is where it will be resumed from. */
  ghost function Active(s: State, c: Co): nat {
    multiset(s.spawned)[c] + multiset(s.woken)[c] + (if c in s.suspended then 1 else 0) + |BlockedOn(s.blocked, c)|
  }

  ghost function Dead(s: State, c: Co): nat {
    multiset(s.zombies)[c] + multiset(s.past.destroyed)[c]
  }

  /**
   With coroutine `hand` taken out of its queue: a coroutine is in one place until its body has ended, its place was
   taken or it was abandoned; and it is dead once for its end or for being abandoned, and once more for each yield
   after an exception.
   */
  ghost predicate Balance(s: State, hand: Option<Co>, c: Co) {
    var t, left := TallyOf(s.past.ran, c), multiset(s.past.abandoned)[c];
    && Active(s, c) + (if hand == Some(c) then 1 else 0) + t.ended + t.lost + left
      == (if c in s.exception then 1 else 0)
    && Dead(s, c) == t.ended + t.late + left
    && (c !in s.exception ==> t.late == 0)
  }

  ghost predicate Balanced(s: State, hand: Option<Co>) {
    forall c :: Balance(s, hand, c)
  }

  // ----- the order of the queues -----

  /** The coroutines that ran from one queue. */
  ghost function Cos(ran: seq<Ran>, woken: bool): seq<Co> {
    if ran == [] then []
    else
      var r := ran[|ran| - 1];
      Cos(ran[..|ran| - 1], woken) + if r.woken == woken then [r.co] else []
  }

  lemma CosOn(ran: seq<Ran>, r: Ran, woken: bool)
    ensures Cos(ran + [r], woken) == Cos(ran, woken) + if r.woken == woken then [r.co] else []
  {
    assert (ran + [r])[..|ran|] == ran;
  }

  /** All that were ever queued: those that have left the queue, in order, and then those that are in it. */
  ghost predicate Ordered(s: State, started: seq<Co>, continued: seq<Co>) {
    && s.past.queued == started + s.past.abandoned + s.spawned
    && s.past.rewoken == continued + s.woken
  }

  ghost predicate InTurn(s: State) {
    Ordered(s, Cos(s.past.ran, false), Cos(s.past.ran, true))
  }

  // ----- sessions -----

  /** The sessions that are allocated are those that coroutines own, and these differ. */
  ghost predicate Owned(held: map<Co, Word>, sessions: set<Word>) {
    && (forall s :: s in sessions ==> exists c :: c in held && held[c] == s)
    && (forall c :: c in held ==> held[c] in sessions)
    && (forall c, d :: c in held && d in held && held[c] == held[d] ==> c == d)
    && (forall s :: s in sessions ==> IsSessionId(s))
  }

  /** Every blocked coroutine is blocked on the session it owns. */
  ghost predicate OnOwn(blocked: map<Word, Co>, held: map<Co, Word>) {
    forall s :: s in blocked ==> blocked[s] in held && held[blocked[s]] == s
  }

  ghost predicate NoneLost(ran: seq<Ran>) {
    forall i :: 0 <= i < |ran| ==> ran[i].displaced == None
  }

  ghost predicate SessionsOk(s: State) {
    Owned(s.held, s.sessions) && (!s.past.raw ==> OnOwn(s.blocked, s.held) && NoneLost(s.past.ran))
  }

  // ----- requests -----

  ghost predicate Kept(s: State, m: Message) {
    TypeOf(m.session) == Request ==> m in s.mailbox || (m.source, m.session) in s.requests || m in s.past.closed
  }

  /** A request with this source and session was taken from the mailbox and not answered. */
  ghost predicate Unanswered(s: State, r: (Pid, Word)) {
    exists i :: 0 <= i < |s.past.pushed| - |s.mailbox| && IsRequest(s.past.pushed[i], r)
      && s.past.pushed[i] !in s.past.closed
  }

  predicate IsRequest(m: Message, r: (Pid, Word)) {
    TypeOf(m.session) == Request && (m.source, m.session) == r
  }

  ghost predicate OwnNames(pushed: seq<Message>) {
    forall i, j :: 0 <= i < j < |pushed| ==> pushed[i].id != pushed[j].id
  }

  /** What is noted, in the inbox or answered was accepted; what is noted or in the mailbox was not answered. */
  ghost predicate Due(s: State) {
    && s.past.aborts == [] && OwnNames(s.past.pushed)
    && (forall m :: m in s.past.closed ==> m in s.past.pushed && m !in s.mailbox)
    && (forall r :: r in s.requests ==> Unanswered(s, r))
    && (forall m :: m in s.inbox ==> m in s.past.pushed)
  }

  /** The messages that go through the inbox: requests, and notifications but the kill order. */
  ghost function ForInbox(q: seq<Message>): seq<Message> {
    if q == [] then []
    else
      var m := q[|q| - 1];
      ForInbox(q[..|q| - 1]) + if TypeOf(m.session) == Response || Kills(m) then [] else [m]
  }

  /** Who waits in `serve`: the last that began to, if it has not run since. */
  ghost function Server(ran: seq<Ran>): Option<Co> {
    if ran == [] then None
    else
      var before, r := Server(ran[..|ran| - 1]), ran[|ran| - 1];
      if r.yielded && r.turn.end.Serves? then Some(r.co) else if before == Some(r.co) then None else before
  }

  lemma ServerOn(ran: seq<Ran>, r: Ran)
    ensures Server(ran + [r]) ==
      if r.yielded && r.turn.end.Serves? then Some(r.co) else if Server(ran) == Some(r.co) then None else Server(ran)
  {
    assert (ran + [r])[..|ran|] == ran;
  }

  /** Whoever waits in `serve` and has not been woken is the one that `run` will wake. */
  ghost predicate ServerOk(s: State) {
    Server(s.past.ran).Some? && Server(s.past.ran).value in s.suspended ==> s.server == Server(s.past.ran)
  }

  /** What was served, and then the inbox, is what has left the mailbox for it. */
  ghost predicate InboxOk(s: State) {
    && |s.mailbox| <= |s.past.pushed|
    && s.past.served + s.inbox == ForInbox(s.past.pushed[..|s.past.pushed| - |s.mailbox|])
  }

  /** The mailbox is the end of all that was pushed; every request is in it, waits for its answer, or was answered. */
  ghost predicate RequestsOk(s: State) {
    && |s.mailbox| <= |s.past.pushed| && s.mailbox == s.past.pushed[|s.past.pushed| - |s.mailbox|..]
    && (forall i :: 0 <= i < |s.past.pushed| ==> s.past.pushed[i].id < s.clock)
    && (forall i :: 0 <= i < |s.past.pushed| ==> Kept(s, s.past.pushed[i]))
    && Due(s) && InboxOk(s)
  }

  // ----- responses -----

  ghost predicate Answered(pushed: seq<Message>, k: nat) {
    exists i :: 0 <= i < |pushed| && TypeOf(pushed[i].session) == Response && pushed[i].answers == k
  }

  /** Ticket `k` is the one its coroutine waits for. */
  ghost predicate Waits(s: State, k: nat)
    requires k in s.past.tickets
  {
    var Ticket(co, session) := s.past.tickets[k];
    session in s.blocked && s.blocked[session] == co && session in s.past.open && s.past.open[session] == k
  }

  ghost predicate Expected(s: State, m: Message) {
    && m.answers in s.past.tickets && SessionForResponse(m.session) == s.past.tickets[m.answers].session
    && Waits(s, m.answers)
  }

  /** Two messages are not responses to the same request. */
  predicate Differ(m: Message, m': Message) {
    TypeOf(m.session) == Response == TypeOf(m'.session) ==> m.answers != m'.answers
  }

  /** A request without a response is still waited for, and so is each one whose response is in the mailbox. */
  ghost predicate Matched(s: State) {
    && (forall k :: k in s.past.tickets ==> Waits(s, k) || Answered(s.past.pushed, k))
    && (forall i :: 0 <= i < |s.mailbox| && TypeOf(s.mailbox[i].session) == Response ==> Expected(s, s.mailbox[i]))
    && (forall i, j :: 0 <= i < j < |s.past.pushed| ==> Differ(s.past.pushed[i], s.past.pushed[j]))
  }

  /** The response woke the coroutine that waited for it. */
  ghost predicate Right(tickets: map<nat, Ticket>, d: Delivery) {
    d.ticket in tickets && d.woken == Some(tickets[d.ticket].co) && d.latest == Some(d.ticket)
  }

  /** Every response that was taken did. */
  ghost predicate Delivered(s: State) {
    forall i :: 0 <= i < |s.past.delivered| ==> Right(s.past.tickets, s.past.delivered[i])
  }

  /** Every response that was pushed names the request it answers. */
  ghost predicate Ticketed(s: State) {
    forall i :: 0 <= i < |s.past.pushed| && TypeOf(s.past.pushed[i].session) == Response ==> Names(s, s.past.pushed[i])
  }

  /** The latest request under each session. */
  ghost predicate OpenOk(tickets: map<nat, Ticket>, open: map<Word, nat>) {
    && (forall k :: k in open ==> open[k] in tickets && tickets[open[k]].session == k)
    && (forall n :: n in tickets ==> tickets[n].session in open && n <= open[tickets[n].session])
  }

  /** A blocked coroutine waits for the response to the latest request under its session, which is its own. */
  ghost predicate Owners(s: State) {
    forall k :: k in s.blocked ==>
      && k in s.past.open && s.past.open[k] in s.past.tickets
      && s.past.tickets[s.past.open[k]] == Ticket(s.blocked[k], k)
  }

  /** Request `n` was made under the session of request `k`, after it. */
  ghost predicate Reuses(tickets: map<nat, Ticket>, k: nat, n: nat) {
    k in tickets && n in tickets && k < n && tickets[n].session == tickets[k].session
  }

  /** The response woke nobody, or the coroutine that waited for it, or that of a later request under its session. */
  ghost predicate Reached(tickets: map<nat, Ticket>, d: Delivery) {
    && d.ticket in tickets
    && (d.woken.None? || Right(tickets, d)
        || (d.latest.Some? && Reuses(tickets, d.ticket, d.latest.value)
            && d.woken == Some(tickets[d.latest.value].co)))
  }

  ghost predicate AllReached(tickets: map<nat, Ticket>, ds: seq<Delivery>) {
    forall i :: 0 <= i < |ds| ==> Reached(tickets, ds[i])
  }

  ghost predicate Traced(s: State) {
    && (s.past.honest ==> s.past.known) && (s.past.known ==> Ticketed(s)) && OpenOk(s.past.tickets, s.past.open)
    && (!s.past.raw ==> Owners(s))
    && (s.past.known && !s.past.raw ==> AllReached(s.past.tickets, s.past.delivered))
  }

  ghost predicate ResponsesOk(s: State) {
    && (forall k :: k in s.past.tickets ==> k < s.clock)
    && Traced(s)
    && (s.past.honest && !s.past.raw ==> (!s.past.exited ==> Matched(s)) && Delivered(s))
  }

  // ----- together -----

  ghost predicate Inv(s: State) {
    Balanced(s, None) && InTurn(s) && SessionsOk(s) && RequestsOk(s) && ResponsesOk(s) && ServerOk(s)
  }

  /** While coroutine `co` runs: it is in no container, and the queues are those that `started` and `continued` left. */
  ghost predicate RunInv(s: State, co: Co, started: seq<Co>, continued: seq<Co>) {
    && Balanced(s, Some(co)) && Ordered(s, started, continued) && SessionsOk(s) && RequestsOk(s) && ResponsesOk(s)
    && ServerOk(s) && s.past.abandoned == [] && co !in s.held
  }

  // ----- what does not change keeps its invariant -----

  lemma SessionsFrame(s: State, s': State)
    requires SessionsOk(s) && s'.held == s.held && s'.sessions == s.sessions && s'.blocked == s.blocked
    requires s'.past.raw == s.past.raw && s'.past.ran == s.past.ran
    ensures SessionsOk(s')
  {
  }

  lemma RequestsFrame(s: State, s': State)
    requires RequestsOk(s) && s'.mailbox == s.mailbox && s'.requests == s.requests && s.clock <= s'.clock
    requires s'.past.pushed == s.past.pushed && s'.past.closed == s.past.closed && s'.past.aborts == s.past.aborts
    requires s'.past.served + s'.inbox == s.past.served + s.inbox
    requires s'.inbox == s.inbox || forall m :: m in s'.inbox ==> m in s.inbox
    ensures RequestsOk(s')
  {
    forall i | 0 <= i < |s'.past.pushed|
      ensures Kept(s', s'.past.pushed[i])
    {
      assert Kept(s, s.past.pushed[i]);
    }
    forall r | r in s'.requests
      ensures Unanswered(s', r)
    {
      assert Unanswered(s, r);
    }
  }

  lemma ResponsesFrame(s: State, s': State)
    requires ResponsesOk(s) && s'.mailbox == s.mailbox && s.clock <= s'.clock && s'.past.exited == s.past.exited
    requires s'.past.pushed == s.past.pushed && s'.past.tickets == s.past.tickets && s'.past.open == s.past.open
    requires s'.past.delivered == s.past.delivered && s'.past.honest == s.past.honest && (s.past.raw ==> s'.past.raw)
    requires s'.past.known == s.past.known
    requires !s'.past.raw ==> s'.blocked == s.blocked || (s.past.exited && s'.blocked == map[])
    ensures ResponsesOk(s')
  {
    hide Ticketed, OpenOk, AllReached;
    assert Ticketed(s) <==> Ticketed(s') by { TicketedFrame(s, s'); }
    forall k | k in s.past.tickets && s'.blocked == s.blocked
      ensures Waits(s, k) == Waits(s', k)
    {
    }
  }

  lemma TicketedFrame(s: State, s': State)
    requires s'.past.pushed == s.past.pushed && s'.past.tickets == s.past.tickets
    ensures Ticketed(s) <==> Ticketed(s')
  {
    assert forall m :: Names(s, m) <==> Names(s', m);
  }

  /** Unless user code blocks on foreign sessions, nothing that was blocked has been woken. */
  ghost predicate StaysBlocked(s: State, s': State) {
    && (s.past.raw ==> s'.past.raw)
    && (!s'.past.raw ==> forall k :: k in s.blocked ==> k in s'.blocked && s'.blocked[k] == s.blocked[k])
  }

  // ----- each step keeps it -----

  lemma PushBalanced(s: State, hand: Option<Co>, mail: Mail)
    requires Balanced(s, hand)
    ensures Balanced(Push(s, mail), hand)
  {
    forall c
      ensures Balance(Push(s, mail), hand, c)
    {
      assert Balance(s, hand, c);
    }
  }

  lemma PushDue(s: State, mail: Mail)
    requires Due(s) && forall i :: 0 <= i < |s.past.pushed| ==> s.past.pushed[i].id < s.clock
    ensures Due(Push(s, mail))
  {
    var s' := Push(s, mail);
    forall r | r in s'.requests
      ensures Unanswered(s', r)
    {
      assert Unanswered(s, r);
      var i :| 0 <= i < |s.past.pushed| - |s.mailbox| && IsRequest(s.past.pushed[i], r)
        && s.past.pushed[i] !in s.past.closed;
      assert s'.past.pushed[i] == s.past.pushed[i];
    }
  }

  lemma PushInbox(s: State, mail: Mail)
    requires InboxOk(s)
    ensures InboxOk(Push(s, mail))
  {
    var s', n := Push(s, mail), |s.past.pushed| - |s.mailbox|;
    assert s'.past.pushed[..n] == s.past.pushed[..n] && |s'.past.pushed| - |s'.mailbox| == n;
  }

  lemma PushRequests(s: State, mail: Mail)
    requires RequestsOk(s)
    ensures RequestsOk(Push(s, mail))
  {
    hide Due, InboxOk;
    PushDue(s, mail);
    PushInbox(s, mail);
    var s' := Push(s, mail);
    assert forall m :: m in s.mailbox ==> m in s'.mailbox;
    assert s'.mailbox[|s.mailbox|] == s'.past.pushed[|s.past.pushed|];
    assert s'.mailbox == s'.past.pushed[|s.past.pushed| - |s.mailbox|..];
    forall i | 0 <= i < |s'.past.pushed|
      ensures Kept(s', s'.past.pushed[i])
    {
      if i < |s.past.pushed| {
        assert Kept(s, s.past.pushed[i]);
      }
    }
  }

  lemma PushTraced(s: State, mail: Mail)
    requires Traced(s)
    ensures Traced(Push(s, mail))
  {
    hide OpenOk, AllReached;
  }

  lemma PushResponses(s: State, mail: Mail)
    requires ResponsesOk(s)
    ensures ResponsesOk(Push(s, mail))
  {
    hide Traced;
    PushTraced(s, mail);
    var s' := Push(s, mail);
    if s'.past.honest && !s'.past.raw && !s'.past.exited {
      var m := s'.mailbox[|s.mailbox|];
      assert s'.past.pushed[|s.past.pushed|] == m;
      forall k | k in s'.past.tickets
        ensures Waits(s', k) || Answered(s'.past.pushed, k)
      {
        if Answered(s.past.pushed, k) {
          var i :| 0 <= i < |s.past.pushed| && TypeOf(s.past.pushed[i].session) == Response
            && s.past.pushed[i].answers == k;
          assert s'.past.pushed[i] == s.past.pushed[i];
        } else {
          assert Waits(s, k);
        }
      }
    }
  }

  lemma PushKeeps(s: State, co: Co, started: seq<Co>, continued: seq<Co>, mail: Mail)
    requires RunInv(s, co, started, continued)
    ensures RunInv(Push(s, mail), co, started, continued)
  {
    hide Balanced, RequestsOk, ResponsesOk, OnOwn, Owned, NoneLost;
    PushBalanced(s, Some(co), mail);
    PushRequests(s, mail);
    PushResponses(s, mail);
  }

  lemma SpawnKeeps(s: State, co: Co, started: seq<Co>, continued: seq<Co>, other: Co)
    requires RunInv(s, co, started, continued)
    ensures RunInv(Spawn(s, other), co, started, continued)
  {
    hide Balanced, RequestsOk, ResponsesOk, SessionsOk;
    SpawnBalanced(s, Some(co), other);
    SessionsFrame(s, Spawn(s, other));
    RequestsFrame(s, Spawn(s, other));
    ResponsesFrame(s, Spawn(s, other));
  }

  lemma SpawnBalanced(s: State, hand: Option<Co>, other: Co)
    requires Balanced(s, hand)
    ensures Balanced(Spawn(s, other), hand)
  {
    forall c
      ensures Balance(Spawn(s, other), hand, c)
    {
      assert Balance(s, hand, c);
    }
  }

  lemma WakeupKeeps(s: State, co: Co, started: seq<Co>, continued: seq<Co>, other: Co)
    requires RunInv(s, co, started, continued)
    ensures RunInv(Wakeup(s, other), co, started, continued)
  {
    hide Balanced, RequestsOk, ResponsesOk, SessionsOk, Ordered, Wakeup;
    WakeupEffect(s, other);
    WakeupBalanced(s, Some(co), other);
    WakeupOrdered(s, started, continued, other);
    SessionsFrame(s, Wakeup(s, other));
    RequestsFrame(s, Wakeup(s, other));
    ResponsesFrame(s, Wakeup(s, other));
  }

  lemma WakeupOrdered(s: State, started: seq<Co>, continued: seq<Co>, other: Co)
    requires Ordered(s, started, continued)
    ensures Ordered(Wakeup(s, other), started, continued)
  {
  }

  lemma WakeupBalanced(s: State, hand: Option<Co>, other: Co)
    requires Balanced(s, hand)
    ensures Balanced(Wakeup(s, other), hand)
  {
    forall c
      ensures Balance(Wakeup(s, other), hand, c)
    {
      assert Balance(s, hand, c);
    }
  }

  lemma RespondKeeps(s: State, co: Co, started: seq<Co>, continued: seq<Co>, source: Pid, session: Word)
    requires RunInv(s, co, started, continued)
    ensures RunInv(Respond(s, source, session), co, started, continued)
  {
    hide Balanced, RequestsOk, ResponsesOk, SessionsOk, Respond, TakenWith;
    RespondEffect(s, source, session);
    SameBalanced(s, Respond(s, source, session), Some(co));
    RespondRequests(s, source, session);
    SessionsFrame(s, Respond(s, source, session));
    ResponsesFrame(s, Respond(s, source, session));
  }

  /** Nothing that the books are about has changed. */
  lemma SameBalanced(s: State, s': State, hand: Option<Co>)
    requires Balanced(s, hand) && s'.spawned == s.spawned && s'.woken == s.woken && s'.suspended == s.suspended
    requires s'.blocked == s.blocked && s'.zombies == s.zombies && s'.exception.Keys == s.exception.Keys
    requires s'.past.ran == s.past.ran && s'.past.abandoned == s.past.abandoned && s'.past.destroyed == s.past.destroyed
    ensures Balanced(s', hand)
  {
    forall c
      ensures Balance(s', hand, c)
    {
      assert Balance(s, hand, c);
    }
  }

  lemma RespondEffect(s: State, source: Pid, session: Word)
    ensures Respond(s, source, session)
      == s.(requests := s.requests - {(source, session)},
            past := s.past.(closed := s.past.closed + TakenWith(s, source, session)))
  {
  }

  lemma RespondRequests(s: State, source: Pid, session: Word)
    requires RequestsOk(s)
    ensures RequestsOk(Respond(s, source, session))
  {
    hide Due, ForInbox;
    RespondDue(s, source, session);
    var s' := Respond(s, source, session);
    forall i | 0 <= i < |s'.past.pushed|
      ensures Kept(s', s'.past.pushed[i])
    {
      assert Kept(s, s.past.pushed[i]);
    }
  }

  lemma RespondDue(s: State, source: Pid, session: Word)
    requires Due(s)
    ensures Due(Respond(s, source, session))
  {
    var s' := Respond(s, source, session);
    forall r | r in s'.requests
      ensures Unanswered(s', r)
    {
      assert Unanswered(s, r);
      var i :| 0 <= i < |s.past.pushed| - |s.mailbox| && IsRequest(s.past.pushed[i], r)
        && s.past.pushed[i] !in s.past.closed;
      assert s'.past.pushed[i] !in TakenWith(s, source, session);
    }
  }

  lemma TakeKeeps(s: State, co: Co, started: seq<Co>, continued: seq<Co>)
    requires RunInv(s, co, started, continued) && s.inbox != []
    ensures RunInv(TakeInbox(s), co, started, continued)
  {
    hide Balanced, RequestsOk, ResponsesOk, SessionsOk;
    var s' := TakeInbox(s);
    SameBalanced(s, s', Some(co));
    SessionsFrame(s, s');
    assert s.inbox == [s.inbox[0]] + s.inbox[1..];
    RequestsFrame(s, s');
    ResponsesFrame(s, s');
  }

  lemma CallKeeps(s: State, co: Co, started: seq<Co>, continued: seq<Co>, call: Call)
    requires RunInv(s, co, started, continued)
    ensures RunInv(DoCall(s, call), co, started, continued)
  {
    hide RunInv;
    match call {
      case Spawns(other) => SpawnKeeps(s, co, started, continued, other);
      case Wakes(other) => WakeupKeeps(s, co, started, continued, other);
      case Responds(source, session) => RespondKeeps(s, co, started, continued, source, session);
      case TakesMessage =>
        if s.inbox != [] {
          TakeKeeps(s, co, started, continued);
        }
      case Arrives(mail) => PushKeeps(s, co, started, continued, mail);
    }
  }

  lemma {:induction false} CallsKeep(s: State, co: Co, started: seq<Co>, continued: seq<Co>, calls: seq<Call>)
    requires RunInv(s, co, started, continued)
    ensures RunInv(DoCalls(s, calls), co, started, continued)
    decreases |calls|
  {
    hide RunInv, DoCall;
    if calls == [] {
    } else {
      CallsKeep(s, co, started, continued, calls[..|calls| - 1]);
      CallKeeps(DoCalls(s, calls[..|calls| - 1]), co, started, continued, calls[|calls| - 1]);
    }
  }

  // ----- a turn -----

  /** The front of a queue is taken to be resumed. */
  lemma PopBalanced(s: State, woken: bool)
    requires Balanced(s, None) && Front(s, woken) != []
    ensures Balanced(Pop(s, woken), Some(Front(s, woken)[0])) && Front(s, woken)[0] in s.exception
  {
    var q := Front(s, woken);
    assert q == [q[0]] + q[1..];
    assert Balance(s, None, q[0]);
    forall c
      ensures Balance(Pop(s, woken), Some(q[0]), c)
    {
      assert Balance(s, None, c);
    }
  }

  lemma HandNotBlocked(s: State, co: Co)
    requires Balanced(s, Some(co))
    ensures forall k :: k in s.blocked ==> s.blocked[k] != co
    ensures co !in s.suspended && co in s.exception
  {
    assert Balance(s, Some(co), co);
    forall k | k in s.blocked
      ensures s.blocked[k] != co
    {
      assert s.blocked[k] == co ==> k in BlockedOn(s.blocked, co);
    }
  }

  lemma ReleaseOwned(blocked: map<Word, Co>, held: map<Co, Word>, sessions: set<Word>, co: Co)
    requires Owned(held, sessions) && co in held
    ensures Owned(held - {co}, sessions - {held[co]})
    ensures OnOwn(blocked, held) && (forall k :: k in blocked ==> blocked[k] != co) ==> OnOwn(blocked, held - {co})
  {
    forall k | k in sessions - {held[co]}
      ensures exists c :: c in held - {co} && (held - {co})[c] == k
    {
      var c :| c in held && held[c] == k;
      assert c in held - {co} && (held - {co})[c] == k;
    }
  }

  /** The coroutine that is to run lets go of the session it waited for. */
  lemma ReleaseKeeps(s: State, co: Co)
    requires Balanced(s, Some(co)) && SessionsOk(s) && RequestsOk(s) && ResponsesOk(s)
    ensures Balanced(Release(s, co), Some(co)) && SessionsOk(Release(s, co)) && RequestsOk(Release(s, co))
    ensures ResponsesOk(Release(s, co)) && co !in Release(s, co).held
  {
    HandNotBlocked(s, co);
    hide Balanced, RequestsOk, ResponsesOk, Owned, OnOwn, NoneLost;
    var s' := Release(s, co);
    SameBalanced(s, s', Some(co));
    RequestsFrame(s, s');
    ResponsesFrame(s, s');
    if co in s.held {
      ReleaseOwned(s.blocked, s.held, s.sessions, co);
    }
  }

  /** What a turn does to the books, from the end of its calls to the burial. */
  ghost function Finish(s: State, co: Co, r: Ran): State {
    Settle(Record(DoEnd(s, co, r.turn.end), r), co)
  }

  ghost predicate Describes(s: State, co: Co, r: Ran) {
    && r.co == co && r.yielded == Yields(s, r.turn.end) && r.displaced == Displaced(s, r.turn.end)
    && co in s.exception && r.before == s.exception[co]
  }

  /** Where a coroutine is after the switch back, as far as the books go. */
  lemma EndEffect(s: State, co: Co, end: End)
    ensures var s' := DoEnd(s, co, end);
      && s'.spawned == s.spawned && s'.woken == s.woken && s'.zombies == s.zombies
      && s'.past.ran == s.past.ran && s'.past.abandoned == s.past.abandoned && s'.past.destroyed == s.past.destroyed
      && s'.past.queued == s.past.queued && s'.past.rewoken == s.past.rewoken && s'.past.exited == s.past.exited
      && s'.exception == (if Yields(s, end) then s.exception else s.exception[co := Failure(s', co)])
      && (!Yields(s, end) ==> Failure(s', co) != NoException && s'.blocked == s.blocked && s'.suspended == s.suspended)
      && (Yields(s, end) ==> var on := SessionOf(end);
          if on.Some? then s'.blocked == s.blocked[on.value := co] && s'.suspended == s.suspended
          else s'.blocked == s.blocked && s'.suspended == s.suspended + {co})
  {
  }

  /** The books after a turn: the zombie and the entry are added, and the rest is as `DoEnd` leaves it. */
  ghost predicate TurnBooks(s: State, s': State, co: Co, r: Ran) {
    && s'.spawned == s.spawned && s'.woken == s.woken && s'.exception.Keys == s.exception.Keys
    && s'.zombies == s.zombies + (if r.before != NoException || !r.yielded then [co] else [])
    && s'.past.abandoned == s.past.abandoned && s'.past.destroyed == s.past.destroyed && s'.past.ran == s.past.ran + [r]
  }

  lemma EndedBalanced(s: State, s': State, co: Co, r: Ran)
    requires Balanced(s, Some(co)) && TurnBooks(s, s', co, r) && r.co == co && !r.yielded && r.displaced == None
    requires s'.blocked == s.blocked && s'.suspended == s.suspended
    ensures Balanced(s', None)
  {
    forall c
      ensures Balance(s', None, c)
    {
      assert Balance(s, Some(co), c);
      TallyOn(s.past.ran, r, c);
    }
  }

  lemma SuspendedBalanced(s: State, s': State, co: Co, r: Ran)
    requires Balanced(s, Some(co)) && TurnBooks(s, s', co, r) && r.co == co && r.yielded && r.displaced == None
    requires s'.blocked == s.blocked && s'.suspended == s.suspended + {co} && co !in s.suspended && co in s.exception
    ensures Balanced(s', None)
  {
    forall c
      ensures Balance(s', None, c)
    {
      assert Balance(s, Some(co), c);
      TallyOn(s.past.ran, r, c);
    }
  }

  lemma BlockedBalanced(s: State, s': State, co: Co, r: Ran, k: Word)
    requires Balanced(s, Some(co)) && TurnBooks(s, s', co, r) && r.co == co && r.yielded && co in s.exception
    requires r.displaced == if k in s.blocked then Some(s.blocked[k]) else None
    requires s'.blocked == s.blocked[k := co] && s'.suspended == s.suspended
    ensures Balanced(s', None)
  {
    forall c
      ensures Balance(s', None, c)
    {
      assert Balance(s, Some(co), c);
      TallyOn(s.past.ran, r, c);
      BlockAdd(s.blocked, k, co, c);
    }
  }

  lemma FinishBalanced(s: State, co: Co, r: Ran)
    requires Balanced(s, Some(co)) && Describes(s, co, r)
    ensures Balanced(Finish(s, co, r), None)
  {
    HandNotBlocked(s, co);
    EndEffect(s, co, r.turn.end);
    hide Balanced, DoEnd, Yields;
    var s' := Finish(s, co, r);
    var on := SessionOf(r.turn.end);
    if !r.yielded {
      assert s'.exception.Keys == s.exception.Keys;
      EndedBalanced(s, s', co, r);
    } else if on.Some? {
      BlockedBalanced(s, s', co, r, on.value);
    } else {
      SuspendedBalanced(s, s', co, r);
    }
  }

  lemma OwnNew(blocked: map<Word, Co>, held: map<Co, Word>, sessions: set<Word>, co: Co, k: Word)
    requires Owned(held, sessions) && co !in held && k !in sessions && IsSessionId(k)
    ensures Owned(held[co := k], sessions + {k})
    ensures OnOwn(blocked, held) ==> k !in blocked && OnOwn(blocked[k := co], held[co := k])
  {
    var held' := held[co := k];
    forall j | j in sessions + {k}
      ensures exists c :: c in held' && held'[c] == j
    {
      if j == k {
        assert held'[co] == j;
      } else {
        var c :| c in held && held[c] == j;
        assert held'[c] == j;
      }
    }
  }

  lemma NoneLostOn(ran: seq<Ran>, r: Ran)
    requires NoneLost(ran) && r.displaced == None
    ensures NoneLost(ran + [r])
  {
  }

  lemma FinishSessions(s: State, co: Co, r: Ran)
    requires SessionsOk(s) && co !in s.held && Describes(s, co, r)
    ensures SessionsOk(Finish(s, co, r))
  {
    hide Owned, OnOwn, NoneLost;
    if r.displaced == None && !s.past.raw {
      NoneLostOn(s.past.ran, r);
    }
    match r.turn.end {
      case Requests(k) => if r.yielded { OwnNew(s.blocked, s.held, s.sessions, co, k); }
      case Passes(k) => if r.yielded { OwnNew(s.blocked, s.held, s.sessions, co, k); }
      case _ =>
    }
  }

  lemma StillReached(tickets: map<nat, Ticket>, n: nat, t: Ticket, ds: seq<Delivery>)
    requires n !in tickets && AllReached(tickets, ds)
    ensures AllReached(tickets[n := t], ds)
  {
    forall i | 0 <= i < |ds|
      ensures Reached(tickets[n := t], ds[i])
    {
      assert Reached(tickets, ds[i]);
    }
  }

  lemma OpenLatest(tickets: map<nat, Ticket>, open: map<Word, nat>, n: nat, t: Ticket)
    requires OpenOk(tickets, open) && forall k :: k in tickets ==> k < n
    ensures OpenOk(tickets[n := t], open[t.session := n])
  {
  }

  lemma AllocateTraced(s: State, co: Co, k: Word)
    requires Traced(s) && forall n :: n in s.past.tickets ==> n < s.clock
    ensures Traced(Block(Allocate(s, co, k), co, k))
  {
    hide AllReached, OpenOk;
    OpenLatest(s.past.tickets, s.past.open, s.clock, Ticket(co, k));
    if s.past.known && !s.past.raw {
      StillReached(s.past.tickets, s.clock, Ticket(co, k), s.past.delivered);
    }
    assert forall n :: n in s.past.tickets ==> n != s.clock;
  }

  lemma AllocateDelivered(s: State, co: Co, k: Word)
    requires Delivered(s) && forall n :: n in s.past.tickets ==> n < s.clock
    ensures Delivered(Block(Allocate(s, co, k), co, k))
  {
    var s' := Block(Allocate(s, co, k), co, k);
    forall i | 0 <= i < |s.past.delivered|
      ensures Right(s'.past.tickets, s'.past.delivered[i])
    {
      assert Right(s.past.tickets, s.past.delivered[i]);
    }
  }

  lemma AllocateMatched(s: State, co: Co, k: Word)
    requires Matched(s) && k !in s.blocked && forall n :: n in s.past.tickets ==> n < s.clock
    ensures Matched(Block(Allocate(s, co, k), co, k))
  {
    hide Differ;
    var s' := Block(Allocate(s, co, k), co, k);
    forall n | n in s'.past.tickets
      ensures Waits(s', n) || Answered(s'.past.pushed, n)
    {
      assert n != s.clock ==> Waits(s, n) || Answered(s.past.pushed, n);
    }
    forall i | 0 <= i < |s'.mailbox| && TypeOf(s'.mailbox[i].session) == Response
      ensures Expected(s', s'.mailbox[i])
    {
      assert Expected(s, s.mailbox[i]);
      assert s.mailbox[i].answers < s.clock;
    }
  }

  lemma NotInUse(s: State, k: Word)
    requires SessionsOk(s) && !s.past.raw && k !in s.sessions
    ensures k !in s.blocked
  {
  }

  /** A new ticket is waited for. */
  lemma AllocateResponses(s: State, co: Co, k: Word)
    requires ResponsesOk(s) && SessionsOk(s) && k !in s.sessions
    ensures ResponsesOk(Block(Allocate(s, co, k), co, k))
  {
    hide Traced, Matched, Delivered, SessionsOk;
    AllocateTraced(s, co, k);
    if s.past.honest && !s.past.raw {
      AllocateDelivered(s, co, k);
      if !s.past.exited {
        NotInUse(s, k);
        AllocateMatched(s, co, k);
      }
    }
  }

  /** The response that `yield` pushes answers the request it makes. */
  lemma YieldIsAnswered(s: State, co: Co, session: Word)
    requires ResponsesOk(s) && s.past.honest && Yields(s, Passes(session))
    ensures var s' := DoEnd(s, co, Passes(session));
      && s'.past.honest && s'.past.tickets[s.clock] == Ticket(co, session) && Answered(s'.past.pushed, s.clock)
      && s'.mailbox != [] && var m := s'.mailbox[|s'.mailbox| - 1];
         m.answers == s.clock && m.session == SessionForResponse(session) && m.failure == NoException && !m.kill
  {
    ResponseRoundTrip(session);
    var s' := DoEnd(s, co, Passes(session));
    assert s'.past.pushed[|s.past.pushed|].answers == s.clock;
  }

  lemma EndResponses(s: State, co: Co, end: End)
    requires ResponsesOk(s) && SessionsOk(s)
    ensures ResponsesOk(DoEnd(s, co, end))
  {
    hide ResponsesOk, SessionsOk, Push;
    if !Yields(s, end) {
      ResponsesFrame(s, DoEnd(s, co, end));
    } else {
      match end {
        case Requests(k) => AllocateResponses(s, co, k);
        case Passes(k) =>
          AllocateResponses(s, co, k);
          PushResponses(Block(Allocate(s, co, k), co, k), OwnResponse(s, k));
        case _ => ResponsesFrame(s, DoEnd(s, co, end));
      }
    }
  }

  lemma EndRequests(s: State, co: Co, end: End)
    requires RequestsOk(s)
    ensures RequestsOk(DoEnd(s, co, end))
  {
    hide RequestsOk, Push;
    if Yields(s, end) && end.Passes? {
      var s' := Block(Allocate(s, co, end.session), co, end.session);
      RequestsFrame(s, s');
      PushRequests(s', OwnResponse(s, end.session));
    } else {
      RequestsFrame(s, DoEnd(s, co, end));
    }
  }

  lemma SettleFrame(s: State, co: Co, r: Ran)
    requires RequestsOk(s) && ResponsesOk(s)
    ensures RequestsOk(Settle(Record(s, r), co)) && ResponsesOk(Settle(Record(s, r), co))
  {
    hide RequestsOk, ResponsesOk;
    RequestsFrame(s, Settle(Record(s, r), co));
    ResponsesFrame(s, Settle(Record(s, r), co));
  }

  // ----- a whole turn -----

  lemma CallLeaves(s: State, call: Call, co: Co)
    ensures var s' := DoCall(s, call);
      && s'.past.ran == s.past.ran && s'.past.exited == s.past.exited && s'.past.raw == s.past.raw
      && s'.blocked == s.blocked
    ensures co in s.exception ==> co in DoCall(s, call).exception && DoCall(s, call).exception[co] == s.exception[co]
  {
  }

  /** Calls leave the past turns and the exceptions of others alone. */
  lemma {:induction false} CallsLeave(s: State, calls: seq<Call>, co: Co)
    ensures var s' := DoCalls(s, calls);
      && s'.past.ran == s.past.ran && s'.past.exited == s.past.exited && s'.past.raw == s.past.raw
      && s'.blocked == s.blocked
    ensures co in s.exception ==>
      co in DoCalls(s, calls).exception && DoCalls(s, calls).exception[co] == s.exception[co]
    decreases |calls|
  {
    hide DoCall;
    if calls == [] {
    } else {
      CallsLeave(s, calls[..|calls| - 1], co);
      CallLeaves(DoCalls(s, calls[..|calls| - 1]), calls[|calls| - 1], co);
    }
  }

  /** The front of a queue is popped and lets go of its session. */
  ghost function Start(s: State, woken: bool): State
    requires Front(s, woken) != []
  {
    Release(Pop(s, woken), Front(s, woken)[0])
  }

  lemma StartKeeps(s: State, woken: bool)
    requires Inv(s) && s.past.abandoned == [] && Front(s, woken) != []
    ensures var co := Front(s, woken)[0];
      && RunInv(Start(s, woken), co, Cos(s.past.ran, false) + (if woken then [] else [co]),
                Cos(s.past.ran, true) + if woken then [co] else [])
      && co in s.exception && Start(s, woken).exception == s.exception && Start(s, woken).blocked == s.blocked
      && Start(s, woken).past == s.past
  {
    hide Balanced, SessionsOk, RequestsOk, ResponsesOk, Ordered, Cos, Release;
    var co, s0 := Front(s, woken)[0], Pop(s, woken);
    PopBalanced(s, woken);
    StartOrdered(s, woken, Cos(s.past.ran, false), Cos(s.past.ran, true));
    SessionsFrame(s, s0);
    RequestsFrame(s, s0);
    ResponsesFrame(s, s0);
    ReleaseKeeps(s0, co);
    ReleaseLeaves(s0, co);
  }

  lemma StartOrdered(s: State, woken: bool, started: seq<Co>, continued: seq<Co>)
    requires Ordered(s, started, continued) && s.past.abandoned == [] && Front(s, woken) != []
    ensures var co := Front(s, woken)[0];
      Ordered(Start(s, woken), started + (if woken then [] else [co]), continued + if woken then [co] else [])
  {
    hide Release;
    ReleaseLeaves(Pop(s, woken), Front(s, woken)[0]);
    var q := Front(s, woken);
    assert q == [q[0]] + q[1..];
  }

  /** The entry that a turn leaves, where `s1` is the state after its calls. */
  ghost function Entry(s: State, s1: State, co: Co, turn: Turn, woken: bool): Ran {
    Ran(co, turn, woken, Failure(s, co), Yields(s1, turn.end), Displaced(s1, turn.end), Taken(s))
  }

  lemma ResumeOneKeeps(s: State, woken: bool, turn: Turn)
    requires Inv(s) && s.past.abandoned == [] && Front(s, woken) != []
    ensures var s' := ResumeOne(Pop(s, woken), Front(s, woken)[0], turn, woken);
      Inv(s') && s'.past.abandoned == [] && s'.past.exited == s.past.exited && StaysBlocked(s, s')
  {
    hide Balanced, SessionsOk, RequestsOk, ResponsesOk, Release, Yields, Displaced, DoEnd, DoCalls, Finish,
      StaysBlocked, RunInv;
    var co, s0 := Front(s, woken)[0], Start(s, woken);
    var started := Cos(s.past.ran, false) + if woken then [] else [co];
    var continued := Cos(s.past.ran, true) + if woken then [co] else [];
    StartKeeps(s, woken);
    CallsKeep(s0, co, started, continued, turn.calls);
    CallsLeave(s0, turn.calls, co);
    var s1 := DoCalls(s0, turn.calls);
    var r := Entry(Pop(s, woken), s1, co, turn, woken);
    FinishKeeps(s1, co, started, continued, r);
    StaysFrom(s, s1, Finish(s1, co, r));
    ResumeOneIs(s, woken, turn);
    CosOn(s.past.ran, r, false);
    CosOn(s.past.ran, r, true);
  }

  lemma ResumeOneIs(s: State, woken: bool, turn: Turn)
    requires Front(s, woken) != []
    ensures var co, s1 := Front(s, woken)[0], DoCalls(Start(s, woken), turn.calls);
      ResumeOne(Pop(s, woken), co, turn, woken) == Finish(s1, co, Entry(Pop(s, woken), s1, co, turn, woken))
  {
  }

  lemma StaysFrom(s: State, s1: State, s': State)
    requires s1.blocked == s.blocked && s1.past.raw == s.past.raw
    ensures StaysBlocked(s1, s') ==> StaysBlocked(s, s')
  {
  }

  lemma ReleaseLeaves(s: State, co: Co)
    ensures Release(s, co) == s.(sessions := Release(s, co).sessions, held := Release(s, co).held)
  {
  }

  lemma EndBlocks(s: State, co: Co, end: End)
    requires SessionsOk(s)
    ensures StaysBlocked(s, DoEnd(s, co, end))
  {
  }

  lemma FinishServer(s: State, co: Co, r: Ran)
    requires ServerOk(s) && Describes(s, co, r)
    ensures ServerOk(Finish(s, co, r))
  {
    EndEffect(s, co, r.turn.end);
    ServerOn(s.past.ran, r);
  }

  lemma FinishKeeps(s: State, co: Co, started: seq<Co>, continued: seq<Co>, r: Ran)
    requires RunInv(s, co, started, continued) && Describes(s, co, r)
    ensures var s' := Finish(s, co, r);
      && Balanced(s', None) && Ordered(s', started, continued) && SessionsOk(s') && RequestsOk(s') && ResponsesOk(s')
      && s'.past.abandoned == [] && s'.past.ran == s.past.ran + [r] && s'.past.exited == s.past.exited
      && ServerOk(s') && StaysBlocked(s, s')
  {
    hide Balanced, SessionsOk, RequestsOk, ResponsesOk, ServerOk, DoEnd;
    FinishServer(s, co, r);
    FinishBalanced(s, co, r);
    FinishSessions(s, co, r);
    EndRequests(s, co, r.turn.end);
    EndResponses(s, co, r.turn.end);
    EndEffect(s, co, r.turn.end);
    SettleFrame(DoEnd(s, co, r.turn.end), co, r);
    EndBlocks(s, co, r.turn.end);
  }

  // ----- loops -----

  /** Ready to run: nothing was abandoned yet. */
  ghost predicate Ready(s: State) {
    Inv(s) && s.past.abandoned == []
  }

  lemma {:induction false} ResumeAllKeeps(s: State, woken: bool, exiting: bool, turns: seq<Turn>)
    requires Ready(s)
    ensures var s' := ResumeAll(s, woken, exiting, turns).s;
      Ready(s') && s'.past.exited == s.past.exited && StaysBlocked(s, s')
    decreases |turns|
  {
    hide Inv, ResumeOne, Pop;
    if Front(s, woken) == [] || turns == [] {
    } else {
      ResumeOneKeeps(s, woken, turns[0]);
      ResumeAllKeeps(ResumeOne(Pop(s, woken), Front(s, woken)[0], turns[0], woken), woken, exiting, turns[1..]);
    }
  }

  lemma SweepKeeps(s: State)
    requires Inv(s)
    ensures Inv(Sweep(s))
  {
    hide SessionsOk, RequestsOk, ResponsesOk;
    forall c
      ensures Balance(Sweep(s), None, c)
    {
      assert Balance(s, None, c);
    }
    SessionsFrame(s, Sweep(s));
    RequestsFrame(s, Sweep(s));
    ResponsesFrame(s, Sweep(s));
  }

  lemma WakeupEffect(s: State, co: Co)
    ensures var s' := Wakeup(s, co);
      && s' == s.(suspended := s'.suspended, woken := s'.woken, past := s'.past)
      && s'.past == s.past.(rewoken := s'.past.rewoken) && s'.suspended == s.suspended - {co}
  {
  }

  /** The serving coroutine is woken when there is something for it in the inbox, and only then. */
  lemma WokenForMail(s: State)
    ensures s.server.Some? && s.server.value in s.suspended ==>
      (s.server.value in WakeServer(s).suspended <==> s.inbox == [])
    ensures s.server.None? || s.inbox == [] ==> WakeServer(s) == s
  {
  }

  lemma WakeServerKeeps(s: State)
    requires Ready(s)
    ensures Ready(WakeServer(s))
  {
    hide Balanced, SessionsOk, RequestsOk, ResponsesOk, Ordered, Cos, Wakeup;
    WakeupEffect(s, if s.server == None then 0 else s.server.value);
    if HasMail(s) {
      WakeupBalanced(s, None, s.server.value);
      SameBalanced(Wakeup(s, s.server.value), WakeServer(s), None);
      WakeupOrdered(s, Cos(s.past.ran, false), Cos(s.past.ran, true), s.server.value);
      ServerOrdered(Wakeup(s, s.server.value), Cos(s.past.ran, false), Cos(s.past.ran, true));
      SessionsFrame(s, WakeServer(s));
      RequestsFrame(s, WakeServer(s));
      ResponsesFrame(s, WakeServer(s));
    }
  }

  lemma ServerOrdered(s: State, started: seq<Co>, continued: seq<Co>)
    ensures Ordered(s, started, continued) ==> Ordered(s.(server := None), started, continued)
  {
  }

  lemma {:induction false} RunKeeps(s: State, turns: seq<Turn>)
    requires Ready(s)
    ensures var s' := Run(s, turns).s; Ready(s') && s'.past.exited == s.past.exited && StaysBlocked(s, s')
    decreases |turns|, if s.server == None then 0 else 1
  {
    hide Inv, WakeServer, Sweep, ResumeAll;
    if s.spawned == [] && s.woken == [] && !HasMail(s) {
      SweepKeeps(s);
      SweepAbandons(s);
    } else {
      var a := ResumeAll(s, false, false, turns);
      ResumeAllKeeps(s, false, false, turns);
      if a.done && !a.thrown {
        var b := ResumeAll(a.s, true, false, a.rest);
        ResumeAllKeeps(a.s, true, false, a.rest);
        if b.done && !b.thrown {
          WakeServerKeeps(b.s);
          SweepAbandons(b.s);
          RunGoesOn(s, turns, b.s, b.rest);
          RunKeeps(WakeServer(b.s), b.rest);
        }
      }
    }
  }

  lemma SweepAbandons(s: State)
    ensures Sweep(s).past.abandoned == s.past.abandoned && Sweep(s).past.exited == s.past.exited
    ensures StaysBlocked(s, Sweep(s)) && StaysBlocked(s, WakeServer(s)) && WakeServer(s).past.exited == s.past.exited
  {
  }

  /** A round of `run` uses up a turn or wakes the server. */
  lemma RunGoesOn(s: State, turns: seq<Turn>, s': State, rest: seq<Turn>)
    requires s.spawned != [] || s.woken != [] || HasMail(s)
    requires s'.woken == [] && |rest| <= |turns| && (|rest| == |turns| ==> s' == s && s.spawned == [])
    ensures |rest| < |turns| || (|rest| == |turns| && s.server != None && WakeServer(s').server == None)
  {
  }

  // ----- exit -----

  ghost function KeysOf(blocked: map<Word, Co>, keys: seq<nat>, c: Co): set<nat> {
    set k | k in keys && k < WORD32 && k in blocked && blocked[k] == c
  }

  predicate NoRepeats(keys: seq<nat>) {
    forall i, j :: 0 <= i < j < |keys| ==> keys[i] != keys[j]
  }

  lemma KeysStep(blocked: map<Word, Co>, keys: seq<nat>, c: Co)
    requires keys != [] && NoRepeats(keys)
    ensures
      var k, rest := keys[|keys| - 1], KeysOf(blocked, keys[..|keys| - 1], c);
      && k !in rest
      && KeysOf(blocked, keys, c) == rest + if k < WORD32 && k in blocked && blocked[k] == c then {k} else {}
  {
    var init, k := keys[..|keys| - 1], keys[|keys| - 1];
    assert forall x :: x in keys <==> x in init || x == k;
  }

  /** Walking distinct keys meets a coroutine once for each of its sessions among them. */
  lemma {:induction false} BlockedAtCounts(blocked: map<Word, Co>, keys: seq<nat>, c: Co)
    requires NoRepeats(keys)
    ensures multiset(BlockedAt(blocked, keys))[c] == |KeysOf(blocked, keys, c)|
  {
    if keys == [] {
      assert KeysOf(blocked, keys, c) == {};
    } else {
      hide KeysOf;
      BlockedAtCounts(blocked, keys[..|keys| - 1], c);
      KeysStep(blocked, keys, c);
    }
  }

  lemma Twice(keys: seq<nat>, i: nat, j: nat)
    requires i < j < |keys|
    ensures keys[i] == keys[j] ==> multiset(keys)[keys[i]] >= 2
  {
    assert keys == keys[..i] + [keys[i]] + keys[i + 1..j] + [keys[j]] + keys[j + 1..];
  }

  /** A sequence with the elements of a set, each once. */
  lemma OrderOfSet(keys: seq<nat>, ks: set<nat>)
    requires multiset(keys) == multiset(ks)
    ensures NoRepeats(keys) && forall k :: k in keys <==> k in ks
  {
    forall i, j | 0 <= i < j < |keys|
      ensures keys[i] != keys[j]
    {
      Twice(keys, i, j);
    }
    assert forall k :: k in keys <==> k in multiset(keys);
    assert forall k :: k in ks <==> k in multiset(ks);
  }

  lemma OrderIsSet(o: Orders, n: nat, ks: set<nat>)
    requires IsOrder(o)
    ensures forall k :: k in o.keys(n, ks) <==> k in ks
  {
    OrderOfSet(o.keys(n, ks), ks);
  }

  lemma AllBlocked(blocked: map<Word, Co>, keys: seq<nat>, c: Co)
    requires multiset(keys) == multiset(blocked.Keys)
    ensures multiset(BlockedAt(blocked, keys))[c] == |BlockedOn(blocked, c)|
  {
    OrderOfSet(keys, blocked.Keys);
    BlockedAtCounts(blocked, keys, c);
    assert forall k :: k in KeysOf(blocked, keys, c) <==> k in BlockedOn(blocked, c);
    var ks: set<nat> := BlockedOn(blocked, c);
    assert KeysOf(blocked, keys, c) == ks;
    SameSize(BlockedOn(blocked, c), ks);
  }

  lemma {:induction false} SameSize(a: set<Word>, b: set<nat>)
    requires forall k :: k in b <==> k < WORD32 && k in a
    ensures |a| == |b|
  {
    if a == {} {
      assert b == {};
    } else {
      var k :| k in a;
      SameSize(a - {k}, b - {k});
    }
  }

  lemma {:induction false} InterruptEffect(s: State, cos: seq<Co>)
    ensures var s' := Interrupt(s, cos);
      && s'.woken == s.woken + cos && s'.past == s.past.(rewoken := s.past.rewoken + cos)
      && s'.exception.Keys == s.exception.Keys + (set c | c in cos)
      && s' == s.(woken := s'.woken, exception := s'.exception, past := s'.past)
  {
    if cos == [] {
    } else {
      InterruptEffect(s, cos[..|cos| - 1]);
      assert cos == cos[..|cos| - 1] + [cos[|cos| - 1]];
    }
  }

  /** The coroutines `cos` are moved from where they were to the wakeup queue. */
  lemma MoveBalanced(s: State, s': State, cos: seq<Co>)
    requires Balanced(s, None) && s'.woken == s.woken + cos
    requires s'.exception.Keys == s.exception.Keys + (set c | c in cos)
    requires s'.spawned == s.spawned && s'.zombies == s.zombies
    requires s'.past.ran == s.past.ran && s'.past.abandoned == s.past.abandoned && s'.past.destroyed == s.past.destroyed
    requires forall c :: multiset(cos)[c] == HasLeft(s, s', c)
    ensures Balanced(s', None)
  {
    forall c
      ensures Balance(s', None, c)
    {
      assert Balance(s, None, c);
      assert c in cos <==> c in multiset(cos);
    }
  }

  /** How often `c` has left the suspended and the blocked coroutines. */
  ghost function HasLeft(s: State, s': State, c: Co): int {
    (if c in s.suspended then 1 else 0) + |BlockedOn(s.blocked, c)|
    - (if c in s'.suspended then 1 else 0) - |BlockedOn(s'.blocked, c)|
  }

  lemma InterruptBlockedBalanced(s: State, o: Orders)
    requires Balanced(s, None) && IsOrder(o)
    ensures Balanced(InterruptBlocked(s, o), None)
  {
    var keys, s' := o.keys(s.clock, s.blocked.Keys), InterruptBlocked(s, o);
    var cos := BlockedAt(s.blocked, keys);
    InterruptEffect(s, cos);
    forall c
      ensures multiset(cos)[c] == HasLeft(s, s', c)
    {
      AllBlocked(s.blocked, keys, c);
      assert BlockedOn(s'.blocked, c) == {};
    }
    MoveBalanced(s, s', cos);
  }

  lemma InterruptSuspendedBalanced(s: State, o: Orders)
    requires Balanced(s, None) && IsOrder(o)
    ensures Balanced(InterruptSuspended(s, o), None)
  {
    var cos, s' := o.keys(s.clock, s.suspended), InterruptSuspended(s, o);
    InterruptEffect(s, cos);
    forall c
      ensures multiset(cos)[c] == HasLeft(s, s', c)
    {
      assert multiset(s.suspended)[c] == if c in s.suspended then 1 else 0;
    }
    MoveBalanced(s, s', cos);
  }

  lemma InterruptAllEffect(s: State, o: Orders)
    ensures var s1, s' := InterruptBlocked(s, o), InterruptAll(s, o);
      var cos := BlockedAt(s.blocked, o.keys(s.clock, s.blocked.Keys)) + o.keys(s1.clock, s1.suspended);
      && s'.blocked == map[] && s'.suspended == {} && s'.woken == s.woken + cos
      && s'.past == s.past.(rewoken := s.past.rewoken + cos)
      && s' == s.(woken := s'.woken, exception := s'.exception, past := s'.past, blocked := map[], suspended := {},
                  clock := s.clock + 2)
  {
    hide Interrupt, BlockedAt;
    var s1 := InterruptBlocked(s, o);
    InterruptEffect(s, BlockedAt(s.blocked, o.keys(s.clock, s.blocked.Keys)));
    InterruptEffect(s1, o.keys(s1.clock, s1.suspended));
  }

  lemma InterruptKeeps(s: State, o: Orders)
    requires Ready(s) && s.past.exited && IsOrder(o)
    ensures var s' := InterruptAll(s, o); Ready(s') && s'.past.exited && s'.blocked == map[] && s'.suspended == {}
  {
    hide Balanced, RequestsOk, Owned, NoneLost, IsOrder, InterruptBlocked, InterruptSuspended;
    InterruptBlockedBalanced(s, o);
    InterruptSuspendedBalanced(InterruptBlocked(s, o), o);
    InterruptAllEffect(s, o);
    RequestsFrame(s, InterruptAll(s, o));
  }

  /** It is blocked on a session, or suspended. */
  ghost predicate Interruptible(s: State, c: Co) {
    c in s.suspended || BlockedOn(s.blocked, c) != {}
  }

  lemma {:induction false} InterruptThrows(s: State, cos: seq<Co>, c: Co)
    ensures Failure(Interrupt(s, cos), c) == if c in cos then CoroutineExit else Failure(s, c)
  {
    if cos == [] {
    } else {
      InterruptThrows(s, cos[..|cos| - 1], c);
      assert cos == cos[..|cos| - 1] + [cos[|cos| - 1]];
    }
  }

  /**
   The interrupted coroutines go behind those that are woken already, each as often as it was suspended or blocked, and
   get an exit exception; no other coroutine does.
   */
  lemma InterruptReaches(s: State, o: Orders, c: Co)
    requires IsOrder(o)
    ensures var s' := InterruptAll(s, o);
      && |s.woken| <= |s'.woken| && s'.woken[..|s.woken|] == s.woken
      && multiset(s'.woken[|s.woken|..])[c] == (if c in s.suspended then 1 else 0) + |BlockedOn(s.blocked, c)|
      && Failure(s', c) == if Interruptible(s, c) then CoroutineExit else Failure(s, c)
  {
    hide Interrupt, BlockedAt;
    var s1 := InterruptBlocked(s, o);
    var a: seq<Co>, b: seq<Co> := BlockedAt(s.blocked, o.keys(s.clock, s.blocked.Keys)), o.keys(s1.clock, s1.suspended);
    InterruptAllEffect(s, o);
    InterruptEffect(s, a);
    InterruptThrows(s, a, c);
    InterruptThrows(s1, b, c);
    AllBlocked(s.blocked, o.keys(s.clock, s.blocked.Keys), c);
    assert c in a <==> c in multiset(a);
    assert c in b <==> c in multiset(b);
    OrderIsSet(o, s1.clock, s1.suspended);
    assert c in b <==> c in s.suspended;
    assert (s.woken + (a + b))[|s.woken|..] == a + b;
  }

  /** Nothing is left in any container. */
  predicate Over(s: State) {
    s.spawned == [] && s.woken == [] && s.suspended == {} && s.blocked == map[] && s.zombies == []
  }

  lemma AbandonKeeps(s: State)
    requires Inv(s)
    ensures Inv(Sweep(Abandon(s)))
  {
    hide SessionsOk, RequestsOk, ResponsesOk;
    var s' := Abandon(s);
    assert s.past.abandoned + s.spawned == s'.past.abandoned + s'.spawned;
    assert Cos(s.past.ran, false) + s.past.abandoned + s.spawned
      == Cos(s.past.ran, false) + (s.past.abandoned + s.spawned);
    forall c
      ensures Balance(s', None, c)
    {
      assert Balance(s, None, c);
    }
    SessionsFrame(s, s');
    RequestsFrame(s, s');
    ResponsesFrame(s, s');
    SweepKeeps(s');
  }

  /** `exit` comes to an end only when nothing is left. */
  lemma {:induction false} UnwindKeeps(s: State, o: Orders, turns: seq<Turn>)
    requires Ready(s) && s.past.exited && IsOrder(o)
    ensures var u := Unwind(s, o, turns); Inv(u.s) && (u.done ==> Over(u.s)) && u.s.past.exited
    decreases |turns|
  {
    hide Inv, InterruptAll, ResumeAll, Abandon, Sweep, IsOrder;
    InterruptKeeps(s, o);
    var i := InterruptAll(s, o);
    if i.woken == [] {
      AbandonKeeps(i);
      AbandonEnds(i);
    } else {
      ResumeAllKeeps(i, true, true, turns);
      var r := ResumeAll(i, true, true, turns);
      if r.done {
        UnwindKeeps(r.s, o, r.rest);
      }
    }
  }

  lemma AbandonEnds(s: State)
    ensures var s' := Sweep(Abandon(s));
      && s'.spawned == [] && s'.zombies == []
      && s'.woken == s.woken && s'.suspended == s.suspended && s'.blocked == s.blocked
      && s'.past.exited == s.past.exited
  {
  }

  // ----- messages -----

  lemma FrontMail(s: State)
    requires RequestsOk(s) && s.mailbox != []
    ensures var s1 := s.(mailbox := s.mailbox[1..]); s1.mailbox == s1.past.pushed[|s1.past.pushed| - |s1.mailbox|..]
    ensures s.mailbox[0] in s.past.pushed && s.mailbox[0] == s.past.pushed[|s.past.pushed| - |s.mailbox|]
  {
  }

  /** The first message wakes a coroutine. */
  ghost predicate Unblocks(s: State)
    requires s.mailbox != []
  {
    TypeOf(s.mailbox[0].session) == Response && SessionForResponse(s.mailbox[0].session) in s.blocked
  }

  lemma ResponseEffect(s: State, m: Message)
    ensures var s' := TakeResponse(s, m);
      && s' == s.(blocked := s'.blocked, woken := s'.woken, exception := s'.exception, past := s'.past)
      && s'.past == s.past.(delivered := s'.past.delivered, rewoken := s'.past.rewoken)
      && (s'.blocked == s.blocked || s'.blocked == s.blocked - {SessionForResponse(m.session)})
  {
  }

  lemma TakeEffect(s: State)
    requires s.mailbox != []
    ensures var s', m := TakeMessage(s), s.mailbox[0];
      && s'.mailbox == s.mailbox[1..]
      && s'.spawned == s.spawned && s'.suspended == s.suspended && s'.zombies == s.zombies
      && s'.past == s.past.(delivered := s'.past.delivered, rewoken := s'.past.rewoken)
      && s'.held == s.held && s'.sessions == s.sessions && s'.clock == s.clock
      && s'.server == s.server
      && s'.requests == s.requests + if TypeOf(m.session) == Request then {(m.source, m.session)} else {}
  {
    hide TakeResponse;
    ResponseEffect(s.(mailbox := s.mailbox[1..]), s.mailbox[0]);
  }

  lemma UnblockEffect(s: State)
    requires s.mailbox != []
    ensures var s', m := TakeMessage(s), s.mailbox[0];
      var k := SessionForResponse(m.session);
      && (Unblocks(s) ==>
            && s'.blocked == s.blocked - {k} && s'.woken == s.woken + [s.blocked[k]]
            && s'.past.rewoken == s.past.rewoken + [s.blocked[k]]
            && s'.exception == if m.failure == NoException then s.exception else s.exception[s.blocked[k] := m.failure])
      && (!Unblocks(s) ==>
            && s'.blocked == s.blocked && s'.woken == s.woken && s'.exception == s.exception
            && s'.past.rewoken == s.past.rewoken)
  {
  }

  /** A request that leaves the mailbox is noted, so that it is not forgotten. */
  lemma InboxGrows(s: State)
    requires s.mailbox != []
    ensures var s', m := TakeMessage(s), s.mailbox[0];
      && s'.past.served == s.past.served
      && s'.inbox == s.inbox + if TypeOf(m.session) == Response || Kills(m) then [] else [m]
  {
    hide TakeResponse;
    ResponseEffect(s.(mailbox := s.mailbox[1..]), s.mailbox[0]);
  }

  lemma TakeInboxOk(s: State)
    requires RequestsOk(s) && s.mailbox != []
    ensures InboxOk(TakeMessage(s))
  {
    hide Kept, Due, TakeMessage;
    TakeEffect(s);
    InboxGrows(s);
    FrontMail(s);
    var n := |s.past.pushed| - |s.mailbox|;
    var done := s.past.pushed[..n + 1];
    assert done[..n] == s.past.pushed[..n] && done[n] == s.mailbox[0];
  }

  lemma TakeDue(s: State)
    requires RequestsOk(s) && s.mailbox != []
    ensures Due(TakeMessage(s))
  {
    hide Kept, InboxOk, OwnNames, TakeMessage;
    TakeEffect(s);
    InboxGrows(s);
    FrontMail(s);
    var s', m, n := TakeMessage(s), s.mailbox[0], |s.past.pushed| - |s.mailbox|;
    assert forall x :: x in s'.mailbox ==> x in s.mailbox;
    assert m in s.mailbox && m == s.past.pushed[n];
    forall r | r in s'.requests
      ensures Unanswered(s', r)
    {
      if r in s.requests {
        assert Unanswered(s, r);
      } else {
        assert IsRequest(s'.past.pushed[n], r);
      }
    }
  }

  lemma TakeRequests(s: State)
    requires RequestsOk(s) && s.mailbox != []
    ensures RequestsOk(TakeMessage(s))
  {
    hide Due, InboxOk, TakeMessage;
    FrontMail(s);
    TakeDue(s);
    TakeInboxOk(s);
    TakeEffect(s);
    var s', m := TakeMessage(s), s.mailbox[0];
    assert forall x :: x in s.mailbox <==> x == m || x in s.mailbox[1..];
    forall i | 0 <= i < |s'.past.pushed|
      ensures Kept(s', s'.past.pushed[i])
    {
      assert Kept(s, s.past.pushed[i]);
    }
  }

  lemma UnblockBalanced(s: State, s': State, k: Word)
    requires Balanced(s, None) && k in s.blocked && s'.blocked == s.blocked - {k}
    requires s'.woken == s.woken + [s.blocked[k]]
    requires s'.spawned == s.spawned && s'.suspended == s.suspended && s'.zombies == s.zombies
    requires s'.past.ran == s.past.ran && s'.past.abandoned == s.past.abandoned && s'.past.destroyed == s.past.destroyed
    requires s'.exception.Keys == s.exception.Keys + {s.blocked[k]}
    ensures Balanced(s', None)
  {
    assert k in BlockedOn(s.blocked, s.blocked[k]);
    assert Balance(s, None, s.blocked[k]);
    forall c
      ensures Balance(s', None, c)
    {
      assert Balance(s, None, c);
      BlockRemove(s.blocked, k, c);
    }
  }

  lemma BlockedCreated(s: State, k: Word)
    requires Balanced(s, None) && k in s.blocked
    ensures s.blocked[k] in s.exception
  {
    assert k in BlockedOn(s.blocked, s.blocked[k]);
    assert Balance(s, None, s.blocked[k]);
  }

  lemma TakeBalanced(s: State)
    requires Balanced(s, None) && s.mailbox != []
    ensures Balanced(TakeMessage(s), None)
  {
    hide Balanced, TakeMessage;
    TakeEffect(s);
    UnblockEffect(s);
    if Unblocks(s) {
      BlockedCreated(s, SessionForResponse(s.mailbox[0].session));
      UnblockBalanced(s, TakeMessage(s), SessionForResponse(s.mailbox[0].session));
    } else {
      SameBalanced(s, TakeMessage(s), None);
    }
  }

  lemma TakeOrdered(s: State, started: seq<Co>, continued: seq<Co>)
    requires Ordered(s, started, continued) && s.mailbox != []
    ensures Ordered(TakeMessage(s), started, continued)
  {
    hide TakeMessage;
    TakeEffect(s);
    UnblockEffect(s);
  }

  lemma TakeSessions(s: State)
    requires SessionsOk(s) && s.mailbox != []
    ensures SessionsOk(TakeMessage(s))
  {
  }

  /** The response that is taken wakes the coroutine whose request it answers; the others are still waited for. */
  lemma TakeResponses(s: State)
    requires ResponsesOk(s) && RequestsOk(s) && s.mailbox != [] && !s.past.exited
    ensures ResponsesOk(TakeMessage(s))
  {
    hide RequestsOk, Matched, Traced;
    TakeTraced(s);
    if s.past.honest && !s.past.raw {
      if TypeOf(s.mailbox[0].session) == Response {
        TakeExpected(s);
        TakeResponseMatched(s);
      } else {
        TakeOtherMatched(s);
      }
    }
  }

  /** A response wakes whoever made the latest request under its session, which is not earlier than its own. */
  lemma TakeReached(s: State, m: Message)
    requires OpenOk(s.past.tickets, s.past.open) && Owners(s) && Names(s, m)
    requires AllReached(s.past.tickets, s.past.delivered)
    ensures AllReached(s.past.tickets, TakeResponse(s, m).past.delivered)
  {
    var s', k := TakeResponse(s, m), SessionForResponse(m.session);
    if k in s.blocked && s.past.open[k] != m.answers {
      assert Reuses(s.past.tickets, m.answers, s.past.open[k]);
    }
    assert Reached(s.past.tickets, s'.past.delivered[|s.past.delivered|]);
  }

  lemma FrontNamed(s: State)
    requires Ticketed(s) && s.mailbox != [] && |s.mailbox| <= |s.past.pushed|
    requires s.mailbox == s.past.pushed[|s.past.pushed| - |s.mailbox|..] && TypeOf(s.mailbox[0].session) == Response
    ensures Names(s, s.mailbox[0])
  {
    assert s.mailbox[0] == s.past.pushed[|s.past.pushed| - |s.mailbox|];
  }

  lemma TakeTraced(s: State)
    requires Traced(s) && RequestsOk(s) && s.mailbox != []
    ensures Traced(TakeMessage(s))
  {
    hide Due, InboxOk, Kept, OpenOk, AllReached, TakeResponse, SessionForResponse, Ticketed;
    FrontMail(s);
    var m := s.mailbox[0];
    ResponseEffect(s.(mailbox := s.mailbox[1..]), m);
    TicketedFrame(s, TakeMessage(s));
    if TypeOf(m.session) == Response && s.past.known && !s.past.raw {
      var s1 := s.(mailbox := s.mailbox[1..]);
      FrontNamed(s);
      assert Names(s1, m) && Owners(s1);
      TakeReached(s1, m);
    }
  }

  /** The first message of the mailbox is the response that its ticket waits for. */
  lemma TakeExpected(s: State)
    requires Matched(s) && s.mailbox != [] && TypeOf(s.mailbox[0].session) == Response
    ensures Expected(s, s.mailbox[0])
  {
  }

  lemma TakeOtherMatched(s: State)
    requires Matched(s) && s.mailbox != [] && TypeOf(s.mailbox[0].session) != Response
    ensures Matched(TakeMessage(s))
  {
    var s' := TakeMessage(s);
    forall k | k in s'.past.tickets
      ensures Waits(s', k) || Answered(s'.past.pushed, k)
    {
      assert Waits(s, k) || Answered(s.past.pushed, k);
    }
  }

  lemma TakeWaits(s: State, k: nat)
    requires Matched(s) && s.mailbox != [] && s.mailbox[0] in s.past.pushed && k in s.past.tickets
    requires TypeOf(s.mailbox[0].session) == Response
    ensures Waits(TakeMessage(s), k) || Answered(s.past.pushed, k)
  {
    hide TakeMessage, Differ;
    TakeEffect(s);
    UnblockEffect(s);
    var m := s.mailbox[0];
    assert Expected(s, m);
    assert Waits(s, k) || Answered(s.past.pushed, k);
    if k == m.answers {
      var i :| 0 <= i < |s.past.pushed| && s.past.pushed[i] == m;
      assert Answered(s.past.pushed, k);
    }
  }

  lemma TakeExpects(s: State, i: nat)
    requires Matched(s) && i < |s.mailbox| - 1 && |s.mailbox| <= |s.past.pushed|
    requires s.mailbox == s.past.pushed[|s.past.pushed| - |s.mailbox|..]
    requires TypeOf(s.mailbox[0].session) == Response == TypeOf(s.mailbox[i + 1].session)
    ensures Expected(TakeMessage(s), s.mailbox[i + 1])
  {
    hide TakeMessage;
    TakeEffect(s);
    UnblockEffect(s);
    var first := |s.past.pushed| - |s.mailbox|;
    assert Expected(s, s.mailbox[0]) && Expected(s, s.mailbox[i + 1]);
    assert Differ(s.past.pushed[first], s.past.pushed[first + i + 1]);
  }

  lemma TakeResponseMatched(s: State)
    requires Matched(s) && RequestsOk(s) && s.mailbox != [] && TypeOf(s.mailbox[0].session) == Response
    ensures Matched(TakeMessage(s))
  {
    hide Due, InboxOk, Kept, TakeMessage, Waits, Answered, Expected;
    FrontMail(s);
    TakeEffect(s);
    var s' := TakeMessage(s);
    forall k | k in s'.past.tickets
      ensures Waits(s', k) || Answered(s'.past.pushed, k)
    {
      TakeWaits(s, k);
    }
    forall i | 0 <= i < |s'.mailbox| && TypeOf(s'.mailbox[i].session) == Response
      ensures Expected(s', s'.mailbox[i])
    {
      TakeExpects(s, i);
    }
  }

  lemma TakeKeepsReady(s: State)
    requires Ready(s) && s.mailbox != [] && !s.past.exited
    ensures Ready(TakeMessage(s)) && !TakeMessage(s).past.exited
  {
    hide Balanced, SessionsOk, RequestsOk, ResponsesOk, Ordered, TakeMessage;
    TakeEffect(s);
    TakeBalanced(s);
    TakeOrdered(s, Cos(s.past.ran, false), Cos(s.past.ran, true));
    TakeSessions(s);
    TakeRequests(s);
    TakeResponses(s);
  }

  // ----- the whole process -----

  /** How the state of a process relates to where it is in its life. */
  ghost predicate Consistent(l: Life) {
    && Inv(l.s)
    && (l.phase == Up ==> l.s.past.abandoned == [] && !l.s.past.exited)
    && (l.phase == Gone ==> Over(l.s))
  }

  lemma ExitKeeps(s: State, o: Orders, turns: seq<Turn>)
    requires Ready(s) && IsOrder(o)
    ensures var u := Exit(s, o, turns); Inv(u.s) && (u.done ==> Over(u.s)) && u.s.past.exited
  {
    hide Balanced, SessionsOk, RequestsOk, IsOrder, Unwind;
    var s' := s.(past := s.past.(exited := true));
    SameBalanced(s, s', None);
    SessionsFrame(s, s');
    RequestsFrame(s, s');
    UnwindKeeps(s', o, turns);
  }

  lemma DispatchKeeps(s: State, o: Orders, turns: seq<Turn>)
    requires Ready(s) && IsOrder(o) && !s.past.exited
    ensures var d := Dispatch(s, o, turns);
      && Inv(d.s) && (d.done && !d.alive ==> Over(d.s))
      && (d.alive ==> Ready(d.s) && !d.s.past.exited)
      && (!d.s.past.exited ==> StaysBlocked(s, d.s))
  {
    hide Inv, IsOrder, Run, Exit, StaysBlocked;
    var r := Run(s, turns);
    RunKeeps(s, turns);
    if r.thrown {
      ExitKeeps(r.s, o, r.rest);
    }
  }

  lemma ResumeProcessKeeps(s: State, o: Orders, turns: seq<Turn>)
    requires Ready(s) && IsOrder(o) && !s.past.exited
    ensures var r := ResumeProcess(s, o, turns);
      && Inv(r.s) && (r.done && r.result == Down ==> Over(r.s))
      && (r.result != Down ==> Ready(r.s) && !r.s.past.exited)
  {
    hide Inv, IsOrder, Dispatch, Exit, TakeMessage;
    var d := Dispatch(s, o, turns);
    DispatchKeeps(s, o, turns);
    if d.done && d.alive && d.s.mailbox != [] {
      TakeKeepsReady(d.s);
      if Kills(d.s.mailbox[0]) {
        ExitKeeps(TakeMessage(d.s), o, d.rest);
      }
    }
  }

  lemma PushLife(s: State, mail: Mail)
    requires Inv(s)
    ensures Inv(Push(s, mail)) && Push(s, mail).past.exited == s.past.exited
    ensures Push(s, mail).past.abandoned == s.past.abandoned && (Over(s) ==> Over(Push(s, mail)))
  {
    hide Balanced, SessionsOk, RequestsOk, ResponsesOk;
    PushBalanced(s, None, mail);
    PushRequests(s, mail);
    PushResponses(s, mail);
    SessionsFrame(s, Push(s, mail));
  }

  lemma InitInv(main: Co)
    ensures Ready(Init(main)) && !Init(main).past.exited
  {
    forall c
      ensures Balance(Init(main), None, c)
    {
      assert BlockedOn(map[], c) == {};
    }
  }

  /** Over any life of a process, with any user code, the invariants hold. */
  lemma {:induction false} LiveKeeps(main: Co, o: Orders, events: seq<Event>)
    requires IsOrder(o)
    ensures Consistent(Live(main, o, events))
  {
    hide Inv, IsOrder, ResumeProcess, Over, Push;
    if events == [] {
      InitInv(main);
    } else {
      var init, e := events[..|events| - 1], events[|events| - 1];
      LiveKeeps(main, o, init);
      var l := Live(main, o, init);
      if e.Pushed? {
        PushLife(l.s, e.mail);
      } else if l.phase == Up {
        ResumeProcessKeeps(l.s, o, e.turns);
      }
    }
  }

  // ----- what it comes to -----

  /** Where a coroutine can be; one that is blocked is on a session. */
  datatype Place = InHand | Spawned | Woken | Suspended | OnSession(k: Word) | Zombie | Destroyed

  lemma OneSession(blocked: map<Word, Co>, c: Co)
    requires |BlockedOn(blocked, c)| <= 1
    ensures forall j, k :: j in blocked && k in blocked && blocked[j] == c == blocked[k] ==> j == k
    ensures |BlockedOn(blocked, c)| == 0 <==> forall k :: k in blocked ==> blocked[k] != c
  {
    forall j, k | j in blocked && k in blocked && blocked[j] == c == blocked[k]
      ensures j == k
    {
      var others := BlockedOn(blocked, c) - {j};
      assert |others| == |BlockedOn(blocked, c)| - 1;
      assert k != j ==> k in others;
    }
    if |BlockedOn(blocked, c)| == 0 {
      assert forall k :: k in blocked && blocked[k] == c ==> k in BlockedOn(blocked, c);
    } else {
      var k :| k in BlockedOn(blocked, c);
    }
  }

  /** How often a coroutine is in a place. */
  ghost function Times(s: State, hand: Option<Co>, c: Co, place: Place): nat {
    match place
    case InHand => if hand == Some(c) then 1 else 0
    case Spawned => multiset(s.spawned)[c]
    case Woken => multiset(s.woken)[c]
    case Suspended => if c in s.suspended then 1 else 0
    case OnSession(k) => if k in s.blocked && s.blocked[k] == c then 1 else 0
    case Zombie => multiset(s.zombies)[c]
    case Destroyed => multiset(s.past.destroyed)[c]
  }

  ghost predicate OnlyAt(s: State, hand: Option<Co>, c: Co, place: Place) {
    Times(s, hand, c, place) == 1 && forall other :: other != place ==> Times(s, hand, c, other) == 0
  }

  /**
   A coroutine that never yielded after an exception and whose place was never taken is in exactly one place, once:
   with whoever resumes it, in one queue, suspended, on one session, a zombie or destroyed.
   */
  lemma InOnePlace(s: State, hand: Option<Co>, c: Co)
    requires Balanced(s, hand) && c in s.exception
    requires forall i :: 0 <= i < |s.past.ran| ==> !LateTurn(s.past.ran[i], c) && s.past.ran[i].displaced != Some(c)
    ensures exists place :: OnlyAt(s, hand, c, place)
  {
    TallyZero(s.past.ran, c);
    assert Balance(s, hand, c);
    OneSession(s.blocked, c);
    var place;
    if k :| k in s.blocked && s.blocked[k] == c {
      assert k in BlockedOn(s.blocked, c);
      place := OnSession(k);
    } else {
      place := if hand == Some(c) then InHand else if multiset(s.spawned)[c] > 0 then Spawned
        else if multiset(s.woken)[c] > 0 then Woken else if c in s.suspended then Suspended
        else if multiset(s.zombies)[c] > 0 then Zombie else Destroyed;
    }
    assert Active(s, c) + Times(s, hand, c, InHand) + Dead(s, c) == 1;
    assert OnlyAt(s, hand, c, place);
  }

  lemma NoneActive(s: State)
    requires Over(s)
    ensures forall c :: Active(s, c) == 0 && multiset(s.zombies)[c] == 0
  {
    assert forall c :: BlockedOn(s.blocked, c) == {};
  }

  /**
   When a process is down, a coroutine has been destroyed once, and once more for each turn that began with an
   exception and ended in a yield, and once less for each time its place was taken. So it was destroyed exactly once
   if and only if there were as many of the one as of the other; and unless user code blocks on foreign sessions, if
   and only if it never yielded after an exception was delivered to it.
   */
  lemma DestroyedOnce(main: Co, o: Orders, events: seq<Event>, c: Co)
    requires IsOrder(o) && Live(main, o, events).phase == Gone
    ensures var s := Live(main, o, events).s;
      var times, t := multiset(s.past.destroyed)[c], TallyOf(s.past.ran, c);
      && (c !in s.exception ==> times == 0)
      && (c in s.exception ==> times + t.lost == 1 + t.late && (times == 1 <==> t.late == t.lost))
      && (c in s.exception && !s.past.raw ==>
            (times == 1 <==> forall i :: 0 <= i < |s.past.ran| ==> !LateTurn(s.past.ran[i], c)))
  {
    hide Live, IsOrder;
    LiveKeeps(main, o, events);
    var s := Live(main, o, events).s;
    assert Balance(s, None, c);
    NoneActive(s);
    TallyZero(s.past.ran, c);
  }

  /**
   In any life the two queues are served in order, and each coroutine that leaves one runs for a turn; only those
   abandoned at the end of `exit` never run.
   */
  lemma ServedInOrder(main: Co, o: Orders, events: seq<Event>)
    requires IsOrder(o)
    ensures var s := Live(main, o, events).s;
      && s.past.queued == Cos(s.past.ran, false) + s.past.abandoned + s.spawned
      && s.past.rewoken == Cos(s.past.ran, true) + s.woken
      && (Live(main, o, events).phase == Up ==> s.past.abandoned == [])
  {
    hide Live, IsOrder;
    LiveKeeps(main, o, events);
  }

  // ----- the inbox -----

  /** In any life the requests and notifications taken from the mailbox are served once each, in the order pushed. */
  lemma ServedOnce(main: Co, o: Orders, events: seq<Event>)
    requires IsOrder(o)
    ensures var s := Live(main, o, events).s;
      && |s.mailbox| <= |s.past.pushed| && s.mailbox == s.past.pushed[|s.past.pushed| - |s.mailbox|..]
      && s.past.served + s.inbox == ForInbox(s.past.pushed[..|s.past.pushed| - |s.mailbox|])
  {
    hide Live, IsOrder;
    LiveKeeps(main, o, events);
  }

  /** No message is left in the inbox while the coroutine that waits for it in `serve` sleeps. */
  lemma NoMailWaits(s: State, o: Orders, turns: seq<Turn>, c: Co)
    requires Ready(s) && IsOrder(o) && !s.past.exited
    ensures var d := Dispatch(s, o, turns);
      d.done && d.alive && Server(d.s.past.ran) == Some(c) && c in d.s.suspended ==> d.s.inbox == []
  {
    hide Balanced, InTurn, SessionsOk, RequestsOk, ResponsesOk, IsOrder, Run, Exit;
    DispatchKeeps(s, o, turns);
  }

  // ----- requests -----

  /** How many requests with this source and session are in a queue. */
  function Requests(q: seq<Message>, r: (Pid, Word)): nat {
    if q == [] then 0 else Requests(q[..|q| - 1], r) + if IsRequest(q[|q| - 1], r) then 1 else 0
  }

  lemma {:induction false} RequestIn(q: seq<Message>, m: Message)
    requires m in q && TypeOf(m.session) == Request
    ensures Requests(q, (m.source, m.session)) > 0
  {
    if m == q[|q| - 1] {
    } else {
      RequestIn(q[..|q| - 1], m);
    }
  }

  lemma SameAbort(m: Message, r: (Pid, Word))
    requires TypeOf(m.session) == Request
    ensures AbortOf(m.source, m.session) == AbortOf(r.0, r.1) <==> IsRequest(m, r)
  {
    ResponseRoundTrip(m.session);
    ResponseRoundTrip(r.1);
  }

  /** An abort goes to the requester, and is a response to its session. */
  lemma AbortAnswers(source: Pid, session: Word)
    ensures var abort := AbortOf(source, session);
      && abort.0 == source && SessionForResponse(abort.1) == session
      && (IsSessionId(session) ==> TypeOf(abort.1) == Response)
  {
    ResponseRoundTrip(session);
  }

  lemma {:induction false} QueueAborts(q: seq<Message>, r: (Pid, Word))
    ensures multiset(RequestAborts(q))[AbortOf(r.0, r.1)] == Requests(q, r)
  {
    hide AbortOf, IsRequest;
    if q == [] {
    } else {
      var m := q[|q| - 1];
      QueueAborts(q[..|q| - 1], r);
      if TypeOf(m.session) == Request {
        SameAbort(m, r);
      } else {
        assert !IsRequest(m, r) by { NoRequest(m, r); }
      }
    }
  }

  lemma NoRequest(m: Message, r: (Pid, Word))
    requires TypeOf(m.session) != Request
    ensures !IsRequest(m, r)
  {
  }

  lemma {:induction false} NotedAborts(order: seq<(Pid, Word)>, r: (Pid, Word))
    ensures multiset(AbortsOf(order))[AbortOf(r.0, r.1)] == multiset(order)[r]
  {
    if order == [] {
    } else {
      var init, x := order[..|order| - 1], order[|order| - 1];
      NotedAborts(init, r);
      assert order == init + [x] && AbortsOf(order) == AbortsOf(init) + [AbortOf(x.0, x.1)];
      ResponseRoundTrip(x.1);
      ResponseRoundTrip(r.1);
      assert AbortOf(x.0, x.1) == AbortOf(r.0, r.1) <==> x == r;
    }
  }

  lemma DestroyAborts(s: State, o: Orders, r: (Pid, Word))
    requires s.past.aborts == [] && multiset(o.requests(s.requests)) == multiset(s.requests)
    ensures multiset(Destroy(s, o).past.aborts)[AbortOf(r.0, r.1)]
      == (if r in s.requests then 1 else 0) + Requests(s.inbox, r) + Requests(s.mailbox, r)
  {
    hide AbortOf, AbortsOf, RequestAborts, Requests;
    NotedAborts(o.requests(s.requests), r);
    QueueAborts(s.inbox, r);
    QueueAborts(s.mailbox, r);
  }

  lemma NotInMail(s: State, i: nat)
    requires RequestsOk(s) && i < |s.past.pushed| - |s.mailbox|
    ensures s.past.pushed[i] !in s.mailbox
  {
    hide Kept, InboxOk, Unanswered;
    var n := |s.past.pushed| - |s.mailbox|;
    forall k | 0 <= k < |s.mailbox|
      ensures s.mailbox[k] != s.past.pushed[i]
    {
      assert s.mailbox[k] == s.past.pushed[n + k];
    }
  }

  lemma RequestKept(s: State, m: Message)
    requires RequestsOk(s) && m in s.past.pushed && TypeOf(m.session) == Request
    ensures m in s.mailbox || (m.source, m.session) in s.requests || m in s.past.closed
  {
    hide Due, InboxOk;
    var i :| 0 <= i < |s.past.pushed| && s.past.pushed[i] == m;
    assert Kept(s, s.past.pushed[i]);
  }

  lemma NotedUnanswered(s: State, r: (Pid, Word))
    requires RequestsOk(s) && r in s.requests
    ensures Unanswered(s, r) && s.past.aborts == []
  {
    hide Kept, InboxOk, Unanswered;
  }

  /** A pair is noted exactly if a request with it was taken and not answered. */
  lemma NotedExactly(s: State, r: (Pid, Word))
    requires RequestsOk(s)
    ensures r in s.requests <==> Unanswered(s, r)
  {
    hide RequestsOk;
    if r in s.requests {
      NotedUnanswered(s, r);
    } else if Unanswered(s, r) {
      var i :| 0 <= i < |s.past.pushed| - |s.mailbox| && IsRequest(s.past.pushed[i], r)
        && s.past.pushed[i] !in s.past.closed;
      NotInMail(s, i);
      RequestKept(s, s.past.pushed[i]);
    }
  }

  lemma LiveRequests(main: Co, o: Orders, events: seq<Event>)
    requires IsOrder(o)
    ensures RequestsOk(Live(main, o, events).s)
  {
    hide Live, IsOrder, RequestsOk;
    LiveKeeps(main, o, events);
  }

  lemma NotedOrder(o: Orders, requests: set<(Pid, Word)>)
    requires IsOrder(o)
    ensures multiset(o.requests(requests)) == multiset(requests)
  {
  }

  /**
   How often the destructor aborts the requests with a source and session: once if one was taken and not answered, once
   for each that is still in the inbox, and once for each that is still in the mailbox.
   */
  lemma AbortsCounted(main: Co, o: Orders, events: seq<Event>, r: (Pid, Word))
    requires IsOrder(o)
    ensures var s := Live(main, o, events).s;
      multiset(Destroy(s, o).past.aborts)[AbortOf(r.0, r.1)]
        == (if Unanswered(s, r) then 1 else 0) + Requests(s.inbox, r) + Requests(s.mailbox, r)
  {
    hide Live, Destroy, AbortOf, Requests, Unanswered, IsOrder;
    LiveRequests(main, o, events);
    var s := Live(main, o, events).s;
    NotedOrder(o, s.requests);
    NotedExactly(s, r);
    DestroyAborts(s, o, r);
  }

  lemma {:induction false} InboxFrom(q: seq<Message>, m: Message)
    requires m in ForInbox(q)
    ensures m in q
  {
    if m in ForInbox(q[..|q| - 1]) {
      InboxFrom(q[..|q| - 1], m);
    }
  }

  /** So a request that is neither answered nor served when the process is destroyed is aborted twice. */
  lemma AbortedTwice(main: Co, o: Orders, events: seq<Event>, m: Message)
    requires IsOrder(o) && m in Live(main, o, events).s.inbox && TypeOf(m.session) == Request
    requires m !in Live(main, o, events).s.past.closed
    ensures multiset(Destroy(Live(main, o, events).s, o).past.aborts)[AbortOf(m.source, m.session)] >= 2
  {
    hide Live, Destroy, AbortOf, Requests, Due, Kept, ForInbox, IsOrder;
    LiveRequests(main, o, events);
    var s, r := Live(main, o, events).s, (m.source, m.session);
    var taken := s.past.pushed[..|s.past.pushed| - |s.mailbox|];
    assert m in s.past.served + s.inbox;
    InboxFrom(taken, m);
    var i :| 0 <= i < |taken| && taken[i] == m;
    assert IsRequest(s.past.pushed[i], r);
    RequestIn(s.inbox, m);
    AbortsCounted(main, o, events, r);
  }

  /** When a process is destroyed, every request it ever accepted was answered or gets an abort. */
  lemma NoneForgotten(main: Co, o: Orders, events: seq<Event>, m: Message)
    requires IsOrder(o) && m in Live(main, o, events).s.past.pushed && TypeOf(m.session) == Request
    ensures m in Live(main, o, events).s.past.closed ||
      AbortOf(m.source, m.session) in Destroy(Live(main, o, events).s, o).past.aborts
  {
    hide Live, Destroy, AbortOf, Requests, RequestsOk, Unanswered, IsOrder;
    LiveRequests(main, o, events);
    var s := Live(main, o, events).s;
    RequestKept(s, m);
    if m in s.mailbox {
      RequestIn(s.mailbox, m);
    }
    NotedExactly(s, (m.source, m.session));
    AbortsCounted(main, o, events, (m.source, m.session));
  }

  lemma {:induction false} AbortFrom(q: seq<Message>, i: nat) returns (m: Message)
    requires i < |RequestAborts(q)|
    ensures m in q && TypeOf(m.session) == Request && AbortOf(m.source, m.session) == RequestAborts(q)[i]
  {
    var init := q[..|q| - 1];
    if i < |RequestAborts(init)| {
      m := AbortFrom(init, i);
    } else {
      m := q[|q| - 1];
    }
  }

  /** Every abort is for a request that was accepted, and that was not answered unless it is still in the inbox. */
  lemma AbortsAreDue(main: Co, o: Orders, events: seq<Event>, i: nat) returns (m: Message)
    requires IsOrder(o) && i < |Destroy(Live(main, o, events).s, o).past.aborts|
    ensures var s := Live(main, o, events).s;
      && m in s.past.pushed && TypeOf(m.session) == Request && (m !in s.past.closed || m in s.inbox)
      && Destroy(s, o).past.aborts[i] == AbortOf(m.source, m.session)
  {
    hide Live, RequestAborts, AbortOf, Kept;
    LiveKeeps(main, o, events);
    var s := Live(main, o, events).s;
    var order := o.requests(s.requests);
    var n, k := |order|, |RequestAborts(s.inbox)|;
    if i < n {
      assert order[i] in multiset(order);
      assert Unanswered(s, order[i]);
      var j :| 0 <= j < |s.past.pushed| - |s.mailbox| && IsRequest(s.past.pushed[j], order[i])
        && s.past.pushed[j] !in s.past.closed;
      m := s.past.pushed[j];
    } else if i < n + k {
      m := AbortFrom(s.inbox, i - n);
    } else {
      m := AbortFrom(s.mailbox, i - n - k);
    }
  }

  // ----- responses -----

  /**
   As long as every response answers a request and user code does not block on foreign sessions: a response that a
   process took woke nobody, or the coroutine that waited for it, or one that waited for the response to a later request
   under the same session. If no two responses answer the same request, it woke the one that waited for it.
   */
  lemma ResponsesReachRequesters(main: Co, o: Orders, events: seq<Event>, i: nat)
    requires IsOrder(o)
    requires var s := Live(main, o, events).s; s.past.known && !s.past.raw && i < |s.past.delivered|
    ensures var s := Live(main, o, events).s;
      var tickets, d := s.past.tickets, s.past.delivered[i];
      && d.ticket in tickets
      && (d.woken.None? || Right(tickets, d)
          || (d.latest.Some? && Reuses(tickets, d.ticket, d.latest.value)
              && d.woken == Some(tickets[d.latest.value].co)))
      && (s.past.honest ==> Right(tickets, d))
  {
    hide Live, IsOrder;
    LiveKeeps(main, o, events);
    var s := Live(main, o, events).s;
    assert Reached(s.past.tickets, s.past.delivered[i]);
  }

  /** The exception of a coroutine that got `m` as a response. */
  function Delivers(m: Message, before: Exception): Exception {
    if m.failure == NoException then before else m.failure
  }

  /** The message a process took woke what was blocked on session `k`. */
  ghost predicate WokenBy(m: Message, k: Word) {
    TypeOf(m.session) == Response && m.session == SessionForResponse(k)
  }

  /**
   Unless the process exits, a blocked coroutine stays blocked until the response with the negation of its session;
   that one wakes it, with the exception if there is one.
   */
  lemma BlockedUntilResponse(s: State, o: Orders, turns: seq<Turn>, k: Word)
    requires Ready(s) && IsOrder(o) && !s.past.exited && k in s.blocked
    ensures var d, r := Dispatch(s, o, turns), ResumeProcess(s, o, turns);
      r.done && r.result != Down && !r.s.past.raw ==>
        || (k in r.s.blocked && r.s.blocked[k] == s.blocked[k])
        || (r.result == Resume && WokenBy(d.s.mailbox[0], k) && r.s.woken == d.s.woken + [s.blocked[k]]
            && Failure(r.s, s.blocked[k]) == Delivers(d.s.mailbox[0], Failure(d.s, s.blocked[k])))
  {
    hide Inv, IsOrder, Dispatch, Exit, TakeMessage, SessionForResponse;
    var d := Dispatch(s, o, turns);
    DispatchKeeps(s, o, turns);
    if d.done && d.alive && d.s.mailbox != [] {
      TakeEffect(d.s);
      UnblockEffect(d.s);
      ResponseRoundTrip(d.s.mailbox[0].session);
    }
  }

  // ----- who is alive -----

  /** The body of `c` has neither ended nor lost its place. */
  ghost predicate Alive(s: State, c: Co) {
    c in s.exception && TallyOf(s.past.ran, c).ended == 0 && TallyOf(s.past.ran, c).lost == 0
  }

  lemma AliveIsActive(s: State)
    requires Balanced(s, None) && s.past.abandoned == [] && s.spawned == [] && s.woken == []
    ensures s.blocked != map[] || s.suspended != {} <==> exists c :: Alive(s, c)
  {
    if k :| k in s.blocked {
      assert k in BlockedOn(s.blocked, s.blocked[k]);
      assert Balance(s, None, s.blocked[k]);
      assert Alive(s, s.blocked[k]);
    } else if c :| c in s.suspended {
      assert Balance(s, None, c);
      assert Alive(s, c);
    } else {
      assert s.blocked == map[] && s.suspended == {};
      forall c
        ensures !Alive(s, c)
      {
        assert Balance(s, None, c);
        assert BlockedOn(s.blocked, c) == {};
      }
    }
  }

  /** Without an exit `dispatch` is false exactly if no coroutine is alive; when it is false none is left to destroy. */
  lemma DispatchIsAlive(s: State, o: Orders, turns: seq<Turn>)
    requires Ready(s) && IsOrder(o) && !s.past.exited
    ensures var d := Dispatch(s, o, turns);
      && (d.done && !d.s.past.exited ==> (d.alive <==> exists c :: Alive(d.s, c)))
      && (d.done && d.s.past.exited ==> !d.alive)
      && (d.done && !d.alive ==> forall c :: c in d.s.exception ==>
            multiset(d.s.past.destroyed)[c] + TallyOf(d.s.past.ran, c).lost == 1 + TallyOf(d.s.past.ran, c).late)
  {
    hide InTurn, SessionsOk, RequestsOk, ResponsesOk, IsOrder, Run, Exit, Alive, StaysBlocked;
    DispatchKeeps(s, o, turns);
    RunKeeps(s, turns);
    var d, r := Dispatch(s, o, turns), Run(s, turns);
    if r.thrown {
      ExitKeeps(r.s, o, r.rest);
    } else if d.done {
      AliveIsActive(d.s);
    }
    if d.done && !d.alive {
      NoneActive(d.s);
      forall c | c in d.s.exception
        ensures multiset(d.s.past.destroyed)[c] + TallyOf(d.s.past.ran, c).lost == 1 + TallyOf(d.s.past.ran, c).late
      {
        assert Balance(d.s, None, c);
      }
    }
  }

  // ----- a coroutine that is destroyed twice -----

  lemma OnlyKey(o: Orders, n: nat, k: nat)
    requires IsOrder(o)
    ensures o.keys(n, {k}) == [k] && o.keys(n, {}) == []
  {
    var ks := o.keys(n, {k});
    assert multiset(ks) == multiset{k};
    assert |ks| == |multiset(ks)| == 1;
    assert ks[0] in multiset(ks);
    assert |o.keys(n, {})| == |multiset(o.keys(n, {}))|;
  }

  /** The only coroutine of a process is interrupted, or there is none. */
  lemma InterruptOnly(s: State, o: Orders, cos: seq<Co>)
    requires IsOrder(o) && s.blocked == map[] && |cos| <= 1 && (forall c :: c in s.suspended <==> c in cos)
    requires s.woken == []
    ensures var s' := InterruptAll(s, o);
      && s'.suspended == {} && s'.woken == cos && s'.blocked == map[]
      && s'.exception == (if cos == [] then s.exception else s.exception[cos[0] := CoroutineExit])
      && s'.past == s.past.(rewoken := s.past.rewoken + cos) && s'.spawned == s.spawned && s'.zombies == s.zombies
      && s'.held == s.held
  {
    hide IsOrder, Interrupt;
    var none: set<nat> := s.blocked.Keys;
    assert none == {};
    OnlyKey(o, s.clock, 0);
    InterruptFew(s, 0);
    assert BlockedAt(s.blocked, []) == [];
    var s1 := InterruptBlocked(s, o);
    assert s1 == s.(clock := s.clock + 1);
    var c := if cos == [] then 0 else cos[0];
    assert s.suspended == (if cos == [] then {} else {c}) && cos == if cos == [] then [] else [c];
    OnlyKey(o, s.clock + 1, c);
    InterruptFew(s1, c);
  }

  lemma InterruptFew(s: State, c: Co)
    ensures Interrupt(s, []) == s && Interrupt(s, [c]) == InterruptOne(s, c)
  {
    assert [c][..0] == [];
  }

  const SUSPENDS := Turn([], End.Suspends)
  const ENDS := Turn([], Ends(CoroutineExit))
  const KILL := Mail(0, 0, true, NoException, 0)

  /** What a turn without calls leaves of the state. */
  ghost predicate TurnOnly(s: State, c: Co, turn: Turn, s': State) {
    && s'.spawned == s.spawned && s'.woken == s.woken
    && s'.suspended == (if turn == SUSPENDS then s.suspended + {c} else s.suspended)
    && s'.zombies == (if Failure(s, c) != NoException || turn == ENDS then s.zombies + [c] else s.zombies)
    && s'.exception == (if turn == SUSPENDS then s.exception else s.exception[c := CoroutineExit])
    && s'.blocked == s.blocked && s'.held == s.held && s'.mailbox == s.mailbox && s'.inbox == s.inbox
    && s'.server == s.server && s'.past.destroyed == s.past.destroyed && s'.clock == s.clock
  }

  lemma OneTurn(s: State, c: Co, turn: Turn, woken: bool)
    requires c in s.exception && c !in s.held && (turn == SUSPENDS || turn == ENDS)
    ensures TurnOnly(s, c, turn, ResumeOne(s, c, turn, woken))
  {
    assert DoCalls(s, []) == s;
  }

  /** It runs for one turn without calls. */
  lemma OnlyTurn(s: State, woken: bool, exiting: bool, c: Co, turn: Turn, rest: seq<Turn>)
    requires Front(s, woken) == [c] && c in s.exception && c !in s.held && (turn == SUSPENDS || turn == ENDS)
    requires s.exception[c] != ProcessExit
    ensures var r := ResumeAll(s, woken, exiting, [turn] + rest);
      r.done && !r.thrown && r.rest == rest && Front(r.s, woken) == [] && TurnOnly(Pop(s, woken), c, turn, r.s)
  {
    hide ResumeOne;
    OneTurn(Pop(s, woken), c, turn, woken);
    assert ([turn] + rest)[1..] == rest;
  }

  /** Its first life: it starts and suspends. */
  lemma SuspendsOnce(o: Orders)
    requires IsOrder(o)
    ensures var l := Live(0, o, [Resumes([SUSPENDS])]);
      && l.phase == Up && l.s.suspended == {0} && l.s.blocked == map[] && l.s.held == map[] && l.s.spawned == []
      && l.s.woken == [] && l.s.zombies == [] && l.s.mailbox == [] && l.s.inbox == [] && l.s.past.destroyed == []
      && l.s.exception == map[0 := NoException] && l.s.server == None
  {
    hide ResumeOne, DoTurn;
    var s := Init(0);
    OnlyTurn(s, false, false, 0, SUSPENDS, []);
    assert [SUSPENDS] + [] == [SUSPENDS];
    var a := ResumeAll(s, false, false, [SUSPENDS]);
    var b := ResumeAll(a.s, true, false, []);
    assert b.s == a.s && b.done && !b.thrown;
    assert Run(s, [SUSPENDS]) == Run(a.s, []);
    assert Live(0, o, []) == Life(s, Up);
    assert [Resumes([SUSPENDS])][..0] == [];
  }

  /** It is interrupted, suspends once more, is interrupted again and ends. */
  lemma UnwindsTwice(s: State, o: Orders)
    requires IsOrder(o) && s.suspended == {0} && s.blocked == map[] && s.held == map[] && s.spawned == []
    requires s.woken == []
    requires s.zombies == [] && s.past.destroyed == [] && s.exception == map[0 := NoException]
    ensures var u := Unwind(s, o, [SUSPENDS, ENDS]); u.done && u.s.past.destroyed == [0, 0]
  {
    hide InterruptAll, ResumeAll, IsOrder;
    InterruptOnly(s, o, [0]);
    var i := InterruptAll(s, o);
    assert [SUSPENDS, ENDS] == [SUSPENDS] + [ENDS];
    OnlyTurn(i, true, true, 0, SUSPENDS, [ENDS]);
    var r := ResumeAll(i, true, true, [SUSPENDS, ENDS]);
    InterruptOnly(r.s, o, [0]);
    var i' := InterruptAll(r.s, o);
    assert [ENDS] == [ENDS] + [];
    OnlyTurn(i', true, true, 0, ENDS, []);
    var r' := ResumeAll(i', true, true, [ENDS]);
    InterruptOnly(r'.s, o, []);
    assert Unwind(r'.s, o, []).s.past.destroyed == [0, 0];
    assert Unwind(r.s, o, [ENDS]) == Unwind(r'.s, o, []);
  }

  /** A process that is killed when its only coroutine is suspended, and that coroutine suspends again. */
  lemma DestroyedTwice(o: Orders)
    requires IsOrder(o)
    ensures var l := Live(0, o, [Resumes([SUSPENDS]), Pushed(KILL), Resumes([SUSPENDS, ENDS])]);
      l.phase == Gone && l.s.past.destroyed == [0, 0]
  {
    hide Unwind, IsOrder, ResumeAll;
    var e1, e2, e3 := Resumes([SUSPENDS]), Pushed(KILL), Resumes([SUSPENDS, ENDS]);
    assert [e1, e2, e3][..2] == [e1, e2] && [e1, e2][..1] == [e1];
    SuspendsOnce(o);
    var s := Push(Live(0, o, [e1]).s, KILL);
    assert Live(0, o, [e1, e2]) == Life(s, Up);
    var d := Dispatch(s, o, [SUSPENDS, ENDS]);
    assert d.s == Sweep(s) && d.done && d.alive && d.rest == [SUSPENDS, ENDS];
    UnwindsTwice(TakeMessage(d.s).(past := TakeMessage(d.s).past.(exited := true)), o);
  }
}
