/**
 The protocol by which worker threads, message senders and spawners share a process: its mailbox and `_wait`
 flag, its reference count, the registry, the two run queues and the idle workers of the scheduler.

 One action is one atomic operation or one locked section of the code.
 */
module Scheduler {

  type Pid = nat
  type Aid = nat

  datatype Message = Kill | Other(id: nat)

  /**
   A process object; `deletes` counts how often its memory was freed, `down` that it exits: its coroutines may still
   be unwound, and then its `resume` returns kDown.
   */
  datatype Process = Process(registered: bool, refcnt: int, wait: bool, read: seq<Message>, write: seq<Message>,
                             down: bool, deletes: nat)

  /** Progress inside `sched::resume`: take a reference, enqueue, signal an idle worker. */
  datatype Stage = ToRef | ToEnqueue | ToSend

  /** Who called `sched::resume`, and so what happens afterwards. */
  datatype Caller = Worker | Self | Exiter | Pusher | Spawner

  /** Where a thread of control is: in the worker loop, holding a handle from `find`, or in `sched::resume`. */
  datatype Pc =
    | Check(woken: bool)
    | Waiting
    | Run(p: Pid)
    | SelfCas(p: Pid)
    | ExitCas(p: Pid)
    | Retiring(p: Pid)
    | DropReg(p: Pid)
    | Drop(p: Pid)
    | Held(p: Pid)
    | Pushed(p: Pid)
    | Resuming(p: Pid, stage: Stage, caller: Caller)

  datatype State = State(procs: map<Pid, Process>, runq: seq<Pid>, resumeq: seq<Pid>, idle: int, signals: nat,
                         actors: map<Aid, Pc>)

  datatype Action =
    | Spawn(a: Aid, pid: Pid)
    | Find(a: Aid, pid: Pid)
    | Push(a: Aid, msg: Message)
    | Cas(a: Aid)
    | SchedRef(a: Aid)
    | Enqueue(a: Aid)
    | Send(a: Aid)
    | Release(a: Aid)
    | Pop(a: Aid)
    | Wake(a: Aid)
    | Take(a: Aid)
    | Exit(a: Aid)
    | Unreg(a: Aid)
    | UnrefReg(a: Aid)
    | Unref(a: Aid)

  predicate Enabled(s: State, act: Action) {
    match act
    case Spawn(a, pid) => a !in s.actors && pid !in s.procs
    case Find(a, pid) => a !in s.actors && pid in s.procs && s.procs[pid].registered
    case Push(a, _) => a in s.actors && (s.actors[a].Held? || s.actors[a].Run? || s.actors[a].Retiring?)
    case Cas(a) => a in s.actors && (s.actors[a].Pushed? || s.actors[a].SelfCas? || s.actors[a].ExitCas?)
    case SchedRef(a) => a in s.actors && s.actors[a].Resuming? && s.actors[a].stage == ToRef
    case Enqueue(a) => a in s.actors && s.actors[a].Resuming? && s.actors[a].stage == ToEnqueue
    case Send(a) => a in s.actors && s.actors[a].Resuming? && s.actors[a].stage == ToSend
    case Release(a) => a in s.actors && s.actors[a].Held?
    case Pop(a) => a in s.actors && s.actors[a].Check?
    case Wake(a) => a in s.actors && s.actors[a].Waiting? && s.signals > 0
    case Take(a) => a in s.actors && s.actors[a].Run?
    case Exit(a) => a in s.actors && s.actors[a].Run?
    case Unreg(a) => a in s.actors && s.actors[a].Retiring?
    case UnrefReg(a) => a in s.actors && s.actors[a].DropReg?
    case Unref(a) => a in s.actors && s.actors[a].Drop?
  }

  predicate HasPid(pc: Pc) {
    !pc.Check? && !pc.Waiting?
  }

  /** Every process that is named anywhere exists; this is what makes `Next` total. */
  predicate Known(s: State) {
    && (forall a :: a in s.actors && HasPid(s.actors[a]) ==> s.actors[a].p in s.procs)
    && (forall i :: 0 <= i < |s.runq| ==> s.runq[i] in s.procs)
    && (forall i :: 0 <= i < |s.resumeq| ==> s.resumeq[i] in s.procs)
  }

  function Goto(s: State, a: Aid, pc: Pc): State {
    s.(actors := s.actors[a := pc])
  }

  function SetProc(s: State, p: Pid, pr: Process): State {
    s.(procs := s.procs[p := pr])
  }

  /** `ref` */
  function Incr(pr: Process): Process {
    pr.(refcnt := pr.refcnt + 1)
  }

  /** `unref`: whoever takes the count from 1 to 0 deletes the object. */
  function Decr(pr: Process): Process {
    pr.(refcnt := pr.refcnt - 1, deletes := pr.deletes + if pr.refcnt == 1 then 1 else 0)
  }

  /** What follows a call to `sched::resume`. */
  function Return(s: State, a: Aid, p: Pid, caller: Caller): State {
    match caller
    case Worker => Goto(s, a, Drop(p))
    case Self => Goto(s, a, Run(p))
    case Exiter => Goto(s, a, Retiring(p))
    case Pusher => Goto(s, a, Held(p))
    case Spawner => s.(actors := s.actors - {a})
  }

  /** `Scheduler::run`, the locked section: refill `_runq` when it is empty, then pop a process or go idle. */
  function PopNext(s: State, a: Aid): State {
    var q := if s.runq == [] then s.resumeq else s.runq;
    var rest := if s.runq == [] then [] else s.resumeq;
    if q == [] then Goto(s.(idle := s.idle + 1), a, Waiting)
    else Goto(s.(runq := q[1..], resumeq := rest), a, Run(q[0]))
  }

  /** `Process::resume` after `dispatch`: take a message, or declare the process to be waiting. */
  function TakeNext(s: State, a: Aid, p: Pid): State
    requires p in s.procs
  {
    var pr := s.procs[p];
    var read := if pr.read == [] then pr.write else pr.read;
    var write := if pr.read == [] then [] else pr.write;
    if read == [] then Goto(SetProc(s, p, pr.(wait := true)), a, Drop(p))
    else
      var pr' := pr.(read := read[1..], write := write);
      if read[0] == Kill then Goto(SetProc(s, p, pr'.(down := true)), a, Retiring(p))
      else Goto(SetProc(s, p, pr'), a, Resuming(p, ToRef, Worker))
  }

  /**
   A push is followed by the compare-and-swap. A process may push to itself while a worker runs it, and also while
   its coroutines are unwound after a kill.
   */
  function AfterPush(pc: Pc, p: Pid): Pc {
    if pc.Held? then Pushed(p) else if pc.Run? then SelfCas(p) else ExitCas(p)
  }

  function BeforePush(pc: Pc, p: Pid): Pc {
    if pc.Pushed? then Held(p) else if pc.SelfCas? then Run(p) else Retiring(p)
  }

  function CallerOf(pc: Pc): Caller {
    if pc.Pushed? then Pusher else if pc.SelfCas? then Self else Exiter
  }

  function Next(s: State, act: Action): State
    requires Known(s) && Enabled(s, act)
  {
    match act
    case Spawn(a, pid) =>
      Goto(SetProc(s, pid, Process(true, 1, false, [], [], false, 0)), a, Resuming(pid, ToRef, Spawner))
    case Find(a, pid) =>
      Goto(SetProc(s, pid, Incr(s.procs[pid])), a, Held(pid))
    case Push(a, msg) =>
      var p := s.actors[a].p;
      Goto(SetProc(s, p, s.procs[p].(write := s.procs[p].write + [msg])), a,
           AfterPush(s.actors[a], p))
    case Cas(a) =>
      var p := s.actors[a].p;
      if s.procs[p].wait then
        Goto(SetProc(s, p, s.procs[p].(wait := false)), a, Resuming(p, ToRef, CallerOf(s.actors[a])))
      else Goto(s, a, BeforePush(s.actors[a], p))
    case SchedRef(a) =>
      var Resuming(p, _, caller) := s.actors[a];
      Goto(SetProc(s, p, Incr(s.procs[p])), a, Resuming(p, ToEnqueue, caller))
    case Enqueue(a) =>
      var Resuming(p, _, caller) := s.actors[a];
      var s' := s.(resumeq := s.resumeq + [p]);
      if s.idle != 0 then Goto(s'.(idle := s.idle - 1), a, Resuming(p, ToSend, caller))
      else Return(s', a, p, caller)
    case Send(a) =>
      var Resuming(p, _, caller) := s.actors[a];
      Return(s.(signals := s.signals + 1), a, p, caller)
    case Release(a) =>
      var p := s.actors[a].p;
      SetProc(s, p, Decr(s.procs[p])).(actors := s.actors - {a})
    case Pop(a) =>
      PopNext(s, a)
    case Wake(a) =>
      Goto(s.(signals := s.signals - 1), a, Check(true))
    case Take(a) =>
      TakeNext(s, a, s.actors[a].p)
    case Exit(a) =>
      var p := s.actors[a].p;
      Goto(SetProc(s, p, s.procs[p].(down := true)), a, Retiring(p))
    case Unreg(a) =>
      var p := s.actors[a].p;
      if s.procs[p].registered then Goto(SetProc(s, p, s.procs[p].(registered := false)), a, DropReg(p))
      else Goto(s, a, Drop(p))
    case UnrefReg(a) =>
      var p := s.actors[a].p;
      Goto(SetProc(s, p, Decr(s.procs[p])), a, Drop(p))
    case Unref(a) =>
      var p := s.actors[a].p;
      Goto(SetProc(s, p, Decr(s.procs[p])), a, Check(false))
  }

  /** Any number of workers at the top of their loop, and nothing else. */
  ghost predicate IsInit(s: State) {
    && s.procs == map[] && s.runq == [] && s.resumeq == [] && s.idle == 0 && s.signals == 0
    && (forall a :: a in s.actors ==> s.actors[a] == Check(false))
  }

  function Queue(s: State): seq<Pid> {
    s.runq + s.resumeq
  }

  // ----- the scheduling token -----

  /** Who may schedule or run a process: an actor, the run queue, the next message, or nobody any more. */
  datatype Token = AtActor(a: Aid) | InQueue | InMailbox | Gone

  /** An actor in this state is the one that runs the process or is about to enqueue it. */
  predicate HasToken(pc: Pc) {
    pc.Run? || pc.SelfCas? || (pc.Resuming? && pc.stage != ToSend)
  }

  ghost predicate TokenInv(s: State, t: map<Pid, Token>) {
    && Known(s)
    && ActorTokens(s.actors, t)
    && QueueTokens(Queue(s), t)
    && ProcessTokens(s.procs, t)
    && ExitersDown(s)
  }

  predicate Exits(pc: Pc) {
    pc.Retiring? || pc.ExitCas?
  }

  /** A worker that unwinds a process or is about to retire it has marked it down. */
  ghost predicate ExitersDown(s: State) {
    forall a :: a in s.actors && Exits(s.actors[a]) ==> s.actors[a].p in s.procs && s.procs[s.actors[a].p].down
  }

  /** A process that is run or unwound does not wait, so it never schedules itself. */
  predicate FromOutside(caller: Caller) {
    caller != Self && caller != Exiter
  }

  ghost predicate ActorTokens(actors: map<Aid, Pc>, t: map<Pid, Token>) {
    && (forall a :: a in actors && HasToken(actors[a]) ==> actors[a].p in t && t[actors[a].p] == AtActor(a))
    && (forall p :: p in t && t[p].AtActor? ==>
          t[p].a in actors && HasToken(actors[t[p].a]) && actors[t[p].a].p == p)
    && (forall a :: a in actors && actors[a].Resuming? ==> FromOutside(actors[a].caller))
  }

  ghost predicate QueueTokens(q: seq<Pid>, t: map<Pid, Token>) {
    && (forall i :: 0 <= i < |q| ==> q[i] in t && t[q[i]] == InQueue)
    && (forall p :: p in t && t[p] == InQueue ==> p in q)
    && (forall i, j :: 0 <= i < j < |q| ==> q[i] != q[j])
  }

  ghost predicate ProcessTokens(procs: map<Pid, Process>, t: map<Pid, Token>) {
    && t.Keys == procs.Keys
    && (forall p :: p in t ==> (procs[p].wait <==> t[p] == InMailbox))
    && (forall p :: p in t ==> (procs[p].down <==> t[p] == Gone))
  }

  ghost function NextToken(s: State, t: map<Pid, Token>, act: Action): map<Pid, Token>
    requires Known(s) && Enabled(s, act)
  {
    match act
    case Spawn(a, pid) => t[pid := AtActor(a)]
    case Cas(a) => if s.procs[s.actors[a].p].wait then t[s.actors[a].p := AtActor(a)] else t
    case Enqueue(a) => t[s.actors[a].p := InQueue]
    case Pop(a) => if Queue(s) == [] then t else t[Queue(s)[0] := AtActor(a)]
    case Take(a) =>
      var pr := s.procs[s.actors[a].p];
      if pr.read == [] && pr.write == [] then t[s.actors[a].p := InMailbox]
      else if (if pr.read == [] then pr.write else pr.read)[0] == Kill then t[s.actors[a].p := Gone]
      else t
    case Exit(a) => t[s.actors[a].p := Gone]
    case _ => t
  }

  lemma PopEffect(s: State, act: Action)
    requires Known(s) && Enabled(s, act) && act.Pop?
    ensures var s' := Next(s, act);
      if s.runq != [] then s'.runq == s.runq[1..] && s'.resumeq == s.resumeq
      else s'.resumeq == [] && s'.runq == if s.resumeq == [] then [] else s.resumeq[1..]
  {
  }

  lemma QueueEffect(s: State, act: Action)
    requires Known(s) && Enabled(s, act) && !act.Pop?
    ensures Next(s, act).runq == s.runq
    ensures Next(s, act).resumeq == if act.Enqueue? then s.resumeq + [s.actors[act.a].p] else s.resumeq
  {
  }

  lemma QueueStep(s: State, act: Action)
    requires Known(s) && Enabled(s, act)
    ensures
      Queue(Next(s, act)) ==
        if act.Enqueue? then Queue(s) + [s.actors[act.a].p]
        else if act.Pop? && Queue(s) != [] then Queue(s)[1..]
        else Queue(s)
  {
    hide Next;
    if act.Pop? {
      PopEffect(s, act);
      if s.runq != [] {
        assert Queue(s)[1..] == s.runq[1..] + s.resumeq;
      }
    } else {
      QueueEffect(s, act);
    }
  }

  /** The process an action is about, if there is one. */
  ghost predicate Subject(s: State, act: Action, p: Pid)
    requires Enabled(s, act)
  {
    if act.Pop? then Queue(s) != [] && p == Queue(s)[0]
    else !act.Wake? && p == PidOf(s, act)
  }

  predicate Drops(act: Action) { act.Release? || act.Unref? || act.UnrefReg? }

  predicate Hands(act: Action) { act.Enqueue? || act.Pop? || act.Unreg? }

  predicate Takes(act: Action) { act.Find? || act.SchedRef? }

  lemma OthersRemain(s: State, act: Action, p: Pid)
    requires Known(s) && Enabled(s, act) && Subject(s, act, p)
    ensures p in Next(s, act).procs && (if act.Spawn? then p !in s.procs else p in s.procs)
    ensures Next(s, act).procs.Keys == s.procs.Keys + {p}
  {
    hide Incr, Decr;
  }

  lemma OthersAreSame(s: State, act: Action, p: Pid, q: Pid)
    requires Known(s) && Enabled(s, act) && Subject(s, act, p) && q in s.procs && q != p
    ensures q in Next(s, act).procs && Next(s, act).procs[q] == s.procs[q]
  {
    hide Incr, Decr;
  }

  lemma ProcessStays(s: State, act: Action, p: Pid)
    requires Known(s) && Enabled(s, act) && Subject(s, act, p)
    ensures p in Next(s, act).procs && Next(s, act).procs == s.procs[p := Next(s, act).procs[p]]
    ensures if act.Spawn? then p !in s.procs else p in s.procs
  {
    hide Next, Subject;
    OthersRemain(s, act, p);
    forall q | q in s.procs && q != p
      ensures q in Next(s, act).procs && Next(s, act).procs[q] == s.procs[q]
    {
      OthersAreSame(s, act, p, q);
    }
  }

  lemma ProcessCounts(s: State, act: Action, p: Pid)
    requires Known(s) && Enabled(s, act) && Subject(s, act, p) && p in s.procs && p in Next(s, act).procs && !act.Spawn?
    ensures
      var pr, pr' := s.procs[p], Next(s, act).procs[p];
      && (Drops(act) ==> pr' == Decr(pr))
      && (Takes(act) ==> pr' == Incr(pr))
      && (!Drops(act) && !Takes(act) ==> pr'.refcnt == pr.refcnt && pr'.deletes == pr.deletes)
  {
    hide Incr, Decr;
  }

  lemma ProcessFlags(s: State, act: Action, p: Pid)
    requires Known(s) && Enabled(s, act) && Subject(s, act, p) && p in s.procs && p in Next(s, act).procs && !act.Spawn?
    ensures
      var pr, pr' := s.procs[p], Next(s, act).procs[p];
      && (act.Unreg? ==> pr' == pr.(registered := false))
      && (!act.Unreg? ==> pr'.registered == pr.registered)
      && (pr.down ==> pr'.down)
  {
  }

  /** What an action does to the record of the process it is about. */
  lemma ProcessEffect(s: State, act: Action, p: Pid)
    requires Known(s) && Enabled(s, act) && Subject(s, act, p)
    ensures p in Next(s, act).procs && Next(s, act).procs == s.procs[p := Next(s, act).procs[p]]
    ensures act.Spawn? ==> p !in s.procs && Next(s, act).procs[p] == Process(true, 1, false, [], [], false, 0)
    ensures !act.Spawn? ==> p in s.procs
    ensures !act.Spawn? ==>
      var pr, pr' := s.procs[p], Next(s, act).procs[p];
      && (Drops(act) ==> pr' == Decr(pr))
      && (Takes(act) ==> pr' == Incr(pr))
      && (act.Unreg? ==> pr' == pr.(registered := false))
      && (!act.Unreg? ==> pr'.registered == pr.registered)
      && (!Drops(act) && !Takes(act) ==> pr'.refcnt == pr.refcnt && pr'.deletes == pr.deletes)
      && (pr.down ==> pr'.down)
  {
    hide Incr, Decr, Queue, PopNext, TakeNext, Return;
    ProcessStays(s, act, p);
    if !act.Spawn? {
      ProcessCounts(s, act, p);
      ProcessFlags(s, act, p);
    }
  }

  lemma OthersStay(s: State, act: Action)
    requires Known(s) && Enabled(s, act)
    ensures forall b :: b != act.a ==>
      (b in s.actors <==> b in Next(s, act).actors) && (b in s.actors ==> s.actors[b] == Next(s, act).actors[b])
  {
  }

  lemma ActorSubject(s: State, act: Action)
    requires Known(s) && Enabled(s, act)
    ensures
      var s' := Next(s, act);
      act.a in s'.actors && HasPid(s'.actors[act.a]) ==> Subject(s, act, s'.actors[act.a].p)
  {
  }

  /** An action moves no actor but its own, and that one stays with the process the action is about. */
  lemma ActorEffect(s: State, act: Action)
    requires Known(s) && Enabled(s, act)
    ensures
      var s' := Next(s, act);
      && (forall b :: b != act.a ==>
            (b in s.actors <==> b in s'.actors) && (b in s.actors ==> s.actors[b] == s'.actors[b]))
      && (act.a in s'.actors && HasPid(s'.actors[act.a]) ==> Subject(s, act, s'.actors[act.a].p))
      && (act.a in s'.actors && Exits(s'.actors[act.a]) ==>
            || s'.procs[s'.actors[act.a].p].down
            || (act.a in s.actors && Exits(s.actors[act.a]))
            || (act.a in s.actors && s.actors[act.a].Resuming? && s.actors[act.a].caller == Exiter))
  {
    OthersStay(s, act);
    ActorSubject(s, act);
  }

  lemma QueuesKnown(s: State, act: Action)
    requires Known(s) && Enabled(s, act)
    ensures var s' := Next(s, act);
      && s.procs.Keys <= s'.procs.Keys
      && (forall i :: 0 <= i < |s'.runq| ==> s'.runq[i] in s'.procs)
      && (forall i :: 0 <= i < |s'.resumeq| ==> s'.resumeq[i] in s'.procs)
  {
    var s' := Next(s, act);
    assert s.procs.Keys <= s'.procs.Keys;
    if act.Pop? || act.Enqueue? {
      assert s'.procs == s.procs;
    } else {
      assert s'.runq == s.runq && s'.resumeq == s.resumeq;
    }
  }

  lemma KnownKept(s: State, act: Action)
    requires Known(s) && Enabled(s, act)
    ensures Known(Next(s, act))
  {
    hide Next, Subject;
    QueuesKnown(s, act);
    OthersStay(s, act);
    ActorSubject(s, act);
    var s' := Next(s, act);
    if act.a in s'.actors && HasPid(s'.actors[act.a]) {
      ProcessStays(s, act, s'.actors[act.a].p);
    }
  }

  ghost function PidOf(s: State, act: Action): Pid
    requires Enabled(s, act)
  {
    if act.Spawn? || act.Find? then act.pid else if act.Pop? || act.Wake? then 0 else s.actors[act.a].p
  }

  /** Actor `a` moves to `pc`, and with it at most the token of the one process `p` it is concerned with. */
  lemma ActorFrame(actors: map<Aid, Pc>, t: map<Pid, Token>, a: Aid, pc: Pc, p: Pid, tok: Token)
    requires ActorTokens(actors, t)
    requires p in t && t[p].AtActor? ==> t[p].a == a
    requires a in actors && HasToken(actors[a]) ==> actors[a].p == p
    requires HasToken(pc) ==> pc.p == p
    requires if HasToken(pc) then tok == AtActor(a) else !tok.AtActor?
    requires pc.Resuming? ==> FromOutside(pc.caller)
    ensures ActorTokens(actors[a := pc], t[p := tok])
  {
  }

  lemma ActorLeaves(actors: map<Aid, Pc>, t: map<Pid, Token>, a: Aid)
    requires ActorTokens(actors, t) && a in actors && !HasToken(actors[a])
    ensures ActorTokens(actors - {a}, t)
  {
  }

  lemma TokenMoves(s: State, t: map<Pid, Token>, act: Action, p: Pid)
    requires Known(s) && Enabled(s, act) && Subject(s, act, p) && (p in t || act.Spawn?)
    ensures p in NextToken(s, t, act) && NextToken(s, t, act) == t[p := NextToken(s, t, act)[p]]
  {
  }

  ghost predicate HasTokenOf(s: State, a: Aid) {
    a in s.actors && HasToken(s.actors[a])
  }

  lemma ActorTokensStay(s: State, t: map<Pid, Token>, act: Action)
    requires TokenInv(s, t) && Enabled(s, act) && act.a in Next(s, act).actors
    ensures ActorTokens(Next(s, act).actors, NextToken(s, t, act))
  {
    hide ActorTokens, QueueTokens, ProcessTokens;
    TokenOfPid(s, t, act);
    var pc := Next(s, act).actors[act.a];
    if (act.Pop? && Queue(s) == []) || act.Wake? || (!HasToken(pc) && !HasTokenOf(s, act.a)) {
      ActorMovesFreely(s.actors, t, act.a, pc);
    } else {
      var p := if act.Pop? then Queue(s)[0] else PidOf(s, act);
      TokenMoves(s, t, act, p);
      ActorFrame(s.actors, t, act.a, pc, p, NextToken(s, t, act)[p]);
    }
  }

  lemma ActorTokensLeave(s: State, t: map<Pid, Token>, act: Action)
    requires TokenInv(s, t) && Enabled(s, act) && act.a !in Next(s, act).actors
    ensures ActorTokens(Next(s, act).actors, NextToken(s, t, act))
  {
    hide ActorTokens, QueueTokens, ProcessTokens;
    TokenOfPid(s, t, act);
    if act.Enqueue? {
      var p := s.actors[act.a].p;
      ActorFrame(s.actors, t, act.a, Held(p), p, InQueue);
      ActorLeaves(s.actors[act.a := Held(p)], NextToken(s, t, act), act.a);
      assert s.actors[act.a := Held(p)] - {act.a} == Next(s, act).actors;
    } else {
      ActorLeaves(s.actors, t, act.a);
    }
  }

  lemma ActorTokensKept(s: State, t: map<Pid, Token>, act: Action)
    requires TokenInv(s, t) && Enabled(s, act)
    ensures ActorTokens(Next(s, act).actors, NextToken(s, t, act))
  {
    hide ActorTokens, Next, NextToken, Enabled;
    if act.a in Next(s, act).actors {
      ActorTokensStay(s, t, act);
    } else {
      ActorTokensLeave(s, t, act);
    }
  }

  lemma ActorMovesFreely(actors: map<Aid, Pc>, t: map<Pid, Token>, a: Aid, pc: Pc)
    requires ActorTokens(actors, t) && (a in actors ==> !HasToken(actors[a])) && !HasToken(pc)
    requires pc.Resuming? ==> FromOutside(pc.caller)
    ensures ActorTokens(actors[a := pc], t)
  {
  }

  /** Where the token of the process is before an action that moves it. */
  lemma TokenOfPid(s: State, t: map<Pid, Token>, act: Action)
    requires TokenInv(s, t) && Enabled(s, act)
    ensures act.a in s.actors && HasToken(s.actors[act.a]) ==>
      s.actors[act.a].p in t && t[s.actors[act.a].p] == AtActor(act.a)
    ensures act.a in s.actors && s.actors[act.a].Resuming? ==> FromOutside(s.actors[act.a].caller)
    ensures act.Cas? ==> s.actors[act.a].p in t
    ensures act.Cas? ==> (s.procs[s.actors[act.a].p].wait <==> t[s.actors[act.a].p] == InMailbox)
    ensures act.Cas? && s.actors[act.a].ExitCas? ==> !s.procs[s.actors[act.a].p].wait
    ensures act.Spawn? ==> act.pid !in t
    ensures act.Pop? && Queue(s) != [] ==> Queue(s)[0] in t && t[Queue(s)[0]] == InQueue
  {
  }

  lemma QueueFrame(q: seq<Pid>, t: map<Pid, Token>, p: Pid, tok: Token)
    requires QueueTokens(q, t) && (p in t ==> t[p] != InQueue) && tok != InQueue
    ensures QueueTokens(q, t[p := tok])
  {
  }

  lemma QueuePush(q: seq<Pid>, t: map<Pid, Token>, p: Pid)
    requires QueueTokens(q, t) && p in t && t[p] != InQueue
    ensures QueueTokens(q + [p], t[p := InQueue])
  {
    assert (q + [p])[|q|] == p;
    forall x | x in q
      ensures x in q + [p]
    {
    }
  }

  lemma QueuePop(q: seq<Pid>, t: map<Pid, Token>, tok: Token)
    requires QueueTokens(q, t) && q != [] && tok != InQueue
    ensures QueueTokens(q[1..], t[q[0] := tok])
  {
    forall p | p in t && t[p] == InQueue && p != q[0]
      ensures p in q[1..]
    {
      var i :| 0 <= i < |q| && q[i] == p;
      assert q[1..][i - 1] == p;
    }
  }

  lemma QueueTokensKept(s: State, t: map<Pid, Token>, act: Action)
    requires TokenInv(s, t) && Enabled(s, act)
    ensures QueueTokens(Queue(Next(s, act)), NextToken(s, t, act))
  {
    hide ActorTokens, QueueTokens, ProcessTokens, Next;
    QueueStep(s, act);
    TokenOfPid(s, t, act);
    var t' := NextToken(s, t, act);
    match act
    case Enqueue(a) => QueuePush(Queue(s), t, s.actors[a].p);
    case Pop(a) => if Queue(s) != [] { QueuePop(Queue(s), t, t'[Queue(s)[0]]); }
    case Spawn(a, pid) => QueueFrame(Queue(s), t, pid, t'[pid]);
    case Cas(a) => if t' != t { QueueFrame(Queue(s), t, s.actors[a].p, t'[s.actors[a].p]); }
    case Take(a) => if t' != t { QueueFrame(Queue(s), t, s.actors[a].p, t'[s.actors[a].p]); }
    case Exit(a) => QueueFrame(Queue(s), t, s.actors[a].p, t'[s.actors[a].p]);
    case _ =>
  }

  lemma ProcessFrame(procs: map<Pid, Process>, t: map<Pid, Token>, p: Pid, pr: Process, tok: Token)
    requires ProcessTokens(procs, t)
    requires (pr.wait <==> tok == InMailbox) && (pr.down <==> tok == Gone)
    ensures ProcessTokens(procs[p := pr], t[p := tok])
  {
  }

  lemma ProcessTokensKept(s: State, t: map<Pid, Token>, act: Action)
    requires TokenInv(s, t) && Enabled(s, act)
    ensures ProcessTokens(Next(s, act).procs, NextToken(s, t, act))
  {
    hide ActorTokens, QueueTokens, ProcessTokens;
    TokenOfPid(s, t, act);
    var s', t' := Next(s, act), NextToken(s, t, act);
    if !act.Wake? && !(act.Pop? && Queue(s) == []) {
      var p := if act.Pop? then Queue(s)[0] else PidOf(s, act);
      FlagsOf(s, t, p);
      ProcessFrame(s.procs, t, p, s'.procs[p], t'[p]);
      assert s'.procs == s.procs[p := s'.procs[p]] && t' == t[p := t'[p]];
    }
  }

  lemma FlagsOf(s: State, t: map<Pid, Token>, p: Pid)
    requires TokenInv(s, t)
    ensures p in s.procs ==> p in t && (s.procs[p].wait <==> t[p] == InMailbox) && (s.procs[p].down <==> t[p] == Gone)
  {
  }

  lemma StaysDown(s: State, act: Action, p: Pid)
    requires Known(s) && Enabled(s, act) && p in s.procs && s.procs[p].down
    ensures p in Next(s, act).procs && Next(s, act).procs[p].down
  {
  }

  lemma ExitersDownKept(s: State, t: map<Pid, Token>, act: Action)
    requires TokenInv(s, t) && Enabled(s, act)
    ensures ExitersDown(Next(s, act))
  {
    hide ActorTokens, QueueTokens, ProcessTokens, Next;
    ActorEffect(s, act);
    KnownKept(s, act);
    TokenOfPid(s, t, act);
    var s' := Next(s, act);
    forall b | b in s'.actors && Exits(s'.actors[b])
      ensures s'.procs[s'.actors[b].p].down
    {
      if b != act.a {
        StaysDown(s, act, s.actors[b].p);
      } else if b in s.actors && Exits(s.actors[b]) && !s'.procs[s'.actors[b].p].down {
        ExiterStays(s, act);
        StaysDown(s, act, s.actors[b].p);
      }
    }
  }

  /** A worker that unwinds a process stays with it. */
  lemma ExiterStays(s: State, act: Action)
    requires Known(s) && Enabled(s, act) && act.a in s.actors && Exits(s.actors[act.a])
    ensures act.a in Next(s, act).actors && Exits(Next(s, act).actors[act.a]) ==>
      Next(s, act).actors[act.a].p == s.actors[act.a].p
  {
  }

  lemma TokenKept(s: State, t: map<Pid, Token>, act: Action)
    requires TokenInv(s, t) && Enabled(s, act)
    ensures TokenInv(Next(s, act), NextToken(s, t, act))
  {
    hide ActorTokens, QueueTokens, ProcessTokens, ExitersDown, Next, NextToken;
    KnownKept(s, act);
    ExitersDownKept(s, t, act);
    ActorTokensKept(s, t, act);
    QueueTokensKept(s, t, act);
    ProcessTokensKept(s, t, act);
  }

  // ----- unwinding -----

  /** Worker `a` unwinds the coroutines of process `p`, or is about to retire it. */
  predicate Unwinds(s: State, a: Aid, p: Pid) {
    a in s.actors && Exits(s.actors[a]) && s.actors[a].p == p
  }

  /** A process is unwound by one worker at most. */
  ghost predicate OneExiter(s: State) {
    forall a, b, p :: Unwinds(s, a, p) && Unwinds(s, b, p) ==> a == b
  }

  /** A worker that begins to unwind a process has run it until then. */
  lemma ExiterRan(s: State, t: map<Pid, Token>, act: Action)
    requires TokenInv(s, t) && Enabled(s, act) && act.a in Next(s, act).actors && Exits(Next(s, act).actors[act.a])
    ensures act.a in s.actors && HasPid(s.actors[act.a]) && s.actors[act.a].p == Next(s, act).actors[act.a].p
    ensures Exits(s.actors[act.a]) || HasToken(s.actors[act.a])
  {
    hide ActorTokens, QueueTokens, ProcessTokens;
    TokenOfPid(s, t, act);
  }

  lemma OneExiterKept(s: State, t: map<Pid, Token>, act: Action)
    requires TokenInv(s, t) && OneExiter(s) && Enabled(s, act)
    ensures OneExiter(Next(s, act))
  {
    hide ActorTokens, QueueTokens, ProcessTokens, Next;
    OthersStay(s, act);
    TokenOfPid(s, t, act);
    var s' := Next(s, act);
    forall a, b, p | Unwinds(s', a, p) && Unwinds(s', b, p)
      ensures a == b
    {
      assert a != act.a ==> Unwinds(s, a, p);
      assert b != act.a ==> Unwinds(s, b, p);
      if act.a == a || act.a == b {
        ExiterRan(s, t, act);
        FlagsOf(s, t, p);
        assert Exits(s.actors[act.a]) ==> Unwinds(s, act.a, p);
      }
    }
  }

  // ----- the reference count -----

  /** One counted reference to a process each. */
  datatype Owner = Registry | RunQueue | Handle(a: Aid) | ForQueue(a: Aid) | ForRegistry(a: Aid)

  /** The actor holds a reference of its own: a worker the one of the queue entry it popped, others a `find` handle. */
  predicate Holds(pc: Pc, p: Pid) {
    HasPid(pc) && pc.p == p && !(pc.Resuming? && pc.caller == Spawner)
  }

  predicate HoldsForQueue(pc: Pc, p: Pid) {
    pc.Resuming? && pc.p == p && pc.stage == ToEnqueue
  }

  predicate HoldsForRegistry(pc: Pc, p: Pid) {
    pc == DropReg(p)
  }

  ghost predicate OwnInv(s: State, own: map<Pid, set<Owner>>) {
    && OwnCounts(s.procs, own)
    && OwnQueue(Queue(s), own)
    && OwnActors(s.actors, own)
    && UpIsRegistered(s)
  }

  /** The count is the number of references; the object was deleted, once, exactly if there are none. */
  ghost predicate OwnCounts(procs: map<Pid, Process>, own: map<Pid, set<Owner>>) {
    && own.Keys == procs.Keys
    && (forall p :: p in own ==>
          && procs[p].refcnt == |own[p]|
          && procs[p].deletes == (if own[p] == {} then 1 else 0)
          && (Registry in own[p] <==> procs[p].registered))
  }

  ghost predicate OwnQueue(q: seq<Pid>, own: map<Pid, set<Owner>>) {
    forall p :: p in own ==> (RunQueue in own[p] <==> p in q)
  }

  ghost predicate OwnActors(actors: map<Aid, Pc>, own: map<Pid, set<Owner>>) {
    forall p, a :: p in own ==>
      && (Handle(a) in own[p] <==> a in actors && Holds(actors[a], p))
      && (ForQueue(a) in own[p] <==> a in actors && HoldsForQueue(actors[a], p))
      && (ForRegistry(a) in own[p] <==> a in actors && HoldsForRegistry(actors[a], p))
  }

  ghost predicate UpIsRegistered(s: State) {
    forall p :: p in s.procs ==> s.procs[p].down || s.procs[p].registered
  }

  ghost function NextOwn(s: State, own: map<Pid, set<Owner>>, act: Action): map<Pid, set<Owner>>
    requires Known(s) && Enabled(s, act) && own.Keys == s.procs.Keys
  {
    match act
    case Spawn(a, pid) => own[pid := {Registry}]
    case Find(a, pid) => own[pid := own[pid] + {Handle(a)}]
    case SchedRef(a) => own[s.actors[a].p := own[s.actors[a].p] + {ForQueue(a)}]
    case Enqueue(a) => own[s.actors[a].p := own[s.actors[a].p] - {ForQueue(a)} + {RunQueue}]
    case Release(a) => own[s.actors[a].p := own[s.actors[a].p] - {Handle(a)}]
    case Pop(a) =>
      if Queue(s) == [] then own
      else own[Queue(s)[0] := own[Queue(s)[0]] - {RunQueue} + {Handle(a)}]
    case Unreg(a) =>
      if s.procs[s.actors[a].p].registered
      then own[s.actors[a].p := own[s.actors[a].p] - {Registry} + {ForRegistry(a)}] else own
    case UnrefReg(a) => own[s.actors[a].p := own[s.actors[a].p] - {ForRegistry(a)}]
    case Unref(a) => own[s.actors[a].p := own[s.actors[a].p] - {Handle(a)}]
    case _ => own
  }

  lemma UpIsRegisteredKept(s: State, act: Action)
    requires Known(s) && Enabled(s, act) && UpIsRegistered(s) && ExitersDown(s)
    ensures UpIsRegistered(Next(s, act))
  {
    hide Next;
    ActorEffect(s, act);
    KnownKept(s, act);
    var s' := Next(s, act);
    if act.Wake? || (act.Pop? && Queue(s) == []) {
      NothingPopped(s, act);
    } else {
      ProcessEffect(s, act, if act.Pop? then Queue(s)[0] else PidOf(s, act));
    }
  }

  lemma NothingPopped(s: State, act: Action)
    requires Known(s) && Enabled(s, act) && (act.Wake? || (act.Pop? && Queue(s) == []))
    ensures Next(s, act).procs == s.procs
    ensures act.a in Next(s, act).actors && !HasPid(Next(s, act).actors[act.a])
  {
  }

  ghost predicate NoneOf(o: set<Owner>, a: Aid) {
    Handle(a) !in o && ForQueue(a) !in o && ForRegistry(a) !in o
  }

  lemma OwnsNothing(s: State, own: map<Pid, set<Owner>>, a: Aid, p: Pid)
    requires OwnActors(s.actors, own) && p in own && (a !in s.actors || !HasPid(s.actors[a]))
    ensures NoneOf(own[p], a)
  {
  }

  lemma OwnsQueued(s: State, t: map<Pid, Token>, own: map<Pid, set<Owner>>)
    requires TokenInv(s, t) && OwnQueue(Queue(s), own) && own.Keys == s.procs.Keys && Queue(s) != []
    ensures Queue(s)[0] in own && RunQueue in own[Queue(s)[0]]
  {
  }

  /** The references to the process of an actor: those of the actor itself are the ones its state stands for. */
  lemma OwnsAtActor(s: State, t: map<Pid, Token>, own: map<Pid, set<Owner>>, a: Aid)
    requires TokenInv(s, t) && OwnInv(s, own) && a in s.actors && HasPid(s.actors[a])
    ensures var p := s.actors[a].p;
      p in own && ReferencesOf(s.actors, a, p, own[p]) && (Registry in own[p] <==> s.procs[p].registered)
    ensures HasToken(s.actors[a]) ==> var p := s.actors[a].p; RunQueue !in own[p] && Registry in own[p]
  {
    hide Queue;
    var p := s.actors[a].p;
    FlagsOf(s, t, p);
  }

  /** The references that matter for an action, before it. */
  lemma OwnersOfPid(s: State, t: map<Pid, Token>, own: map<Pid, set<Owner>>, act: Action)
    requires TokenInv(s, t) && Enabled(s, act) && OwnInv(s, own)
    ensures own.Keys == s.procs.Keys
    ensures act.Spawn? ==> act.pid !in own
    ensures act.Pop? && Queue(s) != [] ==>
      var q0 := Queue(s)[0]; q0 in own && RunQueue in own[q0] && NoneOf(own[q0], act.a)
    ensures act.Find? ==> act.pid in own && Registry in own[act.pid] && NoneOf(own[act.pid], act.a)
    ensures act.a in s.actors && HasPid(s.actors[act.a]) ==>
      var p := s.actors[act.a].p;
      && p in own && ReferencesOf(s.actors, act.a, p, own[p])
      && (Registry in own[p] <==> s.procs[p].registered)
      && (act.Enqueue? ==> RunQueue !in own[p])
      && (act.SchedRef? ==> own[p] != {})
  {
    hide ActorTokens, QueueTokens, ProcessTokens, OwnQueue, OwnActors, UpIsRegistered, ReferencesOf, NoneOf;
    if act.a in s.actors && HasPid(s.actors[act.a]) {
      OwnsAtActor(s, t, own, act.a);
    }
    if act.Pop? && Queue(s) != [] {
      OwnsQueued(s, t, own);
      OwnsNothing(s, own, act.a, Queue(s)[0]);
    }
    if act.Find? {
      OwnsNothing(s, own, act.a, act.pid);
    }
  }

  ghost predicate ReferencesOf(actors: map<Aid, Pc>, a: Aid, p: Pid, o: set<Owner>) {
    && (Handle(a) in o <==> a in actors && Holds(actors[a], p))
    && (ForQueue(a) in o <==> a in actors && HoldsForQueue(actors[a], p))
    && (ForRegistry(a) in o <==> a in actors && HoldsForRegistry(actors[a], p))
  }

  lemma CountFrame(procs: map<Pid, Process>, own: map<Pid, set<Owner>>, p: Pid, pr: Process, o: set<Owner>)
    requires OwnCounts(procs, own)
    requires pr.refcnt == |o| && pr.deletes == (if o == {} then 1 else 0) && (Registry in o <==> pr.registered)
    ensures OwnCounts(procs[p := pr], own[p := o])
  {
  }

  lemma CountsOf(s: State, own: map<Pid, set<Owner>>, p: Pid)
    requires OwnCounts(s.procs, own) && p in own
    ensures p in s.procs && s.procs[p].refcnt == |own[p]| && s.procs[p].deletes == if own[p] == {} then 1 else 0
    ensures Registry in own[p] <==> s.procs[p].registered
  {
  }

  lemma DropOne(o: set<Owner>, x: Owner)
    requires x in o
    ensures |o - {x}| == |o| - 1 && (|o| == 1 <==> o - {x} == {})
  {
    if |o| == 1 {
      assert |o - {x}| == 0;
    }
  }

  lemma SwapOne(o: set<Owner>, x: Owner, y: Owner)
    requires x in o && y !in o
    ensures |o - {x} + {y}| == |o| && o - {x} + {y} != {}
  {
    assert y in o - {x} + {y};
  }

  lemma OwnCountsDrop(s: State, t: map<Pid, Token>, own: map<Pid, set<Owner>>, act: Action, p: Pid)
    requires TokenInv(s, t) && Enabled(s, act) && OwnInv(s, own) && Subject(s, act, p) && Drops(act)
    ensures own.Keys == s.procs.Keys && OwnCounts(Next(s, act).procs, NextOwn(s, own, act))
  {
    hide ActorTokens, QueueTokens, ProcessTokens, OwnQueue, OwnActors, UpIsRegistered, OwnCounts, Next;
    ProcessEffect(s, act, p);
    OwnersOfPid(s, t, own, act);
    CountsOf(s, own, p);
    DropOne(own[p], if act.UnrefReg? then ForRegistry(act.a) else Handle(act.a));
    CountFrame(s.procs, own, p, Next(s, act).procs[p], NextOwn(s, own, act)[p]);
  }

  /** The reference that is handed over changes its name. */
  lemma OwnHanded(s: State, t: map<Pid, Token>, own: map<Pid, set<Owner>>, act: Action, p: Pid)
    requires TokenInv(s, t) && Enabled(s, act) && OwnInv(s, own) && Subject(s, act, p) && Hands(act)
    ensures p in own && own.Keys == s.procs.Keys
    ensures var own' := NextOwn(s, own, act);
      && p in own' && own' == own[p := own'[p]] && |own'[p]| == |own[p]| && (own'[p] == {} <==> own[p] == {})
      && (Registry in own'[p] <==> Registry in own[p] && !act.Unreg?)
  {
    hide ActorTokens, QueueTokens, ProcessTokens, OwnQueue, OwnActors, UpIsRegistered, Queue;
    OwnersOfPid(s, t, own, act);
    match act {
      case Enqueue(a) => SwapOne(own[p], ForQueue(a), RunQueue);
      case Pop(a) => SwapOne(own[p], RunQueue, Handle(a));
      case Unreg(a) => if s.procs[p].registered { SwapOne(own[p], Registry, ForRegistry(a)); }
    }
  }

  lemma OwnCountsHand(s: State, t: map<Pid, Token>, own: map<Pid, set<Owner>>, act: Action, p: Pid)
    requires TokenInv(s, t) && Enabled(s, act) && OwnInv(s, own) && Subject(s, act, p) && Hands(act)
    ensures own.Keys == s.procs.Keys && OwnCounts(Next(s, act).procs, NextOwn(s, own, act))
  {
    hide ActorTokens, QueueTokens, ProcessTokens, OwnQueue, OwnActors, UpIsRegistered, OwnCounts, Enabled, Subject;
    hide Next, NextOwn;
    OwnHanded(s, t, own, act, p);
    ProcessEffect(s, act, p);
    CountsOf(s, own, p);
    CountFrame(s.procs, own, p, Next(s, act).procs[p], NextOwn(s, own, act)[p]);
  }

  lemma OwnCountsRest(s: State, t: map<Pid, Token>, own: map<Pid, set<Owner>>, act: Action, p: Pid)
    requires TokenInv(s, t) && Enabled(s, act) && OwnInv(s, own) && Subject(s, act, p)
    requires !Drops(act) && !Hands(act)
    ensures own.Keys == s.procs.Keys && OwnCounts(Next(s, act).procs, NextOwn(s, own, act))
  {
    hide ActorTokens, QueueTokens, ProcessTokens, OwnQueue, OwnActors, UpIsRegistered, OwnCounts, Next;
    ProcessEffect(s, act, p);
    OwnersOfPid(s, t, own, act);
    if p in own {
      CountsOf(s, own, p);
    }
    var s', own' := Next(s, act), NextOwn(s, own, act);
    CountFrame(s.procs, own, p, s'.procs[p], own'[p]);
    assert s'.procs == s.procs[p := s'.procs[p]] && own' == own[p := own'[p]];
  }

  lemma OwnQueueFrame(q: seq<Pid>, own: map<Pid, set<Owner>>, p: Pid, o: set<Owner>)
    requires OwnQueue(q, own)
    requires if p in own then (RunQueue in o <==> RunQueue in own[p]) else RunQueue !in o && p !in q
    ensures OwnQueue(q, own[p := o])
  {
  }

  lemma OwnQueuePush(q: seq<Pid>, own: map<Pid, set<Owner>>, p: Pid, o: set<Owner>)
    requires OwnQueue(q, own) && RunQueue in o
    ensures OwnQueue(q + [p], own[p := o])
  {
    assert (q + [p])[|q|] == p;
    assert forall x :: x in q + [p] <==> x in q || x == p;
  }

  lemma OwnQueuePop(q: seq<Pid>, t: map<Pid, Token>, own: map<Pid, set<Owner>>, o: set<Owner>)
    requires OwnQueue(q, own) && QueueTokens(q, t) && q != [] && RunQueue !in o
    ensures OwnQueue(q[1..], own[q[0] := o])
  {
    forall p | p in own && p != q[0]
      ensures p in q <==> p in q[1..]
    {
      if i :| 0 <= i < |q| && q[i] == p {
        assert q[1..][i - 1] == p;
      }
    }
  }

  lemma OwnQueueKept(s: State, t: map<Pid, Token>, own: map<Pid, set<Owner>>, act: Action)
    requires TokenInv(s, t) && Enabled(s, act) && OwnInv(s, own)
    ensures OwnQueue(Queue(Next(s, act)), NextOwn(s, own, act))
  {
    hide Next, ActorTokens, ProcessTokens, QueueTokens, OwnActors, OwnCounts, OwnQueue, UpIsRegistered;
    OwnersOfPid(s, t, own, act);
    QueueStep(s, act);
    var q, own' := Queue(s), NextOwn(s, own, act);
    if act.Enqueue? {
      OwnQueuePush(q, own, s.actors[act.a].p, own'[s.actors[act.a].p]);
    } else if act.Pop? {
      if q != [] {
        OwnQueuePop(q, t, own, own'[q[0]]);
      }
    } else if own' != own {
      NotQueued(q, t, own, s.procs, PidOf(s, act));
      OwnQueueFrame(q, own, PidOf(s, act), own'[PidOf(s, act)]);
    }
  }

  lemma NotQueued(q: seq<Pid>, t: map<Pid, Token>, own: map<Pid, set<Owner>>, procs: map<Pid, Process>, p: Pid)
    requires QueueTokens(q, t) && ProcessTokens(procs, t) && own.Keys == procs.Keys
    ensures p !in own ==> p !in q
  {
  }

  /** Only actor `a` moves, and only the references to the one process `p` it is concerned with change. */
  lemma OwnActorFrame(actors: map<Aid, Pc>, own: map<Pid, set<Owner>>, a: Aid, actors': map<Aid, Pc>, p: Pid,
                      o: set<Owner>)
    requires OwnActors(actors, own)
    requires a in actors && HasPid(actors[a]) ==> actors[a].p == p
    requires a in actors' && HasPid(actors'[a]) ==> actors'[a].p == p
    requires forall b :: b != a ==> (b in actors <==> b in actors') && (b in actors ==> actors[b] == actors'[b])
    requires p in own ==> SameForOthers(own[p], o, a)
    requires p !in own ==> (forall b :: b in actors && HasPid(actors[b]) ==> actors[b].p != p) && o == {Registry}
    requires ReferencesOf(actors', a, p, o)
    ensures OwnActors(actors', own[p := o])
  {
  }

  ghost predicate SameForOthers(o: set<Owner>, o': set<Owner>, a: Aid) {
    forall b :: b != a ==>
      && (Handle(b) in o <==> Handle(b) in o')
      && (ForQueue(b) in o <==> ForQueue(b) in o')
      && (ForRegistry(b) in o <==> ForRegistry(b) in o')
  }

  lemma ReferencesDrop(s: State, own: map<Pid, set<Owner>>, act: Action, p: Pid)
    requires Known(s) && Enabled(s, act) && own.Keys == s.procs.Keys && Subject(s, act, p)
    requires Drops(act) || act.Unreg? || act.SchedRef?
    requires p in own && ReferencesOf(s.actors, act.a, p, own[p])
    ensures p in NextOwn(s, own, act) && NextOwn(s, own, act) == own[p := NextOwn(s, own, act)[p]]
    ensures ReferencesOf(Next(s, act).actors, act.a, p, NextOwn(s, own, act)[p])
  {
  }

  lemma ReferencesMove(s: State, own: map<Pid, set<Owner>>, act: Action, p: Pid)
    requires Known(s) && Enabled(s, act) && own.Keys == s.procs.Keys && Subject(s, act, p)
    requires act.Enqueue? || act.Pop? || act.Find? || act.Spawn?
    requires p in own && (act.Find? || act.Pop?) ==> NoneOf(own[p], act.a)
    requires act.Enqueue? ==> p in own && ReferencesOf(s.actors, act.a, p, own[p])
    ensures p in NextOwn(s, own, act) && NextOwn(s, own, act) == own[p := NextOwn(s, own, act)[p]]
    ensures ReferencesOf(Next(s, act).actors, act.a, p, NextOwn(s, own, act)[p])
  {
  }

  lemma ReferencesStay(s: State, own: map<Pid, set<Owner>>, act: Action, p: Pid)
    requires Known(s) && Enabled(s, act) && own.Keys == s.procs.Keys && Subject(s, act, p)
    requires !Drops(act) && !Hands(act) && !Takes(act) && !act.Spawn?
    requires p in own && ReferencesOf(s.actors, act.a, p, own[p])
    ensures NextOwn(s, own, act) == own
    ensures ReferencesOf(Next(s, act).actors, act.a, p, own[p])
  {
  }

  lemma ReferencesKept(s: State, t: map<Pid, Token>, own: map<Pid, set<Owner>>, act: Action, p: Pid)
    requires TokenInv(s, t) && Enabled(s, act) && OwnInv(s, own) && Subject(s, act, p)
    ensures own.Keys == s.procs.Keys && p in NextOwn(s, own, act)
    ensures NextOwn(s, own, act) == own[p := NextOwn(s, own, act)[p]]
    ensures ReferencesOf(Next(s, act).actors, act.a, p, NextOwn(s, own, act)[p])
  {
    hide ActorTokens, QueueTokens, ProcessTokens, OwnQueue, OwnActors, UpIsRegistered, OwnCounts, Next, ReferencesOf,
      NoneOf;
    OwnersOfPid(s, t, own, act);
    if Drops(act) || act.Unreg? || act.SchedRef? {
      ReferencesDrop(s, own, act, p);
    } else if act.Enqueue? || act.Pop? || act.Find? || act.Spawn? {
      ReferencesMove(s, own, act, p);
    } else {
      ReferencesStay(s, own, act, p);
    }
  }

  lemma OwnActorsKept(s: State, t: map<Pid, Token>, own: map<Pid, set<Owner>>, act: Action, p: Pid)
    requires TokenInv(s, t) && Enabled(s, act) && OwnInv(s, own) && Subject(s, act, p)
    ensures own.Keys == s.procs.Keys && OwnActors(Next(s, act).actors, NextOwn(s, own, act))
  {
    hide ActorTokens, QueueTokens, ProcessTokens, OwnQueue, OwnActors, UpIsRegistered, OwnCounts, Next, ReferencesOf;
    OwnersOfPid(s, t, own, act);
    ActorEffect(s, act);
    ReferencesKept(s, t, own, act, p);
    OwnActorFrame(s.actors, own, act.a, Next(s, act).actors, p, NextOwn(s, own, act)[p]);
  }

  lemma OwnActorStays(actors: map<Aid, Pc>, own: map<Pid, set<Owner>>, a: Aid, pc: Pc)
    requires OwnActors(actors, own) && a in actors && !HasPid(actors[a]) && !HasPid(pc)
    ensures OwnActors(actors[a := pc], own)
  {
  }

  lemma OwnKept(s: State, t: map<Pid, Token>, own: map<Pid, set<Owner>>, act: Action)
    requires TokenInv(s, t) && Enabled(s, act) && OwnInv(s, own)
    ensures own.Keys == s.procs.Keys && OwnInv(Next(s, act), NextOwn(s, own, act))
  {
    hide ActorTokens, QueueTokens, ProcessTokens, OwnQueue, OwnActors, UpIsRegistered, OwnCounts;
    OwnersOfPid(s, t, own, act);
    UpIsRegisteredKept(s, act);
    OwnQueueKept(s, t, own, act);
    if act.Wake? || (act.Pop? && Queue(s) == []) {
      OwnActorStays(s.actors, own, act.a, Next(s, act).actors[act.a]);
    } else {
      var p := if act.Pop? then Queue(s)[0] else PidOf(s, act);
      OwnActorsKept(s, t, own, act, p);
      if Drops(act) {
        OwnCountsDrop(s, t, own, act, p);
      } else if Hands(act) {
        OwnCountsHand(s, t, own, act, p);
      } else {
        OwnCountsRest(s, t, own, act, p);
      }
    }
  }

  // ----- a process that goes down is retired -----

  /** The actor is at process `p`, if `act` is about one. */
  predicate At(s: State, act: Action, p: Pid) {
    act.a in s.actors && HasPid(s.actors[act.a]) && s.actors[act.a].p == p
  }

  /** A process goes down when it exits by itself, or takes the kill order from its mailbox. */
  predicate GoesDown(s: State, act: Action, p: Pid)
    requires p in s.procs
  {
    && At(s, act, p)
    && (act.Exit?
        || (act.Take? && var mail := s.procs[p].read + s.procs[p].write; mail != [] && mail[0] == Kill))
  }

  lemma DownWhen(s: State, act: Action, p: Pid)
    requires Known(s) && Enabled(s, act) && p in s.procs && !act.Spawn?
    ensures p in Next(s, act).procs
    ensures Next(s, act).procs[p].down <==> s.procs[p].down || GoesDown(s, act, p)
    ensures Next(s, act).procs[p].registered <==> s.procs[p].registered && !(act.Unreg? && At(s, act, p))
    ensures GoesDown(s, act, p) ==> Unwinds(Next(s, act), act.a, p)
  {
  }

  lemma DownAfterSpawn(s: State, act: Action, p: Pid)
    requires Known(s) && Enabled(s, act) && act.Spawn? && p in s.procs
    ensures p in Next(s, act).procs && Next(s, act).procs[p] == s.procs[p] && !Next(s, act).procs[act.pid].down
  {
  }

  /** A worker unwinds a process until it takes it from the registry. */
  lemma UnwindsOn(s: State, t: map<Pid, Token>, act: Action, a: Aid, p: Pid)
    requires TokenInv(s, t) && Enabled(s, act) && Unwinds(s, a, p)
    ensures Unwinds(Next(s, act), a, p) <==> !(act.Unreg? && act.a == a)
  {
    hide ActorTokens, QueueTokens, ProcessTokens;
    TokenOfPid(s, t, act);
    OthersStay(s, act);
    if act.a == a {
      match act {
        case Push(_, _) =>
        case Cas(_) =>
        case Unreg(_) =>
      }
    }
  }

  /** A process that exits is in the registry exactly as long as a worker unwinds it or is about to retire it. */
  ghost predicate RetireInv(s: State) {
    forall p :: p in s.procs && s.procs[p].down ==> (s.procs[p].registered <==> exists a :: Unwinds(s, a, p))
  }

  lemma RetireKept(s: State, t: map<Pid, Token>, act: Action)
    requires TokenInv(s, t) && OneExiter(s) && UpIsRegistered(s) && RetireInv(s) && Enabled(s, act)
    ensures RetireInv(Next(s, act))
  {
    hide ActorTokens, QueueTokens, ProcessTokens, Next, Enabled, GoesDown;
    var s' := Next(s, act);
    KnownKept(s, act);
    forall p | p in s'.procs && s'.procs[p].down
      ensures s'.procs[p].registered <==> exists a :: Unwinds(s', a, p)
    {
      RetireOne(s, t, act, p);
    }
  }

  lemma RetireOne(s: State, t: map<Pid, Token>, act: Action, p: Pid)
    requires TokenInv(s, t) && OneExiter(s) && UpIsRegistered(s) && RetireInv(s) && Enabled(s, act)
    requires p in Next(s, act).procs && Next(s, act).procs[p].down
    ensures Next(s, act).procs[p].registered <==> exists a :: Unwinds(Next(s, act), a, p)
  {
    hide ActorTokens, QueueTokens, ProcessTokens, Next, GoesDown;
    var s' := Next(s, act);
    NewProcesses(s, act, p);
    if act.Spawn? {
      DownAfterSpawn(s, act, p);
    } else {
      DownWhen(s, act, p);
    }
    if a :| Unwinds(s, a, p) {
      UnwindsOn(s, t, act, a, p);
    }
    if a :| Unwinds(s', a, p) {
      UnwindsSince(s, t, act, a, p);
    }
  }

  lemma UnwindsSince(s: State, t: map<Pid, Token>, act: Action, a: Aid, p: Pid)
    requires TokenInv(s, t) && OneExiter(s) && UpIsRegistered(s) && RetireInv(s) && Enabled(s, act)
    requires p in s.procs && Unwinds(Next(s, act), a, p)
    ensures s.procs[p].registered && !(act.Unreg? && At(s, act, p))
  {
    hide ActorTokens, QueueTokens, ProcessTokens, Next;
    OthersStay(s, act);
    FlagsOf(s, t, p);
    TokenOfPid(s, t, act);
    if a == act.a {
      ExiterRan(s, t, act);
    }
    if Unwinds(s, a, p) {
      UnwindsOn(s, t, act, a, p);
      assert act.Unreg? && At(s, act, p) ==> Unwinds(s, act.a, p);
    }
  }

  lemma NewProcesses(s: State, act: Action, p: Pid)
    requires Known(s) && Enabled(s, act) && p in Next(s, act).procs && Next(s, act).procs[p].down
    ensures p in s.procs
  {
  }

  // ----- no wakeup is lost -----

  /** A waiting process has mail only while some sender is between its push and its compare-and-swap. */
  ghost predicate MailInv(s: State) {
    forall p :: p in s.procs && s.procs[p].wait && (s.procs[p].read != [] || s.procs[p].write != []) ==>
      exists a :: a in s.actors && s.actors[a] == Pushed(p)
  }

  lemma PushEffect(s: State, act: Action)
    requires Known(s) && Enabled(s, act) && act.Push?
    ensures var p := s.actors[act.a].p;
      && act.a in Next(s, act).actors && p in Next(s, act).procs
      && Next(s, act).actors[act.a] == AfterPush(s.actors[act.a], p)
      && Next(s, act).procs[p].wait == s.procs[p].wait
  {
  }

  /** A process that waits with mail did so before the action, unless the action is a push to it. */
  lemma MailBefore(s: State, act: Action, p: Pid)
    requires Known(s) && Enabled(s, act) && !(act.Push? && p == s.actors[act.a].p)
    requires p in Next(s, act).procs && Next(s, act).procs[p].wait
    requires Next(s, act).procs[p].read != [] || Next(s, act).procs[p].write != []
    ensures p in s.procs && s.procs[p].wait && (s.procs[p].read != [] || s.procs[p].write != [])
    ensures act.Cas? ==> s.actors[act.a].p != p
  {
  }

  lemma MailKept(s: State, t: map<Pid, Token>, act: Action)
    requires TokenInv(s, t) && Enabled(s, act) && MailInv(s)
    ensures MailInv(Next(s, act))
  {
    hide ActorTokens, QueueTokens, ProcessTokens, Next;
    TokenOfPid(s, t, act);
    ActorEffect(s, act);
    var s' := Next(s, act);
    forall p | p in s'.procs && s'.procs[p].wait && (s'.procs[p].read != [] || s'.procs[p].write != [])
      ensures exists a :: a in s'.actors && s'.actors[a] == Pushed(p)
    {
      if act.Push? && p == s.actors[act.a].p {
        PushEffect(s, act);
        FlagsOf(s, t, p);
        assert s'.actors[act.a] == Pushed(p);
      } else {
        MailBefore(s, act, p);
        var a :| a in s.actors && s.actors[a] == Pushed(p);
        assert a in s'.actors && s'.actors[a] == Pushed(p);
      }
    }
  }

  // ----- no worker idles while there is work -----

  predicate IsWaiting(pc: Pc) { pc.Waiting? }

  predicate IsSending(pc: Pc) { pc.Resuming? && pc.stage == ToSend }

  predicate IsWoken(pc: Pc) { pc == Check(true) }

  /** The actors in a state of some kind. */
  ghost function Those(actors: map<Aid, Pc>, kind: Pc -> bool): set<Aid> {
    set a | a in actors && kind(actors[a])
  }

  lemma ThoseMove(actors: map<Aid, Pc>, kind: Pc -> bool, a: Aid, pc: Pc)
    ensures |Those(actors[a := pc], kind)| ==
      |Those(actors, kind)| - (if a in actors && kind(actors[a]) then 1 else 0) + (if kind(pc) then 1 else 0)
  {
    var rest := Those(actors, kind) - {a};
    assert Those(actors[a := pc], kind) == if kind(pc) then rest + {a} else rest;
    assert Those(actors, kind) == if a in actors && kind(actors[a]) then rest + {a} else rest;
  }

  lemma ThoseLeave(actors: map<Aid, Pc>, kind: Pc -> bool, a: Aid)
    requires a in actors
    ensures |Those(actors - {a}, kind)| == |Those(actors, kind)| - (if kind(actors[a]) then 1 else 0)
  {
    var rest := Those(actors, kind) - {a};
    assert Those(actors - {a}, kind) == rest;
    assert Those(actors, kind) == if kind(actors[a]) then rest + {a} else rest;
  }

  ghost function WaitingCount(s: State): nat { |Those(s.actors, IsWaiting)| }

  ghost function SendingCount(s: State): nat { |Those(s.actors, IsSending)| }

  ghost function WokenCount(s: State): nat { |Those(s.actors, IsWoken)| }

  /**
   Every waiting worker is counted idle, or a signal for it is on its way or posted; while any is counted
   idle, the queued processes are covered by signals under way and by woken workers that have not looked yet.
   */
  ghost predicate WorkInv(s: State) {
    && s.idle >= 0
    && WaitingCount(s) == s.idle + SendingCount(s) + s.signals
    && (s.idle > 0 ==> |Queue(s)| <= SendingCount(s) + s.signals + WokenCount(s))
  }

  /** How often an actor in a state of some kind is there before and after an action. */
  lemma CountsMove(s: State, act: Action, kind: Pc -> bool)
    requires Known(s) && Enabled(s, act)
    ensures
      var actors', a := Next(s, act).actors, act.a;
      |Those(actors', kind)| ==
        |Those(s.actors, kind)| - (if a in s.actors && kind(s.actors[a]) then 1 else 0)
          + (if a in actors' && kind(actors'[a]) then 1 else 0)
  {
    var actors', a := Next(s, act).actors, act.a;
    if a in actors' {
      ThoseMove(s.actors, kind, a, actors'[a]);
    } else {
      ThoseLeave(s.actors, kind, a);
    }
  }

  lemma WorkKept(s: State, act: Action)
    requires Known(s) && Enabled(s, act) && WorkInv(s)
    ensures WorkInv(Next(s, act))
  {
    hide Those, Known, Queue;
    QueueStep(s, act);
    CountsMove(s, act, IsWaiting);
    CountsMove(s, act, IsSending);
    CountsMove(s, act, IsWoken);
    EmptyPop(s, act);
  }

  lemma EmptyPop(s: State, act: Action)
    requires Known(s) && Enabled(s, act)
    ensures
      var s', a := Next(s, act), act.a;
      if act.Pop? && Queue(s) == [] then s'.idle == s.idle + 1 && s'.signals == s.signals && s'.actors[a] == Waiting
      else if act.Pop? then s'.idle == s.idle && s'.signals == s.signals && s'.actors[a] == Run(Queue(s)[0])
      else true
  {
  }

  // ----- over every run -----

  ghost predicate Inv(s: State, t: map<Pid, Token>, own: map<Pid, set<Owner>>) {
    TokenInv(s, t) && OneExiter(s) && RetireInv(s) && OwnInv(s, own) && MailInv(s) && WorkInv(s)
  }

  /** A run: states from an initial one, each reached from the one before by an enabled action. */
  ghost predicate IsRun(run: seq<State>) {
    && run != [] && IsInit(run[0])
    && (forall i :: 0 < i < |run| ==> IsStep(run[i - 1], run[i]))
  }

  ghost predicate IsStep(s: State, s': State) {
    Known(s) && exists act :: Enabled(s, act) && s' == Next(s, act)
  }

  ghost predicate Reachable(s: State) {
    exists run :: IsRun(run) && run[|run| - 1] == s
  }

  lemma InitInv(s: State)
    requires IsInit(s)
    ensures Inv(s, map[], map[])
  {
    assert Those(s.actors, IsWaiting) == {};
    assert Those(s.actors, IsSending) == {};
  }

  lemma {:induction false} RunInv(run: seq<State>) returns (t: map<Pid, Token>, own: map<Pid, set<Owner>>)
    requires IsRun(run)
    ensures Inv(run[|run| - 1], t, own)
    decreases |run|
  {
    if |run| == 1 {
      InitInv(run[0]);
      t, own := map[], map[];
    } else {
      var n := |run| - 1;
      var s := run[n - 1];
      t, own := RunInv(run[..n]);
      assert run[..n][n - 1] == s;
      assert IsStep(run[n - 1], run[n]);
      var act :| Enabled(s, act) && run[n] == Next(s, act);
      t, own := StepInv(s, t, own, act);
    }
  }

  lemma StepInv(s: State, t: map<Pid, Token>, own: map<Pid, set<Owner>>, act: Action)
      returns (t': map<Pid, Token>, own': map<Pid, set<Owner>>)
    requires Inv(s, t, own) && Enabled(s, act)
    ensures Inv(Next(s, act), t', own')
  {
    hide ActorTokens, QueueTokens, ProcessTokens, OneExiter, RetireInv, OwnInv, MailInv, WorkInv;
    hide UpIsRegistered, Next, NextToken, NextOwn;
    TokenKept(s, t, act);
    OneExiterKept(s, t, act);
    OwnedAreRegistered(s, own);
    RetireKept(s, t, act);
    OwnKept(s, t, own, act);
    MailKept(s, t, act);
    WorkKept(s, act);
    t', own' := NextToken(s, t, act), NextOwn(s, own, act);
  }

  lemma OwnedAreRegistered(s: State, own: map<Pid, set<Owner>>)
    requires OwnInv(s, own)
    ensures UpIsRegistered(s)
  {
  }

  lemma ReachableInv(s: State) returns (t: map<Pid, Token>, own: map<Pid, set<Owner>>)
    requires Reachable(s)
    ensures Inv(s, t, own)
  {
    var run :| IsRun(run) && run[|run| - 1] == s;
    t, own := RunInv(run);
  }

  /** Actor `a` runs process `p` or is about to enqueue it. */
  predicate Schedules(s: State, a: Aid, p: Pid) {
    a in s.actors && HasToken(s.actors[a]) && s.actors[a].p == p
  }

  /** Actor `a` has the process to itself, to schedule, run or unwind it. */
  predicate Occupies(s: State, a: Aid, p: Pid) {
    Schedules(s, a, p) || Unwinds(s, a, p)
  }

  /**
   A process that does not exit is scheduled exactly once: by one actor, by one entry of the run queues, or by
   waiting for the next message. One that exits is not scheduled at all, and is unwound by one worker at most; so its
   coroutines are never run by two workers at once.
   */
  lemma ScheduledOnce(s: State, p: Pid)
    requires Reachable(s) && p in s.procs
    ensures forall a, b :: Occupies(s, a, p) && Occupies(s, b, p) ==> a == b
    ensures forall i, j :: 0 <= i < j < |Queue(s)| ==> Queue(s)[i] != Queue(s)[j]
    ensures
      var acted, queued, waits := (exists a :: Schedules(s, a, p)), p in Queue(s), s.procs[p].wait;
      if s.procs[p].down then !acted && !queued && !waits
      else (acted && !queued && !waits) || (!acted && queued && !waits) || (!acted && !queued && waits)
    ensures (exists a :: Unwinds(s, a, p)) ==> s.procs[p].down
  {
    hide OwnInv, MailInv, WorkInv;
    var t, own := ReachableInv(s);
    if t[p].AtActor? {
      assert Schedules(s, t[p].a, p);
    }
  }

  /** The references to `p` that the state shows. */
  ghost function References(s: State, p: Pid): set<Owner>
    requires p in s.procs
  {
    (if s.procs[p].registered then {Registry} else {})
    + (if p in Queue(s) then {RunQueue} else {})
    + (set a | a in s.actors && Holds(s.actors[a], p) :: Handle(a))
    + (set a | a in s.actors && HoldsForQueue(s.actors[a], p) :: ForQueue(a))
    + (set a | a in s.actors && HoldsForRegistry(s.actors[a], p) :: ForRegistry(a))
  }

  lemma OwnersAreReferences(s: State, own: map<Pid, set<Owner>>, p: Pid)
    requires OwnInv(s, own) && p in own && p in s.procs
    ensures own[p] == References(s, p)
  {
    forall o
      ensures o in own[p] <==> o in References(s, p)
    {
      match o
      case Registry =>
      case RunQueue =>
      case Handle(a) =>
      case ForQueue(a) =>
      case ForRegistry(a) =>
    }
  }

  /** The reference count is conserved, and the object is deleted once, exactly when nobody refers to it. */
  lemma CountsReferences(s: State, p: Pid)
    requires Reachable(s) && p in s.procs
    ensures s.procs[p].refcnt == |References(s, p)|
    ensures s.procs[p].deletes == if References(s, p) == {} then 1 else 0
  {
    hide TokenInv, MailInv, WorkInv, OwnQueue, OwnActors, UpIsRegistered, References;
    var t, own := ReachableInv(s);
    CountsOf(s, own, p);
    OwnersAreReferences(s, own, p);
  }

  /** The actor holds a reference of any kind to the process. */
  predicate Refers(pc: Pc, p: Pid) {
    Holds(pc, p) || HoldsForQueue(pc, p) || HoldsForRegistry(pc, p)
  }

  /**
   A process is in the registry as long as it does not exit, and then until the worker that unwinds it retires it. After
   that it is only kept by its entry in a queue, by handles and by callers of `resume`; with none it was deleted.
   */
  lemma Retired(s: State, p: Pid)
    requires Reachable(s) && p in s.procs
    ensures s.procs[p].registered <==> !s.procs[p].down || exists a :: Unwinds(s, a, p)
    ensures s.procs[p].down && (forall a :: !Unwinds(s, a, p)) ==>
      (s.procs[p].deletes == 1 <==> p !in Queue(s) && forall a :: a in s.actors ==> !Refers(s.actors[a], p))
  {
    hide TokenInv, OwnInv, OneExiter, MailInv, WorkInv, References;
    var t, own := ReachableInv(s);
    OwnedAreRegistered(s, own);
    CountsReferences(s, p);
    NoReferences(s, p);
  }

  lemma NoReferences(s: State, p: Pid)
    requires p in s.procs
    ensures References(s, p) == {} <==>
      !s.procs[p].registered && p !in Queue(s) && forall a :: a in s.actors ==> !Refers(s.actors[a], p)
  {
    if References(s, p) == {} {
      forall a | a in s.actors
        ensures !Refers(s.actors[a], p)
      {
        assert Handle(a) !in References(s, p) && ForQueue(a) !in References(s, p);
        assert ForRegistry(a) !in References(s, p);
      }
      assert Registry !in References(s, p) && RunQueue !in References(s, p);
    }
  }

  /**
   No action touches a process object that was deleted. The signal of a spawner is not an access: by then
   the new process may have run and gone.
   */
  lemma NoUseAfterDelete(s: State, act: Action, p: Pid)
    requires Reachable(s) && Enabled(s, act) && Subject(s, act, p) && p in s.procs && !act.Send?
    ensures s.procs[p].deletes == 0
  {
    hide ActorTokens, QueueTokens, ProcessTokens, OwnQueue, OwnActors, UpIsRegistered, OwnCounts, MailInv, WorkInv;
    var t, own := ReachableInv(s);
    OwnersOfPid(s, t, own, act);
    assert own[p] != {};
    CountsOf(s, own, p);
  }

  /** A process that waits while no sender is under way has an empty mailbox: no wakeup is lost. */
  lemma NoLostWakeup(s: State, p: Pid)
    requires Reachable(s) && p in s.procs && s.procs[p].wait
    ensures (exists a :: a in s.actors && s.actors[a] == Pushed(p)) || s.procs[p].read + s.procs[p].write == []
  {
    var t, own := ReachableInv(s);
  }

  /** While a process is queued, a worker waits only if a wakeup is under way; otherwise all workers are busy. */
  lemma WorkConserving(s: State)
    requires Reachable(s)
    ensures s.idle > 0 ==> |Queue(s)| <= SendingCount(s) + s.signals + WokenCount(s)
    ensures Queue(s) != [] && SendingCount(s) + s.signals + WokenCount(s) == 0 ==>
      forall a :: a in s.actors ==> !s.actors[a].Waiting?
  {
    var t, own := ReachableInv(s);
    if Queue(s) != [] && SendingCount(s) + s.signals + WokenCount(s) == 0 {
      assert Those(s.actors, IsWaiting) == {};
      forall a | a in s.actors
        ensures !s.actors[a].Waiting?
      {
        assert s.actors[a].Waiting? ==> a in Those(s.actors, IsWaiting);
      }
    }
  }

  /** What an actor can do next, which is something in every state but one: a worker waits until it is signalled. */
  lemma NeverStuck(s: State, a: Aid, msg: Message)
    requires Reachable(s) && a in s.actors
    ensures (exists act: Action :: act.a == a && Enabled(s, act)) <==> !(s.actors[a].Waiting? && s.signals == 0)
    ensures s.actors[a].Held? ==> Enabled(s, Push(a, msg)) && Enabled(s, Release(a))
    ensures s.actors[a].Run? ==> Enabled(s, Push(a, msg)) && Enabled(s, Take(a)) && Enabled(s, Exit(a))
    ensures s.actors[a].Retiring? ==> Enabled(s, Push(a, msg)) && Enabled(s, Unreg(a))
  {
    var act := match s.actors[a]
      case Check(_) => Pop(a)
      case Waiting => Wake(a)
      case Run(_) => Take(a)
      case SelfCas(_) => Cas(a)
      case ExitCas(_) => Cas(a)
      case Retiring(_) => Unreg(a)
      case DropReg(_) => UnrefReg(a)
      case Drop(_) => Unref(a)
      case Held(_) => Release(a)
      case Pushed(_) => Cas(a)
      case Resuming(_, ToRef, _) => SchedRef(a)
      case Resuming(_, ToEnqueue, _) => Enqueue(a)
      case Resuming(_, ToSend, _) => Send(a);
    assert act.a == a;
    assert Enabled(s, act) <==> !(s.actors[a].Waiting? && s.signals == 0);
  }

  /** A worker's next look at the queues follows a wakeup exactly if it was woken and has not looked since. */
  lemma WokenExactly(s: State, act: Action, a: Aid)
    requires Known(s) && Enabled(s, act)
    ensures a in Next(s, act).actors && Next(s, act).actors[a] == Check(true) <==>
      (if act.a == a then act.Wake? else a in s.actors && s.actors[a] == Check(true))
  {
    hide Queue;
  }

  lemma MailPushed(s: State, act: Action)
    requires Known(s) && Enabled(s, act) && act.Push?
    ensures var p := s.actors[act.a].p;
      Next(s, act).procs == s.procs[p := s.procs[p].(write := s.procs[p].write + [act.msg])]
  {
  }

  lemma MailTaken(s: State, act: Action)
    requires Known(s) && Enabled(s, act) && act.Take?
    ensures var p, procs' := s.actors[act.a].p, Next(s, act).procs;
      && p in procs' && procs'.Keys == s.procs.Keys && (forall q :: q in procs' && q != p ==> procs'[q] == s.procs[q])
      && var mail := s.procs[p].read + s.procs[p].write;
         procs'[p].read + procs'[p].write == if mail == [] then [] else mail[1..]
  {
    var pr := s.procs[s.actors[act.a].p];
    if pr.read != [] {
      assert (pr.read + pr.write)[1..] == pr.read[1..] + pr.write;
    }
  }

  lemma MailUntouched(s: State, act: Action, p: Pid)
    requires Known(s) && Enabled(s, act) && p in s.procs && (act.Spawn? ==> act.pid != p) && !act.Push? && !act.Take?
    ensures p in Next(s, act).procs
    ensures Next(s, act).procs[p].read == s.procs[p].read && Next(s, act).procs[p].write == s.procs[p].write
  {
  }

  /** A mailbox is a queue of messages: an action appends one, takes the first, or leaves it alone. */
  lemma MailboxFifo(s: State, act: Action, p: Pid)
    requires Known(s) && Enabled(s, act) && p in s.procs && (act.Spawn? ==> act.pid != p)
    ensures p in Next(s, act).procs
    ensures
      var pr, pr' := s.procs[p], Next(s, act).procs[p];
      var mail, mail' := pr.read + pr.write, pr'.read + pr'.write;
      if act.Push? && s.actors[act.a].p == p then mail' == mail + [act.msg]
      else if act.Take? && s.actors[act.a].p == p && mail != [] then mail' == mail[1..]
      else mail' == mail
  {
    hide Next;
    if act.Push? {
      MailPushed(s, act);
    } else if act.Take? {
      MailTaken(s, act);
    } else {
      MailUntouched(s, act, p);
    }
  }
}
