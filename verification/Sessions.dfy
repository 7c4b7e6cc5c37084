/** The move-only owner of a session id: the id goes back to its process once, whatever moves in between. */
module Sessions {

  import opened Common

  /** The session ids of a process, with how often each was given out and released. */
  class Allocator {
    var live: set<Word>
    ghost var given: multiset<Word>
    ghost var released: multiset<Word>

    constructor ()
      ensures live == {} && given == multiset{} && released == multiset{}
    {
      live, given, released := {}, multiset{}, multiset{};
    }

    method NewId(id: Word)
      requires IsSessionId(id) && id !in live
      modifies this
      ensures live == old(live) + {id} && given == old(given) + multiset{id} && released == old(released)
    {
      live, given := live + {id}, given + multiset{id};
    }

    method Erase(id: Word)
      modifies this
      ensures live == old(live) - {id} && given == old(given) && released == old(released) + multiset{id}
    {
      live, released := live - {id}, released + multiset{id};
    }
  }

  class Session {
    var process: Allocator?
    var session: Word

    constructor (process: Allocator, session: Word)
      ensures this.process == process && this.session == session
    {
      this.process, this.session := process, session;
    }

    /** Takes over what `other` owns. */
    constructor Move(other: Session)
      modifies other
      ensures process == old(other.process) && session == old(other.session)
      ensures other.process == null && other.session == 0
    {
      process, session := other.process, other.session;
      new;
      other.process, other.session := null, 0;
    }

    /** The destructor. */
    method Destroy()
      requires session != 0 ==> process != null
      modifies if session != 0 then {process} else {}
      ensures session != 0 ==> process.live == old(process.live) - {session} && process.given == old(process.given)
      ensures session != 0 ==> process.released == old(process.released) + multiset{session}
    {
      if session != 0 {
        process.Erase(session);
      }
    }

    /** Move assignment: what this owned is released first; assigned to itself, a session ends up owning nothing. */
    method Assign(other: Session)
      requires session != 0 ==> process != null
      modifies this, other, if session != 0 then {process} else {}
      ensures other.process == null && other.session == 0
      ensures this != other ==> process == old(other.process) && session == old(other.session)
      ensures old(session) != 0 ==>
        && old(process).live == old(process.live) - {old(session)} && old(process).given == old(process.given)
        && old(process).released == old(process.released) + multiset{old(session)}
    {
      if session != 0 {
        process.Erase(session);
      }
      process, session := other.process, other.session;
      other.process, other.session := null, 0;
    }
  }

  // ----- what becomes of the ids -----

  /** Which id each session variable owns, 0 for none; which are live; and how often each was given out and released. */
  datatype State = State(ids: seq<Word>, live: set<Word>, given: multiset<Word>, released: multiset<Word>)

  const INIT := State([], {}, multiset{}, multiset{})

  datatype Op = Creates(id: Word) | MoveConstructs(from: nat) | Assigns(to: nat, from: nat) | Destroys(which: nat)

  /** What variable `i` owns goes back to the process. */
  function Release(s: State, i: nat): State
    requires i < |s.ids|
  {
    if s.ids[i] == 0 then s
    else State(s.ids[i := 0], s.live - {s.ids[i]}, s.given, s.released + multiset{s.ids[i]})
  }

  /** Variable `i`, which owns nothing, takes over what `j` owns. */
  function Move(s: State, i: nat, j: nat): State
    requires i < |s.ids| && j < |s.ids|
  {
    s.(ids := s.ids[i := s.ids[j]][j := 0])
  }

  function Give(s: State, id: Word): State {
    State(s.ids + [id], s.live + {id}, s.given + multiset{id}, s.released)
  }

  /** One operation; a destroyed variable stays as one that owns nothing, and what cannot happen is skipped. */
  function Step(s: State, op: Op): State {
    match op
    case Creates(id) => if IsSessionId(id) && id !in s.live then Give(s, id) else s
    case MoveConstructs(j) => if j < |s.ids| then Move(s.(ids := s.ids + [0]), |s.ids|, j) else s
    case Assigns(i, j) => if i < |s.ids| && j < |s.ids| then Move(Release(s, i), i, j) else s
    case Destroys(i) => if i < |s.ids| then Release(s, i) else s
  }

  function Run(ops: seq<Op>): State {
    if ops == [] then INIT else Step(Run(ops[..|ops| - 1]), ops[|ops| - 1])
  }

  /** The first `n` variables go out of scope. */
  function Leave(s: State, n: nat): (s': State)
    requires n <= |s.ids|
    ensures |s'.ids| == |s.ids|
  {
    if n == 0 then s else Release(Leave(s, n - 1), n - 1)
  }

  /** Every live id is owned by one variable, and every id was released as often as it was given out and is not live. */
  ghost predicate Owned(s: State) {
    && (forall i, j :: 0 <= i < j < |s.ids| && s.ids[i] == s.ids[j] ==> s.ids[i] == 0)
    && 0 !in s.live
    && (forall i :: 0 <= i < |s.ids| && s.ids[i] != 0 ==> s.ids[i] in s.live)
    && (forall id :: id in s.live ==> id in s.ids)
    && (forall id :: s.given[id] == s.released[id] + if id in s.live then 1 else 0)
  }

  lemma GiveKeeps(s: State, id: Word)
    requires Owned(s) && id != 0 && id !in s.live
    ensures Owned(Give(s, id))
  {
    assert forall x :: x in s.ids ==> x in s.ids + [id];
  }

  lemma ReleaseKeeps(s: State, i: nat)
    requires Owned(s) && i < |s.ids|
    ensures Owned(Release(s, i)) && Release(s, i).ids == s.ids[i := 0]
  {
    var s' := Release(s, i);
    assert s'.ids == s.ids[i := 0];
    forall id | id in s'.live
      ensures id in s'.ids
    {
      var j :| 0 <= j < |s.ids| && s.ids[j] == id;
      assert s'.ids[j] == id;
    }
  }

  lemma MoveKeeps(s: State, i: nat, j: nat)
    requires Owned(s) && i < |s.ids| && j < |s.ids| && s.ids[i] == 0
    ensures Owned(Move(s, i, j))
  {
    var s' := Move(s, i, j);
    if i == j {
      assert s'.ids == s.ids;
    } else {
      forall id | id in s'.live
        ensures id in s'.ids
      {
        var k :| 0 <= k < |s.ids| && s.ids[k] == id;
        assert s'.ids[if k == j then i else k] == id;
      }
    }
  }

  lemma EmptyKeeps(s: State)
    requires Owned(s)
    ensures Owned(s.(ids := s.ids + [0]))
  {
    assert forall x :: x in s.ids ==> x in s.ids + [0];
  }

  /** Every operation, a move assignment of a session to itself as well, keeps one owner for each live id. */
  lemma StepKeeps(s: State, op: Op)
    requires Owned(s)
    ensures Owned(Step(s, op))
  {
    hide Owned;
    match op {
      case Creates(id) => if IsSessionId(id) && id !in s.live { GiveKeeps(s, id); }
      case MoveConstructs(j) =>
        if j < |s.ids| {
          EmptyKeeps(s);
          MoveKeeps(s.(ids := s.ids + [0]), |s.ids|, j);
        }
      case Assigns(i, j) =>
        if i < |s.ids| && j < |s.ids| {
          ReleaseKeeps(s, i);
          MoveKeeps(Release(s, i), i, j);
        }
      case Destroys(i) => if i < |s.ids| { ReleaseKeeps(s, i); }
    }
  }

  /** What each operation does to the variables; none but `Creates` gives out an id. */
  ghost predicate Does(s: State, op: Op, s': State) {
    match op
    case Creates(id) =>
      if IsSessionId(id) && id !in s.live
      then s'.ids == s.ids + [id] && s'.live == s.live + {id} && s'.given == s.given + multiset{id}
           && s'.released == s.released
      else s' == s
    case MoveConstructs(j) =>
      if j < |s.ids|
      then |s'.ids| == |s.ids| + 1 && s'.ids[|s.ids|] == s.ids[j] && s'.ids[j] == 0 && s' == s.(ids := s'.ids)
           && forall k :: 0 <= k < |s.ids| && k != j ==> s'.ids[k] == s.ids[k]
      else s' == s
    case Assigns(i, j) =>
      if i < |s.ids| && j < |s.ids|
      then Freed(s, i, s') && |s'.ids| == |s.ids| && s'.ids[j] == 0 && (i != j ==> s'.ids[i] == s.ids[j])
           && forall k :: 0 <= k < |s.ids| && k != i && k != j ==> s'.ids[k] == s.ids[k]
      else s' == s
    case Destroys(i) =>
      if i < |s.ids|
      then Freed(s, i, s') && |s'.ids| == |s.ids| && s'.ids[i] == 0
           && forall k :: 0 <= k < |s.ids| && k != i ==> s'.ids[k] == s.ids[k]
      else s' == s
  }

  /** What variable `i` owned was released. */
  ghost predicate Freed(s: State, i: nat, s': State)
    requires i < |s.ids|
  {
    && s'.given == s.given
    && s'.live == (if s.ids[i] == 0 then s.live else s.live - {s.ids[i]})
    && s'.released == if s.ids[i] == 0 then s.released else s.released + multiset{s.ids[i]}
  }

  lemma StepDoes(s: State, op: Op)
    ensures Does(s, op, Step(s, op))
  {
  }

  lemma {:induction false} RunKeeps(ops: seq<Op>)
    ensures Owned(Run(ops))
  {
    hide Step;
    if ops == [] {
    } else {
      RunKeeps(ops[..|ops| - 1]);
      StepKeeps(Run(ops[..|ops| - 1]), ops[|ops| - 1]);
    }
  }

  lemma {:induction false} LeaveKeeps(s: State, n: nat)
    requires Owned(s) && n <= |s.ids|
    ensures var s' := Leave(s, n); Owned(s') && s'.given == s.given && forall i :: 0 <= i < n ==> s'.ids[i] == 0
  {
    hide Release, Owned;
    if n == 0 {
    } else {
      LeaveKeeps(s, n - 1);
      ReleaseGiven(Leave(s, n - 1), n - 1);
      ReleaseKeeps(Leave(s, n - 1), n - 1);
    }
  }

  lemma ReleaseGiven(s: State, i: nat)
    requires i < |s.ids|
    ensures Release(s, i).given == s.given
  {
  }

  /**
   In any program that creates, moves, assigns and destroys sessions and then leaves all their scopes, every id was
   released exactly as often as it was given out.
   */
  lemma AllReleased(ops: seq<Op>)
    ensures var s, s' := Run(ops), Leave(Run(ops), |Run(ops).ids|);
      s'.live == {} && s'.released == s'.given == s.given
  {
    RunKeeps(ops);
    var s := Run(ops);
    LeaveKeeps(s, |s.ids|);
    var s' := Leave(s, |s.ids|);
    assert forall id :: id in s'.live ==> id == 0;
    assert forall id :: s'.given[id] == s'.released[id];
  }

  // ----- the same on the heap -----

  ghost function Now(p: Allocator, vars: seq<Session>): (s: State)
    reads p, vars
    ensures |s.ids| == |vars| && forall i :: 0 <= i < |vars| ==> s.ids[i] == vars[i].session
  {
    State(seq(|vars|, i requires 0 <= i < |vars| reads vars => vars[i].session), p.live, p.given, p.released)
  }

  /** The variables are different, and those that own an id know its process. */
  ghost predicate Valid(p: Allocator, vars: seq<Session>)
    reads p, vars
  {
    && (forall i, j :: 0 <= i < j < |vars| ==> vars[i] != vars[j])
    && (forall i :: 0 <= i < |vars| && vars[i].session != 0 ==> vars[i].process == p)
  }

  /** `new_session` into a new variable. */
  method Create(p: Allocator, vars: seq<Session>, id: Word) returns (vars': seq<Session>)
    requires Valid(p, vars) && IsSessionId(id) && id !in p.live
    modifies p
    ensures Valid(p, vars') && Now(p, vars') == Give(old(Now(p, vars)), id)
      && forall x :: x in vars' ==> x in vars || fresh(x)
  {
    p.NewId(id);
    var x := new Session(p, id);
    vars' := vars + [x];
    assert Now(p, vars').ids == old(Now(p, vars)).ids + [id];
  }

  /** A new variable takes over what another owns. */
  method MoveConstruct(p: Allocator, vars: seq<Session>, j: nat) returns (vars': seq<Session>)
    requires Valid(p, vars) && j < |vars|
    modifies vars[j]
    ensures Valid(p, vars') && Now(p, vars') == Step(old(Now(p, vars)), MoveConstructs(j))
    ensures forall x :: x in vars' ==> x in vars || fresh(x)
  {
    var x := new Session.Move(vars[j]);
    vars' := vars + [x];
    assert Now(p, vars').ids == Step(old(Now(p, vars)), MoveConstructs(j)).ids;
  }

  /** One variable is assigned what another, or itself, owns. */
  method MoveAssign(p: Allocator, vars: seq<Session>, i: nat, j: nat)
    requires Valid(p, vars) && i < |vars| && j < |vars|
    modifies p, vars[i], vars[j]
    ensures Valid(p, vars) && Now(p, vars) == Move(Release(old(Now(p, vars)), i), i, j)
  {
    ghost var s := Now(p, vars);
    vars[i].Assign(vars[j]);
    Assigned(s, i, j, Now(p, vars));
  }

  lemma Assigned(s: State, i: nat, j: nat, s': State)
    requires i < |s.ids| == |s'.ids| && j < |s.ids|
    requires s'.ids[j] == 0 && (i != j ==> s'.ids[i] == s.ids[j])
    requires forall k :: 0 <= k < |s.ids| && k != i && k != j ==> s'.ids[k] == s.ids[k]
    requires s'.given == s.given && s'.live == if s.ids[i] == 0 then s.live else s.live - {s.ids[i]}
    requires s'.released == if s.ids[i] == 0 then s.released else s.released + multiset{s.ids[i]}
    ensures s' == Move(Release(s, i), i, j)
  {
    assert s'.ids == Move(Release(s, i), i, j).ids;
  }

  /** The destructor of one variable runs; its place is kept as one that owns nothing. */
  method Destruct(p: Allocator, vars: seq<Session>, i: nat) returns (vars': seq<Session>)
    requires Valid(p, vars) && i < |vars|
    modifies p
    ensures Valid(p, vars') && |vars'| == |vars| && Now(p, vars') == Release(old(Now(p, vars)), i)
    ensures forall x :: x in vars' ==> x in vars || fresh(x)
  {
    vars[i].Destroy();
    var gone := new Session(p, 0);
    vars' := vars[i := gone];
    assert Now(p, vars').ids == Release(old(Now(p, vars)), i).ids;
  }

  method Do(p: Allocator, vars: seq<Session>, op: Op) returns (vars': seq<Session>)
    requires Valid(p, vars)
    modifies p, vars
    ensures Valid(p, vars') && Now(p, vars') == Step(old(Now(p, vars)), op)
    ensures Does(old(Now(p, vars)), op, Now(p, vars'))
    ensures forall x :: x in vars' ==> x in vars || fresh(x)
  {
    hide Release, Move, Does;
    StepDoes(Now(p, vars), op);
    vars' := vars;
    match op {
      case Creates(id) =>
        if IsSessionId(id) && id !in p.live {
          vars' := Create(p, vars, id);
        }
      case MoveConstructs(j) =>
        if j < |vars| {
          vars' := MoveConstruct(p, vars, j);
        }
      case Assigns(i, j) =>
        if i < |vars| && j < |vars| {
          MoveAssign(p, vars, i, j);
        }
      case Destroys(i) =>
        if i < |vars| {
          vars' := Destruct(p, vars, i);
        }
    }
  }

  /** Any program with session variables, all of which go out of scope at its end. */
  method Use(ops: seq<Op>) returns (p: Allocator, vars: seq<Session>)
    ensures fresh(p) && Now(p, vars) == Leave(Run(ops), |Run(ops).ids|)
  {
    hide Step, Release;
    p := new Allocator();
    vars := [];
    assert Now(p, vars) == INIT;
    for n := 0 to |ops|
      invariant fresh(p) && Valid(p, vars) && Now(p, vars) == Run(ops[..n])
      invariant (forall x :: x in vars ==> fresh(x)) && forall i :: 0 <= i < |vars| ==> fresh(vars[i])
    {
      assert ops[..n + 1][..n] == ops[..n];
      vars := Do(p, vars, ops[n]);
      assert forall i :: 0 <= i < |vars| ==> vars[i] in vars;
    }
    assert ops[..|ops|] == ops;
    var count := |vars|;
    for i := 0 to count
      invariant fresh(p) && Valid(p, vars) && |vars| == count == |Run(ops).ids| && Now(p, vars) == Leave(Run(ops), i)
      invariant forall x :: x in vars ==> fresh(x)
    {
      vars := Destruct(p, vars, i);
    }
  }
}
