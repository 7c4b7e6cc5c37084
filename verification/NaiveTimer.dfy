/**
 What a timer service means, without any wheel: at each tick of the clock, look at every timer that has not
 been answered and answer those whose expiry is the current time.
 */
module NaiveTimer {

  datatype Entry = Entry(expire: nat, source: nat, session: nat)

  /** One answered timer: the clock when it was answered, and the process and session it was sent to. */
  datatype Sent = Sent(at: nat, source: nat, session: nat)

  /** Timers are named by their position in `issued`; `fired` maps those already answered. */
  datatype State = State(time: nat, issued: seq<Entry>, fired: map<nat, Sent>)

  datatype Op = Timeout(timeout: nat, source: nat, session: nat) | Update(time: nat)

  const INIT := State(0, [], map[])

  predicate Due(s: State, k: nat) {
    k < |s.issued| && k !in s.fired && s.issued[k].expire == s.time
  }

  function Answer(s: State, k: nat): Sent
    requires k < |s.issued|
  {
    Sent(s.time, s.issued[k].source, s.issued[k].session)
  }

  function Tick(s: State): State {
    State(s.time + 1, s.issued, s.fired + map k | 0 <= k < |s.issued| && Due(s, k) :: Answer(s, k))
  }

  function Advance(s: State, time: nat): State
    decreases time - s.time
  {
    if s.time < time then Advance(Tick(s), time) else s
  }

  function Request(s: State, timeout: nat, source: nat, session: nat): State {
    s.(issued := s.issued + [Entry(s.time + timeout, source, session)])
  }

  function Apply(s: State, op: Op): State {
    match op
    case Timeout(d, src, ses) => Request(s, d, src, ses)
    case Update(t) => Advance(s, t)
  }

  function Run(s: State, ops: seq<Op>): State
    decreases |ops|
  {
    if ops == [] then s else Run(Apply(s, ops[0]), ops[1..])
  }

  /** Every timer whose expiry has passed was answered at its expiry, to its requester; no other was answered. */
  ghost predicate Exact(s: State) {
    && (forall k :: k in s.fired <==> 0 <= k < |s.issued| && s.issued[k].expire < s.time)
    && (forall k :: k in s.fired ==> s.fired[k] == Sent(s.issued[k].expire, s.issued[k].source, s.issued[k].session))
  }

  lemma InitExact()
    ensures Exact(INIT)
  {
  }

  lemma TickExact(s: State)
    requires Exact(s)
    ensures Exact(Tick(s))
  {
  }

  lemma {:induction false} AdvanceExact(s: State, time: nat)
    requires Exact(s)
    ensures Exact(Advance(s, time))
    ensures Advance(s, time).time == if s.time < time then time else s.time
    ensures Advance(s, time).issued == s.issued
    decreases time - s.time
  {
    if time <= s.time {
    } else {
      TickExact(s);
      AdvanceExact(Tick(s), time);
    }
  }

  /** Over every interleaving of requests and clock updates, no timer is early, late, lost or answered twice. */
  lemma {:induction false} RunExact(s: State, ops: seq<Op>)
    requires Exact(s)
    ensures Exact(Run(s, ops))
    decreases |ops|
  {
    if ops == [] {
    } else {
      if ops[0].Update? {
        AdvanceExact(s, ops[0].time);
      }
      RunExact(Apply(s, ops[0]), ops[1..]);
    }
  }

  // ----- what was asked for -----

  /** The clock that a sequence of messages leads to: the greatest that an update names. */
  function Clock(ops: seq<Op>): nat {
    if ops == [] then 0
    else
      var before, op := Clock(ops[..|ops| - 1]), ops[|ops| - 1];
      if op.Update? && before < op.time then op.time else before
  }

  lemma {:induction false} ClockIsGreatest(ops: seq<Op>)
    ensures forall n :: 0 <= n < |ops| && ops[n].Update? ==> ops[n].time <= Clock(ops)
    ensures Clock(ops) == 0 || exists n :: 0 <= n < |ops| && ops[n].Update? && ops[n].time == Clock(ops)
  {
    if ops == [] {
    } else {
      var last := |ops| - 1;
      ClockIsGreatest(ops[..last]);
      if Clock(ops) != Clock(ops[..last]) {
        assert ops[last].Update?;
      } else if n :| 0 <= n < last && ops[..last][n].Update? && ops[..last][n].time == Clock(ops) {
        assert ops[n].time == Clock(ops);
      }
    }
  }

  /** How many timers were asked for. */
  function Asked(ops: seq<Op>): nat {
    if ops == [] then 0 else Asked(ops[..|ops| - 1]) + if ops[|ops| - 1].Timeout? then 1 else 0
  }

  /** The timer that message `n` asks for runs out at that clock. */
  function Expiry(ops: seq<Op>, n: nat): nat
    requires n < |ops| && ops[n].Timeout?
  {
    Clock(ops[..n]) + ops[n].timeout
  }

  lemma {:induction false} RunLast(s: State, ops: seq<Op>)
    requires ops != []
    ensures Run(s, ops) == Apply(Run(s, ops[..|ops| - 1]), ops[|ops| - 1])
    decreases |ops|
  {
    if |ops| == 1 {
      assert ops[1..] == [] && ops[..0] == [];
    } else {
      RunLast(Apply(s, ops[0]), ops[1..]);
      assert ops[1..][..|ops| - 2] == ops[..|ops| - 1][1..];
    }
  }

  /** Entry `k` is what message `n` asks for. */
  predicate IsFor(ops: seq<Op>, n: nat, e: Entry)
    requires n < |ops| && ops[n].Timeout?
  {
    e.expire == Expiry(ops, n) && e.source == ops[n].source && e.session == ops[n].session
  }

  /**
   The clock is the greatest that was named, and the timers are those that were asked for, in that order: each runs
   out `timeout` after the clock of its request, and is for the process and session that asked.
   */
  lemma {:induction false} RunMakes(ops: seq<Op>)
    ensures var s := Run(INIT, ops);
      && s.time == Clock(ops) && |s.issued| == Asked(ops)
      && forall n :: 0 <= n < |ops| && ops[n].Timeout? ==>
          Asked(ops[..n]) < |s.issued| && IsFor(ops, n, s.issued[Asked(ops[..n])])
    decreases |ops|
  {
    if ops == [] {
    } else {
      var last := |ops| - 1;
      var init, s0, s := ops[..last], Run(INIT, ops[..last]), Run(INIT, ops);
      RunMakes(init);
      RunLast(INIT, ops);
      RunExact(INIT, init);
      if ops[last].Update? {
        AdvanceExact(s0, ops[last].time);
      }
      forall n | 0 <= n < |ops| && ops[n].Timeout?
        ensures Asked(ops[..n]) < |s.issued| && IsFor(ops, n, s.issued[Asked(ops[..n])])
      {
        if n < last {
          assert init[..n] == ops[..n];
          assert IsFor(init, n, s0.issued[Asked(ops[..n])]);
        }
      }
    }
  }

  /** Every timer was asked for. */
  lemma {:induction false} AskedBy(ops: seq<Op>, k: nat) returns (n: nat)
    requires k < Asked(ops)
    ensures n < |ops| && ops[n].Timeout? && Asked(ops[..n]) == k
  {
    var last := |ops| - 1;
    if k < Asked(ops[..last]) {
      n := AskedBy(ops[..last], k);
      assert ops[..last][..n] == ops[..n];
    } else {
      n := last;
    }
  }
}
