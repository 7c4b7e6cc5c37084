/** The hierarchical timing wheel of src/time.cpp, on the heap, proved to do what `NaiveTimer` says. */
module TimingWheel {
  import opened Bits
  import opened WheelMath
  import opened WheelLayout
  import Naive = NaiveTimer

  /** The search of `_tick` on a rollover: the first level whose digit of the new clock is not 0. */
  method FindRollover(t: nat) returns (k: nat, value: nat)
    requires 0 < t < WORD && t % LEAST_VALUE == 0
    ensures k < LEVEL_COUNT && t % Base(k) == 0 && value == Digit(t, k) && value != 0
    ensures IsSlot(Level(k, value))
  {
    var time := Shr(t, LEAST_SHIFT);
    k, value := 0, BitAnd(time, LEVEL_VALUE - 1);
    ShrQuot(t, 0);
    MaskLevel(time);
    while value == 0
      invariant k < LEVEL_COUNT && t % Base(k) == 0 && time == Quot(t, k) && value == Digit(t, k)
      decreases LEVEL_COUNT - k
    {
      RolloverStep(t, k);
      RolloverHasDigit(t, k + 1);
      QuotStep(t, k);
      LevelBits(time);
      time := Shr(time, LEVEL_SHIFT);
      k := k + 1;
      value := BitAnd(time, LEVEL_VALUE - 1);
      MaskLevel(time);
    }
  }

  /** Every timer in the wheel is in a slot that is right for the clock. */
  ghost predicate AllTimely(l: Layout, issued: seq<Naive.Entry>, time: nat) {
    forall n :: n in l.tags ==> Timely(l, issued, time, n)
  }

  /** A node with tag `t` that `_queue` may place in a slot of rank at most `bound`. */
  ghost predicate Placeable(t: Tag, issued: seq<Naive.Entry>, time: nat, bound: nat) {
    && bound <= LEVEL_COUNT && t.ticket < |issued|
    && time <= issued[t.ticket].expire
    && Quot(issued[t.ticket].expire, bound) == Quot(time, bound)
    && t.hops + bound <= LEVEL_COUNT
  }

  /**
   The search of `_queue`: the slot for a timer that expires at `e` when the clock shows `t`. It always
   finds a level, also the fifth, whose `exp2` has wrapped to 0 and whose mask is all ones.
   */
  method FindSlot(t: nat, e: nat) returns (s: Slot)
    requires t <= e < WORD
    ensures IsSlot(s) && SlotOk(t, e, s)
    ensures forall k :: 0 <= k <= LEVEL_COUNT && Quot(e, k) == Quot(t, k) ==> Rank(s) <= k
  {
    hide Base, Quot, Pow2, BitAnd, BitOr, Shl, Shr, SlotOk;
    if e - t < LEAST_VALUE {
      PlaceInLeast(t, e);
      return Least(BitAnd(e, LEAST_VALUE - 1));
    }
    var k, exp2 := 0, Shl(1, LEAST_SHIFT);
    FirstBase();
    FarApart(t, e);
    while k < LEVEL_COUNT
      invariant k <= LEVEL_COUNT
      invariant k < LEVEL_COUNT ==> exp2 == Base(k)
      invariant forall j :: 0 <= j <= k ==> Quot(e, j) != Quot(t, j)
    {
      exp2 := Shl(exp2, LEVEL_SHIFT);
      var mask := (exp2 + (WORD - 1)) % WORD;
      LevelMask(t, e, k, exp2, mask);
      if BitOr(e, mask) == BitOr(t, mask) {
        break;
      }
      k := k + 1;
    }
    LastLevelMatches(t, e);
    assert k < LEVEL_COUNT;
    PlaceAtLevel(t, e, k);
    var shift := LEAST_SHIFT + k * LEVEL_SHIFT;
    ShrQuot(e, k);
    MaskLevel(Shr(e, shift));
    s := Level(k, BitAnd(Shr(e, shift), LEVEL_VALUE - 1));
  }

  lemma FarApart(t: nat, e: nat)
    requires t + LEAST_VALUE <= e
    ensures Quot(e, 0) != Quot(t, 0)
  {
  }

  lemma FirstBase()
    ensures Shl(1, LEAST_SHIFT) == Base(0)
  {
    SmallPowers();
    ShlSmall(1, LEAST_SHIFT, LEAST_VALUE);
  }

  lemma PlaceInLeast(t: nat, e: nat)
    requires t <= e < t + LEAST_VALUE
    ensures IsSlot(Least(BitAnd(e, LEAST_VALUE - 1))) && SlotOk(t, e, Least(BitAnd(e, LEAST_VALUE - 1)))
  {
    MaskLeast(e);
  }

  /** The test of `_queue` at level k: do the two times agree above digit k? */
  lemma LevelMask(t: nat, e: nat, k: nat, exp2: nat, mask: nat)
    requires k < LEVEL_COUNT && exp2 == Shl(Base(k), LEVEL_SHIFT) && mask == (exp2 + (WORD - 1)) % WORD
    ensures k + 1 < LEVEL_COUNT ==> exp2 == Base(k + 1)
    ensures BitOr(e, mask) == BitOr(t, mask) <==> Quot(e, k + 1) == Quot(t, k + 1)
  {
    hide BitOr, Shr, Shl, Pow2, Quot;
    ShlBase(k);
    Pow2Base(k + 1);
    OrMaskAgrees(e, t, LEAST_SHIFT + (k + 1) * LEVEL_SHIFT);
    ShrQuot(e, k + 1);
    ShrQuot(t, k + 1);
  }

  lemma AdmitTimely(s: Snapshot, n: Node, e: Naive.Entry, time: nat)
    requires AllTimely(s.layout, s.issued, time) && time <= e.expire < WORD && time < WORD
    ensures AllTimely(Acquire(s.layout, n, |s.issued|), s.issued + [e], time)
    ensures Placeable(Acquire(s.layout, n, |s.issued|).tags[n], s.issued + [e], time, LEVEL_COUNT)
  {
    LastLevelMatches(time, e.expire);
    var l' := Acquire(s.layout, n, |s.issued|);
    forall x | x in l'.tags
      ensures Timely(l', s.issued + [e], time, x)
    {
      assert x != n ==> Timely(s.layout, s.issued, time, x);
    }
  }

  /** Timely, and strictly ahead of the clock: nothing is due any more. */
  ghost predicate AllAhead(l: Layout, issued: seq<Naive.Entry>, time: nat) {
    forall n :: n in l.tags ==>
      Timely(l, issued, time, n) && (l.tags[n].place.In? ==> issued[l.tags[n].ticket].expire != time)
  }

  /** A service whose clock shows `time` and whose cell of `least` for that time has been taken out. */
  ghost function Drained(s: Snapshot, time: nat, m: Memory): Snapshot
    requires Least(time % LEAST_VALUE) in s.layout.lists
  {
    s.(layout := Detach(s.layout, Least(time % LEAST_VALUE)), mem := m)
  }

  /** The cell of `least` that a tick drains holds exactly the timers that are due. */
  lemma DrainIsDue(s: Snapshot, time: nat, m: Memory, k: nat)
    requires Sound(s, [], 0) && AllTimely(s.layout, s.issued, time)
    ensures Least(time % LEAST_VALUE) in s.layout.lists
    ensures
      var s' := Drained(s, time, m);
      (k in s'.layout.at && OnChain(s', k)) <==> Naive.Due(Naive.State(time, s.issued, s.fired), k)
  {
    hide Wired, LogExact, SlotOk;
    if k in s.layout.at {
      var n := s.layout.at[k];
      assert Placed(s.layout, s.frees, [], 0, n);
      assert Timely(s.layout, s.issued, time, n);
      DueIffLeast(time, s.issued[k].expire, s.layout.tags[n].place.slot);
    }
  }

  lemma DueIffLeast(t: nat, e: nat, s: Slot)
    requires IsSlot(s) && SlotOk(t, e, s)
    ensures e == t <==> s == Least(t % LEAST_VALUE)
  {
    if e == t {
      DueIsLeast(t, s);
    } else if s == Least(t % LEAST_VALUE) {
      LeastIsDue(t, e);
    }
  }

  lemma DrainAnswers(s: Snapshot, time: nat, m: Memory)
    requires Sound(s, [], 0) && AllTimely(s.layout, s.issued, time)
    ensures Least(time % LEAST_VALUE) in s.layout.lists
    ensures s.fired + Answers(Drained(s, time, m), time) == Naive.Tick(Naive.State(time, s.issued, s.fired)).fired
  {
    hide Sound, AllTimely;
    DrainIsDue(s, time, m, 0);
    var s', t := Drained(s, time, m), Naive.State(time, s.issued, s.fired);
    forall k: nat
      ensures k in Answers(s', time) <==> k < |s.issued| && Naive.Due(t, k)
    {
      DrainIsDue(s, time, m, k);
    }
    assert Answers(s', time) == map k | 0 <= k < |s.issued| && Naive.Due(t, k) :: Naive.Answer(t, k);
  }

  /** After the drain every timer that is left is ahead of the clock. */
  lemma DrainLeavesAhead(s: Snapshot, s': Snapshot, time: nat, m: Memory, w: nat)
    requires Sound(s, [], 0) && AllTimely(s.layout, s.issued, time)
    requires Least(time % LEAST_VALUE) in s.layout.lists
    requires Firing(Drained(s, time, m), s', w, time) && Sound(s', [], 0)
    ensures AllAhead(s'.layout, s'.issued, time)
  {
    hide Sound, SlotOk, Answers, OnChain, Detach;
    var slot := Least(time % LEAST_VALUE);
    InSlots(s);
    DetachTags(s.layout, slot);
    forall n | n in s'.layout.tags && s'.layout.tags[n].place.In?
      ensures Timely(s'.layout, s'.issued, time, n) && s'.issued[s'.layout.tags[n].ticket].expire != time
    {
      assert Timely(s.layout, s.issued, time, n);
      DueIffLeast(time, s.issued[s.layout.tags[n].ticket].expire, s.layout.tags[n].place.slot);
    }
  }

  // ----- the clock moves on -----

  /** Every timer is right for the clock, but those of `stale` are about to be cascaded from level m. */
  ghost predicate AllButStale(l: Layout, issued: seq<Naive.Entry>, time: nat, m: nat, stale: Slot) {
    forall n :: n in l.tags ==>
      if l.tags[n].place == In(stale)
      then Placeable(l.tags[n].(hops := l.tags[n].hops + 1), issued, time, m)
      else Timely(l, issued, time, n)
  }

  lemma ClockInsideBlock(l: Layout, issued: seq<Naive.Entry>, time: nat)
    requires AllAhead(l, issued, time) && (time + 1) % LEAST_VALUE != 0
    requires forall n :: n in l.tags && l.tags[n].place.In? ==> IsSlot(l.tags[n].place.slot)
    ensures AllTimely(l, issued, time + 1)
  {
    hide SlotOk;
    forall n | n in l.tags && l.tags[n].place.In?
      ensures Timely(l, issued, time + 1, n)
    {
      assert Timely(l, issued, time, n);
      TickInsideBlock(time, issued[l.tags[n].ticket].expire, l.tags[n].place.slot);
    }
  }

  lemma ClockRollsOver(l: Layout, issued: seq<Naive.Entry>, time: nat, m: nat)
    requires AllAhead(l, issued, time)
    requires forall n :: n in l.tags && l.tags[n].place.In? ==> IsSlot(l.tags[n].place.slot)
    requires m < LEVEL_COUNT && (time + 1) % Base(m) == 0 && Digit(time + 1, m) != 0
    ensures AllButStale(l, issued, time + 1, m, Level(m, Digit(time + 1, m)))
  {
    hide SlotOk, Digit, Quot, Base;
    var stale := Level(m, Digit(time + 1, m));
    forall n | n in l.tags && l.tags[n].place.In?
      ensures
        if l.tags[n].place == In(stale)
        then Placeable(l.tags[n].(hops := l.tags[n].hops + 1), issued, time + 1, m)
        else Timely(l, issued, time + 1, n)
    {
      assert Timely(l, issued, time, n);
      var e := issued[l.tags[n].ticket].expire;
      TickRollover(time, e, l.tags[n].place.slot, m);
      if l.tags[n].place == In(stale) {
        CascadeNotOverdue(time + 1, e, m);
      }
    }
  }

  lemma StaleDetached(l: Layout, issued: seq<Naive.Entry>, time: nat, m: nat, stale: Slot)
    requires AllButStale(l, issued, time, m, stale) && stale.Level? && stale in l.lists
    requires forall i :: 0 <= i < |l.lists[stale]| ==> Tagged(l, l.lists[stale][i], In(stale), i)
    ensures AllTimely(Detach(l, stale), issued, time)
    ensures forall n :: n in l.lists[stale] ==> n in l.tags && Placeable(Detach(l, stale).tags[n], issued, time, m)
  {
    hide SlotOk, Quot;
    var l' := Detach(l, stale);
    forall n | n in l'.tags
      ensures Timely(l', issued, time, n)
    {
      assert l.tags[n].place != In(stale) ==> Timely(l, issued, time, n);
    }
    forall n | n in l.lists[stale]
      ensures n in l'.tags && Placeable(l'.tags[n], issued, time, m)
    {
      assert l.tags[n].place == In(stale);
    }
  }

  /** Queueing one node of a chain does not change what the next ones need. */
  lemma StillPlaceable(l: Layout, l': Layout, issued: seq<Naive.Entry>, time: nat, bound: nat, chain: seq<Node>, w: nat)
    requires w < |chain| && (forall i, j :: w <= i < j < |chain| ==> chain[i] != chain[j])
    requires forall i :: w <= i < |chain| ==> chain[i] in l.tags && Placeable(l.tags[chain[i]], issued, time, bound)
    requires l'.tags.Keys == l.tags.Keys && (forall n :: n in l'.tags && n != chain[w] ==> l'.tags[n] == l.tags[n])
    ensures forall i :: w < i < |chain| ==> chain[i] in l'.tags && Placeable(l'.tags[chain[i]], issued, time, bound)
  {
  }

  lemma AttachTimely(l: Layout, issued: seq<Naive.Entry>, time: nat, bound: nat, s: Slot, n: Node)
    requires AllTimely(l, issued, time) && n in l.tags && Placeable(l.tags[n], issued, time, bound) && s in l.lists
    requires SlotOk(time, issued[l.tags[n].ticket].expire, s) && Rank(s) <= bound
    ensures AllTimely(Attach(l, s, n), issued, time)
  {
    forall x | x in Attach(l, s, n).tags
      ensures Timely(Attach(l, s, n), issued, time, x)
    {
      assert x != n ==> Timely(l, issued, time, x);
    }
  }

  class Timer {
    var time: nat
    const least: array<Head>
    const level: array2<Head>
    var frees: seq<Node>

    ghost var layout: Layout
    ghost var issued: seq<Naive.Entry>
    ghost var fired: map<nat, Naive.Sent>
    ghost var log: seq<(nat, Naive.Sent)>    // every response sent, in order
    ghost var logAt: map<nat, nat>           // where in the log each answered timer is

    ghost function Abs(): Naive.State
      reads this
    {
      Naive.State(time, issued, fired)
    }

    ghost predicate Shape() {
      least.Length == LEAST_VALUE && level.Length0 == LEVEL_COUNT && level.Length1 == LEVEL_VALUE - 1
    }

    ghost function HeadOf(s: Slot): Head
      requires Shape() && IsSlot(s)
      reads least, level
    {
      match s
      case Least(i) => least[i]
      case Level(k, v) => level[k, v - 1]
    }

    /** The array cells are the heads of the lists of the layout. */
    ghost predicate HeadsFit(lists: imap<Slot, seq<Node>>)
      requires Shape()
      reads least, level
    {
      forall s :: IsSlot(s) ==> s in lists && Fits(HeadOf(s), lists[s])
    }

    ghost function Snap(): Snapshot
      reads this, layout.tags.Keys
    {
      Snapshot(layout, Mem(layout.tags.Keys), frees, issued, fired, log, logAt)
    }

    ghost predicate Structure(chain: seq<Node>, w: nat)
      reads this, least, level, layout.tags.Keys
    {
      Shape() && HeadsFit(layout.lists) && Sound(Snap(), chain, w)
    }

    ghost predicate Valid()
      reads this, least, level, layout.tags.Keys
    {
      && Structure([], 0)
      && time < WORD
      && AllTimely(layout, issued, time)
    }

    constructor ()
      ensures Valid() && fresh(least) && fresh(level) && layout.tags == map[]
      ensures Abs() == Naive.INIT && log == []
    {
      hide Sound;
      time := 0;
      least := new Head[LEAST_VALUE](_ => Head(null, null));
      level := new Head[LEVEL_COUNT, LEVEL_VALUE - 1]((_, _) => Head(null, null));
      frees := [];
      layout := EMPTY;
      issued, fired, log, logAt := [], map[], [], map[];
      new;
      assert Mem({}) == Memory(map[], map[]);
      EmptySound(Snap());
    }

    /** `_list_append` on one list of the wheel. */
    method Link(s: Slot, node: Node)
      requires Shape() && IsSlot(s) && HeadsFit(layout.lists)
      requires HeadOf(s).last != null ==> HeadOf(s).last in layout.tags
      modifies least, level, (if HeadOf(s).last == null then {} else {HeadOf(s).last})`next
      ensures Fits(HeadOf(s), layout.lists[s] + [node])
      ensures forall s' :: IsSlot(s') && s' != s ==> Fits(HeadOf(s'), layout.lists[s'])
      ensures Mem(layout.tags.Keys) == Append(old(Mem(layout.tags.Keys)), old(HeadOf(s)), node)
    {
      if s.Least? {
        least[s.i] := ListAppend(least[s.i], node, layout.tags.Keys);
      } else {
        level[s.k, s.v - 1] := ListAppend(level[s.k, s.v - 1], node, layout.tags.Keys);
      }
      assert forall s' :: IsSlot(s') && s' != s ==> HeadOf(s') == old(HeadOf(s'));
    }

    /** Appends `node`, the next node of the chain, to the list of `s`. */
    method AppendTo(s: Slot, node: Node, ghost chain: seq<Node>, ghost w: nat)
      requires Structure(chain, w) && IsSlot(s) && w < |chain| && chain[w] == node
      modifies this`layout, least, level, layout.tags.Keys`next
      ensures Structure(chain, w + 1)
      ensures w + 1 < |chain| && old(Ends(Snap().mem, chain)) ==> Ends(Snap().mem, chain)
      ensures node in old(layout).tags && s in old(layout).lists && layout == Attach(old(layout), s, node)
    {
      hide Sound, Fits, Ends, NextOf, DataOf;
      AttachSound(Snap(), chain, w, s, HeadOf(s));
      Link(s, node);
      layout := Attach(layout, s, node);
      assert layout.tags.Keys == old(layout.tags.Keys);
    }

    /** `_queue`: puts the next node of the chain into a slot that is right for the clock. */
    method Queue(node: Node, ghost chain: seq<Node>, ghost w: nat, ghost bound: nat)
      requires Structure(chain, w) && AllTimely(layout, issued, time) && time < WORD
      requires w < |chain| && chain[w] == node
      requires node in layout.tags && Placeable(layout.tags[node], issued, time, bound)
      modifies this`layout, least, level, layout.tags.Keys`next
      ensures Structure(chain, w + 1) && AllTimely(layout, issued, time)
      ensures w + 1 < |chain| && old(Ends(Snap().mem, chain)) ==> Ends(Snap().mem, chain)
      ensures layout.tags.Keys == old(layout.tags.Keys)
      ensures forall n :: n in layout.tags && n != node ==> layout.tags[n] == old(layout).tags[n]
    {
      hide Sound, Ends, HeadsFit, AllTimely, SlotOk, Quot;
      NextInChain(Snap(), chain, w);
      var s := FindSlot(time, node.expire);
      AppendTo(s, node, chain, w);
      AttachTimely(old(layout), issued, time, bound, s, node);
    }

    /** `_queue_list`: queues every node of a detached chain; each must fit in a slot of rank at most `bound`. */
    method QueueList(head: Node?, ghost chain: seq<Node>, ghost bound: nat)
      requires Structure(chain, 0) && Ends(Snap().mem, chain) && AllTimely(layout, issued, time) && time < WORD
      requires head == if chain == [] then null else chain[0]
      requires forall n :: n in chain ==> n in layout.tags && Placeable(layout.tags[n], issued, time, bound)
      modifies this`layout, least, level, layout.tags.Keys`next
      ensures Structure([], 0) && AllTimely(layout, issued, time)
      ensures layout.tags.Keys == old(layout.tags.Keys)
    {
      hide Sound, Ends, HeadsFit, AllTimely, Placeable;
      var list := head;
      ghost var w := 0;
      while list != null
        invariant w <= |chain| && list == if w < |chain| then chain[w] else null
        invariant Structure(chain, w) && AllTimely(layout, issued, time)
        invariant w < |chain| ==> Ends(Snap().mem, chain)
        invariant layout.tags.Keys == old(layout.tags.Keys)
        invariant forall i :: w <= i < |chain| ==>
          chain[i] in layout.tags && Placeable(layout.tags[chain[i]], issued, time, bound)
        decreases |chain| - w
      {
        var n := list;
        NextInChain(Snap(), chain, w);
        FollowChain(Snap(), chain, w);
        list := list.next;
        label before:
        Queue(n, chain, w, bound);
        StillPlaceable(old@before(layout), layout, issued, time, bound, chain, w);
        w := w + 1;
      }
      ChainDone(Snap(), chain);
    }

    /** `_send_list`: answers every timer of a detached chain and frees its nodes. */
    method SendList(head: Node?, ghost chain: seq<Node>)
      requires Structure(chain, 0) && Ends(Snap().mem, chain)
      requires head == if chain == [] then null else chain[0]
      modifies this`layout, this`frees, this`fired, this`log, this`logAt, layout.tags.Keys`next
      ensures Structure([], 0)
      ensures Firing(old(Snap()), Snap(), |chain|, time)
      ensures layout.tags.Keys == old(layout.tags.Keys)
      ensures fired == old(fired) + Answers(old(Snap()), time)
    {
      hide Sound, Ends, Carries, Firing, HeadsFit, Fire;
      ghost var s0 := Snap();
      ChainCarries(s0, chain, time);
      FiringStart(s0, time);
      var list := head;
      ghost var w := 0;
      while list != null
        invariant w <= |chain| && list == if w < |chain| then chain[w] else null
        invariant Structure(chain, w) && Firing(s0, Snap(), w, time)
        invariant w < |chain| ==> Ends(Snap().mem, chain)
        invariant unchanged(least, level) && layout.tags.Keys == s0.layout.tags.Keys
        decreases |chain| - w
      {
        var node := list;
        ghost var s := Snap();
        NextInChain(s, chain, w);
        FollowChain(s, chain, w);
        FireSound(s, chain, w, time);
        FireEnds(s, chain, w, time);
        FiringStep(s0, s, chain, w, time);
        list := list.next;
        SendAndFree(node);
        w := w + 1;
      }
      FiringDone(s0, Snap(), chain, time);
      ChainDone(Snap(), chain);
    }

    /** One round of `_send_list`. */
    method SendAndFree(node: Node)
      requires node in layout.tags && Shape() && HeadsFit(layout.lists)
      modifies this`layout, this`frees, this`fired, this`log, this`logAt, node`next
      ensures node in old(Snap()).mem.data && Snap() == Fire(old(Snap()), node, time)
      ensures HeadsFit(layout.lists) && layout.tags.Keys == old(layout.tags.Keys)
    {
      hide HeadsFit;
      Send(node);
      FreeNode(node);
    }

    /** `_send`: the response to the process that asked for the timer; it is recorded in the log. */
    method Send(node: Node)
      requires node in layout.tags
      modifies this`fired, this`log, this`logAt
      ensures node in Snap().mem.data
      ensures
        var s, e := old(Snap()), old(Snap()).mem.data[node];
        var k, sent := s.layout.tags[node].ticket, Naive.Sent(time, e.source, e.session);
        Snap() == s.(fired := s.fired[k := sent], log := s.log + [(k, sent)], logAt := s.logAt[k := |s.log|])
    {
      ghost var k, sent := layout.tags[node].ticket, Naive.Sent(time, node.source, node.session);
      fired, log, logAt := fired[k := sent], log + [(k, sent)], logAt[k := |log|];
    }

    /** The free list links its nodes as the other lists do, so the node must have been left by then. */
    method FreeNode(node: Node)
      requires node in layout.tags
      modifies this`layout, this`frees, node`next
      ensures
        var s := old(Snap());
        Snap() == s.(layout := Release(s.layout, s.frees, node), frees := s.frees + [node],
                     mem := s.mem.(next := s.mem.next[node := Latest(s.frees)]))
      ensures layout.tags.Keys == old(layout.tags.Keys)
    {
      hide Release;
      node.next := if frees == [] then null else frees[|frees| - 1];
      layout := Release(layout, frees, node);
      frees := frees + [node];
      ReleaseNodes(old(layout), old(frees), node);
      assert NextOf(layout.tags.Keys) == old(NextOf(layout.tags.Keys))[node := node.next];
      assert DataOf(layout.tags.Keys) == old(DataOf(layout.tags.Keys));
    }

    /** `_list_clear` on one list of the wheel. */
    method ClearSlot(s: Slot) returns (list: Node?, ghost chain: seq<Node>)
      requires Structure([], 0) && IsSlot(s)
      modifies this`layout, least, level, layout.tags.Keys`next
      ensures s in old(layout).lists && chain == old(layout).lists[s] && layout == Detach(old(layout), s)
      ensures Structure(chain, 0) && Ends(Snap().mem, chain)
      ensures list == if chain == [] then null else chain[0]
    {
      hide Sound, Ends, Fits, Detach, NextOf, DataOf;
      DetachShape(layout, s);
      chain := layout.lists[s];
      DetachSound(Snap(), s, HeadOf(s));
      list := Unlink(s);
      layout := Detach(layout, s);
    }

    method Unlink(s: Slot) returns (list: Node?)
      requires Shape() && IsSlot(s) && HeadsFit(layout.lists)
      requires HeadOf(s).last != null ==> HeadOf(s).last in layout.tags
      modifies least, level, (if HeadOf(s).last == null then {} else {HeadOf(s).last})`next
      ensures Fits(HeadOf(s), [])
      ensures forall s' :: IsSlot(s') && s' != s ==> Fits(HeadOf(s'), layout.lists[s'])
      ensures Mem(layout.tags.Keys) == Terminate(old(Mem(layout.tags.Keys)), old(HeadOf(s)))
      ensures list == if layout.lists[s] == [] then null else layout.lists[s][0]
    {
      assert Fits(HeadOf(s), layout.lists[s]);
      if s.Least? {
        least[s.i], list := ListClear(least[s.i], layout.tags.Keys);
      } else {
        level[s.k, s.v - 1], list := ListClear(level[s.k, s.v - 1], layout.tags.Keys);
      }
      assert forall s' :: IsSlot(s') && s' != s ==> HeadOf(s') == old(HeadOf(s'));
    }

    /** The first half of `_tick`: answers the timers that are due. */
    method Drain()
      requires Valid()
      modifies this`layout, this`frees, this`fired, this`log, this`logAt, least, level, layout.tags.Keys`next
      ensures Structure([], 0) && AllAhead(layout, issued, time)
      ensures fired == Naive.Tick(old(Abs())).fired
      ensures layout.tags.Keys == old(layout.tags.Keys)
    {
      hide Sound, Ends, HeadsFit, AllTimely, AllAhead, Firing;
      ghost var s := Snap();
      MaskLeast(time);
      var index := BitAnd(time, LEAST_VALUE - 1);
      var list, chain := ClearSlot(Least(index));
      assert Snap() == Drained(s, time, Snap().mem);
      DrainAnswers(s, time, Snap().mem);
      label cleared:
      SendList(list, chain);
      DrainLeavesAhead(s, Snap(), time, old@cleared(Snap()).mem, |chain|);
    }

    /** The second half of `_tick`: the clock moves on and, on a rollover, one slot is cascaded. */
    method Cascade()
      requires Structure([], 0) && AllAhead(layout, issued, time) && time + 1 < WORD
      modifies this`time, this`layout, least, level, layout.tags.Keys`next
      ensures Valid() && time == old(time) + 1
      ensures layout.tags.Keys == old(layout.tags.Keys)
    {
      hide Sound, Ends, HeadsFit, AllTimely, AllAhead, AllButStale, Placeable, Digit, Base;
      InSlots(Snap());
      time := time + 1;
      MaskLeast(time);
      if BitAnd(time, LEAST_VALUE - 1) == 0 {
        var k, value := FindRollover(time);
        ClockRollsOver(layout, issued, time - 1, k);
        ElementsTagged(Snap(), Level(k, value));
        StaleDetached(layout, issued, time, k, Level(k, value));
        var list, chain := ClearSlot(Level(k, value));
        QueueList(list, chain, k);
      } else {
        ClockInsideBlock(layout, issued, time - 1);
      }
    }

    method Tick()
      requires Valid() && time + 1 < WORD
      modifies this, least, level, layout.tags.Keys`next
      ensures Valid() && Abs() == Naive.Tick(old(Abs())) && time == old(time) + 1
      ensures layout.tags.Keys == old(layout.tags.Keys)
    {
      hide Sound, HeadsFit, AllTimely, AllAhead;
      Drain();
      Cascade();
    }

    method Update(to: nat)
      requires Valid() && to < WORD
      modifies this, least, level, layout.tags.Keys`next
      ensures Valid() && Abs() == Naive.Advance(old(Abs()), to)
      ensures layout.tags.Keys == old(layout.tags.Keys)
    {
      hide Sound, HeadsFit, AllTimely, Naive.Tick;
      while time < to
        invariant Valid() && Naive.Advance(Abs(), to) == Naive.Advance(old(Abs()), to)
        invariant layout.tags.Keys == old(layout.tags.Keys)
        decreases if time < to then to - time else 0
      {
        Tick();
      }
    }

    method NewNode() returns (node: Node)
      requires Sound(Snap(), [], 0)
      modifies this`frees
      ensures node in layout.tags ==> old(frees) != [] && node == old(frees)[|old(frees)| - 1]
      ensures node !in layout.tags ==> fresh(node)
      ensures frees == if node in layout.tags then old(frees)[..|old(frees)| - 1] else old(frees)
    {
      if frees != [] {
        node := frees[|frees| - 1];
        assert Tagged(layout, node, Unused, |frees| - 1);
        frees := frees[..|frees| - 1];
      } else {
        node := new Node();
      }
    }

    /** A node that stores the new timer. */
    method StoreNew(source: nat, session: nat, expire: nat) returns (node: Node)
      requires Sound(Snap(), [], 0) && expire < WORD
      modifies this`layout, this`frees, this`issued
      modifies layout.tags.Keys`expire, layout.tags.Keys`source, layout.tags.Keys`session
      ensures
        var s := old(Snap());
        && (node in s.layout.tags ==> s.frees != [] && node == s.frees[|s.frees| - 1])
        && Snap() == Admit(s, node, node.next, Naive.Entry(expire, source, session))
      ensures layout.tags.Keys == old(layout.tags.Keys) + {node} && (node in old(layout.tags.Keys) || fresh(node))
      ensures layout.lists == old(layout.lists)
    {
      hide Sound, NextOf, DataOf;
      ghost var s, e := Snap(), Naive.Entry(expire, source, session);
      node := NewNode();
      assert Mem(layout.tags.Keys) == s.mem;
      StoreTimer(node, expire, source, session, layout.tags.Keys);
      layout, issued := Acquire(layout, node, |issued|), issued + [e];
      assert layout.tags.Keys == s.layout.tags.Keys + {node};
    }

    /** The first part of `_timeout`: a node for the new timer. */
    method Admission(source: nat, session: nat, timeout: nat) returns (node: Node)
      requires Valid() && time + timeout < WORD
      modifies this`layout, this`frees, this`issued
      modifies layout.tags.Keys`expire, layout.tags.Keys`source, layout.tags.Keys`session
      ensures Structure([node], 0) && AllTimely(layout, issued, time)
      ensures node in layout.tags && Placeable(layout.tags[node], issued, time, LEVEL_COUNT)
      ensures issued == old(issued) + [Naive.Entry(time + timeout, source, session)]
      ensures layout.tags.Keys == old(layout.tags.Keys) + {node} && (node in old(layout.tags.Keys) || fresh(node))
    {
      hide Sound, AllTimely, Placeable, HeadsFit, NextOf, DataOf, Mem, Acquire;
      ghost var s, e := Snap(), Naive.Entry(time + timeout, source, session);
      node := StoreNew(source, session, time + timeout);
      AdmitSound(s, node, node.next, e);
      AdmitTimely(s, node, e, time);
    }

    /** `_timeout`; the code asserts that the expiry does not overflow, which is its demand on the caller. */
    method Timeout(source: nat, session: nat, timeout: nat)
      requires Valid() && time + timeout < WORD
      modifies this, least, level, layout.tags.Keys
      ensures Valid() && Abs() == Naive.Request(old(Abs()), timeout, source, session)
      ensures fresh(layout.tags.Keys - old(layout.tags.Keys))
    {
      hide Sound, HeadsFit, AllTimely, Placeable, NextOf, DataOf, Ends;
      var node := Admission(source, session, timeout);
      Queue(node, [node], 0, LEVEL_COUNT);
      ChainDone(Snap(), [node]);
    }

    /** A timer is cascaded at most five times. */
    lemma CascadesAtMostFive(n: Node)
      requires Valid() && n in layout.tags && layout.tags[n].place.In?
      ensures layout.tags[n].hops <= 5
    {
      hide Sound, HeadsFit;
      assert Timely(layout, issued, time, n);
    }

    /** The two message handlers that `_main` registers. */
    method Handle(op: Naive.Op)
      requires Valid() && OpInRange(Abs(), op)
      modifies this, least, level, layout.tags.Keys
      ensures Valid() && Abs() == Naive.Apply(old(Abs()), op)
      ensures fresh(layout.tags.Keys - old(layout.tags.Keys))
    {
      hide Sound, AllTimely, HeadsFit;
      match op
      case Timeout(timeout, source, session) => Timeout(source, session, timeout);
      case Update(to) => Update(to);
    }
  }

  predicate OpInRange(s: Naive.State, op: Naive.Op) {
    match op
    case Timeout(d, _, _) => s.time + d < WORD
    case Update(to) => to < WORD
  }

  /** What the code asserts: no expiry and no clock beyond 64 bits. */
  predicate InRange(ops: seq<Naive.Op>) {
    forall n :: 0 <= n < |ops| ==> if ops[n].Timeout? then Naive.Expiry(ops, n) < WORD else ops[n].time < WORD
  }

  /** Each timer whose expiry has passed has exactly one response in the log, sent at its expiry to its requester. */
  ghost predicate AnsweredOnce(s: Naive.State, log: seq<(nat, Naive.Sent)>) {
    && (forall j :: 0 <= j < |log| ==>
          var k := log[j].0;
          && k < |s.issued| && s.issued[k].expire < s.time
          && log[j].1 == Naive.Sent(s.issued[k].expire, s.issued[k].source, s.issued[k].session))
    && (forall i, j :: 0 <= i < j < |log| ==> log[i].0 != log[j].0)
    && (forall k :: 0 <= k < |s.issued| && s.issued[k].expire < s.time ==> exists j :: 0 <= j < |log| && log[j].0 == k)
  }

  lemma LogAnsweredOnce(s: Naive.State, log: seq<(nat, Naive.Sent)>, logAt: map<nat, nat>)
    requires LogExact(s.fired, log, logAt) && Naive.Exact(s)
    ensures AnsweredOnce(s, log)
  {
    forall i, j | 0 <= i < j < |log|
      ensures log[i].0 != log[j].0
    {
      assert logAt[log[i].0] == i && logAt[log[j].0] == j;
    }
    forall k | 0 <= k < |s.issued| && s.issued[k].expire < s.time
      ensures exists j :: 0 <= j < |log| && log[j].0 == k
    {
      assert k in s.fired;
      assert log[logAt[k]].0 == k;
    }
  }

  lemma SoundLog(s: Snapshot)
    requires Sound(s, [], 0)
    ensures LogExact(s.fired, s.log, s.logAt)
  {
  }

  /** The response goes to whoever asked for a timer with message `n`, `timeout` after the clock it was asked at. */
  predicate Responds(ops: seq<Naive.Op>, n: nat, response: (nat, Naive.Sent)) {
    && n < |ops| && ops[n].Timeout? && response.0 == Naive.Asked(ops[..n])
    && response.1.at == Naive.Expiry(ops, n)
    && response.1.source == ops[n].source && response.1.session == ops[n].session
  }

  ghost predicate WasAsked(ops: seq<Naive.Op>, response: (nat, Naive.Sent)) {
    response.1.at < Naive.Clock(ops) && exists n :: Responds(ops, n, response)
  }

  ghost predicate IsLogged(ops: seq<Naive.Op>, n: nat, log: seq<(nat, Naive.Sent)>) {
    exists j :: 0 <= j < |log| && Responds(ops, n, log[j])
  }

  /** The log has one response for each request whose time has come by the last clock, and no others. */
  ghost predicate AllAnswered(ops: seq<Naive.Op>, log: seq<(nat, Naive.Sent)>) {
    && (forall j :: 0 <= j < |log| ==> WasAsked(ops, log[j]))
    && (forall i, j :: 0 <= i < j < |log| ==> log[i].0 != log[j].0)
    && (forall n :: 0 <= n < |ops| && ops[n].Timeout? && Naive.Expiry(ops, n) < Naive.Clock(ops) ==>
          IsLogged(ops, n, log))
  }

  lemma LoggedWasAsked(ops: seq<Naive.Op>, log: seq<(nat, Naive.Sent)>, j: nat)
    requires AnsweredOnce(Naive.Run(Naive.INIT, ops), log) && j < |log|
    ensures WasAsked(ops, log[j])
  {
    hide Naive.Run, Naive.Clock, Naive.Asked, Naive.Expiry;
    Naive.RunMakes(ops);
    var n := Naive.AskedBy(ops, log[j].0);
    assert Naive.IsFor(ops, n, Naive.Run(Naive.INIT, ops).issued[log[j].0]);
    assert Responds(ops, n, log[j]);
  }

  lemma AskedIsLogged(ops: seq<Naive.Op>, log: seq<(nat, Naive.Sent)>, n: nat)
    requires AnsweredOnce(Naive.Run(Naive.INIT, ops), log)
    requires n < |ops| && ops[n].Timeout? && Naive.Expiry(ops, n) < Naive.Clock(ops)
    ensures IsLogged(ops, n, log)
  {
    hide Naive.Run, Naive.Clock, Naive.Asked, Naive.Expiry;
    Naive.RunMakes(ops);
    var k := Naive.Asked(ops[..n]);
    assert Naive.IsFor(ops, n, Naive.Run(Naive.INIT, ops).issued[k]);
    var j :| 0 <= j < |log| && log[j].0 == k;
    assert Responds(ops, n, log[j]);
  }

  lemma AnsweredAsAsked(ops: seq<Naive.Op>, log: seq<(nat, Naive.Sent)>)
    requires AnsweredOnce(Naive.Run(Naive.INIT, ops), log)
    ensures AllAnswered(ops, log)
  {
    hide Naive.Run, Naive.Clock, Naive.Asked, Naive.Expiry, WasAsked, IsLogged;
    forall j | 0 <= j < |log|
      ensures WasAsked(ops, log[j])
    {
      LoggedWasAsked(ops, log, j);
    }
    forall n | 0 <= n < |ops| && ops[n].Timeout? && Naive.Expiry(ops, n) < Naive.Clock(ops)
      ensures IsLogged(ops, n, log)
    {
      AskedIsLogged(ops, log, n);
    }
  }

  /** The timer process serves any sequence of requests and clock updates, as `_main` does. */
  method Serve(ops: seq<Naive.Op>) returns (t: Timer)
    requires InRange(ops)
    ensures t.Valid() && t.Abs() == Naive.Run(Naive.INIT, ops) && t.time == Naive.Clock(ops)
    ensures AllAnswered(ops, t.log)
  {
    hide Sound, AllTimely, LogExact, AnsweredOnce, AllAnswered, Naive.Exact, Naive.Apply, Naive.Clock;
    t := new Timer();
    var i := 0;
    assert ops[..0] == [];
    while i < |ops|
      invariant i <= |ops| && t.Valid() && fresh(t) && fresh(t.least) && fresh(t.level) && fresh(t.layout.tags.Keys)
      invariant t.Abs() == Naive.Run(Naive.INIT, ops[..i])
    {
      assert ops[..i + 1][..i] == ops[..i];
      Naive.RunMakes(ops[..i]);
      Naive.RunLast(Naive.INIT, ops[..i + 1]);
      t.Handle(ops[i]);
      i := i + 1;
    }
    assert ops[..|ops|] == ops;
    Naive.InitExact();
    Naive.RunExact(Naive.INIT, ops);
    Naive.RunMakes(ops);
    SoundLog(t.Snap());
    LogAnsweredOnce(t.Abs(), t.log, t.logAt);
    AnsweredAsAsked(ops, t.log);
  }
}
