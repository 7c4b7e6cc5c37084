/**
 The intrusive lists of the timing wheel: which node is where, what the pointers in memory say, and how
 each list operation of the wheel changes both.
 */
module WheelLayout {
  import opened Bits
  import opened WheelMath
  import Naive = NaiveTimer

  class Node {
    var next: Node?
    var expire: nat
    var source: nat
    var session: nat

    constructor () {}
  }

  /** A list head: `last` is the node whose `next` the next append overwrites, null when that is `first`. */
  datatype Head = Head(first: Node?, last: Node?)

  /** `h` is the head of the list `elems`; the `first` of an empty list and the `next` of a last node are junk. */
  ghost predicate Fits(h: Head, elems: seq<Node>) {
    && (h.last == null <==> elems == [])
    && (elems != [] ==> h.first == elems[0] && h.last == elems[|elems| - 1])
  }

  /** The memory of the nodes: their `next` pointers and the timers stored in them. */
  datatype Memory = Memory(next: map<Node, Node?>, data: map<Node, Naive.Entry>)

  ghost function Mem(nodes: set<Node>): Memory
    reads nodes
  {
    Memory(NextOf(nodes), DataOf(nodes))
  }

  ghost function NextOf(nodes: set<Node>): map<Node, Node?>
    reads nodes`next
  {
    map n | n in nodes :: n.next
  }

  ghost function DataOf(nodes: set<Node>): map<Node, Naive.Entry>
    reads nodes`expire, nodes`source, nodes`session
  {
    map n | n in nodes :: Naive.Entry(n.expire, n.source, n.session)
  }

  /** What `_list_append` to the list with head `h` writes to the nodes. */
  ghost function Append(m: Memory, h: Head, n: Node): Memory {
    if h.last == null then m else m.(next := m.next[h.last := n])
  }

  /** What `_list_clear` of the list with head `h` writes to the nodes. */
  ghost function Terminate(m: Memory, h: Head): Memory {
    if h.last == null then m else m.(next := m.next[h.last := null])
  }

  method ListAppend(h: Head, n: Node, ghost nodes: set<Node>) returns (r: Head)
    requires h.last != null ==> h.last in nodes
    modifies (if h.last == null then {} else {h.last})`next
    ensures Mem(nodes) == Append(old(Mem(nodes)), h, n)
    ensures forall elems :: Fits(h, elems) ==> Fits(r, elems + [n])
  {
    if h.last == null {
      r := Head(n, n);
    } else {
      h.last.next := n;
      r := Head(h.first, n);
      assert NextOf(nodes) == old(NextOf(nodes))[h.last := n];
    }
    assert DataOf(nodes) == old(DataOf(nodes));
  }

  method ListClear(h: Head, ghost nodes: set<Node>) returns (r: Head, list: Node?)
    requires h.last != null ==> h.last in nodes
    modifies (if h.last == null then {} else {h.last})`next
    ensures Mem(nodes) == Terminate(old(Mem(nodes)), h)
    ensures Fits(r, [])
    ensures list == if h.last == null then null else h.first
  {
    if h.last == null {
      r := Head(null, null);
    } else {
      h.last.next := null;
      r := Head(h.first, null);
      assert NextOf(nodes) == old(NextOf(nodes))[h.last := null];
    }
    assert DataOf(nodes) == old(DataOf(nodes));
    list := r.first;
  }

  /** Fills in a node; its `next` keeps whatever was there. */
  method StoreTimer(node: Node, expire: nat, source: nat, session: nat, ghost nodes: set<Node>)
    requires expire < WORD
    modifies node`expire, node`source, node`session
    ensures Naive.Entry(node.expire, node.source, node.session) == Naive.Entry(expire, source, session)
    ensures Mem(nodes + {node}) ==
      Memory(old(NextOf(nodes))[node := node.next], old(DataOf(nodes))[node := Naive.Entry(expire, source, session)])
  {
    node.expire := expire % WORD;
    node.source := source;
    node.session := session;
    assert NextOf(nodes + {node}) == old(NextOf(nodes))[node := node.next];
    assert DataOf(nodes + {node}) == old(DataOf(nodes))[node := Naive.Entry(expire, source, session)];
  }

  // ----- where the nodes are -----

  /** Which list a node is linked into. A detached chain is being walked by `SendList` or `QueueList`. */
  datatype Place = In(slot: Slot) | Walking | Unused

  /** The place of a node, its position there, the timer it carries and how often that timer was cascaded. */
  datatype Tag = Tag(place: Place, pos: nat, ticket: nat, hops: nat)

  /** What each list of the wheel holds, the tag of every node ever allocated, the node of each pending timer. */
  datatype Layout = Layout(lists: imap<Slot, seq<Node>>, tags: map<Node, Tag>, at: map<nat, Node>)

  ghost predicate Tagged(l: Layout, n: Node, place: Place, pos: int) {
    n in l.tags && l.tags[n].place == place && l.tags[n].pos == pos
  }

  /** A node is exactly where its tag says. */
  ghost predicate Placed(l: Layout, frees: seq<Node>, chain: seq<Node>, w: nat, n: Node)
    requires n in l.tags
  {
    var t := l.tags[n];
    match t.place
    case In(s) => IsSlot(s) && s in l.lists && t.pos < |l.lists[s]| && l.lists[s][t.pos] == n
    case Walking => w <= t.pos < |chain| && chain[t.pos] == n
    case Unused => t.pos < |frees| && frees[t.pos] == n
  }

  /**
   Every node is in exactly one list of the wheel, the free list or the rest of the chain that is being
   walked, `chain[w..]`; the nodes outside the free list carry the pending timers, one each.
   */
  ghost predicate LaidOut(l: Layout, frees: seq<Node>, chain: seq<Node>, w: nat) {
    && (forall s :: IsSlot(s) ==> s in l.lists)
    && (forall s, i :: IsSlot(s) && 0 <= i < |l.lists[s]| ==> Tagged(l, l.lists[s][i], In(s), i))
    && (forall i :: w <= i < |chain| ==> Tagged(l, chain[i], Walking, i))
    && (forall i :: 0 <= i < |frees| ==> Tagged(l, frees[i], Unused, i))
    && (forall n :: n in l.tags ==> Placed(l, frees, chain, w, n))
    && (forall n :: n in l.tags && l.tags[n].place != Unused ==>
          l.tags[n].ticket in l.at && l.at[l.tags[n].ticket] == n)
    && (forall k :: k in l.at ==>
          l.at[k] in l.tags && l.tags[l.at[k]].ticket == k && l.tags[l.at[k]].place != Unused)
  }

  /** The link of a node with tag `t`: to its successor, if it has one. */
  ghost predicate NextHolds(l: Layout, chain: seq<Node>, t: Tag, next: Node?) {
    match t.place
    case In(s) => s in l.lists && t.pos + 1 < |l.lists[s]| ==> next == l.lists[s][t.pos + 1]
    case Walking => t.pos + 1 < |chain| ==> next == chain[t.pos + 1]
    case Unused => true
  }

  /** The pointers in memory link the lists of the layout and the chain that is being walked. */
  ghost predicate Wired(l: Layout, m: Memory, chain: seq<Node>) {
    && m.next.Keys == l.tags.Keys && m.data.Keys == l.tags.Keys
    && (forall n {:trigger m.next[n]} :: n in m.next ==> NextHolds(l, chain, l.tags[n], m.next[n]))
  }

  /** The nodes in use store the timers that their tags name. */
  ghost predicate Stored(l: Layout, m: Memory, issued: seq<Naive.Entry>) {
    forall n :: n in l.tags && l.tags[n].place != Unused ==>
      n in m.data && l.tags[n].ticket < |issued| && m.data[n] == issued[l.tags[n].ticket]
  }

  ghost function Attach(l: Layout, s: Slot, n: Node): Layout
    requires n in l.tags && s in l.lists
  {
    l.(lists := l.lists[s := l.lists[s] + [n]],
       tags := l.tags[n := l.tags[n].(place := In(s), pos := |l.lists[s]|)])
  }

  lemma AttachLaidOut(l: Layout, frees: seq<Node>, chain: seq<Node>, w: nat, s: Slot)
    requires LaidOut(l, frees, chain, w) && IsSlot(s) && w < |chain|
    ensures LaidOut(Attach(l, s, chain[w]), frees, chain, w + 1)
  {
    hide Placed;
    assert Tagged(l, chain[w], Walking, w);
    forall n | n in l.tags
      ensures Placed(Attach(l, s, chain[w]), frees, chain, w + 1, n)
    {
      AttachPlaced(l, frees, chain, w, s, n);
    }
  }

  lemma AttachPlaced(l: Layout, frees: seq<Node>, chain: seq<Node>, w: nat, s: Slot, n: Node)
    requires w < |chain| && Tagged(l, chain[w], Walking, w) && IsSlot(s) && s in l.lists
    requires n in l.tags && Placed(l, frees, chain, w, n)
    ensures Placed(Attach(l, s, chain[w]), frees, chain, w + 1, n)
  {
  }

  lemma AttachHeads(l: Layout, frees: seq<Node>, chain: seq<Node>, w: nat, s: Slot, h: Head)
    requires LaidOut(l, frees, chain, w) && IsSlot(s) && w < |chain| && Fits(h, l.lists[s])
    ensures chain[w] in l.tags && l.tags[chain[w]].place == Walking && s in l.lists
    ensures h.last != null ==> h.last in l.tags
  {
    assert Tagged(l, chain[w], Walking, w);
    assert l.lists[s] != [] ==> Tagged(l, l.lists[s][|l.lists[s]| - 1], In(s), |l.lists[s]| - 1);
  }

  lemma AttachWired(l: Layout, m: Memory, frees: seq<Node>, chain: seq<Node>, w: nat, s: Slot, h: Head,
                    issued: seq<Naive.Entry>)
    requires LaidOut(l, frees, chain, w) && Wired(l, m, chain) && Stored(l, m, issued)
    requires IsSlot(s) && w < |chain| && Fits(h, l.lists[s])
    ensures chain[w] in l.tags && s in l.lists
    ensures h.last != null ==> h.last in l.tags
    ensures Wired(Attach(l, s, chain[w]), Append(m, h, chain[w]), chain)
    ensures Stored(Attach(l, s, chain[w]), Append(m, h, chain[w]), issued)
  {
    hide Stored, LaidOut, NextHolds;
    AttachHeads(l, frees, chain, w, s, h);
    var l', m' := Attach(l, s, chain[w]), Append(m, h, chain[w]);
    forall x | x in m'.next
      ensures NextHolds(l', chain, l'.tags[x], m'.next[x])
    {
      AttachNext(l, m, frees, chain, w, s, h, x);
    }
    AttachStored(l, m, s, chain[w], h, issued);
  }

  lemma AttachStored(l: Layout, m: Memory, s: Slot, n: Node, h: Head, issued: seq<Naive.Entry>)
    requires Stored(l, m, issued) && n in l.tags && l.tags[n].place != Unused && s in l.lists
    ensures Stored(Attach(l, s, n), Append(m, h, n), issued)
  {
  }

  lemma AttachNext(l: Layout, m: Memory, frees: seq<Node>, chain: seq<Node>, w: nat, s: Slot, h: Head, x: Node)
    requires LaidOut(l, frees, chain, w) && IsSlot(s) && w < |chain| && chain[w] in l.tags && x in l.tags && x in m.next
    requires Fits(h, l.lists[s]) && NextHolds(l, chain, l.tags[x], m.next[x])
    ensures
      var l', m' := Attach(l, s, chain[w]), Append(m, h, chain[w]);
      NextHolds(l', chain, l'.tags[x], m'.next[x])
  {
  }

  /** Takes the whole list of `s` out of the wheel, as a chain to walk. */
  ghost function Detach(l: Layout, s: Slot): Layout
    requires s in l.lists
  {
    l.(lists := l.lists[s := []],
       tags := map n | n in l.tags ::
         var t := l.tags[n];
         if t.place == In(s) then t.(place := Walking, hops := t.hops + if s.Level? then 1 else 0) else t)
  }

  lemma DetachShape(l: Layout, s: Slot)
    requires s in l.lists
    ensures Detach(l, s).lists == l.lists[s := []] && Detach(l, s).tags.Keys == l.tags.Keys
  {
  }

  lemma DetachTags(l: Layout, s: Slot)
    requires s in l.lists
    ensures Detach(l, s).tags.Keys == l.tags.Keys
    ensures forall n :: n in l.tags ==>
      Detach(l, s).tags[n] == (if l.tags[n].place == In(s) then Detach(l, s).tags[n].(place := Walking) else l.tags[n])
  {
  }

  lemma DetachLaidOut(l: Layout, frees: seq<Node>, s: Slot)
    requires LaidOut(l, frees, [], 0) && IsSlot(s)
    ensures LaidOut(Detach(l, s), frees, l.lists[s], 0)
  {
    hide Placed;
    forall n | n in l.tags
      ensures Placed(Detach(l, s), frees, l.lists[s], 0, n)
    {
      DetachPlaced(l, frees, s, n);
    }
  }

  lemma DetachPlaced(l: Layout, frees: seq<Node>, s: Slot, n: Node)
    requires s in l.lists && n in l.tags && Placed(l, frees, [], 0, n)
    ensures Placed(Detach(l, s), frees, l.lists[s], 0, n)
  {
  }

  /** Puts an answered timer's node on the free list. */
  ghost function Release(l: Layout, frees: seq<Node>, n: Node): Layout
    requires n in l.tags
  {
    l.(tags := l.tags[n := l.tags[n].(place := Unused, pos := |frees|)], at := l.at - {l.tags[n].ticket})
  }

  lemma ReleaseNodes(l: Layout, frees: seq<Node>, n: Node)
    requires n in l.tags
    ensures Release(l, frees, n).tags.Keys == l.tags.Keys
  {
  }

  lemma ReleaseLaidOut(l: Layout, frees: seq<Node>, chain: seq<Node>, w: nat)
    requires LaidOut(l, frees, chain, w) && w < |chain|
    ensures LaidOut(Release(l, frees, chain[w]), frees + [chain[w]], chain, w + 1)
  {
    hide Placed;
    assert Tagged(l, chain[w], Walking, w);
    forall n | n in l.tags
      ensures Placed(Release(l, frees, chain[w]), frees + [chain[w]], chain, w + 1, n)
    {
      ReleasePlaced(l, frees, chain, w, n);
    }
  }

  lemma ReleasePlaced(l: Layout, frees: seq<Node>, chain: seq<Node>, w: nat, n: Node)
    requires w < |chain| && Tagged(l, chain[w], Walking, w)
    requires n in l.tags && Placed(l, frees, chain, w, n)
    ensures Placed(Release(l, frees, chain[w]), frees + [chain[w]], chain, w + 1, n)
  {
  }

  /** Gives a node that is new or was free to a new timer; it is then the only node of a chain. */
  ghost function Acquire(l: Layout, n: Node, ticket: nat): Layout {
    l.(tags := l.tags[n := Tag(Walking, 0, ticket, 0)], at := l.at[ticket := n])
  }

  lemma AcquireLaidOut(l: Layout, frees: seq<Node>, n: Node, ticket: nat)
    requires LaidOut(l, frees, [], 0) && ticket !in l.at
    requires n in l.tags ==> frees != [] && n == frees[|frees| - 1]
    ensures LaidOut(Acquire(l, n, ticket), if n in l.tags then frees[..|frees| - 1] else frees, [n], 0)
  {
    if n in l.tags {
      assert frees == frees[..|frees| - 1] + [n];
      AcquireFree(l, frees[..|frees| - 1], n, ticket);
    } else {
      AcquireFree(l, frees, n, ticket);
    }
  }

  lemma AcquireFree(l: Layout, frees: seq<Node>, n: Node, ticket: nat)
    requires LaidOut(l, if n in l.tags then frees + [n] else frees, [], 0) && ticket !in l.at
    ensures LaidOut(Acquire(l, n, ticket), frees, [n], 0)
  {
    hide Placed;
    var l', frees' := Acquire(l, n, ticket), if n in l.tags then frees + [n] else frees;
    assert n in l.tags ==> frees'[|frees|] == n && Tagged(l, n, Unused, |frees|);
    assert forall i :: 0 <= i < |frees| ==> frees'[i] == frees[i];
    forall x | x in l'.tags
      ensures Placed(l', frees, [n], 0, x)
    {
      AcquirePlaced(l, frees, n, ticket, x);
    }
  }

  lemma AcquirePlaced(l: Layout, frees: seq<Node>, n: Node, ticket: nat, x: Node)
    requires n in l.tags ==> Tagged(l, n, Unused, |frees|)
    requires x in l.tags ==> Placed(l, if n in l.tags then frees + [n] else frees, [], 0, x)
    requires x == n || x in l.tags
    ensures Placed(Acquire(l, n, ticket), frees, [n], 0, x)
  {
  }

  // ----- the timer service -----

  /** The response log: which timer each response answered, when, and where it went. */
  ghost predicate LogExact(fired: map<nat, Naive.Sent>, log: seq<(nat, Naive.Sent)>, logAt: map<nat, nat>) {
    && (forall k :: k in fired <==> k in logAt)
    && (forall k :: k in logAt ==> logAt[k] < |log| && log[logAt[k]] == (k, fired[k]))
    && (forall j :: 0 <= j < |log| ==> log[j].0 in logAt && logAt[log[j].0] == j)
  }

  /** The pending timers are those issued and not yet answered. */
  ghost predicate Pending(at: map<nat, Node>, issued: seq<Naive.Entry>, fired: map<nat, Naive.Sent>) {
    && (forall k :: k in at <==> 0 <= k < |issued| && k !in fired)
    && (forall k :: k in fired ==> k < |issued|)
    && (forall k :: 0 <= k < |issued| ==> issued[k].expire < WORD)
  }

  /** The slot invariant and the cascade bound for one node of the wheel. */
  ghost predicate Timely(l: Layout, issued: seq<Naive.Entry>, time: nat, n: Node)
    requires n in l.tags
  {
    var t := l.tags[n];
    t.place.In? ==>
      && t.ticket < |issued|
      && SlotOk(time, issued[t.ticket].expire, t.place.slot)
      && t.hops + Rank(t.place.slot) <= LEVEL_COUNT
  }

  /** Everything about a timer service but its clock and its list heads. */
  datatype Snapshot = Snapshot(layout: Layout, mem: Memory, frees: seq<Node>, issued: seq<Naive.Entry>,
                               fired: map<nat, Naive.Sent>, log: seq<(nat, Naive.Sent)>, logAt: map<nat, nat>)

  ghost predicate Sound(s: Snapshot, chain: seq<Node>, w: nat) {
    && LaidOut(s.layout, s.frees, chain, w)
    && Wired(s.layout, s.mem, chain)
    && Stored(s.layout, s.mem, s.issued)
    && Pending(s.layout.at, s.issued, s.fired)
    && LogExact(s.fired, s.log, s.logAt)
  }

  /** The chain that is being walked ends in null. */
  ghost predicate Ends(m: Memory, chain: seq<Node>) {
    chain != [] ==> chain[|chain| - 1] in m.next && m.next[chain[|chain| - 1]] == null
  }

  lemma AttachEnds(s: Snapshot, chain: seq<Node>, w: nat, slot: Slot, h: Head)
    requires w < |chain| && LaidOut(s.layout, s.frees, chain, w) && IsSlot(slot) && Fits(h, s.layout.lists[slot])
    ensures w + 1 < |chain| && Ends(s.mem, chain) ==> Ends(Append(s.mem, h, chain[w]), chain)
  {
    assert w < |chain| ==> Tagged(s.layout, chain[|chain| - 1], Walking, |chain| - 1);
    var elems := s.layout.lists[slot];
    assert elems != [] ==> Tagged(s.layout, elems[|elems| - 1], In(slot), |elems| - 1);
  }

  lemma AttachSound(s: Snapshot, chain: seq<Node>, w: nat, slot: Slot, h: Head)
    requires Sound(s, chain, w) && IsSlot(slot) && w < |chain| && slot in s.layout.lists
    requires Fits(h, s.layout.lists[slot])
    ensures chain[w] in s.layout.tags && (h.last != null ==> h.last in s.layout.tags)
    ensures Sound(s.(layout := Attach(s.layout, slot, chain[w]), mem := Append(s.mem, h, chain[w])), chain, w + 1)
    ensures w + 1 < |chain| && Ends(s.mem, chain) ==> Ends(Append(s.mem, h, chain[w]), chain)
  {
    hide LaidOut, Wired, Stored;
    AttachEnds(s, chain, w, slot, h);
    AttachLaidOut(s.layout, s.frees, chain, w, slot);
    AttachWired(s.layout, s.mem, s.frees, chain, w, slot, h, s.issued);
  }

  /** Following `next` from a node of the chain. */
  lemma NextInChain(s: Snapshot, chain: seq<Node>, w: nat)
    requires Sound(s, chain, w) && w < |chain|
    ensures chain[w] in s.layout.tags && chain[w] in s.mem.next && chain[w] in s.mem.data
    ensures w + 1 < |chain| ==> s.mem.next[chain[w]] == chain[w + 1]
    ensures
      var t := s.layout.tags[chain[w]];
      t.place == Walking && t.ticket < |s.issued| && s.mem.data[chain[w]] == s.issued[t.ticket] && t.ticket !in s.fired
    ensures s.mem.data[chain[w]].expire < WORD
  {
    assert Tagged(s.layout, chain[w], Walking, w);
    assert NextHolds(s.layout, chain, s.layout.tags[chain[w]], s.mem.next[chain[w]]);
  }

  lemma FollowChain(s: Snapshot, chain: seq<Node>, w: nat)
    requires Sound(s, chain, w) && w < |chain| && Ends(s.mem, chain)
    ensures chain[w] in s.mem.next
    ensures s.mem.next[chain[w]] == if w + 1 < |chain| then chain[w + 1] else null
    ensures forall i, j :: w <= i < j < |chain| ==> chain[i] != chain[j]
  {
    NextInChain(s, chain, w);
    ChainApart(s.layout, s.frees, chain, w);
  }

  lemma ChainApart(l: Layout, frees: seq<Node>, chain: seq<Node>, w: nat)
    requires LaidOut(l, frees, chain, w)
    ensures forall i, j :: w <= i < j < |chain| ==> chain[i] != chain[j]
  {
    assert forall i :: w <= i < |chain| ==> Tagged(l, chain[i], Walking, i);
  }

  lemma InSlots(s: Snapshot)
    requires Sound(s, [], 0)
    ensures forall n :: n in s.layout.tags && s.layout.tags[n].place.In? ==> IsSlot(s.layout.tags[n].place.slot)
  {
    forall n | n in s.layout.tags && s.layout.tags[n].place.In?
      ensures IsSlot(s.layout.tags[n].place.slot)
    {
      assert Placed(s.layout, s.frees, [], 0, n);
    }
  }

  lemma ElementsTagged(s: Snapshot, slot: Slot)
    requires Sound(s, [], 0) && IsSlot(slot)
    ensures slot in s.layout.lists
    ensures forall i :: 0 <= i < |s.layout.lists[slot]| ==> Tagged(s.layout, s.layout.lists[slot][i], In(slot), i)
  {
  }

  /** A chain that was walked to its end is gone. */
  lemma ChainDone(s: Snapshot, chain: seq<Node>)
    requires Sound(s, chain, |chain|)
    ensures Sound(s, [], 0)
  {
    forall n | n in s.layout.tags
      ensures Placed(s.layout, s.frees, [], 0, n) && s.layout.tags[n].place != Walking
    {
      assert Placed(s.layout, s.frees, chain, |chain|, n);
    }
  }

  lemma DetachSound(s: Snapshot, slot: Slot, h: Head)
    requires Sound(s, [], 0) && IsSlot(slot) && slot in s.layout.lists && Fits(h, s.layout.lists[slot])
    ensures h.last != null ==> h.last in s.layout.tags
    ensures
      var m := Terminate(s.mem, h);
      && Sound(s.(layout := Detach(s.layout, slot), mem := m), s.layout.lists[slot], 0)
      && Ends(m, s.layout.lists[slot])
  {
    var chain := s.layout.lists[slot];
    assert chain != [] ==> Tagged(s.layout, chain[|chain| - 1], In(slot), |chain| - 1);
    DetachLaidOut(s.layout, s.frees, slot);
    DetachWired(s, slot, h);
  }

  lemma DetachWired(s: Snapshot, slot: Slot, h: Head)
    requires Sound(s, [], 0) && IsSlot(slot) && slot in s.layout.lists && Fits(h, s.layout.lists[slot])
    requires h.last != null ==> Tagged(s.layout, h.last, In(slot), |s.layout.lists[slot]| - 1)
    ensures Wired(Detach(s.layout, slot), Terminate(s.mem, h), s.layout.lists[slot])
  {
    hide NextHolds, Stored, LogExact, Detach;
    DetachShape(s.layout, slot);
    var l', m', chain := Detach(s.layout, slot), Terminate(s.mem, h), s.layout.lists[slot];
    forall n | n in m'.next
      ensures NextHolds(l', chain, l'.tags[n], m'.next[n])
    {
      DetachNext(s.layout, s.mem, s.frees, slot, h, n);
    }
  }

  lemma DetachNext(l: Layout, m: Memory, frees: seq<Node>, s: Slot, h: Head, n: Node)
    requires IsSlot(s) && s in l.lists && n in l.tags && n in m.next
    requires Placed(l, frees, [], 0, n) && NextHolds(l, [], l.tags[n], m.next[n])
    requires Fits(h, l.lists[s]) && (h.last != null ==> Tagged(l, h.last, In(s), |l.lists[s]| - 1))
    ensures
      var l', m' := Detach(l, s), Terminate(m, h);
      NextHolds(l', l.lists[s], l'.tags[n], m'.next[n])
  {
  }

  /** The node that the free list begins with, whose link is what a freed node is linked to. */
  ghost function Latest(frees: seq<Node>): Node? {
    if frees == [] then null else frees[|frees| - 1]
  }

  /** `_send_list` on one node: the response goes out and the node goes to the free list, which takes over its link. */
  ghost function Fire(s: Snapshot, n: Node, time: nat): Snapshot
    requires n in s.layout.tags && n in s.mem.data
  {
    var k, sent := s.layout.tags[n].ticket, Naive.Sent(time, s.mem.data[n].source, s.mem.data[n].session);
    s.(layout := Release(s.layout, s.frees, n), frees := s.frees + [n],
       mem := s.mem.(next := s.mem.next[n := Latest(s.frees)]),
       fired := s.fired[k := sent], log := s.log + [(k, sent)], logAt := s.logAt[k := |s.log|])
  }

  lemma FireSound(s: Snapshot, chain: seq<Node>, w: nat, time: nat)
    requires Sound(s, chain, w) && w < |chain|
    ensures chain[w] in s.layout.tags && chain[w] in s.mem.data
    ensures Sound(Fire(s, chain[w], time), chain, w + 1)
  {
    NextInChain(s, chain, w);
    ReleaseLaidOut(s.layout, s.frees, chain, w);
    FireLog(s, chain, w, time);
    FireWired(s, chain, w, time);
  }

  lemma FireWired(s: Snapshot, chain: seq<Node>, w: nat, time: nat)
    requires w < |chain| && Wired(s.layout, s.mem, chain) && Stored(s.layout, s.mem, s.issued)
    requires chain[w] in s.layout.tags
    ensures var m := s.mem.(next := s.mem.next[chain[w] := Latest(s.frees)]);
      && Wired(Release(s.layout, s.frees, chain[w]), m, chain)
      && Stored(Release(s.layout, s.frees, chain[w]), m, s.issued)
  {
  }

  /** Freeing a node does not move the end of the chain, unless it is the end. */
  lemma FireEnds(s: Snapshot, chain: seq<Node>, w: nat, time: nat)
    requires Sound(s, chain, w) && w < |chain| && Ends(s.mem, chain) && chain[w] in s.layout.tags
    requires chain[w] in s.mem.data
    ensures w + 1 < |chain| ==> Ends(Fire(s, chain[w], time).mem, chain)
  {
    hide Wired, Stored, Pending, LogExact;
    if w + 1 < |chain| {
      assert Tagged(s.layout, chain[w], Walking, w) && Tagged(s.layout, chain[|chain| - 1], Walking, |chain| - 1);
    }
  }

  lemma FireLog(s: Snapshot, chain: seq<Node>, w: nat, time: nat)
    requires w < |chain| && chain[w] in s.layout.tags && chain[w] in s.mem.data
    requires Pending(s.layout.at, s.issued, s.fired) && LogExact(s.fired, s.log, s.logAt)
    requires var k := s.layout.tags[chain[w]].ticket; k < |s.issued| && k !in s.fired
    ensures
      var s' := Fire(s, chain[w], time);
      Pending(s'.layout.at, s'.issued, s'.fired) && LogExact(s'.fired, s'.log, s'.logAt)
  {
  }

  /** The responses for the timers of the chain that is being walked. */
  ghost function Answers(s: Snapshot, time: nat): map<nat, Naive.Sent> {
    map k | k in s.layout.at && OnChain(s, k) :: Naive.Sent(time, s.issued[k].source, s.issued[k].session)
  }

  ghost predicate OnChain(s: Snapshot, k: nat)
    requires k in s.layout.at
  {
    k < |s.issued| && s.layout.at[k] in s.layout.tags && s.layout.tags[s.layout.at[k]].place == Walking
  }

  /** From `s0`, with the whole chain still to walk, `_send_list` has come to `s`, at node `w` of the chain. */
  ghost predicate Firing(s0: Snapshot, s: Snapshot, w: nat, time: nat) {
    && s.issued == s0.issued && s.mem.data == s0.mem.data && s.layout.lists == s0.layout.lists
    && FreedUpTo(s0.layout.tags, s.layout.tags, w)
    && FiredUpTo(s0, s.fired, w, time)
  }

  ghost predicate FreedUpTo(tags0: map<Node, Tag>, tags: map<Node, Tag>, w: nat) {
    && tags.Keys == tags0.Keys
    && (forall n :: n in tags ==>
          if tags0[n].place == Walking && tags0[n].pos < w then tags[n].place == Unused else tags[n] == tags0[n])
  }

  ghost predicate FiredUpTo(s0: Snapshot, fired: map<nat, Naive.Sent>, w: nat, time: nat) {
    && (forall k :: k in fired <==>
          k in s0.fired || (k in Answers(s0, time) && s0.layout.tags[s0.layout.at[k]].pos < w))
    && (forall k :: k in fired ==> fired[k] == (if k in s0.fired then s0.fired[k] else Answers(s0, time)[k]))
  }

  /** The timers answered by walking the whole chain are those its nodes carry, one each. */
  ghost predicate Carries(s: Snapshot, chain: seq<Node>, time: nat) {
    && (forall k :: k in Answers(s, time) ==>
          var t := s.layout.tags[s.layout.at[k]];
          t.ticket == k && t.pos < |chain| && chain[t.pos] == s.layout.at[k] && k !in s.fired)
    && (forall n :: n in s.layout.tags && s.layout.tags[n].place == Walking ==>
          s.layout.tags[n].pos < |chain| && chain[s.layout.tags[n].pos] == n)
    && (forall i :: 0 <= i < |chain| ==> Tagged(s.layout, chain[i], Walking, i))
    && (forall i :: 0 <= i < |chain| ==>
          var k := s.layout.tags[chain[i]].ticket;
          k in Answers(s, time) && s.layout.at[k] == chain[i])
  }

  lemma ChainCarries(s: Snapshot, chain: seq<Node>, time: nat)
    requires Sound(s, chain, 0)
    ensures Carries(s, chain, time)
  {
    hide Wired, LogExact;
    forall i | 0 <= i < |chain|
      ensures Tagged(s.layout, chain[i], Walking, i)
      ensures var k := s.layout.tags[chain[i]].ticket; k in Answers(s, time) && s.layout.at[k] == chain[i]
    {
      assert Tagged(s.layout, chain[i], Walking, i);
    }
    forall n | n in s.layout.tags && s.layout.tags[n].place == Walking
      ensures s.layout.tags[n].pos < |chain| && chain[s.layout.tags[n].pos] == n
    {
      assert Placed(s.layout, s.frees, chain, 0, n);
    }
    forall k | k in Answers(s, time)
      ensures
        var t := s.layout.tags[s.layout.at[k]];
        t.ticket == k && t.pos < |chain| && chain[t.pos] == s.layout.at[k] && k !in s.fired
    {
      assert Placed(s.layout, s.frees, chain, 0, s.layout.at[k]);
    }
  }

  lemma FiringStart(s: Snapshot, time: nat)
    ensures Firing(s, s, 0, time)
  {
  }

  lemma FiringStep(s0: Snapshot, s: Snapshot, chain: seq<Node>, w: nat, time: nat)
    requires Carries(s0, chain, time) && w < |chain| && Firing(s0, s, w, time)
    requires chain[w] in s.layout.tags && chain[w] in s.mem.data
    requires s.layout.tags[chain[w]].ticket < |s.issued|
    requires s.mem.data[chain[w]] == s.issued[s.layout.tags[chain[w]].ticket]
    ensures Firing(s0, Fire(s, chain[w], time), w + 1, time)
  {
    hide Answers, FiredUpTo;
    assert Tagged(s0.layout, chain[w], Walking, w);
    FiredStep(s0, s.fired, chain, w, time);
  }

  lemma FiredStep(s0: Snapshot, fired: map<nat, Naive.Sent>, chain: seq<Node>, w: nat, time: nat)
    requires Carries(s0, chain, time) && w < |chain| && FiredUpTo(s0, fired, w, time)
    ensures Tagged(s0.layout, chain[w], Walking, w)
    ensures
      var k := s0.layout.tags[chain[w]].ticket;
      && k < |s0.issued|
      && FiredUpTo(s0, fired[k := Naive.Sent(time, s0.issued[k].source, s0.issued[k].session)], w + 1, time)
  {
    var k := s0.layout.tags[chain[w]].ticket;
    assert k in Answers(s0, time) && s0.layout.at[k] == chain[w];
  }

  lemma FiringDone(s0: Snapshot, s: Snapshot, chain: seq<Node>, time: nat)
    requires Carries(s0, chain, time) && Firing(s0, s, |chain|, time)
    ensures s.fired == s0.fired + Answers(s0, time)
  {
  }

  /** `_timeout` up to `_queue`: node `n`, new or from the free list, stores the new timer. */
  ghost function Admit(s: Snapshot, n: Node, next: Node?, e: Naive.Entry): Snapshot
    requires n in s.layout.tags ==> s.frees != []
  {
    s.(layout := Acquire(s.layout, n, |s.issued|),
       mem := Memory(s.mem.next[n := next], s.mem.data[n := e]),
       frees := if n in s.layout.tags then s.frees[..|s.frees| - 1] else s.frees,
       issued := s.issued + [e])
  }

  lemma AdmitSound(s: Snapshot, n: Node, next: Node?, e: Naive.Entry)
    requires Sound(s, [], 0) && e.expire < WORD
    requires n in s.layout.tags ==> s.frees != [] && n == s.frees[|s.frees| - 1]
    ensures Sound(Admit(s, n, next, e), [n], 0)
  {
    hide LaidOut, Wired, Stored;
    AcquireLaidOut(s.layout, s.frees, n, |s.issued|);
    AdmitWired(s, n, next, e);
  }

  lemma AdmitWired(s: Snapshot, n: Node, next: Node?, e: Naive.Entry)
    requires Wired(s.layout, s.mem, []) && Stored(s.layout, s.mem, s.issued)
    requires n in s.layout.tags ==> s.frees != []
    ensures Wired(Acquire(s.layout, n, |s.issued|), Admit(s, n, next, e).mem, [n])
    ensures Stored(Acquire(s.layout, n, |s.issued|), Admit(s, n, next, e).mem, s.issued + [e])
  {
    var l', m' := Acquire(s.layout, n, |s.issued|), Admit(s, n, next, e).mem;
    forall x | x in m'.next
      ensures NextHolds(l', [n], l'.tags[x], m'.next[x])
    {
      assert x != n ==> NextHolds(s.layout, [], s.layout.tags[x], s.mem.next[x]);
    }
  }

  ghost const EMPTY := Layout(imap s: Slot | IsSlot(s) :: [], map[], map[])

  lemma EmptySound(s: Snapshot)
    requires s.layout == EMPTY && s.frees == [] && s.issued == [] && s.fired == map[] && s.log == [] && s.logAt == map[]
    requires s.mem.next == map[] && s.mem.data == map[]
    ensures Sound(s, [], 0)
  {
  }
}
