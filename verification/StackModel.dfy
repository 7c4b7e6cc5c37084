/**
 The pool of coroutine stacks as functions on values: stacks of up to 31 pages are kept for reuse in one list per
 size, linked through their own memory, and every stack lies between two guard pages. Addresses and sizes are 64-bit
 words.
 */
module StackModel {

  import opened Bits

  const POOLS := 32

  // ----- the size of a stack -----

  /** A page of 2^p bytes; eight of them fit a word, and a link fits one. */
  predicate IsPageShift(p: nat) {
    3 <= p <= 60
  }

  /** `(addstack + stackmask) & ~stackmask`, with the addition on words. */
  function RoundUp(addstack: nat, p: nat): nat {
    var page: nat := Pow2(p);
    if addstack == 0 || page > WORD then 0 else BitAnd((addstack + page - 1) % WORD, WORD - page)
  }

  function StackSize(addstack: nat, p: nat): nat {
    (8 * Pow2(p) + RoundUp(addstack, p)) % WORD
  }

  /** `pages` is the least number of pages that hold `n` bytes. */
  predicate LeastPages(pages: nat, n: nat, page: nat) {
    n <= pages * page < n + page
  }

  lemma MulAdd(a: nat, b: nat, page: nat)
    ensures (a + b) * page == a * page + b * page
  {
  }

  lemma MulPositive(a: nat, page: nat)
    requires a > 0
    ensures a * page >= page
  {
  }

  lemma MulOrder(a: nat, b: nat, page: nat)
    ensures a < b ==> a * page + page <= b * page
  {
    if a < b {
      MulAdd(a, b - a, page);
      MulPositive(b - a, page);
    }
  }

  lemma {:induction false} PowSum(m: nat, n: nat)
    ensures Pow2(m) * Pow2(n) == Pow2(m + n)
  {
    if m == 0 {
    } else {
      PowSum(m - 1, n);
      MulDouble(Pow2(n), Pow2(m - 1), Pow2(m));
    }
  }

  lemma SmallPows()
    ensures Pow2(3) == 8 && Pow2(4) == 0x10 && Pow2(8) == 0x100 && Pow2(12) == 0x1000
  {
    PowSum(4, 4);
    PowSum(8, 4);
  }

  lemma Pow64()
    ensures Pow2(64) == WORD && Pow2(60) * 16 == WORD && Pow2(3) == 8
  {
    hide Pow2;
    SmallPows();
    PowSum(8, 8);
    assert Pow2(16) == 0x1_0000;
    PowSum(16, 16);
    assert Pow2(32) == 0x1_0000_0000;
    PowSum(32, 32);
    PowSum(60, 4);
  }

  /** A word is a whole number of pages, and more than eight. */
  lemma PagesOfWord(p: nat, page: nat)
    requires IsPageShift(p) && page == Pow2(p)
    ensures 8 <= page && 8 * page < WORD && Pow2(64 - p) * page == WORD
  {
    Pow64();
    Pow2Monotone(3, p);
    Pow2Monotone(p, 60);
    PowSum(64 - p, p);
  }

  /** Two multiples of a page within the same page are equal. */
  lemma SamePages(a: nat, b: nat, n: nat, page: nat)
    requires LeastPages(a, n, page) && LeastPages(b, n, page)
    ensures a == b
  {
    MulOrder(a, b, page);
    MulOrder(b, a, page);
  }

  /** The masked addition clears the low bits of a sum, and all of it when the sum leaves the word. */
  lemma RoundUpMasks(addstack: nat, p: nat, page: nat)
    requires IsPageShift(p) && page == Pow2(p) && 0 < addstack < WORD
    ensures var s := addstack + page - 1;
      RoundUp(addstack, p) == if s < WORD then s - Low(s, p) else 0
  {
    hide BitAnd, Low, Pow2;
    PagesOfWord(p, page);
    Pow64();
    var s := addstack + page - 1;
    AndHighMask(s % WORD, p, 64);
    if s >= WORD {
      LowOfSmall(s - WORD, p);
    }
  }

  /** It rounds up to whole pages, unless these do not fit a word. */
  lemma RoundUpPages(addstack: nat, p: nat, page: nat, pages: nat)
    requires IsPageShift(p) && page == Pow2(p) && addstack < WORD && LeastPages(pages, addstack, page)
    ensures RoundUp(addstack, p) == if pages * page < WORD then pages * page else 0
    ensures pages * page <= WORD
  {
    hide RoundUp, BitAnd, Low, Shr;
    PagesOfWord(p, page);
    var words := Pow2(64 - p);
    MulOrder(words, pages, page);
    var s := addstack + page - 1;
    if addstack == 0 {
      SamePages(pages, 0, addstack, page);
      RoundUpZero(p);
    } else {
      RoundUpMasks(addstack, p, page);
      ShrLow(s, p, page);
      LowBound(s, p);
      SamePages(pages, Shr(s, p), addstack, page);
      MulOrder(pages, words, page);
    }
  }

  lemma RoundUpZero(p: nat)
    ensures RoundUp(0, p) == 0
  {
  }

  /** The size is the sum of the pages, less a whole address space if that does not fit a word. */
  lemma StackSizeModulo(addstack: nat, p: nat, page: nat, pages: nat)
    requires IsPageShift(p) && page == Pow2(p) && addstack < WORD && LeastPages(pages, addstack, page)
    ensures var bytes := (8 + pages) * page;
      StackSize(addstack, p) ==
        if bytes < WORD then bytes else if pages * page < WORD then bytes - WORD else 8 * page
    ensures (8 + pages) * page == 8 * page + pages * page && pages * page <= WORD && 8 * page < WORD
  {
    hide BitAnd, Pow2, RoundUp;
    PagesOfWord(p, page);
    RoundUpPages(addstack, p, page, pages);
    MulAdd(8, pages, page);
  }

  /**
   A stack has the least number of pages that holds `addstack`, and eight more, exactly if that many bytes fit
   a word; it is empty exactly if they are one more than fit.
   */
  lemma StackSizeLeast(addstack: nat, p: nat, page: nat, pages: nat)
    requires IsPageShift(p) && page == Pow2(p) && addstack < WORD && LeastPages(pages, addstack, page)
    ensures StackSize(addstack, p) == (8 + pages) * page <==> (8 + pages) * page < WORD
    ensures StackSize(addstack, p) == 0 <==> (8 + pages) * page == WORD
    ensures exists n: nat :: StackSize(addstack, p) == n * page
  {
    hide StackSize, Pow2;
    StackSizeModulo(addstack, p, page, pages);
    PagesOfWord(p, page);
    var words := Pow2(64 - p);
    MulOrder(8 + pages, words, page);
    if pages * page == WORD {
      assert StackSize(addstack, p) == 8 * page;
    } else if (8 + pages) * page >= WORD {
      MulAdd(words, 8 + pages - words, page);
      assert StackSize(addstack, p) == (8 + pages - words) * page;
    }
  }

  /** The length that `mmap` and `munmap` are called with: the stack and its guard pages, as a word. */
  function MapLength(size: nat, page: nat): nat {
    (size + 2 * page) % WORD
  }

  /**
   A stack gets what it should, the least number of pages that holds `addstack`, eight more, and mapped memory for
   these and two guard pages, exactly if all of that fits a word.
   */
  lemma StackFits(addstack: nat, p: nat, page: nat, pages: nat)
    requires IsPageShift(p) && page == Pow2(p) && addstack < WORD && LeastPages(pages, addstack, page)
    ensures var size := StackSize(addstack, p);
      size == (8 + pages) * page && MapLength(size, page) == size + 2 * page <==> (10 + pages) * page < WORD
  {
    hide StackSize, Pow2;
    StackSizeLeast(addstack, p, page, pages);
    PagesOfWord(p, page);
    MulAdd(8 + pages, 2, page);
  }

  /**
   With pages of 4096 bytes, a request for all but nine pages of the address space gets a stack of all but one page,
   in one page of memory.
   */
  lemma MapLengthWraps()
    ensures StackSize(WORD - 0x9000, 12) == WORD - 0x1000 && MapLength(WORD - 0x1000, 0x1000) == 0x1000
  {
    Pow64();
    SmallPows();
    PagesOfWord(12, 0x1000);
    var pages := Pow2(52) - 9;
    MulAdd(pages, 9, 0x1000);
    RoundUpPages(WORD - 0x9000, 12, 0x1000, pages);
  }

  /** With pages of 4096 bytes, a request for all but the last page of the address space gets a stack of eight pages. */
  lemma StackSizeWraps()
    ensures StackSize(WORD - 1, 12) == 0x8000 < WORD - 1
  {
    Pow64();
    SmallPows();
    PagesOfWord(12, 0x1000);
    MulOrder(Pow2(52), 0, 0x1000);
    RoundUpPages(WORD - 1, 12, 0x1000, Pow2(52));
  }

  // ----- the layout of memory -----

  function PagesOf(size: nat, page: nat): nat
    requires page > 0
  {
    size / page
  }

  /** A stack of whole pages. */
  predicate Whole(size: nat, page: nat)
    requires page > 0
  {
    size == PagesOf(size, page) * page
  }

  lemma WholePages(n: nat, page: nat)
    requires page > 0
    ensures PagesOf(n * page, page) == n && Whole(n * page, page)
  {
  }

  lemma {:induction false} LeastPagesOf(n: nat, page: nat) returns (pages: nat)
    requires page > 0
    ensures LeastPages(pages, n, page)
  {
    if n == 0 {
      pages := 0;
    } else if n <= page {
      pages := 1;
    } else {
      pages := LeastPagesOf(n - page, page);
      MulAdd(pages, 1, page);
      pages := pages + 1;
    }
  }

  lemma StackSizeWhole(addstack: nat, p: nat, page: nat)
    requires IsPageShift(p) && page == Pow2(p) && addstack < WORD
    ensures Whole(StackSize(addstack, p), page)
  {
    hide StackSize, Pow2, Whole, LeastPages;
    var pages := LeastPagesOf(addstack, page);
    StackSizeLeast(addstack, p, page, pages);
    var n: nat :| StackSize(addstack, p) == n * page;
    WholePages(n, page);
  }

  /** Two stacks and the guard pages around both do not overlap. */
  predicate Apart(a: nat, size: nat, b: nat, size': nat, page: nat) {
    a + size + 2 * page <= b || b + size' + 2 * page <= a
  }

  /** The list that starts at `head` is linked through the first word of each of its stacks. */
  ghost predicate Chain(q: seq<nat>, head: nat, memory: map<nat, nat>) {
    if q == [] then head == 0
    else head == q[0] && head != 0 && head in memory && Chain(q[1..], memory[head], memory)
  }

  lemma {:induction false} ChainFrame(q: seq<nat>, head: nat, memory: map<nat, nat>, addr: nat, word: nat)
    requires Chain(q, head, memory) && addr !in q
    ensures Chain(q, head, memory[addr := word])
  {
    if q == [] {
    } else {
      ChainFrame(q[1..], memory[head], memory, addr, word);
    }
  }

  /** All stacks that have memory are apart. */
  ghost predicate AllApart(stacks: map<nat, nat>, page: nat)
    requires page > 0
  {
    && (forall a, b :: a in stacks && b in stacks && a != b ==> Apart(a, stacks[a], b, stacks[b], page))
    && (forall a :: a in stacks ==> a >= page && Whole(stacks[a], page))
  }

  /** A pool holds stacks of its size that are not in use, each once. */
  ghost predicate PoolOk(q: seq<nat>, i: nat, stacks: map<nat, nat>, live: set<nat>, page: nat)
    requires page > 0
  {
    && (forall k :: 0 <= k < |q| ==>
          q[k] in stacks && q[k] !in live && stacks[q[k]] > 0 && PagesOf(stacks[q[k]], page) == i)
    && (forall j, k :: 0 <= j < k < |q| ==> q[j] != q[k])
  }

  ghost predicate Pooled(pools: seq<seq<nat>>, a: nat) {
    exists i :: 0 <= i < |pools| && a in pools[i]
  }

  lemma ChainHead(q: seq<nat>, head: nat, memory: map<nat, nat>)
    requires Chain(q, head, memory)
    ensures q == [] <==> head == 0
    ensures q != [] ==> head == q[0] && head in memory && Chain(q[1..], memory[head], memory)
  {
  }

  ghost predicate PoolsOk(pools: seq<seq<nat>>, stacks: map<nat, nat>, live: set<nat>, page: nat)
    requires page > 0
  {
    && |pools| == POOLS
    && (forall i :: 0 <= i < POOLS ==> PoolOk(pools[i], i, stacks, live, page))
    && (forall a :: a in stacks && a !in live ==> Pooled(pools, a))
  }

  /** Taking the first stack of a pool into use. */
  lemma TakeKeeps(pools: seq<seq<nat>>, stacks: map<nat, nat>, live: set<nat>, page: nat, i: nat)
    requires page > 0 && PoolsOk(pools, stacks, live, page) && i < POOLS && pools[i] != []
    ensures pools[i][0] in stacks && pools[i][0] !in live && PagesOf(stacks[pools[i][0]], page) == i
    ensures PoolsOk(pools[i := pools[i][1..]], stacks, live + {pools[i][0]}, page)
  {
    hide PagesOf;
    var a := pools[i][0];
    var pools' := pools[i := pools[i][1..]];
    assert PoolOk(pools[i], i, stacks, live, page);
    forall j | 0 <= j < POOLS
      ensures PoolOk(pools'[j], j, stacks, live + {a}, page)
    {
      assert PoolOk(pools[j], j, stacks, live, page);
    }
    forall b | b in stacks && b !in live + {a}
      ensures Pooled(pools', b)
    {
      var j :| 0 <= j < |pools| && b in pools[j];
      var k :| 0 <= k < |pools[j]| && pools[j][k] == b;
      assert j == i ==> pools'[i][k - 1] == b;
      assert b in pools'[j];
    }
  }

  /** Putting a stack in use at the front of its pool. */
  lemma PutKeeps(pools: seq<seq<nat>>, stacks: map<nat, nat>, live: set<nat>, page: nat, i: nat, a: nat)
    requires page > 0 && PoolsOk(pools, stacks, live, page) && i < POOLS
    requires a in stacks && a in live && stacks[a] > 0 && PagesOf(stacks[a], page) == i
    ensures PoolsOk(pools[i := [a] + pools[i]], stacks, live - {a}, page)
    ensures forall j :: 0 <= j < POOLS ==> a !in pools[j]
  {
    hide PagesOf;
    var pools' := pools[i := [a] + pools[i]];
    forall j | 0 <= j < POOLS
      ensures PoolOk(pools'[j], j, stacks, live - {a}, page) && a !in pools[j]
    {
      assert PoolOk(pools[j], j, stacks, live, page);
    }
    forall b | b in stacks && b !in live - {a}
      ensures Pooled(pools', b)
    {
      if b == a {
        assert b in pools'[i];
      } else {
        var j :| 0 <= j < |pools| && b in pools[j];
        assert b in pools'[j];
      }
    }
  }

  /** A new stack comes into use, or a stack in use is unmapped: the pools do not notice. */
  lemma StacksKeep(pools: seq<seq<nat>>, stacks: map<nat, nat>, live: set<nat>, page: nat, a: nat, size: nat)
    requires page > 0 && PoolsOk(pools, stacks, live, page)
    ensures a !in stacks ==> PoolsOk(pools, stacks[a := size], live + {a}, page)
    ensures a in live ==> PoolsOk(pools, stacks - {a}, live - {a}, page)
  {
    hide PagesOf;
    if a !in stacks {
      forall i | 0 <= i < POOLS
        ensures PoolOk(pools[i], i, stacks[a := size], live + {a}, page)
      {
        assert PoolOk(pools[i], i, stacks, live, page);
      }
    }
    if a in live {
      forall i | 0 <= i < POOLS
        ensures PoolOk(pools[i], i, stacks - {a}, live - {a}, page)
      {
        assert PoolOk(pools[i], i, stacks, live, page);
      }
    }
  }

  // ----- the state -----

  /** `Unbacked`: a stack was given out that has not the memory it needs. `Failed`: a call failed or faulted. */
  datatype Health = Sound | Unbacked | Failed

  /**
   The first stack of each pool, and the words of the memory; what the kernel has mapped, by address and length; the
   stacks that have memory, with their sizes, and those in use; and the contents of the pools.
   */
  datatype State = State(first: seq<nat>, memory: map<nat, nat>, regions: map<nat, nat>, stacks: map<nat, nat>,
                         live: set<nat>, pools: seq<seq<nat>>, health: Health)

  function Init(): State {
    State(seq(POOLS, _ => 0), map[], map[], map[], {}, seq(POOLS, _ => []), Sound)
  }

  /**
   What `mmap` promises of the region it returns: it lies in the address space and overlaps nothing that is
   mapped.
   */
  predicate MayMap(s: State, low: nat, length: nat) {
    && 0 < low && 0 < length && low + length <= WORD
    && forall l :: l in s.regions ==> low + length <= l || l + s.regions[l] <= low
  }

  /** There is a stack to reuse. */
  predicate Reuses(s: State, size: nat, page: nat)
    requires page > 0
  {
    var i := PagesOf(size, page);
    i < POOLS && i < |s.first| && s.first[i] != 0
  }

  function Reuse(s: State, i: nat): State
    requires i < |s.first| && i < |s.pools|
  {
    var base := s.first[i];
    s.(first := s.first[i := if base in s.memory then s.memory[base] else 0], live := s.live + {base},
       pools := s.pools[i := if s.pools[i] == [] then [] else s.pools[i][1..]])
  }

  /** A region is mapped, and the stack put behind its first page. */
  function MapStack(s: State, low: nat, size: nat, page: nat): State {
    var length := MapLength(size, page);
    s.(regions := s.regions[low := length], stacks := s.stacks[low + page := size], live := s.live + {low + page},
       health := if length == size + 2 * page then Sound else Unbacked)
  }

  /** `mstack`; `low` is the address `mmap` returns if there is no stack to reuse. */
  function Mstack(s: State, addstack: nat, low: nat, p: nat): State
    requires |s.first| == |s.pools| == POOLS
  {
    var page, size: nat := Pow2(p), StackSize(addstack, p);
    if Reuses(s, size, page) then Reuse(s, PagesOf(size, page))
    else if MapLength(size, page) == 0 then s.(health := Failed)
    else MapStack(s, low, size, page)
  }

  /** `munstack`; the link of an empty stack would be written into the guard page above it, which faults. */
  function Munstack(s: State, base: nat, page: nat): State
    requires |s.first| == |s.pools| == POOLS && base in s.stacks && page > 0
  {
    var i := PagesOf(s.stacks[base], page);
    if s.stacks[base] == 0 then s.(health := Failed)
    else if i < POOLS then
      s.(memory := s.memory[base := s.first[i]], first := s.first[i := base], live := s.live - {base},
         pools := s.pools[i := [base] + s.pools[i]])
    else s.(regions := s.regions - {base - page}, stacks := s.stacks - {base}, live := s.live - {base})
  }

  datatype Op = Allocates(addstack: nat, low: nat) | Frees(base: nat) | Writes(base: nat, addr: nat, word: nat)

  predicate CanAllocate(s: State, size: nat, low: nat, page: nat)
    requires page > 0
  {
    Reuses(s, size, page) || MapLength(size, page) == 0 || MayMap(s, low, MapLength(size, page))
  }

  /** What can happen next, as long as nothing has gone wrong: callers free and write what they hold. */
  predicate Can(s: State, op: Op, p: nat) {
    && s.health == Sound
    && match op
       case Allocates(addstack, low) => addstack < WORD && CanAllocate(s, StackSize(addstack, p), low, Pow2(p))
       case Frees(base) => base in s.live && base in s.stacks
       case Writes(base, addr, _) => base in s.live && base in s.stacks && base <= addr < base + s.stacks[base]
  }

  function Step(s: State, op: Op, p: nat): State
    requires |s.first| == |s.pools| == POOLS
  {
    if !Can(s, op, p) then s
    else
      match op
      case Allocates(addstack, low) => Mstack(s, addstack, low, p)
      case Frees(base) => Munstack(s, base, Pow2(p))
      case Writes(_, addr, word) => s.(memory := s.memory[addr := word])
  }

  /** Any run: what cannot happen is skipped. */
  function Run(p: nat, ops: seq<Op>): (s: State)
    ensures |s.first| == |s.pools| == POOLS
  {
    if ops == [] then Init() else Step(Run(p, ops[..|ops| - 1]), ops[|ops| - 1], p)
  }

  // ----- what every run keeps -----

  /** The stack and its guard pages are what the kernel has mapped. */
  predicate Backed(s: State, base: nat, page: nat) {
    && base in s.stacks && base > page && base - page in s.regions
    && s.regions[base - page] == s.stacks[base] + 2 * page && base + s.stacks[base] + page <= WORD
  }

  /** All that is mapped is for a stack. */
  ghost predicate NoneLeaked(regions: map<nat, nat>, stacks: map<nat, nat>, page: nat) {
    forall l :: l in regions ==> l + page in stacks
  }

  lemma MapLeaks(regions: map<nat, nat>, stacks: map<nat, nat>, page: nat, low: nat, length: nat, size: nat)
    requires NoneLeaked(regions, stacks, page)
    ensures NoneLeaked(regions[low := length], stacks[low + page := size], page)
  {
  }

  lemma UnmapLeaks(regions: map<nat, nat>, stacks: map<nat, nat>, page: nat, base: nat)
    requires NoneLeaked(regions, stacks, page) && base >= page
    ensures NoneLeaked(regions - {base - page}, stacks - {base}, page)
  {
  }

  ghost predicate Inv(s: State, page: nat)
    requires page > 0
  {
    && |s.first| == POOLS == |s.pools|
    && (forall a :: a in s.stacks ==> Backed(s, a, page))
    && NoneLeaked(s.regions, s.stacks, page)
    && AllApart(s.stacks, page) && s.live <= s.stacks.Keys
    && (forall i :: 0 <= i < POOLS ==> Chain(s.pools[i], s.first[i], s.memory))
    && PoolsOk(s.pools, s.stacks, s.live, page)
  }

  /** An allocation that is not served from a pool, and whose stack and guard pages do not fit the address space. */
  predicate Overflows(s: State, op: Op, p: nat) {
    && Can(s, op, p) && op.Allocates? && !Reuses(s, StackSize(op.addstack, p), Pow2(p))
    && StackSize(op.addstack, p) + 2 * Pow2(p) >= WORD
  }

  /** A stack without a page that is freed. */
  predicate FreesEmpty(s: State, op: Op, p: nat) {
    Can(s, op, p) && op.Frees? && s.stacks[op.base] == 0
  }

  lemma ReuseKeeps(s: State, page: nat, i: nat)
    requires page > 0 && Inv(s, page) && i < POOLS && s.first[i] != 0
    ensures var s' := Reuse(s, i); Inv(s', page) && s.pools[i] != []
    ensures var base := s.first[i];
      base == s.pools[i][0] && base in s.stacks && base !in s.live && PagesOf(s.stacks[base], page) == i
  {
    hide NoneLeaked, PagesOf, PoolsOk, Chain;
    ChainHead(s.pools[i], s.first[i], s.memory);
    TakeKeeps(s.pools, s.stacks, s.live, page, i);
  }

  lemma ApartFromRegions(s: State, page: nat, low: nat, size: nat, b: nat)
    requires page > 0 && b in s.stacks && Backed(s, b, page)
    requires forall l :: l in s.regions ==> low + size + 2 * page <= l || l + s.regions[l] <= low
    ensures Apart(low + page, size, b, s.stacks[b], page)
  {
  }

  lemma NewApart(stacks: map<nat, nat>, page: nat, a: nat, size: nat)
    requires page > 0 && AllApart(stacks, page) && a >= page && Whole(size, page)
    requires forall b :: b in stacks ==> Apart(a, size, b, stacks[b], page)
    ensures a !in stacks && AllApart(stacks[a := size], page)
  {
    hide NoneLeaked, Whole;
  }

  lemma MapKeeps(s: State, page: nat, low: nat, size: nat)
    requires page > 0 && Inv(s, page) && Whole(size, page) && size + 2 * page < WORD
    requires MayMap(s, low, MapLength(size, page))
    ensures var s' := MapStack(s, low, size, page);
      Inv(s', page) && low + page !in s.stacks && s'.health == Sound
  {
    hide NoneLeaked, PagesOf, PoolsOk, Chain, Whole, AllApart, Apart;
    assert MapLength(size, page) == size + 2 * page;
    forall b | b in s.stacks
      ensures Apart(low + page, size, b, s.stacks[b], page)
    {
      ApartFromRegions(s, page, low, size, b);
    }
    NewApart(s.stacks, page, low + page, size);
    MapLeaks(s.regions, s.stacks, page, low, MapLength(size, page), size);
    StacksKeep(s.pools, s.stacks, s.live, page, low + page, size);
  }

  lemma PutInPool(s: State, page: nat, base: nat)
    requires page > 0 && Inv(s, page) && base in s.live && s.stacks[base] > 0 && PagesOf(s.stacks[base], page) < POOLS
    ensures Inv(Munstack(s, base, page), page)
  {
    hide NoneLeaked, PagesOf, PoolsOk, Chain;
    var i := PagesOf(s.stacks[base], page);
    PutKeeps(s.pools, s.stacks, s.live, page, i, base);
    forall j | 0 <= j < POOLS
      ensures Chain(s.pools[j], s.first[j], s.memory[base := s.first[i]])
    {
      ChainFrame(s.pools[j], s.first[j], s.memory, base, s.first[i]);
    }
    ChainPut(s.pools[i], s.first[i], s.memory, base);
  }

  lemma ChainPut(q: seq<nat>, head: nat, memory: map<nat, nat>, base: nat)
    requires Chain(q, head, memory[base := head]) && base != 0
    ensures Chain([base] + q, base, memory[base := head])
  {
    assert ([base] + q)[1..] == q;
  }

  lemma Unmap(s: State, page: nat, base: nat)
    requires page > 0 && Inv(s, page) && base in s.live && s.stacks[base] > 0 && PagesOf(s.stacks[base], page) >= POOLS
    ensures Inv(Munstack(s, base, page), page)
  {
    hide NoneLeaked, PagesOf, PoolsOk, Chain;
    UnmapLeaks(s.regions, s.stacks, page, base);
    StacksKeep(s.pools, s.stacks, s.live, page, base, 0);
  }

  /** What a coroutine writes to its own stack leaves the pools alone. */
  lemma WriteKeeps(s: State, page: nat, base: nat, addr: nat, word: nat)
    requires page > 0 && Inv(s, page) && base in s.live && base <= addr < base + s.stacks[base]
    ensures Inv(s.(memory := s.memory[addr := word]), page)
  {
    hide NoneLeaked, PagesOf;
    forall j | 0 <= j < POOLS
      ensures Chain(s.pools[j], s.first[j], s.memory[addr := word])
    {
      assert PoolOk(s.pools[j], j, s.stacks, s.live, page);
      ChainFrame(s.pools[j], s.first[j], s.memory, addr, word);
    }
  }

  /** The stack that an allocation gives out. */
  function BaseOf(s: State, addstack: nat, low: nat, p: nat): nat {
    var page: nat, size := Pow2(p), StackSize(addstack, p);
    if Reuses(s, size, page) then s.first[PagesOf(size, page)] else low + page
  }

  lemma WholeStack(s: State, page: nat, a: nat)
    requires page > 0 && Inv(s, page) && a in s.stacks
    ensures Whole(s.stacks[a], page)
  {
    hide NoneLeaked;
  }

  lemma WholeAgree(a: nat, b: nat, page: nat)
    requires page > 0 && Whole(a, page) && Whole(b, page) && PagesOf(a, page) == PagesOf(b, page)
    ensures a == b
  {
  }

  /**
   An allocation gives out a stack of its size with its own memory, unless the stack and its guard pages do not
   fit.
   */
  lemma MstackKeeps(s: State, addstack: nat, low: nat, p: nat, page: nat)
    requires IsPageShift(p) && page == Pow2(p) && Inv(s, page) && Can(s, Allocates(addstack, low), p)
    ensures var s', b, size := Mstack(s, addstack, low, p), BaseOf(s, addstack, low, p), StackSize(addstack, p);
      if Overflows(s, Allocates(addstack, low), p)
      then s'.health != Sound && (s'.health == Unbacked ==> b in s'.live && !Backed(s', b, page))
      else s'.health == Sound && Inv(s', page) && b !in s.live && s'.live == s.live + {b} && s'.stacks[b] == size
  {
    hide NoneLeaked, StackSize, PagesOf, Pow2, Chain, PoolsOk, AllApart;
    StackSizeWhole(addstack, p, page);
    var size := StackSize(addstack, p);
    if Reuses(s, size, page) {
      ReuseKeeps(s, page, PagesOf(size, page));
      WholeStack(s, page, s.first[PagesOf(size, page)]);
      WholeAgree(s.stacks[s.first[PagesOf(size, page)]], size, page);
    } else if size + 2 * page < WORD {
      MapKeeps(s, page, low, size);
    }
  }

  lemma MunstackKeeps(s: State, base: nat, page: nat)
    requires page > 0 && Inv(s, page) && base in s.live && s.health == Sound
    ensures var s' := Munstack(s, base, page);
      if s.stacks[base] == 0 then s'.health == Failed
      else s'.health == Sound && Inv(s', page) && s'.live == s.live - {base}
  {
    hide NoneLeaked, PagesOf, PoolsOk, Chain, AllApart, Backed;
    if s.stacks[base] == 0 {
    } else if PagesOf(s.stacks[base], page) < POOLS {
      PutInPool(s, page, base);
    } else {
      Unmap(s, page, base);
    }
  }

  ghost predicate GoesWrong(s: State, op: Op, p: nat) {
    Overflows(s, op, p) || FreesEmpty(s, op, p)
  }

  /**
   Whatever is done keeps the invariant, unless it is an allocation that does not fit or the end of an empty
   stack.
   */
  lemma StepKeeps(s: State, op: Op, p: nat, page: nat)
    requires IsPageShift(p) && page == Pow2(p) && Inv(s, page) && s.health == Sound
    ensures var s' := Step(s, op, p);
      if GoesWrong(s, op, p) then s'.health != Sound else s'.health == Sound && Inv(s', page)
  {
    hide NoneLeaked, StackSize, PagesOf, Pow2, Chain, PoolsOk, AllApart, Backed, Mstack, Munstack;
    if Can(s, op, p) {
      match op {
        case Allocates(addstack, low) => MstackKeeps(s, addstack, low, p, page);
        case Frees(base) => MunstackKeeps(s, base, page);
        case Writes(base, addr, word) => WriteKeeps(s, page, base, addr, word);
      }
    }
  }

  lemma InitKeeps(page: nat)
    requires page > 0
    ensures Inv(Init(), page)
  {
  }

  /** What a caller may do with a stack it holds, and that a write changes the word at its address and nothing else. */
  lemma HoldersMay(s: State, p: nat, base: nat, addr: nat, word: nat)
    requires |s.first| == |s.pools| == POOLS && s.health == Sound && base in s.live && base in s.stacks
    ensures Can(s, Frees(base), p)
    ensures base <= addr < base + s.stacks[base] ==>
      && Can(s, Writes(base, addr, word), p)
      && Step(s, Writes(base, addr, word), p) == s.(memory := s.memory[addr := word])
  {
  }

  /** No step of a run goes wrong. */
  ghost predicate GoesWell(p: nat, ops: seq<Op>) {
    forall n :: 0 <= n < |ops| ==> !GoesWrong(Run(p, ops[..n]), ops[n], p)
  }

  lemma GoesOn(p: nat, ops: seq<Op>)
    requires ops != []
    ensures var init := ops[..|ops| - 1];
      GoesWell(p, ops) <==> GoesWell(p, init) && !GoesWrong(Run(p, init), ops[|ops| - 1], p)
  {
    hide GoesWrong, Run;
    var last := |ops| - 1;
    assert forall n :: 0 <= n < last ==> ops[..last][..n] == ops[..n];
  }

  /** Any run keeps the invariant up to where something goes wrong, and it is sound exactly if nothing did. */
  lemma {:induction false} RunKeeps(p: nat, page: nat, ops: seq<Op>)
    requires IsPageShift(p) && page == Pow2(p)
    ensures Run(p, ops).health == Sound <==> GoesWell(p, ops)
    ensures Run(p, ops).health == Sound ==> Inv(Run(p, ops), page)
  {
    hide Inv, Step, GoesWrong, Pow2, GoesWell;
    if ops == [] {
      InitKeeps(page);
      NothingYet(p);
    } else {
      var s := Run(p, ops[..|ops| - 1]);
      RunKeeps(p, page, ops[..|ops| - 1]);
      GoesOn(p, ops);
      if s.health == Sound {
        StepKeeps(s, ops[|ops| - 1], p, page);
      } else {
        StaysWrong(s, ops[|ops| - 1], p);
      }
    }
  }

  lemma NothingYet(p: nat)
    ensures GoesWell(p, [])
  {
  }

  lemma StaysWrong(s: State, op: Op, p: nat)
    requires |s.first| == |s.pools| == POOLS && s.health != Sound
    ensures Step(s, op, p) == s
  {
  }

  /**
   In any run in which every stack and its guard pages fit the address space and no stack without a page is freed:
   each stack in use lies with its guard pages in memory of its own, apart from all others; all that is mapped is for a
   stack; and pool `i` is a linked list of stacks of exactly `i` pages that are not in use.
   */
  lemma StacksApart(p: nat, page: nat, ops: seq<Op>)
    requires IsPageShift(p) && page == Pow2(p)
    requires GoesWell(p, ops)
    ensures var s := Run(p, ops);
      && (forall a :: a in s.live ==> Backed(s, a, page)) && NoneLeaked(s.regions, s.stacks, page)
      && (forall a, b :: a in s.live && b in s.stacks && a != b ==> Apart(a, s.stacks[a], b, s.stacks[b], page))
      && (forall i :: 0 <= i < POOLS ==> Chain(s.pools[i], s.first[i], s.memory))
      && (forall i, k :: 0 <= i < POOLS && 0 <= k < |s.pools[i]| ==>
            var a := s.pools[i][k]; a !in s.live && a in s.stacks && s.stacks[a] == i * page)
  {
    hide Run, GoesWell, Pow2, Chain;
    RunKeeps(p, page, ops);
    var s := Run(p, ops);
    forall i, k | 0 <= i < POOLS && 0 <= k < |s.pools[i]|
      ensures var a := s.pools[i][k]; a !in s.live && a in s.stacks && s.stacks[a] == i * page
    {
      assert PoolOk(s.pools[i], i, s.stacks, s.live, page);
      assert Whole(s.stacks[s.pools[i][k]], page);
    }
  }

  /** A stack that is freed is first in its pool with its memory, or has no memory any more, and is not in use. */
  lemma FreesRight(s: State, base: nat, p: nat, page: nat)
    requires IsPageShift(p) && page == Pow2(p) && Inv(s, page) && Can(s, Frees(base), p) && s.stacks[base] > 0
    ensures var s', i := Step(s, Frees(base), p), PagesOf(s.stacks[base], page);
      && s'.health == Sound && s'.live == s.live - {base}
      && if i < POOLS
         then s'.first[i] == base && s'.pools == s.pools[i := [base] + s.pools[i]] && s'.stacks == s.stacks
              && s'.regions == s.regions
         else s'.stacks == s.stacks - {base} && s'.regions == s.regions - {base - page} && s'.pools == s.pools
              && s'.first == s.first && s'.memory == s.memory
  {
    hide NoneLeaked, Pow2, Chain, PoolsOk, AllApart, PagesOf;
  }

  /** Nothing is mapped as long as a stack of the size asked for is not in use. */
  lemma ReusesFree(s: State, addstack: nat, low: nat, p: nat, page: nat, a: nat)
    requires IsPageShift(p) && page == Pow2(p) && Inv(s, page) && Can(s, Allocates(addstack, low), p)
    requires a in s.stacks && a !in s.live && s.stacks[a] == StackSize(addstack, p)
    ensures var s' := Step(s, Allocates(addstack, low), p); s'.regions == s.regions && s'.stacks == s.stacks
  {
    hide NoneLeaked, StackSize, Pow2, PagesOf, Chain, AllApart, Backed;
    assert Pooled(s.pools, a);
    var i :| 0 <= i < |s.pools| && a in s.pools[i];
    assert PoolOk(s.pools[i], i, s.stacks, s.live, page);
    ChainHead(s.pools[i], s.first[i], s.memory);
    assert Reuses(s, StackSize(addstack, p), page);
  }

  /**
   An allocation gets the least number of pages that holds `addstack`, and eight more, with memory for these and two
   guard pages, if and only if all of that fits the address space.
   */
  lemma AllocatesRight(s: State, addstack: nat, low: nat, p: nat, page: nat, pages: nat)
    requires IsPageShift(p) && page == Pow2(p) && Inv(s, page) && Can(s, Allocates(addstack, low), p)
    requires LeastPages(pages, addstack, page)
    ensures var s', b := Step(s, Allocates(addstack, low), p), BaseOf(s, addstack, low, p);
      (b in s'.stacks && s'.stacks[b] == (8 + pages) * page && Backed(s', b, page)) <==> (10 + pages) * page < WORD
  {
    hide NoneLeaked, StackSize, Pow2, PagesOf, Chain, PoolsOk, LeastPages, AllApart;
    MstackKeeps(s, addstack, low, p, page);
    StackFits(addstack, p, page, pages);
    MulAdd(8 + pages, 2, page);
  }
}
