/**
 The pool of coroutine stacks as the object whose methods update its lists: every method does what `StackModel`
 says.
 */
module StackPool {
  import opened Bits
  import opened StackModel

  class StackPool {
    const p: nat
    const page: nat
    const first: array<nat>              // the first stack of each pool, or null
    var memory: map<nat, nat>            // the word at an address
    var regions: map<nat, nat>           // of the kernel: what is mapped
    var stacks: map<nat, nat>            // the size of every stack that has memory
    var live: set<nat>                   // of the callers: the stacks that are in use
    var health: Health
    ghost var pools: seq<seq<nat>>

    ghost function Now(): State
      reads this, first
    {
      State(first[..], memory, regions, stacks, live, pools, health)
    }

    /** The shape of the object; the rest is said by `Inv`. */
    ghost predicate Valid()
      reads this, first
    {
      IsPageShift(p) && page == Pow2(p) && first.Length == POOLS == |pools|
    }

    constructor (p: nat)
      requires IsPageShift(p)
      ensures Valid() && fresh(first) && this.p == p && Now() == Init()
    {
      this.p, page, first := p, Pow2(p), new nat[POOLS](_ => 0);
      memory, regions, stacks, live, health, pools := map[], map[], map[], {}, Sound, seq(POOLS, _ => []);
      new;
      assert first[..] == seq(POOLS, _ => 0);
    }

    /** `mstack`; `low` is the address `mmap` returns if there is no stack of the size to reuse. */
    method Mstack(addstack: nat, low: nat) returns (base: nat, size: nat)
      requires Valid() && Inv(Now(), page) && Can(Now(), Allocates(addstack, low), p)
      modifies this, first
      ensures Valid() && Now() == StackModel.Mstack(old(Now()), addstack, low, p)
      ensures health != Failed ==> base == BaseOf(old(Now()), addstack, low, p) && size == StackSize(addstack, p)
    {
      hide Chain, PoolsOk, AllApart, PagesOf, StackSize, Pow2, Backed;
      size := StackSize(addstack, p);
      var index := PagesOf(size, page);
      if index < POOLS && first[index] != 0 {
        ReuseKeeps(Now(), page, index);
        ChainHead(pools[index], first[index], memory);
        base := first[index];
        first[index] := memory[base];
        pools, live := pools[index := pools[index][1..]], live + {base};
        return;
      }
      var length := MapLength(size, page);
      if length == 0 {
        base, health := 0, Failed;           // `mmap` of nothing fails, and so does the assertion after it
        return;
      }
      regions := regions[low := length];
      base := low + page;
      stacks, live := stacks[base := size], live + {base};
      health := if length == size + 2 * page then Sound else Unbacked;
    }

    /** `munstack` for a stack that `mstack` gave out. */
    method Munstack(base: nat)
      requires Valid() && Inv(Now(), page) && base in live && base in stacks
      modifies this, first
      ensures Valid() && Now() == StackModel.Munstack(old(Now()), base, page)
    {
      hide Chain, PoolsOk, AllApart, PagesOf, Pow2;
      var size := stacks[base];
      var index := PagesOf(size, page);
      if size == 0 {
        health := Failed;
      } else if index < POOLS {
        memory := memory[base := first[index]];
        first[index] := base;
        pools, live := pools[index := [base] + pools[index]], live - {base};
      } else {
        regions := regions - {base - page};
        stacks, live := stacks - {base}, live - {base};
      }
    }

    /** A coroutine writes to its own stack. */
    method Write(addr: nat, word: nat)
      modifies this`memory
      ensures Now() == old(Now()).(memory := old(memory)[addr := word])
    {
      memory := memory[addr := word];
    }

    method Do(op: Op)
      requires Valid() && (health == Sound ==> Inv(Now(), page))
      modifies this, first
      ensures Valid() && Now() == Step(old(Now()), op, p) && (health == Sound ==> Inv(Now(), page))
    {
      hide Inv, Pow2, StackSize, StackModel.Mstack, StackModel.Munstack, CanAllocate, GoesWrong;
      ghost var s := Now();
      if health == Sound {
        StepKeeps(s, op, p, page);
        match op {
          case Allocates(addstack, low) =>
            if addstack < WORD && Usable(StackSize(addstack, p), low) {
              var base, size := Mstack(addstack, low);
            }
          case Frees(base) =>
            if base in live && base in stacks {
              Munstack(base);
            }
          case Writes(base, addr, word) =>
            if base in live && base in stacks && base <= addr < base + stacks[base] {
              Write(addr, word);
            }
        }
      }
    }

    /** Whether there is a stack to reuse, or `low` is an address that `mmap` may return. */
    predicate Usable(size: nat, low: nat)
      requires Valid()
      reads this, first
      ensures Usable(size, low) <==> CanAllocate(Now(), size, low, page)
    {
      var i, length := PagesOf(size, page), MapLength(size, page);
      || (i < POOLS && first[i] != 0)
      || length == 0
      || (0 < low && low + length <= WORD && forall l :: l in regions ==> low + length <= l || l + regions[l] <= low)
    }
  }

  /** Any use of the pool. */
  method Use(p: nat, ops: seq<Op>) returns (s: StackPool)
    requires IsPageShift(p)
    ensures fresh(s) && s.Now() == Run(p, ops)
  {
    hide Inv, Step, Pow2;
    s := new StackPool(p);
    InitKeeps(s.page);
    for n := 0 to |ops|
      invariant fresh(s) && fresh(s.first) && s.Valid() && s.p == p && s.Now() == Run(p, ops[..n])
      invariant s.health == Sound ==> Inv(s.Now(), s.page)
    {
      assert ops[..n + 1][..n] == ops[..n];
      s.Do(ops[n]);
    }
    assert ops[..|ops|] == ops;
  }
}
