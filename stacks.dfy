/**
 * The static stack layout: every thread slot owns a fixed region of RAM, the
 * regions are laid out downward from RAMEND in slot order, and each region's
 * lowest byte is the location of that thread's stack canary.
 *
 * The source computes all of this with preprocessor macros; here the layout is
 * a set of functions over the configured stack sizes.
 */
module Stacks {
  import opened Masks

  /** The smallest stack size a configuration may give a thread. */
  const MIN_STACK_SIZE: nat := 32

  /**
   * The bytes a freshly created thread occupies on its stack: the entry point
   * (2), the thread id and argument (3), the bootstrap address (2) and 18
   * callee-saved registers.
   */
  const INITIAL_STACK_USAGE: nat := 25

  /** The byte written at each canary location when canaries are in use. */
  const STACK_CANARY: Uint8 := 0xAA

  /**
   * A build configuration: the MCU's RAMSTART and RAMEND, one stack size per
   * thread slot (so MAX_THREADS is the number of sizes), and whether the stack
   * canaries are compiled in.
   */
  datatype StackConfig = StackConfig(ramStart: nat, ramEnd: nat, sizes: seq<nat>, useCanary: bool)
  {
    /** MAX_THREADS. */
    function MaxThreads(): nat {
      |sizes|
    }
  }

  /** The sum of a sequence of sizes. */
  function Sum(s: seq<nat>): nat {
    if s == [] then 0 else Sum(s[..|s| - 1]) + s[|s| - 1]
  }

  /**
   * TOTAL_STACK_SIZE as the macros evidently intend it: the sum of the stack
   * sizes of the MAX_THREADS configured threads, written out per thread count.
   */
  function TotalStackSize(s: seq<nat>): (total: nat)
    requires 1 <= |s| <= MASK_BITS
    ensures total == Sum(s)
  {
    SumOfPrefixes(s);
    match |s|
    case 1 => s[0]
    case 2 => s[0] + s[1]
    case 3 => s[0] + s[1] + s[2]
    case 4 => s[0] + s[1] + s[2] + s[3]
    case 5 => s[0] + s[1] + s[2] + s[3] + s[4]
    case 6 => s[0] + s[1] + s[2] + s[3] + s[4] + s[5]
    case 7 => s[0] + s[1] + s[2] + s[3] + s[4] + s[5] + s[6]
    case 8 => s[0] + s[1] + s[2] + s[3] + s[4] + s[5] + s[6] + s[7]
  }

  /** The `#error` check on MAX_THREADS. */
  predicate ValidThreadCount(n: int) {
    1 <= n <= MASK_BITS
  }

  /** The per-thread `#error` checks on the stack sizes. */
  predicate SizesAtLeastMinimum(s: seq<nat>) {
    forall i :: 0 <= i < |s| ==> s[i] >= MIN_STACK_SIZE
  }

  /**
   * The configuration checks as evidently intended: a thread count of 1..8,
   * at least MIN_STACK_SIZE bytes for each configured thread, and the sum of
   * the configured sizes below the RAM size. BuildChecks evaluates the
   * preprocessor checks as written and relates them to this predicate.
   */
  predicate ValidConfig(c: StackConfig) {
    ValidThreadCount(c.MaxThreads()) &&
    SizesAtLeastMinimum(c.sizes) &&
    TotalStackSize(c.sizes) < c.ramEnd - c.ramStart
  }

  /** A configuration every compile-time check accepts. */
  type ValidStackConfig = c: StackConfig | ValidConfig(c)
    witness StackConfig(0, 64, [32], false)

  /**
   * THREADi_STACK_BASE: thread 0 starts at RAMEND and each next thread starts
   * where the previous thread's stack ends.
   */
  function StackBase(c: StackConfig, i: nat): int
    requires i < c.MaxThreads()
  {
    if i == 0 then c.ramEnd else StackBase(c, i - 1) - c.sizes[i - 1]
  }

  /** THREADi_CANARY_LOC: the lowest address of thread i's stack. */
  function CanaryLoc(c: StackConfig, i: nat): int
    requires i < c.MaxThreads()
  {
    StackBase(c, i) - c.sizes[i] + 1
  }

  /** The stack pointer saved for a newly created thread i: its base less INITIAL_STACK_USAGE. */
  function InitialStackPointer(c: StackConfig, i: nat): int
    requires i < c.MaxThreads()
  {
    StackBase(c, i) - INITIAL_STACK_USAGE
  }

  /** Address `a` lies in thread i's stack region (base - size, base]. */
  predicate InRegion(c: StackConfig, i: nat, a: int)
    requires i < c.MaxThreads()
  {
    StackBase(c, i) - c.sizes[i] < a <= StackBase(c, i)
  }

  /** Address `a` is the canary location of one of threads 0..n-1. */
  predicate IsCanaryBelow(c: StackConfig, n: nat, a: int)
  {
    exists i :: 0 <= i < n && i < c.MaxThreads() && CanaryLoc(c, i) == a
  }

  /** One more thread's canary joins the set of canaries below it. */
  lemma IsCanaryBelowStep(c: StackConfig, n: nat, a: int)
    requires n < c.MaxThreads()
    ensures IsCanaryBelow(c, n + 1, a) <==> IsCanaryBelow(c, n, a) || a == CanaryLoc(c, n)
  {
    if IsCanaryBelow(c, n + 1, a) && a != CanaryLoc(c, n) {
      var i :| 0 <= i < n + 1 && i < c.MaxThreads() && CanaryLoc(c, i) == a;
      assert i < n;
    }
  }

  /** Address `a` is the canary location of some configured thread. */
  predicate IsCanary(c: StackConfig, a: int)
  {
    IsCanaryBelow(c, c.MaxThreads(), a)
  }

  /** The shipped configuration: eight threads of 64 bytes, canaries compiled out. */
  function ShippedConfig(ramStart: nat, ramEnd: nat): StackConfig {
    StackConfig(ramStart, ramEnd, [64, 64, 64, 64, 64, 64, 64, 64], false)
  }

  /** Extending a prefix by one element adds that element to its sum. */
  lemma SumStep(s: seq<nat>, i: nat)
    requires i < |s|
    ensures Sum(s[..i + 1]) == Sum(s[..i]) + s[i]
  {
    assert s[..i + 1][..i] == s[..i];
  }

  /** Sum over every prefix of `s`, one element at a time. */
  lemma SumOfPrefixes(s: seq<nat>)
    ensures forall i :: 0 <= i < |s| ==> Sum(s[..i + 1]) == Sum(s[..i]) + s[i]
    ensures Sum(s[..|s|]) == Sum(s) && Sum(s[..0]) == 0
  {
    forall i | 0 <= i < |s| ensures Sum(s[..i + 1]) == Sum(s[..i]) + s[i] {
      SumStep(s, i);
    }
    assert s[..|s|] == s;
  }

  /** The sum of a prefix never exceeds the sum of the whole sequence. */
  lemma {:induction false} PrefixSumBounded(s: seq<nat>, i: nat)
    requires i <= |s|
    ensures Sum(s[..i]) <= Sum(s)
  {
    if i < |s| {
      var init := s[..|s| - 1];
      assert init[..i] == s[..i];
      PrefixSumBounded(init, i);
    } else {
      assert s[..i] == s;
    }
  }

  /** Thread i's base is RAMEND less the sizes of all threads before it. */
  lemma {:induction false} StackBaseClosedForm(c: StackConfig, i: nat)
    requires i < c.MaxThreads()
    ensures StackBase(c, i) == c.ramEnd - Sum(c.sizes[..i])
  {
    if i == 0 {
      assert c.sizes[..0] == [];
    } else {
      StackBaseClosedForm(c, i - 1);
      SumStep(c.sizes, i - 1);
    }
  }

  /** A later thread's whole region lies below an earlier thread's region. */
  lemma {:induction false} RegionsOrdered(c: StackConfig, i: nat, j: nat)
    requires i < j < c.MaxThreads()
    ensures StackBase(c, j) <= StackBase(c, i) - c.sizes[i]
  {
    if j > i + 1 {
      RegionsOrdered(c, i, j - 1);
    }
  }

  /** No address belongs to the regions of two different threads. */
  lemma RegionsDisjoint(c: StackConfig, i: nat, j: nat, a: int)
    requires i < c.MaxThreads() && j < c.MaxThreads() && i != j
    ensures !(InRegion(c, i, a) && InRegion(c, j, a))
  {
    if i < j {
      RegionsOrdered(c, i, j);
    } else {
      RegionsOrdered(c, j, i);
    }
  }

  /**
   * A thread's canary is the lowest address of its own region and lies in no
   * other thread's region.
   */
  lemma CanaryLowestInOwnRegion(c: StackConfig, i: nat)
    requires ValidConfig(c) && i < c.MaxThreads()
    ensures InRegion(c, i, CanaryLoc(c, i))
    ensures forall a :: InRegion(c, i, a) ==> CanaryLoc(c, i) <= a
    ensures forall j :: 0 <= j < c.MaxThreads() && j != i ==> !InRegion(c, j, CanaryLoc(c, i))
  {
    forall j | 0 <= j < c.MaxThreads() && j != i
      ensures !InRegion(c, j, CanaryLoc(c, i))
    {
      RegionsDisjoint(c, i, j, CanaryLoc(c, i));
    }
  }

  /** Distinct threads have distinct canary locations. */
  lemma CanariesDistinct(c: StackConfig, i: nat, j: nat)
    requires ValidConfig(c) && i < c.MaxThreads() && j < c.MaxThreads()
    ensures CanaryLoc(c, i) == CanaryLoc(c, j) <==> i == j
  {
    if i != j {
      CanaryLowestInOwnRegion(c, i);
      CanaryLowestInOwnRegion(c, j);
      assert !InRegion(c, j, CanaryLoc(c, i));
    }
  }

  /**
   * Every region lies strictly above RAMSTART and at or below RAMEND, because
   * the stacks together are smaller than the RAM.
   */
  lemma RegionWithinRam(c: StackConfig, i: nat)
    requires ValidConfig(c) && i < c.MaxThreads()
    ensures c.ramStart < CanaryLoc(c, i) && StackBase(c, i) <= c.ramEnd
  {
    StackBaseClosedForm(c, i);
    SumStep(c.sizes, i);
    PrefixSumBounded(c.sizes, i + 1);
  }

  /** Every configured region lies strictly above RAMSTART and at or below RAMEND. */
  predicate RegionsWithinRam(c: StackConfig) {
    forall i :: 0 <= i < c.MaxThreads() ==> c.ramStart < CanaryLoc(c, i) && StackBase(c, i) <= c.ramEnd
  }

  /** A valid configuration keeps every region within RAM. */
  lemma AllRegionsWithinRam(c: StackConfig)
    requires ValidConfig(c)
    ensures RegionsWithinRam(c)
  {
    forall i | 0 <= i < c.MaxThreads()
      ensures c.ramStart < CanaryLoc(c, i) && StackBase(c, i) <= c.ramEnd
    {
      RegionWithinRam(c, i);
    }
  }

  /**
   * The frame a new thread starts with (the INITIAL_STACK_USAGE bytes just
   * below and at its base) lies inside its own region and strictly above its
   * canary, and so does the saved stack pointer, which points one byte below
   * the frame.
   */
  lemma InitialFrameAboveCanary(c: StackConfig, i: nat)
    requires ValidConfig(c) && i < c.MaxThreads()
    ensures c.ramStart < InitialStackPointer(c, i)
    ensures forall a :: InitialStackPointer(c, i) <= a <= StackBase(c, i) ==>
      InRegion(c, i, a) && CanaryLoc(c, i) < a
  {
    RegionWithinRam(c, i);
  }

  /**
   * The bytes at offsets `first..last` from a new thread's saved stack
   * pointer, for offsets up to INITIAL_STACK_USAGE, hold no thread's canary.
   */
  lemma FrameMissesCanaries(c: StackConfig, t: nat, first: nat, last: nat)
    requires ValidConfig(c) && t < c.MaxThreads() && last <= INITIAL_STACK_USAGE
    ensures forall u :: 0 <= u < c.MaxThreads() ==>
      !(InitialStackPointer(c, t) + first <= CanaryLoc(c, u) <= InitialStackPointer(c, t) + last)
  {
    InitialFrameAboveCanary(c, t);
    forall u | 0 <= u < c.MaxThreads()
      ensures !(InitialStackPointer(c, t) + first <= CanaryLoc(c, u) <= InitialStackPointer(c, t) + last)
    {
      CanaryLowestInOwnRegion(c, u);
      if u != t {
        assert !InRegion(c, t, CanaryLoc(c, u));
      }
    }
  }

  /** The shipped eight 64-byte stacks pass every check once the RAM holds 512 bytes. */
  lemma ShippedConfigValid(ramStart: nat, ramEnd: nat)
    requires ramEnd - ramStart > 8 * 64
    ensures ValidConfig(ShippedConfig(ramStart, ramEnd))
  {
    assert TotalStackSize(ShippedConfig(ramStart, ramEnd).sizes) == 8 * 64;
  }
}
