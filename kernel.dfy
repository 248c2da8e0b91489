/**
 * The kernel's thread-state bookkeeping: the current thread, three one-bit-per-
 * slot state masks (disabled, suspended, delayed), the saved stack pointer and
 * delay counter of every slot, and the RAM that holds the stacks.
 *
 * The context switch itself (the scheduler, yield and the bootstrap routine)
 * is assembly outside this model; a call that hands control to it reports so
 * through `Exit` instead of returning a value.
 */
module Kernel {
  import opened Masks
  import opened Stacks
  import opened Frame

  /** The id of the first thread, the one running when the kernel starts. */
  const THREAD0: Uint8 := 0

  /**
   * How control leaves a kernel call: it returns to its caller with a value,
   * or it enters the scheduler without saving the caller (and does not come
   * back), or it yields (and the caller continues once rescheduled).
   */
  datatype Exit<T> = Returned(value: T) | EnteredScheduler | Yielded

  /** The three state bits of one slot, as the masks record them. */
  datatype SlotState = SlotState(disabled: bool, suspended: bool, delayed: bool)

  /** The state bits of slot u in the given disabled, suspended and delayed masks. */
  function SlotOf(disabled: bv8, suspended: bv8, delayed: bv8, u: nat): SlotState
    requires u < MASK_BITS
  {
    SlotState(IsSet(disabled, u), IsSet(suspended, u), IsSet(delayed, u))
  }

  /**
   * Creating slot t clears its disabled and delayed bits and sets its
   * suspended bit to `suspend`; every other slot keeps its bits.
   */
  lemma CreatedSlot(disabled: bv8, suspended: bv8, delayed: bv8, t: nat, suspend: bool, u: nat)
    requires t < MASK_BITS && u < MASK_BITS
    ensures SlotOf(ClearBit(disabled, t), if suspend then SetBit(suspended, t) else ClearBit(suspended, t), ClearBit(delayed, t), u)
      == if u == t then SlotState(false, suspend, false) else SlotOf(disabled, suspended, delayed, u)
  {
    ClearBitAt(disabled, t, u);
    ClearBitAt(delayed, t, u);
    SetBitAt(suspended, t, u);
    ClearBitAt(suspended, t, u);
  }

  /** Setting slot t's disabled bit changes no other bit. */
  lemma DisabledSlot(disabled: bv8, suspended: bv8, delayed: bv8, t: nat, u: nat)
    requires t < MASK_BITS && u < MASK_BITS
    ensures SlotOf(SetBit(disabled, t), suspended, delayed, u)
      == if u == t then SlotOf(disabled, suspended, delayed, u).(disabled := true) else SlotOf(disabled, suspended, delayed, u)
  {
    SetBitAt(disabled, t, u);
  }

  /** Setting or clearing slot t's suspended bit changes no other bit. */
  lemma SuspendedSlot(disabled: bv8, suspended: bv8, delayed: bv8, t: nat, suspend: bool, u: nat)
    requires t < MASK_BITS && u < MASK_BITS
    ensures SlotOf(disabled, if suspend then SetBit(suspended, t) else ClearBit(suspended, t), delayed, u)
      == if u == t then SlotOf(disabled, suspended, delayed, u).(suspended := suspend) else SlotOf(disabled, suspended, delayed, u)
  {
    if suspend {
      SetBitAt(suspended, t, u);
    } else {
      ClearBitAt(suspended, t, u);
    }
  }

  class KernelState {
    /** The build configuration: RAM bounds, stack sizes, canaries on or off. */
    const cfg: ValidStackConfig
    /** The code address of the bootstrap routine. */
    const bootstrap: Uint16
    /** kn_stack: the saved stack pointer of every slot. */
    const stack: array<int>
    /** kn_delay_counter: the delay time of every slot. */
    const delayCounter: array<Uint16>
    /** The MCU's data memory, indexed by address 0..RAMEND. */
    const ram: array<Uint8>

    /** kn_cur_thread. */
    var curThread: Uint8
    /** kn_cur_thread_mask. */
    var curThreadMask: bv8
    /** kn_disabled_threads. */
    var disabled: bv8
    /** kn_suspended_threads. */
    var suspended: bv8
    /**
     * kn_delayed_threads; the sleeping predicate reads this same mask under
     * the name kn_sleeping_threads.
     */
    var delayed: bv8
    /** kn_system_counter: uptime in milliseconds. */
    var systemCounter: nat

    /**
     * The arrays match the configuration, the current thread is a configured
     * slot whose mask is cached in curThreadMask, and every saved stack
     * pointer lies inside its own thread's stack region.
     */
    ghost predicate Valid()
      reads this, stack
    {
      stack.Length == cfg.MaxThreads() &&
      delayCounter.Length == cfg.MaxThreads() &&
      ram.Length == cfg.ramEnd + 1 &&
      RegionsWithinRam(cfg) &&
      curThread < cfg.MaxThreads() &&
      curThreadMask == BitToMask(curThread) &&
      forall i :: 0 <= i < cfg.MaxThreads() ==> InRegion(cfg, i, stack[i])
    }

    /** The state bits of slot u. */
    function Slot(u: nat): SlotState
      reads this
      requires u < MASK_BITS
    {
      SlotOf(disabled, suspended, delayed, u)
    }

    /**
     * kn_init: runs once before main. Every slot's saved stack pointer is set
     * to its base and its delay counter to 0 (and, with canaries compiled in,
     * its canary byte is written); THREAD0 becomes the current and only
     * enabled thread, nothing is suspended or delayed, and uptime is 0.
     */
    constructor Init(cfg: ValidStackConfig, bootstrap: Uint16, ram: array<Uint8>)
      requires ram.Length == cfg.ramEnd + 1
      modifies ram
      ensures Valid()
      ensures this.cfg == cfg && this.bootstrap == bootstrap && this.ram == ram
      ensures fresh(stack) && fresh(delayCounter)
      ensures curThread == THREAD0 && curThreadMask == 0x01
      ensures disabled == !0x01 && suspended == 0x00 && delayed == 0x00
      ensures systemCounter == 0
      ensures forall i :: 0 <= i < cfg.MaxThreads() ==> stack[i] == StackBase(cfg, i) && delayCounter[i] == 0
      ensures forall a :: 0 <= a < ram.Length ==>
        ram[a] == if cfg.useCanary && IsCanary(cfg, a) then STACK_CANARY else old(ram[a])
      ensures forall t: Uint8 :: ThreadEnabled(t) <==> t == THREAD0
      ensures forall t: Uint8 :: !ThreadSuspended(t) && !ThreadSleeping(t)
    {
      this.cfg := cfg;
      this.bootstrap := bootstrap;
      this.ram := ram;
      stack := new int[cfg.MaxThreads()];
      delayCounter := new Uint16[cfg.MaxThreads()];
      new;
      ResetSlots();
      curThread := THREAD0;
      curThreadMask := 0x01;
      disabled := !curThreadMask;
      suspended := 0x00;
      delayed := 0x00;
      systemCounter := 0;
      forall k | 0 <= k < cfg.MaxThreads() ensures InRegion(cfg, k, stack[k]) {
        CanaryLowestInOwnRegion(cfg, k);
      }
      AllRegionsWithinRam(cfg);
    }

    /**
     * The loop of kn_init: every slot's saved stack pointer is set to its
     * base and its delay counter to 0, and with canaries compiled in every
     * canary location gets STACK_CANARY; no other byte of RAM is written.
     */
    method ResetSlots()
      requires stack.Length == cfg.MaxThreads() && delayCounter.Length == cfg.MaxThreads()
      requires ram.Length == cfg.ramEnd + 1
      modifies stack, delayCounter, ram
      ensures forall k :: 0 <= k < cfg.MaxThreads() ==> stack[k] == StackBase(cfg, k)
      ensures forall k :: 0 <= k < cfg.MaxThreads() ==> delayCounter[k] == 0
      ensures forall a :: 0 <= a < ram.Length ==>
        ram[a] == if cfg.useCanary && IsCanary(cfg, a) then STACK_CANARY else old(ram[a])
    {
      var i := 0;
      while i < cfg.MaxThreads()
        invariant 0 <= i <= cfg.MaxThreads()
        invariant forall k :: 0 <= k < i ==> stack[k] == StackBase(cfg, k)
        invariant forall k :: 0 <= k < i ==> delayCounter[k] == 0
        invariant forall a :: 0 <= a < ram.Length ==>
          ram[a] == if cfg.useCanary && IsCanaryBelow(cfg, i, a) then STACK_CANARY else old(ram[a])
      {
        stack[i] := StackBase(cfg, i);
        delayCounter[i] := 0;
        if cfg.useCanary {
          RegionWithinRam(cfg, i);
          ram[CanaryLoc(cfg, i)] := STACK_CANARY;
        }
        forall a | 0 <= a < ram.Length
          ensures IsCanaryBelow(cfg, i + 1, a) <==> IsCanaryBelow(cfg, i, a) || a == CanaryLoc(cfg, i)
        {
          IsCanaryBelowStep(cfg, i, a);
        }
        i := i + 1;
      }
    }

    /** kn_current_thread: the running thread, a configured slot whose mask is cached. */
    function CurrentThread(): (t: Uint8)
      reads this, stack
      requires Valid()
      ensures t < cfg.MaxThreads() && BitToMask(t) == curThreadMask
    {
      curThread
    }

    /** kn_thread_enabled: a configured slot whose disabled bit is clear. */
    function ThreadEnabled(t: Uint8): (b: bool)
      reads this
      ensures b <==> t < cfg.MaxThreads() && !Slot(t).disabled
    {
      if t < cfg.MaxThreads() then disabled & BitToMask(t) == 0 else false
    }

    /**
     * kn_thread_suspended: an enabled slot whose suspended bit is set; a
     * disabled thread is never reported suspended.
     */
    function ThreadSuspended(t: Uint8): (b: bool)
      reads this
      ensures b <==> t < cfg.MaxThreads() && !Slot(t).disabled && Slot(t).suspended
      ensures b ==> ThreadEnabled(t)
    {
      if t < cfg.MaxThreads() then
        var mask := BitToMask(t);
        disabled & mask == 0 && suspended & mask != 0
      else
        false
    }

    /**
     * kn_thread_sleeping: an enabled slot whose delayed bit is set; a
     * disabled thread is never reported sleeping.
     */
    function ThreadSleeping(t: Uint8): (b: bool)
      reads this
      ensures b <==> t < cfg.MaxThreads() && !Slot(t).disabled && Slot(t).delayed
      ensures b ==> ThreadEnabled(t)
    {
      if t < cfg.MaxThreads() then
        var mask := BitToMask(t);
        disabled & mask == 0 && delayed & mask != 0
      else
        false
    }

    /**
     * The seven byte stores of thread creation, at offsets 19..25 from `sp`:
     * afterwards those bytes hold the initial frame and every other byte of
     * RAM is as before.
     */
    method StoreInitialFrame(sp: int, t: Uint8, entry: Uint16, arg: Uint16)
      requires 0 <= sp + FRAME_FIRST && sp + FRAME_LAST < ram.Length
      modifies ram
      ensures forall k :: 0 <= k < FRAME_BYTES ==> ram[sp + FRAME_FIRST + k] == InitialFrame(t, entry, arg, bootstrap)[k]
      ensures forall a :: 0 <= a < ram.Length && !(sp + FRAME_FIRST <= a <= sp + FRAME_LAST) ==> ram[a] == old(ram[a])
    {
      // Offsets 24..25: entry point.
      ram[sp + 25] := Lo(entry);
      ram[sp + 24] := Hi(entry);
      // Offsets 22..23: argument.
      ram[sp + 23] := Lo(arg);
      ram[sp + 22] := Hi(arg);
      // Offset 21: thread id.
      ram[sp + 21] := t;
      // Offsets 19..20: bootstrap address.
      ram[sp + 20] := Lo(bootstrap);
      ram[sp + 19] := Hi(bootstrap);
    }

    /**
     * Points slot t's saved stack pointer INITIAL_STACK_USAGE bytes below its
     * base and writes the initial frame at offsets 19..25 from it; no other
     * byte of RAM is written, so no canary is touched.
     */
    method WriteInitialFrame(t: Uint8, entry: Uint16, arg: Uint16)
      requires Valid() && t < cfg.MaxThreads()
      modifies stack, ram
      ensures Valid()
      ensures stack[..] == old(stack[..])[t := InitialStackPointer(cfg, t)]
      ensures var sp := InitialStackPointer(cfg, t);
        0 <= sp + FRAME_FIRST && sp + FRAME_LAST < ram.Length &&
        (forall k :: 0 <= k < FRAME_BYTES ==> ram[sp + FRAME_FIRST + k] == InitialFrame(t, entry, arg, bootstrap)[k]) &&
        forall a :: 0 <= a < ram.Length && !(sp + FRAME_FIRST <= a <= sp + FRAME_LAST) ==> ram[a] == old(ram[a])
      ensures forall u :: 0 <= u < cfg.MaxThreads() ==> ram[CanaryLoc(cfg, u)] == old(ram[CanaryLoc(cfg, u)])
    {
      var sp := InitialStackPointer(cfg, t);
      InitialFrameAboveCanary(cfg, t);
      RegionWithinRam(cfg, t);
      stack[t] := sp;
      StoreInitialFrame(sp, t, entry, arg);
      FrameMissesCanaries(cfg, t, FRAME_FIRST, FRAME_LAST);
    }

    /**
     * kn_create_thread_impl: a null entry point fails and changes nothing.
     * Otherwise slot t gets its initial frame, its disabled and delayed bits
     * are cleared, its suspended bit is set to `suspend`, its delay counter is
     * zeroed, and no other slot's bits or counter change. Re-creating the
     * running thread enters the scheduler and does not return.
     */
    method CreateThreadImpl(t: Uint8, entry: Uint16, suspend: bool, arg: Uint16) returns (r: Exit<bool>)
      requires Valid() && t < cfg.MaxThreads()
      modifies this`disabled, this`suspended, this`delayed, stack, delayCounter, ram
      ensures Valid()
      ensures entry == 0 ==>
        r == Returned(false) &&
        disabled == old(disabled) && suspended == old(suspended) && delayed == old(delayed) &&
        stack[..] == old(stack[..]) && delayCounter[..] == old(delayCounter[..]) && ram[..] == old(ram[..])
      ensures entry != 0 ==>
        var sp := InitialStackPointer(cfg, t);
        stack[..] == old(stack[..])[t := sp] &&
        0 <= sp + FRAME_FIRST && sp + FRAME_LAST < ram.Length &&
        (forall k :: 0 <= k < FRAME_BYTES ==> ram[sp + FRAME_FIRST + k] == InitialFrame(t, entry, arg, bootstrap)[k]) &&
        (forall a :: 0 <= a < ram.Length && !(sp + FRAME_FIRST <= a <= sp + FRAME_LAST) ==> ram[a] == old(ram[a])) &&
        disabled == ClearBit(old(disabled), t) &&
        delayed == ClearBit(old(delayed), t) &&
        suspended == (if suspend then SetBit(old(suspended), t) else ClearBit(old(suspended), t)) &&
        delayCounter[..] == old(delayCounter[..])[t := 0]
      ensures entry != 0 ==> Slot(t) == SlotState(false, suspend, false)
      ensures entry != 0 ==> ThreadEnabled(t) && ThreadSuspended(t) == suspend && !ThreadSleeping(t)
      ensures entry != 0 ==> r == if t == curThread then EnteredScheduler else Returned(true)
      ensures forall u :: 0 <= u < cfg.MaxThreads() ==> ram[CanaryLoc(cfg, u)] == old(ram[CanaryLoc(cfg, u)])
    {
      if entry == 0 {
        return Returned(false);
      }
      WriteInitialFrame(t, entry, arg);
      MarkCreated(t, suspend);
      CreatedSlot(old(disabled), old(suspended), old(delayed), t, suspend, t);
      delayCounter[t] := 0;
      if t == curThread {
        r := EnteredScheduler;
      } else {
        r := Returned(true);
      }
    }

    /**
     * The mask updates of thread creation: slot t's disabled and delayed
     * bits are cleared and its suspended bit is set to `suspend`.
     */
    method MarkCreated(t: Uint8, suspend: bool)
      requires Valid() && t < cfg.MaxThreads()
      modifies this`disabled, this`suspended, this`delayed
      ensures Valid()
      ensures disabled == ClearBit(old(disabled), t) && delayed == ClearBit(old(delayed), t)
      ensures suspended == if suspend then SetBit(old(suspended), t) else ClearBit(old(suspended), t)
    {
      disabled := ClearBit(disabled, t);
      delayed := ClearBit(delayed, t);
      suspended := if suspend then SetBit(suspended, t) else ClearBit(suspended, t);
    }

    /**
     * kn_disable: for a configured slot, sets its disabled bit and no other
     * bit, and enters the scheduler when it is the running thread; for any
     * other id, does nothing. A disabled thread stays disabled until it is
     * created again.
     */
    method Disable(t: Uint8) returns (r: Exit<()>)
      requires Valid()
      modifies this`disabled
      ensures Valid()
      ensures disabled == if t < cfg.MaxThreads() then SetBit(old(disabled), t) else old(disabled)
      ensures t < cfg.MaxThreads() ==> Slot(t) == old(Slot(t)).(disabled := true)
      ensures t < cfg.MaxThreads() ==> !ThreadEnabled(t) && !ThreadSuspended(t) && !ThreadSleeping(t)
      ensures r == if t < cfg.MaxThreads() && t == curThread then EnteredScheduler else Returned(())
    {
      r := Returned(());
      if t < cfg.MaxThreads() {
        disabled := SetBit(disabled, t);
        DisabledSlot(old(disabled), suspended, delayed, t, t);
        if t == curThread {
          r := EnteredScheduler;
        }
      }
    }

    /**
     * kn_disable_self: sets the running thread's disabled bit through the
     * cached current-thread mask, then enters the scheduler.
     */
    method DisableSelf() returns (r: Exit<()>)
      requires Valid()
      modifies this`disabled
      ensures Valid()
      ensures disabled == SetBit(old(disabled), curThread)
      ensures Slot(curThread) == old(Slot(curThread)).(disabled := true)
      ensures !ThreadEnabled(curThread)
      ensures r == EnteredScheduler
    {
      disabled := disabled | curThreadMask;
      DisabledSlot(old(disabled), suspended, delayed, curThread, curThread);
      r := EnteredScheduler;
    }

    /**
     * kn_resume: for a configured slot, clears its suspended bit and no other
     * bit; it leaves the disabled and delayed masks alone, so it does not
     * re-enable a disabled thread. Any other id is ignored.
     */
    method Resume(t: Uint8)
      requires Valid()
      modifies this`suspended
      ensures Valid()
      ensures suspended == if t < cfg.MaxThreads() then ClearBit(old(suspended), t) else old(suspended)
      ensures t < cfg.MaxThreads() ==> Slot(t) == old(Slot(t)).(suspended := false)
      ensures !ThreadSuspended(t)
      ensures ThreadEnabled(t) == old(ThreadEnabled(t)) && ThreadSleeping(t) == old(ThreadSleeping(t))
    {
      if t < cfg.MaxThreads() {
        suspended := ClearBit(suspended, t);
        SuspendedSlot(disabled, old(suspended), delayed, t, false, t);
      }
    }

    /**
     * kn_suspend: for a configured slot, sets its suspended bit and no other
     * bit, and yields when it is the running thread; any other id is ignored.
     */
    method Suspend(t: Uint8) returns (r: Exit<()>)
      requires Valid()
      modifies this`suspended
      ensures Valid()
      ensures suspended == if t < cfg.MaxThreads() then SetBit(old(suspended), t) else old(suspended)
      ensures t < cfg.MaxThreads() ==> Slot(t) == old(Slot(t)).(suspended := true)
      ensures ThreadSuspended(t) == ThreadEnabled(t)
      ensures r == if t < cfg.MaxThreads() && t == curThread then Yielded else Returned(())
    {
      r := Returned(());
      if t < cfg.MaxThreads() {
        suspended := SetBit(suspended, t);
        SuspendedSlot(disabled, old(suspended), delayed, t, true, t);
        if t == curThread {
          r := Yielded;
        }
      }
    }

    /**
     * kn_suspend_self: sets the running thread's suspended bit through the
     * cached current-thread mask, then yields.
     */
    method SuspendSelf() returns (r: Exit<()>)
      requires Valid()
      modifies this`suspended
      ensures Valid()
      ensures suspended == SetBit(old(suspended), curThread)
      ensures Slot(curThread) == old(Slot(curThread)).(suspended := true)
      ensures ThreadSuspended(curThread) == ThreadEnabled(curThread)
      ensures r == Yielded
    {
      suspended := suspended | curThreadMask;
      SuspendedSlot(disabled, old(suspended), delayed, curThread, true, curThread);
      r := Yielded;
    }
  }
}
