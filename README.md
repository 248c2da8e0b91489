# avr-kernel thread bookkeeping in Dafny

This project models the core of avr-kernel, a small cooperative kernel for AVR
microcontrollers with up to eight static thread slots. It covers three parts.

Thread state lives in the `Kernel.KernelState` class:
- the current thread id and its cached one-bit mask;
- the three `uint8_t` state masks: disabled, suspended, and delayed (also called sleeping);
- `kn_stack`, the saved stack pointer of every slot;
- `kn_delay_counter`;
- the system counter;
- the RAM that holds the stacks.

The operations on that state are:
- `kn_init`;
- `kn_create_thread_impl`, with its initial stack frame;
- `kn_disable`, `kn_disable_self`, `kn_resume`, `kn_suspend` and `kn_suspend_self`;
- the `kn_thread_*` queries and `kn_current_thread`.

The masks are `bv8`. RAM is an array of byte values indexed by address.

Static stack layout (`Stacks`): the preprocessor arithmetic of
`kernel/core/stacks.h`, written as functions over the configured stack sizes:
- stack bases laid out downward from RAMEND;
- canary locations;
- `TOTAL_STACK_SIZE`;
- the `#error` checks on thread count, minimum size and total size, as
  evidently intended (`Stacks.ValidConfig`).

Preprocessor checks as written (`BuildChecks`): the same checks evaluated the
way the C preprocessor evaluates them. Each `THREADk_STACK_SIZE` macro is
defined with a value or left undefined, and an undefined macro counts as 0
inside `#if`. `TOTAL_STACK_SIZE` is the token sequence each of its eight
definitions expands to, and an evaluator gives it a value only when it has the
form `size (+ size)*`. Two lemmas relate these checks to `Stacks.ValidConfig`:
`BuildChecks.IntendedIsValidConfig` and `BuildChecks.AsWrittenVersusIntended`.

A build configuration is a `StackConfig`. It holds RAMSTART, RAMEND, one size
per slot (so MAX_THREADS is the number of sizes), and whether canaries are
compiled in.

Thread masks and the creation frame:
- `Masks` holds the three `bit_to_mask` variants and the single-bit set and clear operations.
- `Frame` holds the seven bytes thread creation stores, and reads them back.

`EarlyKernel` holds the earlier `kernel/kernel.c`. Its `kn_create_thread`
checks the id range, writes the same frame, and updates no masks. Its `kn_init`
and `bit_to_mask` behave like the core ones, which `Kernel.KernelState.Init` and
`Masks.BitToMask` model. Its layout macros (kernel/kernel.c:141-169, 180-236,
272-329) are the same recurrences as `kernel/core/stacks.h`, which `Stacks`
models.

Some calls hand control to the assembly scheduler (`kn_scheduler`, `kn_yield`).
These return an `Exit` value instead: `EnteredScheduler` (the call does not
return) or `Yielded` (the call resumes later). No scheduling order is modelled.

Where the code and its documentation disagree, the model follows the code:
- `kn_resume` clears only the suspended bit. It does not re-enable a disabled
  thread; a disabled thread must be created again (kernel/kernel.h:137-140).
- `kn_thread_sleeping` reads `kn_sleeping_threads`, while `kernel/core/kernel.c`
  defines `kn_delayed_threads`. Both are the single `delayed` mask here.
- The shipped configuration defines `KERNEL_USE_STACK_CANARY`, but the code
  tests `USE_STACK_CANARY`, so as shipped `kn_init` writes no canary. Canary
  writing is the `useCanary` field of the configuration.
  `Stacks.ShippedConfig` has it off.

## Model

| member | source | states |
|---|---|---|
| Masks.BitToMask | kernel/core/kernel.c:219-226 | For a bit number below 8 the table entry is `1 << n`; for any other bit number the result is 0. |
| Masks.BitToMaskChecked | kernel/util.h:41-46 | Callable only with a bit number below 8, the condition `kn_assert` enforces; the result is `1 << n`. |
| Masks.BitToMaskCheckedAgrees | kernel/core/kernel-inl.h:138-142 | The unchecked table read of the inline header and the checked one return the same mask as the bounded lookup on every valid bit number. |
| Masks.MasksOverlap | kernel/core/kernel.c:221-223 | The masks of two valid bit numbers share a bit exactly when the numbers are equal. |
| Masks.BitToMaskInjective | kernel/core/kernel.c:219-226 | `bit_to_mask` is injective on 0..7, in both directions. |
| Masks.BitToMaskSingleBit | kernel/util.h:30-39 | Every valid bit number maps to a mask with exactly one bit set. |
| Masks.SetBitAt | kernel/core/kernel-inl.h:85-87 | OR-ing in `bit_to_mask(t)` sets bit t and leaves every other bit as it was. |
| Masks.ClearBitAt | kernel/core/kernel-inl.h:108-110 | AND-ing with `~bit_to_mask(t)` clears bit t and leaves every other bit as it was. |
| Masks.SetClearIdempotent | kernel/core/kernel-inl.h:105-127 | Suspending twice is suspending once; resuming twice is resuming once. |
| Masks.SetClearRoundTrip | kernel/core/kernel-inl.h:105-127 | Clearing a bit that was clear before it was set restores the mask, so resuming undoes a suspend of a thread that was not suspended; setting a bit that was set before it was cleared restores it too. |
| Stacks.TotalStackSize | kernel/core/stacks.h:132-160 | The per-count TOTAL_STACK_SIZE expansions, as intended, equal the sum of the configured sizes for every count 1..8. |
| Stacks.StackBaseClosedForm | kernel/core/stacks.h:182-238 | THREADi_STACK_BASE is RAMEND less the sizes of threads 0..i-1. |
| Stacks.RegionsOrdered | kernel/core/stacks.h:182-238 | A later thread's whole region lies below every earlier thread's region. |
| Stacks.RegionsDisjoint | kernel/core/stacks.h:182-238 | No address belongs to the stack regions of two different threads. |
| Stacks.CanaryLowestInOwnRegion | kernel/core/stacks.h:240-303 | THREADi_CANARY_LOC is the lowest address of thread i's own region and lies in no other thread's region. |
| Stacks.CanariesDistinct | kernel/core/stacks.h:240-303 | Two threads have the same canary location exactly when they are the same thread. |
| Stacks.RegionWithinRam | kernel/core/stacks.h:162-165 | Under the total-size check every region lies strictly above RAMSTART and at or below RAMEND. |
| Stacks.AllRegionsWithinRam | kernel/core/stacks.h:162-165 | A configuration that passes the checks keeps all its regions within RAM. |
| Stacks.InitialFrameAboveCanary | kernel/core/stacks.h:36-50 | Because every size is at least MIN_STACK_SIZE (32) and a new thread uses INITIAL_STACK_USAGE (25) bytes, the creation frame and saved stack pointer lie inside the thread's region, strictly above its canary. |
| Stacks.FrameMissesCanaries | kernel/core/kernel.c:183-197 | The bytes thread creation writes, at offsets 19..25 from the new saved stack pointer, hold no thread's canary. |
| Stacks.ShippedConfigValid | kernel/config.h:58-114 | The shipped eight 64-byte stacks pass every check on any MCU with more than 512 bytes of RAM. |
| Stacks.IsCanaryBelowStep | kernel/core/kernel.c:249-258 | Each pass of the `kn_init` loop adds exactly one thread's canary location to those written so far. |
| BuildChecks.EvalSumAppend | kernel/core/stacks.h:162-165 | Appending `+ THREADk_STACK_SIZE` to an expression that has a value adds that macro's value, 0 when undefined. |
| BuildChecks.EvalSumTokens | kernel/core/stacks.h:132-156 | Sizes 0..n-1 joined by `+` evaluate to the sum of their values. |
| BuildChecks.TokensAsWritten | kernel/core/stacks.h:132-156 | For every thread count from 1 to 8 except 3, the `TOTAL_STACK_SIZE` tokens as written are sizes 0..n-1 joined by `+`. |
| BuildChecks.TotalStackSizeAsWrittenOnlyFailsForThree | kernel/core/stacks.h:132-165 | Derived from the token sequences: `TOTAL_STACK_SIZE` as written has no value exactly when MAX_THREADS is 3. For every other valid count its value is the sum of the configured sizes. |
| BuildChecks.IntendedIsValidConfig | kernel/core/stacks.h:62-165 | The checks as intended accept a set of macros exactly when `Stacks.ValidConfig` holds for the configuration they describe. |
| BuildChecks.AsWrittenVersusIntended | kernel/core/stacks.h:62-165 | The checks as written accept a build exactly when three things hold: the intended checks accept it, MAX_THREADS is not 3, and every unused thread's size macro is defined with at least MIN_STACK_SIZE. |
| BuildChecks.ThreeThreadBuildRejected | kernel/core/stacks.h:136-138 | Three threads, all eight size macros 64, RAM 0x0100..0x08FF: every size check as written passes and the intended checks accept. But `TOTAL_STACK_SIZE` has no value, so the build stops. |
| BuildChecks.OneThreadBuildRejected | kernel/core/stacks.h:81-85 | One thread, `THREAD0_STACK_SIZE` 64 and no other size macro, RAM 0x0100..0x08FF: the intended checks accept. The `#elif` for `THREAD1_STACK_SIZE` reads the undefined macro as 0 and stops the build. |
| BuildChecks.ShippedBuildAccepted | kernel/config.h:58-114 | The shipped macros pass every check as written when RAM holds more than 512 bytes, and they describe `Stacks.ShippedConfig`. |
| Frame.InitialFrame | kernel/core/kernel.c:185-195 | The frame is exactly seven bytes: bootstrap high and low, thread id, argument high and low, entry point high and low, in address order from offset 19. |
| Frame.WordOfHalves | kernel/core/kernel.c:187-188 | Splitting a 16-bit address into `& 0x00FF` and `>> 8` loses nothing: the two bytes rebuild it. |
| Frame.HalvesOfWord | kernel/core/kernel.c:187-188 | Bytes joined into a 16-bit word split back into the same bytes. |
| Frame.DecodeInitialFrame | kernel/core/kernel.c:185-195 | Reading the frame back gives the entry point, argument, thread id and bootstrap address that were stored. |
| Kernel.CreatedSlot | kernel/core/kernel.c:200-204 | The creation mask updates leave slot t enabled, not delayed, and suspended exactly when requested, and leave every other slot's three bits unchanged. |
| Kernel.DisabledSlot | kernel/core/kernel-inl.h:85-87 | Setting t's disabled bit changes slot t's disabled bit only; every other slot keeps its bits. |
| Kernel.SuspendedSlot | kernel/core/kernel-inl.h:105-127 | Setting or clearing t's suspended bit changes slot t's suspended bit only; every other slot keeps its bits. |
| Kernel.KernelState.Init | kernel/core/kernel.c:246-277 | After `kn_init`, every saved stack pointer is its slot's base and every delay counter is 0. The current thread is THREAD0 with mask 0x01. The disabled mask is `~0x01`, so THREAD0 is the only enabled thread. Nothing is suspended or delayed, and the counter is 0. RAM changes only at canary locations, and only with canaries compiled in. |
| Kernel.KernelState.ResetSlots | kernel/core/kernel.c:249-258 | The `kn_init` loop sets every slot's stack pointer and delay counter. With canaries on it writes STACK_CANARY at every canary location, and it writes no other RAM byte. |
| Kernel.KernelState.CurrentThread | kernel/core/kernel-inl.h:31-35 | Returns the running thread, a configured slot whose mask equals the cached current-thread mask. |
| Kernel.KernelState.ThreadEnabled | kernel/core/kernel-inl.h:37-47 | True exactly when t is a configured slot whose disabled bit is clear. |
| Kernel.KernelState.ThreadSuspended | kernel/core/kernel-inl.h:49-62 | True exactly when t is configured, enabled and has its suspended bit set; so a disabled thread is never reported suspended. |
| Kernel.KernelState.ThreadSleeping | kernel/core/kernel-inl.h:64-77 | True exactly when t is configured, enabled and has its delayed bit set. |
| Kernel.KernelState.StoreInitialFrame | kernel/core/kernel.c:185-195 | The seven stores put the initial frame at offsets 19..25 from the stack pointer and write no other RAM byte. |
| Kernel.KernelState.WriteInitialFrame | kernel/core/kernel.c:183-195 | The slot's saved stack pointer becomes its base less 25, the frame is written there, no other byte or saved pointer changes, and every canary byte keeps its value. |
| Kernel.KernelState.CreateThreadImpl | kernel/core/kernel.c:170-213 | A null entry point returns false and changes nothing. On success the frame is written, the masks are updated (see `Kernel.CreatedSlot`) and only slot t's delay counter is zeroed. Re-creating the running thread enters the scheduler; otherwise the call returns true. |
| Kernel.KernelState.MarkCreated | kernel/core/kernel.c:200-204 | Clears t's disabled and delayed bits and sets or clears its suspended bit as requested. |
| Kernel.KernelState.Disable | kernel/core/kernel-inl.h:79-93 | For a configured slot, sets its disabled bit, after which it is neither enabled, suspended nor sleeping. It enters the scheduler exactly when that slot is running. Any other id changes nothing. |
| Kernel.KernelState.DisableSelf | kernel/core/kernel-inl.h:95-103 | Sets the running thread's disabled bit through the cached mask, which equals its `bit_to_mask`, and enters the scheduler. |
| Kernel.KernelState.Resume | kernel/core/kernel-inl.h:105-112 | For a configured slot, clears its suspended bit only. It does not change whether the slot is enabled or sleeping, and an out-of-range id is a no-op. |
| Kernel.KernelState.Suspend | kernel/core/kernel-inl.h:114-127 | For a configured slot, sets its suspended bit only, so it is reported suspended exactly when it is enabled. It yields exactly when that slot is running. Any other id changes nothing. |
| Kernel.KernelState.SuspendSelf | kernel/core/kernel-inl.h:129-136 | Sets the running thread's suspended bit through the cached mask, then yields. |
| EarlyKernel.CreateThread | kernel/kernel.c:431-462 | Succeeds exactly when t is a configured slot and the entry point is non-null; on failure nothing changes. On success the stack pointer and frame are written as in the core, and no mask or delay counter changes. |

## Left out

- Context switching: `kn_scheduler`, `kn_yield` and `kn_thread_bootstrap` are assembly. Their effect is only the `Exit` marker, and no dispatch order is modelled.
- Timing: `kn_sleep`, `kn_sleep_long` and `kn_millis` are not part of this model. Neither is the timer interrupt that updates `kn_delay_counter` and `kn_system_counter`. The counter is only reset, so it is an unbounded `nat` rather than a `uint32_t`.
- Stack-overflow detection and the `kn_stack_overflow` and `kn_assertion_failure` hooks. `kn_assert` in the utility `bit_to_mask` is a precondition.
- Hardware: the writes of SP and SMCR in `kn_init`, the `.init8` and `naked` placement, and `volatile` and interrupt concurrency. Program-memory reads are plain reads of constant tables.
- `kn_bitmasks`, the table the inline-header and utility `bit_to_mask` read, is not part of this model. It is taken to hold the same eight single-bit masks as the table in kernel/core/kernel.c.
- `kn_create_thread` of the core, the wrapper that calls `kn_create_thread_impl`, and `kn_replace_self`: their definitions are not part of this model.
- `BuildChecks` takes MAX_THREADS as always defined and STACK_CANARY as a constant, so the `#error` checks for an undefined MAX_THREADS and for USE_STACK_CANARY without STACK_CANARY are not modelled. `#if` arithmetic is on unbounded naturals, not the preprocessor's `intmax_t`.
- Function pointers and `void*` arguments are 16-bit values. Casting them to integers is not modelled.
- Kernel.KernelState.CreateThreadImpl: requires t below MAX_THREADS. The function has no range check itself and indexes `kn_stack[t_id]`, and its interface requires a valid thread identifier (kernel/kernel.h:82).
- Masks.BitToMaskChecked: the unchecked read in kernel/core/kernel-inl.h:138-142 is given the same precondition. Reading past the table is undefined behaviour and is not modelled.
- Kernel.KernelState.Disable, Kernel.KernelState.Resume, Kernel.KernelState.Suspend, Kernel.KernelState.DisableSelf, Kernel.KernelState.SuspendSelf, Kernel.KernelState.CreateThreadImpl: each ensures states the new masks as `SetBit` or `ClearBit` of the old ones, and the target slot's new bits. That every other slot keeps its bits follows from those equations and the lemmas `Kernel.DisabledSlot`, `Kernel.SuspendedSlot` and `Kernel.CreatedSlot`. It is not repeated in each method's ensures.

## Findings

| source | as written | input that shows it | evidently intended | confidence | as-written member | corrected member |
|---|---|---|---|---|---|---|
| kernel/core/stacks.h:136-138 (the same text at kernel/kernel.c:145-147) | For MAX_THREADS == 3, TOTAL_STACK_SIZE expands to `(THREAD0_STACK_SIZE + THREAD1_STACK_SIZE THREAD2_STACK_SIZE)`, with no `+` before the third size. The `#if TOTAL_STACK_SIZE >= TOTAL_RAM_SIZE` check then cannot be evaluated and the build stops. | MAX_THREADS 3; THREAD0..THREAD7_STACK_SIZE all defined as 64, since the size checks as written need THREAD3..7 too; RAM 0x0100..0x08FF | the sum of the three sizes, as for every other thread count | high; not executed | BuildChecks.ThreeThreadBuildRejected (on BuildChecks.TotalStackSizeTokens) | BuildChecks.IntendedIsValidConfig (Stacks.TotalStackSize in Stacks.ValidConfig) |
| kernel/core/stacks.h:81-121 (the same text at kernel/kernel.c:90-130) | The `#elif THREADk_STACK_SIZE < MIN_STACK_SIZE` branch for k = 1..7 is evaluated whatever MAX_THREADS is. An undefined macro counts as 0 there, so the build stops unless all eight size macros are defined with at least 32, although kernel/config.h:78-80 asks only for one macro per configured thread. | MAX_THREADS 1; THREAD0_STACK_SIZE 64 and no other size macro; RAM 0x0100..0x08FF | check only the sizes of threads below MAX_THREADS | high; not executed | BuildChecks.OneThreadBuildRejected (on BuildChecks.SizeCheckAsWritten) | BuildChecks.IntendedIsValidConfig (Stacks.SizesAtLeastMinimum in Stacks.ValidConfig) |
