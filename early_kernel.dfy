/**
 * The earlier kernel implementation file, which predates the split into
 * kernel.c and kernel-inl.h. Its kn_init and bit_to_mask behave as the core's
 * do (Kernel.KernelState.Init, Masks.BitToMask); its kn_create_thread differs:
 * it rejects an out-of-range id itself, writes the same initial frame, and
 * leaves every state mask and delay counter alone.
 */
module EarlyKernel {
  import opened Masks
  import opened Stacks
  import opened Frame
  import opened Kernel

  /**
   * kn_create_thread of the earlier implementation: an id that is not a
   * configured slot, or a null entry point, fails and changes nothing.
   * Otherwise slot t's saved stack pointer and initial frame are written as
   * by thread creation in the core; the disabled, suspended and delayed masks
   * and the delay counters are not touched, so `suspend` has no effect, and
   * the call returns true even when t is the running thread (the scheduler
   * call there is an empty placeholder).
   */
  method CreateThread(k: KernelState, t: Uint8, entry: Uint16, suspend: bool, arg: Uint16) returns (ok: bool)
    requires k.Valid()
    modifies k.stack, k.ram
    ensures k.Valid()
    ensures ok <==> t < k.cfg.MaxThreads() && entry != 0
    ensures !ok ==> k.stack[..] == old(k.stack[..]) && k.ram[..] == old(k.ram[..])
    ensures ok ==>
      var sp := InitialStackPointer(k.cfg, t);
      k.stack[..] == old(k.stack[..])[t := sp] &&
      0 <= sp + FRAME_FIRST && sp + FRAME_LAST < k.ram.Length &&
      (forall i :: 0 <= i < FRAME_BYTES ==> k.ram[sp + FRAME_FIRST + i] == InitialFrame(t, entry, arg, k.bootstrap)[i]) &&
      (forall a :: 0 <= a < k.ram.Length && !(sp + FRAME_FIRST <= a <= sp + FRAME_LAST) ==> k.ram[a] == old(k.ram[a]))
    ensures forall u :: 0 <= u < MASK_BITS ==> k.Slot(u) == old(k.Slot(u))
    ensures k.delayCounter[..] == old(k.delayCounter[..])
  {
    if t >= k.cfg.MaxThreads() || entry == 0 {
      return false;
    }
    k.WriteInitialFrame(t, entry, arg);
    ok := true;
  }
}
