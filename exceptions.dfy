/** The MIPS trap entry points of arch/mips/exceptions.c: the general
    exception handler, which lets a system call through and stops on
    anything else, and the interrupt handler, which routes CPU interrupt
    line 2 to the controller driver of module Intc. */
module MipsExceptions {
  import opened PicSpec
  import Intc

  /** ExcCode of a system call exception (`Sys`, MIPS32 Privileged Resource
      Architecture, Cause register). */
  const EXC_SYS: bv32 := 8

  /** The CPU interrupt line the QEMU board wires the 8259 pair to, and the
      line of the CPU's built-in timer. */
  const IRQ_PLATFORM: nat := 2
  const IRQ_TIMER: nat := 7

  /** The part of `struct mips_iframe` the handlers look at: Status, Cause
      and EPC as saved at trap time. */
  class IFrame {
    var status: bv32
    var cause: bv32
    var epc: bv32

    constructor(status: bv32, cause: bv32, epc: bv32)
      ensures this.status == status && this.cause == cause && this.epc == epc
    {
      this.status, this.cause, this.epc := status, cause, epc;
    }
  }

  /** The ExcCode field of Cause, bits 6..2 (`BITS_SHIFT(cause, 6, 2)`,
      exceptions.c:36): a 5-bit code that, shifted back into place, is
      exactly what those bits of `cause` hold. */
  function ExcCode(cause: bv32): (code: bv32)
    ensures code < 32
    ensures code << 2 == cause & 0x7C
  {
    (cause >> 2) & 0x1F
  }

  /** How `mips_gen_exception` ends: it returns to the trap code, or spins
      forever in `for (;;);`. */
  datatype Outcome = Returned | Halted

  /** `mips_gen_exception` (exceptions.c:34-47): a system call resumes at
      the instruction after the `syscall` (EPC + 4, wrapping at 2^32);
      every other code stops for good and leaves the frame as it was. */
  method GenException(frame: IFrame) returns (outcome: Outcome)
    modifies frame
    ensures outcome == (if ExcCode(old(frame.cause)) == EXC_SYS then Returned else Halted)
    ensures frame.epc == if outcome == Returned then old(frame.epc) + 4 else old(frame.epc)
    ensures frame.status == old(frame.status) && frame.cause == old(frame.cause)
  {
    var excode := ExcCode(frame.cause);
    if excode == EXC_SYS {
      frame.epc := frame.epc + 4;
      outcome := Returned;
    } else {
      outcome := Halted;
    }
  }

  /** `mips_irq` (exceptions.c:49-65): line 2 goes to `platform_irq` with
      vector 2, every other line (the timer on line 7 included) is ignored;
      the result asks for a preemption exactly when it is not
      "no reschedule". */
  method Irq(pic: Intc.Pic, num: nat, call: (HandlerId, Arg) -> HandlerReturn) returns (preempt: bool)
    requires pic.Valid() && (num == IRQ_PLATFORM ==> IRQ_PLATFORM < pic.vectors)
    modifies pic.board
    ensures num != IRQ_PLATFORM ==> !preempt && pic.State() == old(pic.State())
    ensures num == IRQ_PLATFORM ==>
      && (preempt <==> Dispatch(pic.handlerTable[IRQ_PLATFORM], call) != NoReschedule)
      && pic.State() == old(pic.State()).(trace := old(pic.State()).trace
                          + Invocation(pic.handlerTable[IRQ_PLATFORM]) + EoiWrites(IRQ_PLATFORM))
  {
    var ret := NoReschedule;
    if num == IRQ_PLATFORM {
      ret := pic.PlatformIrq(num, call);
    } else if num == IRQ_TIMER {
      // the builtin timer call is commented out at exceptions.c:58-60
    }

    preempt := ret != NoReschedule;
  }

  /** Line 2 delivered with a handler `h` registered for vector 2 under
      argument `a`: `h` runs once with `a`, then the master alone gets one
      EOI, and a preemption is asked for exactly when `h` asks for one. */
  lemma LineTwoEndToEnd(e: HandlerEntry, h: HandlerId, a: Arg, call: (HandlerId, Arg) -> HandlerReturn)
    requires e == HandlerEntry(Some(h), a)
    ensures Invocation(e) + EoiWrites(IRQ_PLATFORM) == [HandlerCall(h, a), PortWrite(PIC1, EOI)]
    ensures (Dispatch(e, call) != NoReschedule) == (call(h, a) == Reschedule)
  {
  }

  /** A whole run on a fresh board: bring the controller up, register `h`
      with `a` at vector 2, unmask vector 2, take an interrupt on CPU line 2.
      The trace is the handshake, the unmask of master line 2, the call of
      `h` with `a`, and one master EOI, in that order. */
  method DeliverLineTwo(h: HandlerId, a: Arg, call: (HandlerId, Arg) -> HandlerReturn)
    returns (preempt: bool, trace: seq<Event>)
    ensures preempt == (call(h, a) == Reschedule)
    ensures trace == MapWrites(PIC1_BASE as bv32, PIC2_BASE as bv32)
                     + [PortWrite(PIC1_DATA, 0xFB), HandlerCall(h, a), PortWrite(PIC1, EOI)]
  {
    var board := new Intc.Board(0, 0);
    var pic := new Intc.Pic(16, board);
    pic.PlatformInitInterrupts();
    pic.RegisterIntHandler(2, Some(h), a);
    var status := pic.UnmaskInterrupt(2);
    assert pic.State().cacheMaster == 0xFB;
    preempt := Irq(pic, 2, call);
    trace := board.trace;
  }
}
