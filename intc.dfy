/** The interrupt controller driver of platform/qemu-mips/intc.c: the
    cached masks `irqMask[2]`, the handler table `int_handler_table` and the
    public calls over them. Every method is proved to change the state as
    the matching function of PicSpec says; PicProperties proves what those
    functions guarantee. */
module Intc {
  import opened PicSpec

  /** The ISA side of the driver: the two interrupt mask registers behind
      the chips' data ports, kept as plain byte registers, and the trace of
      port writes and handler calls in the order they happen. */
  class Board {
    var imrMaster: bv8
    var imrSlave: bv8
    var trace: seq<Event>

    constructor(master: bv8, slave: bv8)
      ensures imrMaster == master && imrSlave == slave && trace == []
    {
      imrMaster, imrSlave, trace := master, slave, [];
    }

    /** `isa_write_8`: a write to a data port replaces that mask register;
        a write to a command port only shows in the trace. */
    method Write8(port: Port, value: bv8)
      modifies this
      ensures trace == old(trace) + [PortWrite(port, value)]
      ensures imrMaster == (if port == PIC1_DATA then value else old(imrMaster))
      ensures imrSlave == (if port == PIC2_DATA then value else old(imrSlave))
    {
      trace := trace + [PortWrite(port, value)];
      if port == PIC1_DATA {
        imrMaster := value;
      } else if port == PIC2_DATA {
        imrSlave := value;
      }
    }

    /** `isa_read_8` of a data port: the mask register behind it. */
    method Read8(port: Port) returns (value: bv8)
      requires port == PIC1_DATA || port == PIC2_DATA
      ensures value == if port == PIC1_DATA then imrMaster else imrSlave
    {
      value := if port == PIC1_DATA then imrMaster else imrSlave;
    }

    /** A call through a registered handler pointer; `call` gives its
        answer. The call is recorded in the trace. */
    method Call(handler: HandlerId, arg: Arg, call: (HandlerId, Arg) -> HandlerReturn) returns (ret: HandlerReturn)
      modifies this
      ensures ret == call(handler, arg)
      ensures trace == old(trace) + [HandlerCall(handler, arg)]
      ensures imrMaster == old(imrMaster) && imrSlave == old(imrSlave)
    {
      ret := call(handler, arg);
      trace := trace + [HandlerCall(handler, arg)];
    }
  }

  /** The driver's global state. `vectors` is `INT_VECTORS`, the size of the
      handler table. */
  class Pic {
    const vectors: nat
    const irqMask: array<bv8>
    const handlerTable: array<HandlerEntry>
    const board: Board

    ghost predicate Valid()
      reads this
    {
      irqMask.Length == 2 && handlerTable.Length == vectors
    }

    /** The controller state as PicSpec sees it. */
    ghost function State(): Chips
      reads this, irqMask, board
      requires Valid()
    {
      Chips(irqMask[0], irqMask[1], board.imrMaster, board.imrSlave, board.trace)
    }

    /** The driver as the C runtime leaves it before any call: a zeroed
        mask cache and a table of null handlers (intc.c:54, 59). */
    constructor(vectors: nat, board: Board)
      ensures Valid() && fresh(irqMask) && fresh(handlerTable)
      ensures this.vectors == vectors && this.board == board
      ensures irqMask[0] == 0 && irqMask[1] == 0
      ensures forall i :: 0 <= i < vectors ==> handlerTable[i] == EMPTY_ENTRY
    {
      this.vectors := vectors;
      this.board := board;
      irqMask := new bv8[2](_ => 0);
      handlerTable := new HandlerEntry[vectors](_ => EMPTY_ENTRY);
    }

    /** `map` (intc.c:64-88): the ICW1..ICW4 handshake to both chips, then
        every line masked, in hardware and in the cache. */
    method Map(pic1: bv32, pic2: bv32)
      requires Valid()
      modifies irqMask, board
      ensures State() == PicSpec.Map(old(State()), pic1, pic2)
    {
      board.Write8(PIC1, ICW1);
      board.Write8(PIC2, ICW1);

      board.Write8(PIC1_DATA, (pic1 & 0xFF) as bv8);
      board.Write8(PIC2_DATA, (pic2 & 0xFF) as bv8);

      board.Write8(PIC1_DATA, ICW3_MASTER);
      board.Write8(PIC2_DATA, ICW3_SLAVE);

      board.Write8(PIC1_DATA, ICW4_MASTER);
      board.Write8(PIC2_DATA, ICW4);

      board.Write8(PIC1_DATA, 0xFF);
      board.Write8(PIC2_DATA, 0xFF);

      irqMask[0] := 0xFF;
      irqMask[1] := 0xFF;
    }

    /** Read the master mask register, change `bit`, write it back and read
        it again into the cache (intc.c:98-101 and its three copies). */
    method RewriteMasterMask(bit: bv8, masked: bool)
      requires Valid()
      modifies irqMask, board
      ensures State() == RewriteMaster(old(State()), bit, masked)
    {
      ghost var before := State();
      var v := board.Read8(PIC1_DATA);
      irqMask[0] := v;
      irqMask[0] := WithBit(irqMask[0], bit, masked);
      board.Write8(PIC1_DATA, irqMask[0]);
      v := board.Read8(PIC1_DATA);
      irqMask[0] := v;
      assert State() == RewriteMaster(before, bit, masked);
    }

    /** The same on the slave (intc.c:114-117, 119-122). */
    method RewriteSlaveMask(bit: bv8, masked: bool)
      requires Valid()
      modifies irqMask, board
      ensures State() == RewriteSlave(old(State()), bit, masked)
    {
      ghost var before := State();
      var v := board.Read8(PIC2_DATA);
      irqMask[1] := v;
      irqMask[1] := WithBit(irqMask[1], bit, masked);
      board.Write8(PIC2_DATA, irqMask[1]);
      v := board.Read8(PIC2_DATA);
      irqMask[1] := v;
      assert State() == RewriteSlave(before, bit, masked);
    }

    /** One master line brought to the requested state; the register is
        touched only when the cached bit differs (intc.c:95-107). */
    method EnableMasterLine(line: nat, enable: bool)
      requires Valid() && line < 8
      modifies irqMask, board
      ensures State() == EnableOnMaster(old(State()), line, enable)
    {
      ghost var before := State();
      var bit := LineBit(line);
      if enable && irqMask[0] & bit != 0 {
        RewriteMasterMask(bit, false);
      } else if !enable && irqMask[0] & bit == 0 {
        RewriteMasterMask(bit, true);
      } else {
        assert EnableOnMaster(before, line, enable) == before;
      }
    }

    /** The same on the slave (intc.c:111-123). */
    method EnableSlaveLine(line: nat, enable: bool)
      requires Valid() && line < 8
      modifies irqMask, board
      ensures State() == EnableOnSlave(old(State()), line, enable)
    {
      ghost var before := State();
      var bit := LineBit(line);
      if enable && irqMask[1] & bit != 0 {
        RewriteSlaveMask(bit, false);
      } else if !enable && irqMask[1] & bit == 0 {
        RewriteSlaveMask(bit, true);
      } else {
        assert EnableOnSlave(before, line, enable) == before;
      }
    }

    /** The cascade re-evaluation (intc.c:125-137), as written. */
    method ReevaluateCascade()
      requires Valid()
      modifies irqMask, board
      ensures State() == Cascade(old(State()))
    {
      var bit := CASCADE_BIT;
      if irqMask[1] != 0xFF && irqMask[0] & bit != 0 {
        RewriteMasterMask(bit, false);
      } else if irqMask[1] == 0 && irqMask[0] & bit == 0 {
        RewriteMasterMask(bit, true);
      }
    }

    /** `enable(vector, enable)` (intc.c:90-141). */
    method Enable(vector: nat, enable: bool)
      requires Valid()
      modifies irqMask, board
      ensures State() == PicSpec.Enable(old(State()), vector, enable)
    {
      if PIC1_BASE <= vector < PIC1_BASE + 8 {
        EnableMasterLine(vector - PIC1_BASE, enable);
      } else if PIC2_BASE <= vector < PIC2_BASE + 8 {
        EnableSlaveLine(vector - PIC2_BASE, enable);
        ReevaluateCascade();
      }
    }

    /** `issueEOI` (intc.c:143-151). */
    method IssueEoi(vector: nat)
      requires Valid()
      modifies board
      ensures State() == PicSpec.IssueEoi(old(State()), vector)
    {
      if PIC1_BASE <= vector <= PIC1_BASE + 7 {
        board.Write8(PIC1, EOI);
      } else if PIC2_BASE <= vector <= PIC2_BASE + 7 {
        board.Write8(PIC2, EOI);
        board.Write8(PIC1, EOI);
      }
    }

    /** `platform_init_interrupts` (intc.c:153-157): the vector bases 0 and
        8, so that the handshake is exactly the ten writes listed. */
    method PlatformInitInterrupts()
      requires Valid()
      modifies irqMask, board
      ensures State() == PicSpec.Map(old(State()), PIC1_BASE as bv32, PIC2_BASE as bv32)
      ensures irqMask[0] == 0xFF && irqMask[1] == 0xFF
      ensures board.imrMaster == 0xFF && board.imrSlave == 0xFF
      ensures board.trace == old(board.trace) + [
        PortWrite(0x20, 0x11), PortWrite(0xA0, 0x11),
        PortWrite(0x21, 0), PortWrite(0xA1, 8),
        PortWrite(0x21, 4), PortWrite(0xA1, 2),
        PortWrite(0x21, 5), PortWrite(0xA1, 1),
        PortWrite(0x21, 0xFF), PortWrite(0xA1, 0xFF)]
    {
      Map(PIC1_BASE as bv32, PIC2_BASE as bv32);
    }

    /** `mask_interrupt` (intc.c:159-174). */
    method MaskInterrupt(vector: nat) returns (status: Status)
      requires Valid()
      modifies irqMask, board
      ensures (status, State()) == SetMasked(old(State()), vectors, vector, true)
    {
      if vector >= vectors {
        return ErrInvalidArgs;
      }
      Enable(vector, false);
      return NoError;
    }

    /** `platform_mask_irqs` (intc.c:177-187). */
    method PlatformMaskIrqs()
      requires Valid()
      modifies irqMask, board
      ensures State() == MaskAll(old(State()))
    {
      var v := board.Read8(PIC1_DATA);
      irqMask[0] := v;
      v := board.Read8(PIC2_DATA);
      irqMask[1] := v;

      board.Write8(PIC1_DATA, 0xFF);
      board.Write8(PIC2_DATA, 0xFF);

      v := board.Read8(PIC1_DATA);
      irqMask[0] := v;
      v := board.Read8(PIC2_DATA);
      irqMask[1] := v;
    }

    /** `unmask_interrupt` (intc.c:189-204). */
    method UnmaskInterrupt(vector: nat) returns (status: Status)
      requires Valid()
      modifies irqMask, board
      ensures (status, State()) == SetMasked(old(State()), vectors, vector, false)
    {
      if vector >= vectors {
        return ErrInvalidArgs;
      }
      Enable(vector, true);
      return NoError;
    }

    /** `platform_irq` (intc.c:206-222): call the slot's handler, if there
        is one, then acknowledge the vector; the masks are left alone. */
    method PlatformIrq(vector: nat, call: (HandlerId, Arg) -> HandlerReturn) returns (ret: HandlerReturn)
      requires Valid() && vector < vectors
      modifies board
      ensures ret == Dispatch(handlerTable[vector], call)
      ensures State() == old(State()).(trace := old(State()).trace + Invocation(handlerTable[vector]) + EoiWrites(vector))
    {
      ret := NoReschedule;

      var entry := handlerTable[vector];
      if entry.handler.Some? {
        ret := board.Call(entry.handler.value, entry.arg, call);
      }

      IssueEoi(vector);
    }

    /** `register_int_handler` (intc.c:224-236): a vector outside the table
        is a panic, so callers must pass one inside it. */
    method RegisterIntHandler(vector: nat, handler: Option<HandlerId>, arg: Arg)
      requires Valid() && vector < vectors
      modifies handlerTable
      ensures handlerTable[..] == old(handlerTable[..])[vector := HandlerEntry(handler, arg)]
    {
      handlerTable[vector] := HandlerEntry(handler, arg);
    }
  }
}
