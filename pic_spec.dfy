/** The register-level protocol of the cascaded pair of 8259A interrupt
    controllers driven by platform/qemu-mips/intc.c, as pure functions.

    A `Chips` value is everything the driver can change: its cached copy of
    the two interrupt mask registers (`irqMask[0]`, `irqMask[1]`), the two
    hardware mask registers themselves (the chips' data ports, modelled as
    plain byte registers), and the trace of what happened on the bus, in
    order. The class `Intc.Pic` is proved to change its state exactly as the
    functions here say. */
module PicSpec {

  /** An ISA I/O port number. */
  type Port = p: int | 0 <= p < 0x1_0000

  /** Command and data ports of the master (PIC1) and slave (PIC2) chip. */
  const PIC1: Port := 0x20
  const PIC2: Port := 0xA0
  const PIC1_DATA: Port := PIC1 + 1
  const PIC2_DATA: Port := PIC2 + 1

  /** Initialisation command words: ICW1 (edge triggered, cascade, ICW4
      follows) and ICW4 (8086 mode); the ICW3 wiring values: the slave hangs
      on master line 2, and has cascade identity 2. */
  const ICW1: bv8 := 0x11
  const ICW4_MASTER: bv8 := 0x05
  const ICW4: bv8 := 0x01
  const ICW3_MASTER: bv8 := 4
  const ICW3_SLAVE: bv8 := 2

  /** OCW2 non-specific end-of-interrupt command. */
  const EOI: bv8 := 0x20

  /** First vector of each chip, and the master line the slave is wired to. */
  const PIC1_BASE: nat := 0
  const PIC2_BASE: nat := 8
  const INT_PIC2: nat := 2

  /** Opaque identities of a handler callback and of its argument. */
  type HandlerId = nat
  type Arg = nat

  /** What a handler tells the kernel (`enum handler_return`). */
  datatype HandlerReturn = NoReschedule | Reschedule

  /** One slot of the handler table; a null function pointer is `None`. */
  datatype HandlerEntry = HandlerEntry(handler: Option<HandlerId>, arg: Arg)

  datatype Option<T> = None | Some(value: T)

  /** Result codes of mask_interrupt / unmask_interrupt. */
  datatype Status = NoError | ErrInvalidArgs

  /** What the trace records: a byte written to a port, or a call of a
      registered handler with its argument. */
  datatype Event = PortWrite(port: Port, value: bv8) | HandlerCall(handler: HandlerId, arg: Arg)

  datatype Chips = Chips(cacheMaster: bv8, cacheSlave: bv8, imrMaster: bv8, imrSlave: bv8, trace: seq<Event>)

  /** The static table as the C runtime leaves it: every slot null. */
  const EMPTY_ENTRY := HandlerEntry(None, 0)

  /** The mask bit of line `line` of one chip, the value of `1 << line`
      (spelled out per line so that proofs need not shift by a variable
      amount; PicProperties.LineBitIsShift shows the two agree). */
  function LineBit(line: nat): (bit: bv8)
    requires line < 8
  {
    match line
    case 0 => 0x01
    case 1 => 0x02
    case 2 => 0x04
    case 3 => 0x08
    case 4 => 0x10
    case 5 => 0x20
    case 6 => 0x40
    case _ => 0x80
  }

  /** The master bit of the line the slave is cascaded on. */
  const CASCADE_BIT: bv8 := LineBit(INT_PIC2 - PIC1_BASE)

  /** A set bit in a mask register means "line disabled". */
  predicate IsMasked(mask: bv8, line: nat)
    requires line < 8
  {
    mask & LineBit(line) != 0
  }

  /** The cached masks agree with the hardware registers. */
  predicate Coherent(s: Chips)
  {
    s.cacheMaster == s.imrMaster && s.cacheSlave == s.imrSlave
  }

  /** `bit` set (masked) or cleared (unmasked) in `mask`. */
  function WithBit(mask: bv8, bit: bv8, masked: bool): (r: bv8)
  {
    if masked then mask | bit else mask & !bit
  }

  /** One read-modify-write-reread of the master mask register
      (intc.c:98-101, 103-106, 128-131, 133-136): the value read from the
      hardware gets `bit` changed, is written to the data port and is read
      back into the cache. */
  function RewriteMaster(s: Chips, bit: bv8, masked: bool): (r: Chips)
  {
    var v := WithBit(s.imrMaster, bit, masked);
    s.(cacheMaster := v, imrMaster := v, trace := s.trace + [PortWrite(PIC1_DATA, v)])
  }

  /** The same on the slave (intc.c:114-117, 119-122). */
  function RewriteSlave(s: Chips, bit: bv8, masked: bool): (r: Chips)
  {
    var v := WithBit(s.imrSlave, bit, masked);
    s.(cacheSlave := v, imrSlave := v, trace := s.trace + [PortWrite(PIC2_DATA, v)])
  }

  /** The initialisation handshake sent by `map(pic1, pic2)`, in order:
      ICW1 to both chips, ICW2 (the vector bases, truncated to a byte), ICW3,
      ICW4, then "all lines masked" to both data ports. */
  function MapWrites(pic1: bv32, pic2: bv32): (w: seq<Event>)
  {
    [ PortWrite(PIC1, ICW1), PortWrite(PIC2, ICW1),
      PortWrite(PIC1_DATA, (pic1 & 0xFF) as bv8), PortWrite(PIC2_DATA, (pic2 & 0xFF) as bv8),
      PortWrite(PIC1_DATA, ICW3_MASTER), PortWrite(PIC2_DATA, ICW3_SLAVE),
      PortWrite(PIC1_DATA, ICW4_MASTER), PortWrite(PIC2_DATA, ICW4),
      PortWrite(PIC1_DATA, 0xFF), PortWrite(PIC2_DATA, 0xFF) ]
  }

  /** `map` (intc.c:64-88). */
  function Map(s: Chips, pic1: bv32, pic2: bv32): (r: Chips)
  {
    Chips(0xFF, 0xFF, 0xFF, 0xFF, s.trace + MapWrites(pic1, pic2))
  }

  /** The cascade re-evaluation after a slave-side change (intc.c:125-137),
      as the code has it: the second test is `irqMask[1] == 0`. */
  function Cascade(s: Chips): (r: Chips)
  {
    if s.cacheSlave != 0xFF && s.cacheMaster & CASCADE_BIT != 0 then
      RewriteMaster(s, CASCADE_BIT, false)
    else if s.cacheSlave == 0 && s.cacheMaster & CASCADE_BIT == 0 then
      RewriteMaster(s, CASCADE_BIT, true)
    else
      s
  }

  /** One line's mask bit brought to the requested state on the master
      (intc.c:95-107): the register is rewritten only when the cached bit
      differs from the request. */
  function EnableOnMaster(s: Chips, line: nat, enable: bool): (r: Chips)
    requires line < 8
  {
    var bit := LineBit(line);
    if enable && s.cacheMaster & bit != 0 then RewriteMaster(s, bit, false)
    else if !enable && s.cacheMaster & bit == 0 then RewriteMaster(s, bit, true)
    else s
  }

  /** The same on the slave (intc.c:111-123). */
  function EnableOnSlave(s: Chips, line: nat, enable: bool): (r: Chips)
    requires line < 8
  {
    var bit := LineBit(line);
    if enable && s.cacheSlave & bit != 0 then RewriteSlave(s, bit, false)
    else if !enable && s.cacheSlave & bit == 0 then RewriteSlave(s, bit, true)
    else s
  }

  /** `enable(vector, enable)` (intc.c:90-141): vectors 0..7 are master
      lines, 8..15 slave lines followed by the cascade re-evaluation, and
      every other vector is ignored. */
  function Enable(s: Chips, vector: nat, enable: bool): (r: Chips)
  {
    if PIC1_BASE <= vector < PIC1_BASE + 8 then
      EnableOnMaster(s, vector - PIC1_BASE, enable)
    else if PIC2_BASE <= vector < PIC2_BASE + 8 then
      Cascade(EnableOnSlave(s, vector - PIC2_BASE, enable))
    else
      s
  }

  /** The port writes of `issueEOI(vector)` (intc.c:143-151). */
  function EoiWrites(vector: nat): (w: seq<Event>)
  {
    if PIC1_BASE <= vector <= PIC1_BASE + 7 then [PortWrite(PIC1, EOI)]
    else if PIC2_BASE <= vector <= PIC2_BASE + 7 then [PortWrite(PIC2, EOI), PortWrite(PIC1, EOI)]
    else []
  }

  function IssueEoi(s: Chips, vector: nat): (r: Chips)
  {
    s.(trace := s.trace + EoiWrites(vector))
  }

  /** `platform_mask_irqs` (intc.c:177-187): both registers are read into
      the cache, overwritten with 0xFF and read back. */
  function MaskAll(s: Chips): (r: Chips)
  {
    Chips(0xFF, 0xFF, 0xFF, 0xFF, s.trace + [PortWrite(PIC1_DATA, 0xFF), PortWrite(PIC2_DATA, 0xFF)])
  }

  /** `mask_interrupt` / `unmask_interrupt` (intc.c:159-174, 189-204): a
      vector outside the handler table is refused and changes nothing. */
  function SetMasked(s: Chips, vectors: nat, vector: nat, masked: bool): (r: (Status, Chips))
  {
    if vector >= vectors then (ErrInvalidArgs, s)
    else (NoError, Enable(s, vector, !masked))
  }

  /** The handler call `platform_irq` makes for a table slot, if any. */
  function Invocation(e: HandlerEntry): (w: seq<Event>)
  {
    if e.handler.Some? then [HandlerCall(e.handler.value, e.arg)] else []
  }

  /** What `platform_irq` returns for a table slot (intc.c:213-216); `call`
      stands for the handler bodies, which are outside the model. */
  function Dispatch(e: HandlerEntry, call: (HandlerId, Arg) -> HandlerReturn): (r: HandlerReturn)
  {
    if e.handler.Some? then call(e.handler.value, e.arg) else NoReschedule
  }

  /** One lock-guarded controller call, for reasoning about sequences. */
  datatype Op =
    | Init
    | Mask(vector: nat)
    | Unmask(vector: nat)
    | MaskAllOp
    | Eoi(vector: nat)

  function Step(s: Chips, vectors: nat, op: Op): (r: Chips)
  {
    match op
    case Init => Map(s, PIC1_BASE as bv32, PIC2_BASE as bv32)
    case Mask(v) => SetMasked(s, vectors, v, true).1
    case Unmask(v) => SetMasked(s, vectors, v, false).1
    case MaskAllOp => MaskAll(s)
    case Eoi(v) => IssueEoi(s, v)
  }

  function Run(s: Chips, vectors: nat, ops: seq<Op>): (r: Chips)
    decreases |ops|
  {
    if ops == [] then s else Run(Step(s, vectors, ops[0]), vectors, ops[1..])
  }
}
